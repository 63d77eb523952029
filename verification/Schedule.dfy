/**
 * Publishing now against scheduling and flipping later: when the two leave the same store.
 * The scheduled publish happens at `early`, the flip and the immediate publish at `now`.
 */
module Schedule {
  import opened Types
  import opened StateMachine
  import opened Versions
  import opened Lifecycle
  import opened Runs
  import opened Invariants

  /** The same store with another publication instant stamped on v and on its rollout rows. */
  function Restamped(db: Db, v: nat, at: Time): Db {
    db.(versions := map w | w in db.versions ::
          if w == v then db.versions[w].(publishedAt := Some(at)) else db.versions[w],
        states := map k | k in db.states ::
          if k.version == v && db.states[k].notificationDueAt.Some?
          then db.states[k].(notificationDueAt := Some(at)) else db.states[k])
  }

  ghost function Immediately(db: Db, v: nat, now: Time): Db
    requires PublishError(db, v).None?
  {
    PublishTo(db, v, now)
  }

  /** Publish ahead of time, then run the activation for the document once the version is valid. */
  ghost function Scheduled(db: Db, v: nat, early: Time, now: Time): Db
    requires PublishError(db, v).None?
  {
    Flip(PublishTo(db, v, early), {db.versions[v].document}, now)
  }

  /** Every other published version of the document is older than v would be. */
  ghost predicate NewestOfAll(db: Db, v: nat, early: Time)
    requires v in db.versions
  {
    forall w | w in Siblings(db.versions, v) :: Newer(db.versions[v := Stamp(db.versions[v], early)], v, w)
  }

  /** Every customer a sibling hard-blocks still holds the role of the document. */
  ghost predicate BlockedHoldRole(db: Db, v: nat)
    requires PublishError(db, v).None?
  {
    forall k | k in db.states && k.version in Siblings(db.versions, v) && db.states[k].state == ExpiredBlocking ::
      k.customer in Targets(db.customers, db.documents[db.versions[v].document].audience)
  }

  predicate NoRowOf(db: Db, v: nat) {
    forall k | k in db.states :: k.version != v
  }

  /** The store between the scheduled publish and the flip. */
  lemma WhileScheduled(db: Db, v: nat, early: Time)
    requires PublishError(db, v).None? && NoRowOf(db, v) && early < db.versions[v].validFrom
    ensures var p := PublishTo(db, v, early);
      var targets := Targets(db.customers, db.documents[db.versions[v].document].audience);
      && p.versions == db.versions[v := Stamp(db.versions[v], early)]
      && (forall k :: k in p.states <==> k in db.states || (k.version == v && k.customer in targets))
      && (forall k | k in db.states :: p.states[k] == db.states[k])
      && (forall k: Key | k.version == v && k.customer in targets ::
            p.states[k] == RolloutRow(Stamp(db.versions[v], early), false, Some(early)))
  {
    var p := PublishTo(db, v, early);
    var targets := Targets(db.customers, db.documents[db.versions[v].document].audience);
    assert RetiredByPublish(db, v, early) == {};
    assert OpenRows(db.states, {}) == {};
    assert forall k :: k in KeysOf(targets, v) <==> k.version == v && k.customer in targets;
  }

  /** Once valid, v is the current version exactly if no sibling in force is newer. */
  lemma ValidIsCurrent(versions: map<nat, Version>, v: nat, now: Time)
    requires v in versions && InForce(versions[v], now)
    ensures Current(versions, versions[v].document, now) == Some(v)
      <==> forall w | w in Siblings(versions, v) && versions[w].validFrom <= now :: Newer(versions, v, w)
  {
    var force := InForceOf(versions, versions[v].document, now);
    assert v in force;
    assert forall w :: w in force && w != v <==> w in Siblings(versions, v) && versions[w].validFrom <= now;
  }

  lemma SiblingsOfStamped(db: Db, v: nat, at: Time)
    requires v in db.versions
    ensures Siblings(db.versions[v := Stamp(db.versions[v], at)], v) == Siblings(db.versions, v)
  {
  }

  /** The flip retires exactly the siblings when v is newest of all. */
  lemma FlipRetiresSiblings(db: Db, v: nat, early: Time, now: Time)
    requires PublishError(db, v).None? && NoRowOf(db, v) && early < db.versions[v].validFrom <= now
    requires NewestOfAll(db, v, early)
    ensures var p := PublishTo(db, v, early);
      && Outdated(p.versions, {db.versions[v].document}, now) == Siblings(db.versions, v)
      && OpenRows(p.states, Siblings(db.versions, v)) == OpenRows(db.states, Siblings(db.versions, v))
      && (forall w | w in Siblings(db.versions, v) :: Heir(p.versions, w, now) == v)
  {
    var p := PublishTo(db, v, early);
    WhileScheduled(db, v, early);
    SiblingsOfStamped(db, v, early);
    ValidIsCurrent(p.versions, v, now);
    var d := db.versions[v].document;
    assert Current(p.versions, d, now) == Some(v);
    forall w ensures w in Outdated(p.versions, {d}, now) <==> w in Siblings(db.versions, v) {
      if w in Siblings(db.versions, v) { assert Newer(p.versions, v, w); }
    }
  }

  function RolloutTargets(db: Db, v: nat): set<nat>
    requires PublishError(db, v).None?
  {
    Targets(db.customers, db.documents[db.versions[v].document].audience)
  }

  function BlockedBySiblings(db: Db, v: nat): set<nat>
    requires v in db.versions
  {
    BlockedCustomers(db.states, OpenRows(db.states, Siblings(db.versions, v)))
  }

  /** The row of k once v is in force, however v was published. */
  function FinalRow(db: Db, v: nat, early: Time, k: Key): Option<Row>
    requires PublishError(db, v).None?
  {
    if k.version == v then
      if k.customer in RolloutTargets(db, v)
      then Some(RolloutRow(Stamp(db.versions[v], early), k.customer in BlockedBySiblings(db, v), Some(early)))
      else None
    else if k !in db.states then None
    else if k.version in Siblings(db.versions, v) && IsOpen(db.states[k].state) then
      Some(db.states[k].(state := Superseded))
    else Some(db.states[k])
  }

  lemma ImmediateRow(db: Db, v: nat, early: Time, now: Time, k: Key)
    requires PublishError(db, v).None? && NoRowOf(db, v) && db.versions[v].validFrom <= now
    ensures RowAt(Restamped(Immediately(db, v, now), v, early).states, k) == FinalRow(db, v, early, k)
  {
    hide BlockedBySiblings, Targets, PublishError, Restamped;
    RestampedRow(Immediately(db, v, now), v, early, k);
    hide SupersedeAll, Rollout;
    PublishedRow(db, v, now, k);
  }

  lemma RestampedRow(db: Db, v: nat, at: Time, k: Key)
    ensures RowAt(Restamped(db, v, at).states, k)
      == if k in db.states && k.version == v && db.states[k].notificationDueAt.Some?
         then Some(db.states[k].(notificationDueAt := Some(at))) else RowAt(db.states, k)
  {
  }

  lemma PublishedRow(db: Db, v: nat, now: Time, k: Key)
    requires PublishError(db, v).None? && NoRowOf(db, v) && db.versions[v].validFrom <= now
    ensures RowAt(PublishTo(db, v, now).states, k)
      == if k.version == v then
           if k.customer in RolloutTargets(db, v)
           then Some(RolloutRow(Stamp(db.versions[v], now), k.customer in BlockedBySiblings(db, v), Some(now)))
           else None
         else if k in db.states && k in OpenRows(db.states, Siblings(db.versions, v))
         then Some(db.states[k].(state := Superseded)) else RowAt(db.states, k)
  {
    hide BlockedCustomers, Targets, OpenRows;
    assert k in KeysOf(RolloutTargets(db, v), v) <==> k.version == v && k.customer in RolloutTargets(db, v);
  }

  lemma HeirsOfSiblings(db: Db, v: nat, early: Time, now: Time, k: Key)
    requires PublishError(db, v).None? && NoRowOf(db, v) && early < db.versions[v].validFrom <= now
    requires NewestOfAll(db, v, early)
    ensures var p := PublishTo(db, v, early);
      k in Heirs(p, OpenRows(p.states, Siblings(db.versions, v)), now)
      <==> k.version == v && k.customer in BlockedBySiblings(db, v)
  {
    var p := PublishTo(db, v, early);
    var open := OpenRows(db.states, Siblings(db.versions, v));
    WhileScheduled(db, v, early);
    FlipRetiresSiblings(db, v, early, now);
    if k in Heirs(p, open, now) {
      var j :| j in open && p.states[j].state == ExpiredBlocking
           && k == Key(j.customer, Heir(p.versions, j.version, now));
    }
    if k.version == v && k.customer in BlockedBySiblings(db, v) {
      var j :| j in open && db.states[j].state == ExpiredBlocking && k.customer == j.customer;
      assert k == Key(j.customer, Heir(p.versions, j.version, now));
    }
  }

  lemma ScheduledRow(db: Db, v: nat, early: Time, now: Time, k: Key)
    requires PublishError(db, v).None? && NoRowOf(db, v) && early < db.versions[v].validFrom <= now
    requires NewestOfAll(db, v, early) && BlockedHoldRole(db, v)
    ensures RowAt(Scheduled(db, v, early, now).states, k) == FinalRow(db, v, early, k)
  {
    WhileScheduled(db, v, early);
    FlipRetiresSiblings(db, v, early, now);
    HeirsOfSiblings(db, v, early, now, k);
    FlippedRow(PublishTo(db, v, early), {db.versions[v].document}, now, k);
  }

  lemma SameVersions(db: Db, v: nat, early: Time, now: Time)
    requires PublishError(db, v).None? && NoRowOf(db, v) && early < db.versions[v].validFrom <= now
    requires NewestOfAll(db, v, early)
    ensures Scheduled(db, v, early, now).versions == Restamped(Immediately(db, v, now), v, early).versions
  {
    WhileScheduled(db, v, early);
    FlipRetiresSiblings(db, v, early, now);
  }

  lemma SameStore(db: Db, v: nat, early: Time, now: Time)
    requires PublishError(db, v).None? && NoRowOf(db, v) && early < db.versions[v].validFrom <= now
    requires NewestOfAll(db, v, early) && BlockedHoldRole(db, v)
    ensures Scheduled(db, v, early, now) == Restamped(Immediately(db, v, now), v, early)
  {
    var a, b := Restamped(Immediately(db, v, now), v, early), Scheduled(db, v, early, now);
    SameVersions(db, v, early, now);
    forall k ensures RowAt(a.states, k) == RowAt(b.states, k) {
      ImmediateRow(db, v, early, now, k);
      ScheduledRow(db, v, early, now, k);
    }
    SameRows(a.states, b.states);
  }

  /** A sibling that is not older leaves the flip with other statuses than the immediate publish. */
  lemma NewerSiblingDiffers(db: Db, v: nat, early: Time, now: Time, w: nat)
    requires PublishError(db, v).None? && NoRowOf(db, v) && early < db.versions[v].validFrom <= now
    requires w in Siblings(db.versions, v) && !Newer(db.versions[v := Stamp(db.versions[v], early)], v, w)
    ensures var a, b := Restamped(Immediately(db, v, now), v, early), Scheduled(db, v, early, now);
      a.versions[v].status != b.versions[v].status || a.versions[w].status != b.versions[w].status
  {
    var p := PublishTo(db, v, early);
    WhileScheduled(db, v, early);
    SiblingsOfStamped(db, v, early);
    ValidIsCurrent(p.versions, v, now);
    if db.versions[w].validFrom <= now {
      assert v in Outdated(p.versions, {db.versions[v].document}, now);
    } else {
      assert w !in Outdated(p.versions, {db.versions[v].document}, now);
    }
  }

  /** A blocked customer without the role gets a row from the flip, but none from the publish. */
  lemma RolelessBlockDiffers(db: Db, v: nat, early: Time, now: Time, k: Key)
    requires PublishError(db, v).None? && NoRowOf(db, v) && early < db.versions[v].validFrom <= now
    requires NewestOfAll(db, v, early)
    requires k in db.states && k.version in Siblings(db.versions, v) && db.states[k].state == ExpiredBlocking
    requires k.customer !in Targets(db.customers, db.documents[db.versions[v].document].audience)
    ensures Key(k.customer, v) in Scheduled(db, v, early, now).states
    ensures Key(k.customer, v) !in Restamped(Immediately(db, v, now), v, early).states
  {
    var p := PublishTo(db, v, early);
    WhileScheduled(db, v, early);
    FlipRetiresSiblings(db, v, early, now);
    assert k in OpenRows(p.states, Siblings(db.versions, v));
    assert Key(k.customer, v) in Heirs(p, OpenRows(p.states, Siblings(db.versions, v)), now);
  }

  /** Exactly when publishing now and scheduling ahead end in the same store. */
  lemma PublishNowEqualsScheduled(db: Db, v: nat, early: Time, now: Time)
    requires PublishError(db, v).None? && NoRowOf(db, v) && early < db.versions[v].validFrom <= now
    ensures Scheduled(db, v, early, now) == Restamped(Immediately(db, v, now), v, early)
      <==> NewestOfAll(db, v, early) && BlockedHoldRole(db, v)
  {
    if !NewestOfAll(db, v, early) {
      var w :| w in Siblings(db.versions, v) && !Newer(db.versions[v := Stamp(db.versions[v], early)], v, w);
      NewerSiblingDiffers(db, v, early, now, w);
    } else if !BlockedHoldRole(db, v) {
      var k :| k in db.states && k.version in Siblings(db.versions, v) && db.states[k].state == ExpiredBlocking
               && k.customer !in Targets(db.customers, db.documents[db.versions[v].document].audience);
      RolelessBlockDiffers(db, v, early, now, k);
    } else {
      SameStore(db, v, early, now);
    }
  }

  /** In a reachable store a publishable version has no rows yet, so the equivalence applies there. */
  lemma PublishNowEqualsScheduledInRuns(events: seq<Timed>, v: nat, early: Time, now: Time)
    requires IsRun(START, events) && PublishError(Run(START, events).db, v).None?
    requires early < Run(START, events).db.versions[v].validFrom <= now
    ensures var db := Run(START, events).db;
      Scheduled(db, v, early, now) == Restamped(Immediately(db, v, now), v, early)
      <==> NewestOfAll(db, v, early) && BlockedHoldRole(db, v)
  {
    RunKeeps(START, events);
    NoDraftRow(Run(START, events), v);
    PublishNowEqualsScheduled(Run(START, events).db, v, early, now);
  }

  /** An activation run over every document is that flip when the other documents are settled. */
  lemma ActivationIsTheFlip(db: Db, v: nat, early: Time, now: Time)
    requires PublishError(db, v).None? && NoRowOf(db, v) && early < db.versions[v].validFrom <= now
    requires Outdated(db.versions, db.documents.Keys - {db.versions[v].document}, now) == {}
    ensures Activate(PublishTo(db, v, early), now) == Scheduled(db, v, early, now)
  {
    var p, d := PublishTo(db, v, early), db.versions[v].document;
    WhileScheduled(db, v, early);
    forall e | e != d ensures InForceOf(p.versions, e, now) == InForceOf(db.versions, e, now) {
    }
    assert Outdated(p.versions, db.documents.Keys - {d}, now) == Outdated(db.versions, db.documents.Keys - {d}, now);
    assert Outdated(p.versions, db.documents.Keys, now) == Outdated(p.versions, {d}, now);
  }

  // What each of the two does by itself.

  lemma SiblingRowsClose(db: Db, v: nat, now: Time, k: Key)
    requires PublishError(db, v).None? && db.versions[v].validFrom <= now && NoRowOf(db, v)
    requires k in db.states && k.version in Siblings(db.versions, v)
    ensures var after := PublishTo(db, v, now);
      k in after.states && !IsOpen(after.states[k].state)
  {
  }

  /** Whoever an earlier version hard-blocked is blocked by the new row from the start. */
  lemma BlockPassesOn(db: Db, v: nat, now: Time, k: Key)
    requires PublishError(db, v).None? && db.versions[v].validFrom <= now
    requires k in db.states && k.version in Siblings(db.versions, v)
    requires db.states[k].state == ExpiredBlocking && k.customer in RolloutTargets(db, v)
    ensures var after := PublishTo(db, v, now);
      Key(k.customer, v) in after.states && IsBlocking(after.states[Key(k.customer, v)])
  {
    assert k in OpenRows(db.states, Siblings(db.versions, v));
    assert k.customer in BlockedCustomers(db.states, OpenRows(db.states, Siblings(db.versions, v)));
    hide BlockedCustomers, OpenRows, SupersedeAll;
    assert Key(k.customer, v) in KeysOf(RolloutTargets(db, v), v);
  }

  /**
   * An immediate publish takes over: v is the only published version of its document and in force,
   * nothing stays open for the others, and whoever they hard-blocked is blocked for v.
   */
  lemma ImmediatePublishTakesOver(db: Db, v: nat, now: Time)
    requires PublishError(db, v).None? && db.versions[v].validFrom <= now && NoRowOf(db, v)
    ensures var after := PublishTo(db, v, now);
      && Siblings(after.versions, v) == {}
      && Current(after.versions, db.versions[v].document, now) == Some(v)
      && (forall k | k in db.states && k.version in Siblings(db.versions, v) ::
            && k in after.states && !IsOpen(after.states[k].state)
            && (db.states[k].state == ExpiredBlocking && k.customer in RolloutTargets(db, v) ==>
                  Key(k.customer, v) in after.states && IsBlocking(after.states[Key(k.customer, v)])))
  {
    ValidIsCurrent(PublishTo(db, v, now).versions, v, now);
    var after := PublishTo(db, v, now);
    hide PublishTo;
    forall k | k in db.states && k.version in Siblings(db.versions, v)
      ensures k in after.states && !IsOpen(after.states[k].state)
      ensures db.states[k].state == ExpiredBlocking && k.customer in RolloutTargets(db, v) ==>
                Key(k.customer, v) in after.states && IsBlocking(after.states[Key(k.customer, v)])
    {
      SiblingRowsClose(db, v, now, k);
      if db.states[k].state == ExpiredBlocking && k.customer in RolloutTargets(db, v) { BlockPassesOn(db, v, now, k); }
    }
  }

  /** A scheduled publish changes nothing before its time: the version in force and every existing row stay. */
  lemma ScheduledPublishWaits(db: Db, v: nat, early: Time, at: Time)
    requires PublishError(db, v).None? && NoRowOf(db, v) && early < db.versions[v].validFrom
    requires at < db.versions[v].validFrom
    ensures var after := PublishTo(db, v, early);
      && (forall d :: Current(after.versions, d, at) == Current(db.versions, d, at))
      && (forall k | k in db.states :: k in after.states && after.states[k] == db.states[k])
  {
    var after := PublishTo(db, v, early);
    WhileScheduled(db, v, early);
    forall d ensures Current(after.versions, d, at) == Current(db.versions, d, at) {
      assert InForceOf(after.versions, d, at) == InForceOf(db.versions, d, at);
    }
  }
}
