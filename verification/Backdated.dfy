/** The backdated lookup against what really was in force at the time. */
module Backdated {
  import opened Types
  import opened StateMachine
  import opened Versions
  import opened Lifecycle
  import opened Customers
  import opened Runs
  import opened Invariants
  import opened Permanence

  /** Every retired version is outranked by a published one that was already in force at `now`. */
  predicate Outranked(versions: map<nat, Version>, w: nat, now: Time) {
    exists u | u in versions ::
      w in versions && versions[u].document == versions[w].document && InForce(versions[u], now)
        && Newer(versions, u, w)
  }

  predicate RetiredOutranked(versions: map<nat, Version>, now: Time) {
    forall w | w in versions && versions[w].status == Retired :: Outranked(versions, w, now)
  }

  /** An immediate publish is in order when every sibling it retires is older. */
  predicate PublishInOrder(db: Db, v: nat, now: Time) {
    PublishError(db, v).None? ==>
      forall w | w in RetiredByPublish(db, v, now) :: Newer(db.versions[v := Stamp(db.versions[v], now)], v, w)
  }

  lemma NewerTransitive(versions: map<nat, Version>, a: nat, b: nat, c: nat)
    requires Newer(versions, a, b) && Newer(versions, b, c)
    ensures Newer(versions, a, c)
  {
  }

  lemma Outranks(versions: map<nat, Version>, u: nat, w: nat, now: Time)
    requires u in versions && w in versions && versions[u].document == versions[w].document
    requires InForce(versions[u], now) && Newer(versions, u, w)
    ensures Outranked(versions, w, now)
  {
  }

  /** What a publish does to the versions: v is stamped and some published siblings are retired. */
  lemma PublishedVersions(db: Db, v: nat, now: Time)
    requires PublishError(db, v).None?
    ensures PublishTo(db, v, now).versions
         == RetireAll(db.versions[v := Stamp(db.versions[v], now)], RetiredByPublish(db, v, now))
    ensures RetiredByPublish(db, v, now) != {} ==> db.versions[v].validFrom <= now
    ensures forall w | w in RetiredByPublish(db, v, now) ::
      w in db.versions && w != v && db.versions[w].document == db.versions[v].document
        && db.versions[w].status == Published
  {
  }

  lemma PublishOutranks(s: Sys, v: nat)
    requires RetiredOutranked(s.db.versions, s.now) && PublishInOrder(s.db, v, s.now)
    ensures RetiredOutranked(Publish(s.db, v, s.now).db.versions, s.now)
  {
    if PublishError(s.db, v).None? {
      assert s.db.versions[v].status == Draft;
      var before, after := s.db.versions, PublishTo(s.db, v, s.now).versions;
      PublishedVersions(s.db, v, s.now);
      hide PublishTo, RetiredByPublish, PublishError;
      forall w | w in after && after[w].status == Retired ensures Outranked(after, w, s.now) {
        if before[w].status == Retired {
          assert Outranked(before, w, s.now);
          var u :| u in before && before[u].document == before[w].document && InForce(before[u], s.now)
               && Newer(before, u, w);
          if u in RetiredByPublish(s.db, v, s.now) {
            NewerTransitive(after, v, u, w);
            Outranks(after, v, w, s.now);
          } else {
            Outranks(after, u, w, s.now);
          }
        } else {
          Outranks(after, v, w, s.now);
        }
      }
    }
  }

  lemma ActivationOutranks(db: Db, now: Time)
    requires RetiredOutranked(db.versions, now)
    ensures RetiredOutranked(Activate(db, now).versions, now)
  {
    var before, after := db.versions, Activate(db, now).versions;
    forall w | w in after && after[w].status == Retired ensures Outranked(after, w, now) {
      var u := w;
      if before[w].status == Retired {
        assert Outranked(before, w, now);
        u :| u in before && before[u].document == before[w].document && InForce(before[u], now) && Newer(before, u, w);
      }
      if u in Outdated(before, db.documents.Keys, now) {
        HeirIsCurrent(before, db.documents.Keys, u, now);
        var heir := Heir(before, u, now);
        if u != w { NewerTransitive(before, heir, u, w); }
        Outranks(after, heir, w, now);
      } else {
        Outranks(after, u, w, now);
      }
    }
  }

  lemma DraftsOutrank(before: map<nat, Version>, after: map<nat, Version>, now: Time)
    requires RetiredOutranked(before, now)
    requires forall v | v in before && before[v].status != Draft :: v in after && after[v] == before[v]
    requires forall v | v in after && after[v].status != Draft :: v in before && after[v] == before[v]
    ensures RetiredOutranked(after, now)
  {
    forall w | w in after && after[w].status == Retired ensures Outranked(after, w, now) {
      assert Outranked(before, w, now);
      var u :| u in before && before[u].document == before[w].document && InForce(before[u], now)
           && Newer(before, u, w);
      Outranks(after, u, w, now);
    }
  }

  lemma LaterOutranks(versions: map<nat, Version>, before: Time, now: Time)
    requires RetiredOutranked(versions, before) && before <= now
    ensures RetiredOutranked(versions, now)
  {
    forall w | w in versions && versions[w].status == Retired ensures Outranked(versions, w, now) {
      assert Outranked(versions, w, before);
      var u :| u in versions && versions[u].document == versions[w].document && InForce(versions[u], before)
           && Newer(versions, u, w);
      Outranks(versions, u, w, now);
    }
  }

  /** Which events write to the versions at all. */
  predicate WritesVersions(e: Event) {
    e.PublishVersion? || e.ActivationRun? || e.HourlyTick? || e.SaveDraft? || e.DeleteDraft?
  }

  lemma OtherEventsKeepVersions(s: Sys, e: Event)
    requires !WritesVersions(e)
    ensures Effect(s, e).db.versions == s.db.versions
  {
    if !IsAdministration(e) {
      hide Effect;
      RowOperationsKeepCatalogue(s, e);
    } else {
      hide Create, Update, Upsert, Deactivate;
      match e
      case CreateCustomer(c, input) => CreateWrites(s.db, c, input, s.now);
      case UpdateCustomer(c, changes) => UpdateWrites(s.db, c, changes, s.now);
      case UpsertCustomer(c, input) => UpsertWrites(s.db, c, input, s.now);
      case DeactivateCustomer(ref, audience) => DeactivateWrites(s.db, ref, audience, s.now);
      case _ =>
    }
  }

  lemma StepOutranks(s: Sys, e: Event)
    requires Inv(s) && RetiredOutranked(s.db.versions, s.now)
    requires e.PublishVersion? ==> PublishInOrder(s.db, e.v, s.now)
    ensures RetiredOutranked(Effect(s, e).db.versions, s.now)
  {
    hide Inv, RetiredOutranked, Publish, Activate, Create, Update, Upsert, PublishInOrder;
    match e
    case PublishVersion(v) => PublishOutranks(s, v);
    case ActivationRun => ActivationOutranks(s.db, s.now);
    case HourlyTick => ActivationOutranks(s.db, s.now);
    case SaveDraft(v, draft) => DraftsOutrank(s.db.versions, SaveDraftTo(s.db, v, draft).versions, s.now);
    case DeleteDraft(v) => DraftsOutrank(s.db.versions, DeleteDraftFrom(s.db, v).versions, s.now);
    case _ => OtherEventsKeepVersions(s, e);
  }

  /** Every publish of the run is in order. */
  ghost predicate InOrder(s: Sys, events: seq<Timed>) {
    events == [] ||
    var before, last := Run(s, events[..|events| - 1]), events[|events| - 1];
    InOrder(s, events[..|events| - 1])
      && (last.event.PublishVersion? ==> PublishInOrder(before.db, last.event.v, last.at))
  }

  lemma {:induction false} RunOutranks(events: seq<Timed>)
    requires IsRun(START, events) && InOrder(START, events)
    ensures RetiredOutranked(Run(START, events).db.versions, Run(START, events).now)
  {
    if events != [] {
      var last, before := events[|events| - 1], Run(START, events[..|events| - 1]);
      RunOutranks(events[..|events| - 1]);
      RunKeeps(START, events[..|events| - 1]);
      Later(before, last.at);
      LaterOutranks(before.db.versions, before.now, last.at);
      StepOutranks(before.(now := last.at), last.event);
    }
  }

  // The lookup.

  lemma EligibleRival(s: Sys, w: nat, date: Time) returns (u: nat)
    requires Inv(s) && RetiredOutranked(s.db.versions, s.now) && s.now <= date
    requires w in s.db.versions && s.db.versions[w].status == Retired
    ensures u in EligibleAt(s.db.versions, s.db.versions[w].document, date) && u != w && Newer(s.db.versions, u, w)
  {
    var versions := s.db.versions;
    assert Outranked(versions, w, s.now);
    u :| u in versions && versions[u].document == versions[w].document && InForce(versions[u], s.now)
         && Newer(versions, u, w);
  }

  /** With every retired version outranked, the lookup for any date from now on finds the current version. */
  lemma LookupIsCurrent(s: Sys, d: nat, date: Time)
    requires Inv(s) && RetiredOutranked(s.db.versions, s.now) && s.now <= date
    ensures EffectiveAt(s.db.versions, d, date) == Current(s.db.versions, d, date)
  {
    var versions := s.db.versions;
    var eligible, force := EligibleAt(versions, d, date), InForceOf(versions, d, date);
    assert force <= eligible;
    var found := EffectiveAt(versions, d, date);
    if found.Some? {
      if versions[found.value].status == Retired {
        var u := EligibleRival(s, found.value, date);
      }
      assert found.value in force;
    }
  }

  /** Whatever was published between two stores was published after `date`. */
  predicate PublishedSince(before: map<nat, Version>, after: map<nat, Version>, date: Time) {
    forall v | v in after && after[v].status != Draft ::
      (v in before && before[v].status != Draft) || (after[v].publishedAt.Some? && after[v].publishedAt.value > date)
  }

  lemma StepPublishes(s: Sys, e: Event, date: Time)
    requires s.now > date
    ensures PublishedSince(s.db.versions, Effect(s, e).db.versions, date)
  {
    hide Create, Update, Upsert, Deactivate, Notify, Consent, Manual, RaiseObjection, Patch, FlippedStates;
    match e
    case PublishVersion(v) =>
    case ActivationRun =>
    case HourlyTick =>
    case SaveDraft(v, draft) =>
    case DeleteDraft(v) =>
    case _ => OtherEventsKeepVersions(s, e);
  }

  /** A backdated lookup does not see what happened after its date. */
  lemma LookupUnchanged(before: map<nat, Version>, after: map<nat, Version>, d: nat, date: Time)
    requires ContentPersists(before, after) && PublishedSince(before, after, date)
    ensures EffectiveAt(after, d, date) == EffectiveAt(before, d, date)
  {
    assert EligibleAt(after, d, date) == EligibleAt(before, d, date);
    assert forall v, w | v in EligibleAt(before, d, date) && w in EligibleAt(before, d, date) ::
        Newer(before, v, w) == Newer(after, v, w);
  }

  lemma {:induction false} PrefixIsRun(s: Sys, events: seq<Timed>, i: nat)
    requires i <= |events| && IsRun(s, events)
    ensures IsRun(s, events[..i])
  {
    if i < |events| {
      PrefixIsRun(s, events[..|events| - 1], i);
      assert events[..|events| - 1][..i] == events[..i];
    } else {
      assert events[..i] == events;
    }
  }

  lemma {:induction false} SuffixPublishes(events: seq<Timed>, i: nat, date: Time)
    requires i <= |events| && IsRun(START, events)
    requires forall j | i <= j < |events| :: events[j].at > date
    ensures ContentPersists(Run(START, events[..i]).db.versions, Run(START, events).db.versions)
    ensures PublishedSince(Run(START, events[..i]).db.versions, Run(START, events).db.versions, date)
  {
    if i == |events| {
      assert events[..i] == events;
    } else {
      hide Inv, Effect, Legal, EvidencePersists, RowsPersist;
      var last, rest := events[|events| - 1], events[..|events| - 1];
      SuffixPublishes(rest, i, date);
      assert rest[..i] == events[..i];
      RunKeeps(START, rest);
      Later(Run(START, rest), last.at);
      StepPersists(Run(START, rest).(now := last.at), last.event);
      StepPublishes(Run(START, rest).(now := last.at), last.event, date);
    }
  }

  /**
   * For every past date the lookup in today's store finds the version that was in force then: the
   * events before i are those up to the date, and their publishes were in order.
   */
  lemma BackdatedLookupIsHistory(events: seq<Timed>, i: nat, d: nat, date: Time)
    requires i <= |events| && IsRun(START, events) && InOrder(START, events[..i])
    requires Run(START, events[..i]).now <= date && forall j | i <= j < |events| :: events[j].at > date
    ensures EffectiveAt(Run(START, events).db.versions, d, date)
      == Current(Run(START, events[..i]).db.versions, d, date)
  {
    hide Inv, Run, IsRun, InOrder, RetiredOutranked, EffectiveAt, Current, ContentPersists, PublishedSince;
    StartKeeps();
    PrefixIsRun(START, events, i);
    SuffixPublishes(events, i, date);
    LookupUnchanged(Run(START, events[..i]).db.versions, Run(START, events).db.versions, d, date);
    RunOutranks(events[..i]);
    RunKeeps(START, events[..i]);
    LookupIsCurrent(Run(START, events[..i]), d, date);
  }

  /** The order condition is exact: an immediate publish that breaks it breaks the lookup for good. */
  lemma OrderIsNecessary(s: Sys, v: nat)
    requires Inv(s) && RetiredOutranked(s.db.versions, s.now)
    requires PublishError(s.db, v).None? && s.db.versions[v].validFrom <= s.now
    ensures var after, d := PublishTo(s.db, v, s.now).versions, s.db.versions[v].document;
      PublishInOrder(s.db, v, s.now)
      <==> forall date | s.now <= date :: EffectiveAt(after, d, date) == Current(after, d, date)
  {
    var after, d := PublishTo(s.db, v, s.now).versions, s.db.versions[v].document;
    if PublishInOrder(s.db, v, s.now) {
      PublishOutranks(s, v);
      PublishKeeps(s, v);
      forall date | s.now <= date ensures EffectiveAt(after, d, date) == Current(after, d, date) {
        LookupIsCurrent(s.(db := PublishTo(s.db, v, s.now)), d, date);
      }
    } else {
      var w :| w in Siblings(s.db.versions, v) && !Newer(s.db.versions[v := Stamp(s.db.versions[v], s.now)], v, w);
      var date := LaterOf(s.now, after[w].validFrom);
      assert v in InForceOf(after, d, date) && forall u :: u in InForceOf(after, d, date) ==> u == v;
      assert w in EligibleAt(after, d, date);
      assert Newer(after, w, v);
      assert EffectiveAt(after, d, date) != Current(after, d, date);
    }
  }
}
