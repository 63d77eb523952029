/** What publishing, activation, onboarding, access and repair make of each version and each row, field by field. */
module Rows {
  import opened Types
  import opened StateMachine
  import opened Versions
  import opened Lifecycle
  import opened Customers
  import opened InForce

  // Publishing.

  /** A publish succeeds exactly for a draft whose content is complete for its mode; otherwise nothing changes. */
  lemma PublishSucceedsExactly(db: Db, v: nat, now: Time)
    ensures Publish(db, v, now).error.None? <==>
      && v in db.versions && db.versions[v].status == Draft && db.versions[v].document in db.documents
      && (exists i | 0 <= i < |db.versions[v].changeSummary| :: !IsSpace(db.versions[v].changeSummary[i]))
      && (db.versions[v].mode == Active ==>
            && db.versions[v].consentText.Some?
            && (exists i | 0 <= i < |db.versions[v].consentText.value| :: !IsSpace(db.versions[v].consentText.value[i]))
            && db.versions[v].hardDeadlineAt.Some? && db.versions[v].hardDeadlineAt.value >= db.versions[v].validFrom)
      && (db.versions[v].mode == Passive ==>
            db.versions[v].objectionPeriodDays.Some? && db.versions[v].hardDeadlineAt.None?)
    ensures Publish(db, v, now).error.Some? ==> Publish(db, v, now).db == db
  {
  }

  /** Each refusal of a publish names a cause that is there. */
  lemma PublishRefusalNamesCause(db: Db, v: nat, now: Time)
    requires Publish(db, v, now).error.Some?
    ensures var error := Publish(db, v, now).error.value;
      if v !in db.versions then error == VersionNotFound else
      var version := db.versions[v];
      match error
      case VersionImmutable => version.status != Draft
      case ChangeSummaryRequired => forall i | 0 <= i < |version.changeSummary| :: IsSpace(version.changeSummary[i])
      case ConsentTextRequired =>
        version.mode == Active
        && (version.consentText.None?
            || forall i | 0 <= i < |version.consentText.value| :: IsSpace(version.consentText.value[i]))
      case InvalidState =>
        || version.document !in db.documents
        || (version.mode == Active
            && (version.hardDeadlineAt.None? || version.hardDeadlineAt.value < version.validFrom))
        || (version.mode == Passive && (version.objectionPeriodDays.None? || version.hardDeadlineAt.Some?))
      case _ => false
  {
  }

  /**
   * The draft becomes published at that instant; an immediate publish retires every published sibling,
   * and nothing else.
   */
  lemma VersionAfterPublish(db: Db, v: nat, now: Time, w: nat)
    requires Publish(db, v, now).error.None?
    ensures var before, after := db.versions, Publish(db, v, now).db.versions;
      && v in before && (w in after <==> w in before)
      && (w == v ==> after[v] == before[v].(status := Published, publishedAt := Some(now)))
      && (w in before && w != v ==>
            after[w] == if before[v].validFrom <= now && before[w].document == before[v].document
                           && before[w].status == Published
                        then before[w].(status := Retired) else before[w])
  {
  }

  /** A customer of the role gets one row, blocking from the start if a retired version had hard-blocked them. */
  lemma NewRowAfterPublish(db: Db, v: nat, now: Time, c: nat)
    requires Publish(db, v, now).error.None? && forall k | k in db.states :: k.version != v
    ensures v in db.versions && db.versions[v].document in db.documents
    ensures var version, after, k := db.versions[v], Publish(db, v, now).db.states, Key(c, v);
      && (k in after <==> c in db.customers && db.documents[version.document].audience in db.customers[c].roles)
      && (k in after ==>
            && after[k].state == PendingNotification && after[k].notifiedAt == None && after[k].remindersSent == 0
            && after[k].notificationDueAt == Some(now)
            && after[k].deadlineAt == (if version.mode == Active then version.hardDeadlineAt else None)
            && (after[k].carryOverBlocking <==>
                  version.validFrom <= now
                  && exists j | j in db.states ::
                       && j.customer == c && db.states[j].state == ExpiredBlocking
                       && j.version in db.versions && j.version != v
                       && db.versions[j.version].document == version.document
                       && db.versions[j.version].status == Published))
  {
    hide ContentError;
    var open := OpenRows(db.states, RetiredByPublish(db, v, now));
    assert c in BlockedCustomers(db.states, open) <==>
           exists j | j in db.states :: j.customer == c && j in open && db.states[j].state == ExpiredBlocking;
    assert Key(c, v) in KeysOf(Targets(db.customers, db.documents[db.versions[v].document].audience), v)
      <==> c in Targets(db.customers, db.documents[db.versions[v].document].audience);
  }

  /** Rows of other versions stay, except that the open ones of a retired sibling are superseded. */
  lemma OldRowAfterPublish(db: Db, v: nat, now: Time, k: Key)
    requires Publish(db, v, now).error.None? && k.version != v
    ensures var before, after := db.states, Publish(db, v, now).db.states;
      && v in db.versions && (k in after <==> k in before)
      && (k in before ==>
            after[k] == if db.versions[v].validFrom <= now && k.version in db.versions
                           && db.versions[k.version].document == db.versions[v].document
                           && db.versions[k.version].status == Published
                           && before[k].state != Accepted && before[k].state != Superseded
                        then before[k].(state := Superseded) else before[k])
  {
    hide ContentError, BlockedCustomers, Targets;
  }

  lemma PublishWrites(db: Db, v: nat, now: Time)
    ensures var after := Publish(db, v, now).db; after == db.(versions := after.versions, states := after.states)
  {
  }

  // Activation.

  /** An activation retires exactly the overtaken versions and changes no other. */
  lemma VersionAfterActivation(db: Db, now: Time, v: nat)
    ensures var before, after := db.versions, Activate(db, now).versions;
      && (v in after <==> v in before)
      && (v in before ==>
            after[v] == if Overtaken(before, v, now) && before[v].document in db.documents
                        then before[v].(status := Retired) else before[v])
  {
    OutdatedIsOvertaken(db.versions, db.documents.Keys, v, now);
    hide Outdated, Overtaken, FlippedStates, OpenRows;
  }

  /** The customer of k is hard-blocked on an overtaken version whose document is now at the version of k. */
  ghost predicate InheritsBlock(db: Db, now: Time, k: Key) {
    exists j | j in db.states ::
      && j.customer == k.customer && db.states[j].state == ExpiredBlocking
      && Overtaken(db.versions, j.version, now) && db.versions[j.version].document in db.documents
      && Current(db.versions, db.versions[j.version].document, now) == Some(k.version)
  }

  lemma HeirsInheritBlock(db: Db, now: Time, k: Key)
    ensures k in Heirs(db, OpenRows(db.states, Outdated(db.versions, db.documents.Keys, now)), now)
      <==> InheritsBlock(db, now, k)
  {
    hide Current;
    var rows := OpenRows(db.states, Outdated(db.versions, db.documents.Keys, now));
    if k in Heirs(db, rows, now) {
      var j := HeirSource(db, db.documents.Keys, now, k);
      OutdatedIsOvertaken(db.versions, db.documents.Keys, j.version, now);
      HeirIsCurrent(db.versions, db.documents.Keys, j.version, now);
    }
    if InheritsBlock(db, now, k) {
      var j :| j in db.states
        && j.customer == k.customer && db.states[j].state == ExpiredBlocking
        && Overtaken(db.versions, j.version, now) && db.versions[j.version].document in db.documents
        && Current(db.versions, db.versions[j.version].document, now) == Some(k.version);
      OutdatedIsOvertaken(db.versions, db.documents.Keys, j.version, now);
      assert j in rows;
      HeirIsCurrent(db.versions, db.documents.Keys, j.version, now);
    }
  }

  /** Open rows of overtaken versions are superseded; whoever they hard-blocked is blocked on the current version. */
  lemma RowAfterActivation(db: Db, now: Time, k: Key)
    ensures var before, after := db.states, Activate(db, now).states;
      && (k in after <==> k in before || InheritsBlock(db, now, k))
      && (k in before ==>
            after[k] == if Overtaken(db.versions, k.version, now) && db.versions[k.version].document in db.documents
                        then (if before[k].state == Accepted || before[k].state == Superseded then before[k]
                              else before[k].(state := Superseded))
                        else if InheritsBlock(db, now, k)
                                && (before[k].state == PendingNotification || before[k].state == Notified)
                        then before[k].(carryOverBlocking := true)
                        else before[k])
  {
    FlippedRow(db, db.documents.Keys, now, k);
    HeirsInheritBlock(db, now, k);
    OutdatedIsOvertaken(db.versions, db.documents.Keys, k.version, now);
    hide Heirs, Outdated, OpenRows, FlippedStates, Overtaken, InheritsBlock;
  }

  /** A row created to carry a block on is pending, blocking, with the deadline of its version and no reminder sent. */
  lemma NewRowAfterActivation(db: Db, now: Time, k: Key)
    requires k in Activate(db, now).states && k !in db.states
    ensures k.version in db.versions
    ensures var row, version := Activate(db, now).states[k], db.versions[k.version];
      && row.state == PendingNotification && row.notifiedAt == None && row.remindersSent == 0
      && row.carryOverBlocking && row.notificationDueAt == None
      && row.deadlineAt == (if version.mode == Active then version.hardDeadlineAt else None)
  {
    FlippedRow(db, db.documents.Keys, now, k);
    var j := HeirSource(db, db.documents.Keys, now, k);
    HeirIsCurrent(db.versions, db.documents.Keys, j.version, now);
    hide Heirs, Outdated, OpenRows, FlippedStates, Heir;
  }

  lemma ActivationWrites(db: Db, now: Time)
    ensures var after := Activate(db, now); after == db.(versions := after.versions, states := after.states)
  {
  }

  // Onboarding.

  /** The role is owed the version: current or upcoming, of a document for one of the roles. */
  ghost predicate Owed(db: Db, roles: seq<string>, now: Time, v: nat) {
    && v in db.versions && db.versions[v].document in db.documents
    && db.documents[db.versions[v].document].audience in roles
    && (Current(db.versions, db.versions[v].document, now) == Some(v)
        || (db.versions[v].status == Published && db.versions[v].validFrom > now))
  }

  /** Onboarding inserts what is missing: pending, not blocking, no e-mail owed, no reminder sent. */
  lemma RowAfterOnboarding(db: Db, c: nat, roles: seq<string>, now: Time, k: Key)
    ensures var before, after := db.states, Onboard(db, c, roles, now).states;
      && (k in after <==> k in before || (k.customer == c && Owed(db, roles, now, k.version)))
      && (k in before ==> after[k] == before[k])
      && (k in after && k !in before ==>
            && k.version in db.versions
            && after[k].state == PendingNotification && after[k].notifiedAt == None && after[k].remindersSent == 0
            && !after[k].carryOverBlocking && after[k].notificationDueAt == None
            && var version := db.versions[k.version];
            && after[k].deadlineAt == (if version.mode == Active then version.hardDeadlineAt else None))
  {
    hide Current;
    assert k in KeysFor(c, RolloutVersions(db, roles, now))
      <==> k.customer == c && k.version in RolloutVersions(db, roles, now);
  }

  lemma OnboardingWrites(db: Db, c: nat, roles: seq<string>, now: Time)
    ensures var after := Onboard(db, c, roles, now); after == db.(states := after.states)
  {
  }

  // Access and repair.

  /**
   * The first display of an existing row starts the period: 24 hours a day from then on, or at once for a
   * customer blocked before, and never before the version applies. An ACTIVE row keeps its deadline.
   */
  lemma RowAfterAccess(db: Db, k: Key, now: Time)
    requires k.version in db.versions && k in db.states
    requires db.versions[k.version].mode == Passive ==> db.versions[k.version].objectionPeriodDays.Some?
    ensures var row, version, done := db.states[k], db.versions[k.version], Notify(db, k, now);
      && done.error.None?
      && done.db == db.(states := db.states[k := done.db.states[k]])
      && (row.state != PendingNotification || row.notifiedAt.Some? ==> done.db == db)
      && (row.state == PendingNotification && row.notifiedAt.None? ==>
            var after := done.db.states[k];
            && after == row.(state := Notified, notifiedAt := Some(now), deadlineAt := after.deadlineAt)
            && (version.mode == Active ==> after.deadlineAt == row.deadlineAt)
            && (version.mode == Passive ==>
                  var period := version.objectionPeriodDays.value * 86_400_000;
                  var ends := if row.carryOverBlocking then now else now + period;
                  after.deadlineAt == Some(if ends < version.validFrom then version.validFrom else ends)))
  {
  }

  /** A display fails exactly for a version or a row that does not exist, or a PASSIVE version without a period. */
  lemma AccessFailsExactly(db: Db, k: Key, now: Time)
    ensures Notify(db, k, now).error.Some? <==>
      || k.version !in db.versions || k !in db.states
      || (db.versions[k.version].mode == Passive && db.versions[k.version].objectionPeriodDays.None?
          && db.states[k].state == PendingNotification && db.states[k].notifiedAt.None?
          && !db.states[k].carryOverBlocking)
    ensures Notify(db, k, now).error.Some? ==>
      && Notify(db, k, now).db == db
      && Notify(db, k, now).error.value == (if k.version !in db.versions then VersionNotFound else InvalidState)
  {
  }

  /**
   * A repair needs a reason, and a row in the state it is for: reopening wins over suspending, that
   * over a new deadline.
   */
  lemma RepairSucceedsExactly(db: Db, k: Key, input: PatchInput)
    ensures var done := Patch(db, k, input);
      && (done.error.None? <==>
            && k in db.states && (exists i | 0 <= i < |input.reason| :: !IsSpace(input.reason[i]))
            && (if input.reopenObjection then db.states[k].state == Objected
                else input.deadlineAt.Some? && (input.suspendBlock ==> db.states[k].state == ExpiredBlocking)))
      && (done.error.Some? ==> done.db == db)
      && (done.error.None? ==>
            done.db == db.(states := db.states[k :=
              if input.reopenObjection then db.states[k].(state := Notified)
              else db.states[k].(state := if input.suspendBlock then Notified else db.states[k].state,
                                 deadlineAt := input.deadlineAt)]))
  {
  }
}
