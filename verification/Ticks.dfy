/** The hourly job: what one activation run achieves, and what the deadline pass after it may touch. */
module Ticks {
  import opened Types
  import opened StateMachine
  import opened Versions
  import opened Lifecycle
  import opened Runs
  import opened Invariants

  /** After a flip each document has at most one version in force: the one that was current before. */
  lemma OneInForce(db: Db, documents: set<nat>, d: nat, now: Time)
    requires d in documents
    ensures var before, after := Current(db.versions, d, now), Flip(db, documents, now).versions;
      && Current(after, d, now) == before
      && InForceOf(after, d, now) == (if before.Some? then {before.value} else {})
  {
    var before, after := Current(db.versions, d, now), Flip(db, documents, now).versions;
    forall v ensures v in InForceOf(after, d, now) <==> before == Some(v) {
      if v in InForceOf(db.versions, d, now) && before != Some(v) { assert v in Outdated(db.versions, documents, now); }
    }
  }

  /** What a retired version leaves behind: no open row, and every hard block passed on. */
  lemma RetiredIsClosed(db: Db, documents: set<nat>, now: Time, k: Key)
    requires k in db.states && k.version in Outdated(db.versions, documents, now)
    ensures var db' := Flip(db, documents, now);
      && db'.versions[k.version] == db.versions[k.version].(status := Retired)
      && k in db'.states && !IsOpen(db'.states[k].state)
      && (db.states[k].state == Accepted ==> db'.states[k] == db.states[k])
  {
    FlippedRow(db, documents, now, k);
    if k in Heirs(db, OpenRows(db.states, Outdated(db.versions, documents, now)), now) {
      var j := HeirSource(db, documents, now, k);
      HeirIsCurrent(db.versions, documents, j.version, now);
    }
  }

  lemma BlockIsCarriedOver(db: Db, documents: set<nat>, now: Time, k: Key)
    requires k in db.states && k.version in Outdated(db.versions, documents, now)
    requires db.states[k].state == ExpiredBlocking
    ensures var db' := Flip(db, documents, now);
      var heir := Key(k.customer, Heir(db.versions, k.version, now));
      && Current(db'.versions, db.versions[k.version].document, now) == Some(heir.version)
      && heir in db'.states
      && (heir in db.states ==> db'.states[heir].state == db.states[heir].state)
      && (heir !in db.states ==> db'.states[heir].state == PendingNotification)
      && (IsBlocking(db'.states[heir])
          || db'.states[heir].state == Accepted || db'.states[heir].state == Objected
             || db'.states[heir].state == Superseded)
  {
    var heir := Key(k.customer, Heir(db.versions, k.version, now));
    HeirIsCurrent(db.versions, documents, k.version, now);
    assert heir in Heirs(db, OpenRows(db.states, Outdated(db.versions, documents, now)), now);
    FlippedRow(db, documents, now, heir);
    OneInForce(db, documents, db.versions[k.version].document, now);
  }

  lemma NothingOutdated(db: Db, documents: set<nat>, now: Time)
    ensures Outdated(Flip(db, documents, now).versions, documents, now) == {}
  {
    var after := Flip(db, documents, now).versions;
    forall v | v in after && after[v].document in documents && InForce(after[v], now)
      ensures Current(after, after[v].document, now) == Some(v)
    {
      OneInForce(db, documents, after[v].document, now);
      assert v in InForceOf(after, after[v].document, now);
    }
  }

  /** Running the activation again at the same instant changes nothing. */
  lemma ActivationIsIdempotent(db: Db, now: Time)
    ensures Activate(Activate(db, now), now) == Activate(db, now)
  {
    NothingOutdated(db, db.documents.Keys, now);
    SettledStays(Activate(db, now), db.documents.Keys, now);
  }

  // The deadline pass.

  /** An open row that no admin moved to before validFrom never has an earlier deadline than that. */
  lemma NeverDueBeforeValidFrom(s: Sys, k: Key)
    requires Inv(s) && k in s.db.states && k !in s.early && IsOpen(s.db.states[k].state)
    ensures k.version in s.db.versions
    ensures s.db.states[k].deadlineAt.Some? ==> s.db.states[k].deadlineAt.value >= s.db.versions[k.version].validFrom
  {
    assert RowAtOk(s, k);
  }

  /** What the deadline pass of a tick did to the row of k, compared with the store after activation. */
  predicate TouchedByPass(before: Db, after: Db, k: Key) {
    || (k in before.states) != (k in after.states)
    || (k in before.states && k in after.states && before.states[k] != after.states[k])
    || (k in before.acceptances) != (k in after.acceptances)
    || (k in before.acceptances && k in after.acceptances && before.acceptances[k] != after.acceptances[k])
  }

  /** Due or not: a deadline that has passed without its consequence. */
  predicate Overdue(version: Version, row: Row, now: Time) {
    && row.deadlineAt.Some? && row.deadlineAt.value <= now
    && (row.state == Notified || (row.state == PendingNotification && version.mode == Active))
  }

  lemma PassTouchesDueRows(db: Db, now: Time, k: Key)
    requires TouchedByPass(db, DeadlinePass(db, now), k)
    ensures k in db.states && Due(db.states[k], now)
  {
  }

  lemma PassLeavesNothingOverdue(db: Db, now: Time, k: Key)
    requires k in db.states && k.version in db.versions
    ensures k in DeadlinePass(db, now).states
    ensures !Overdue(db.versions[k.version], DeadlinePass(db, now).states[k], now)
  {
  }

  /**
   * The pass touches only rows of the version in force for its document, so nothing is booked or
   * blocked for a retired version or before validFrom.
   */
  lemma PassTouchesOnlyCurrent(s: Sys, k: Key)
    requires Inv(s) && s.early == {}
    requires TouchedByPass(Activate(s.db, s.now), Tick(s.db, s.now), k)
    ensures var versions := Activate(s.db, s.now).versions;
      && k.version in versions && versions[k.version].validFrom <= s.now
      && Current(versions, versions[k.version].document, s.now) == Some(k.version)
  {
    hide TouchedByPass, DeadlinePass, EvidenceAtOk, Current, Outdated, FlippedStates, RetireAll;
    var a := s.(db := Activate(s.db, s.now));
    PassTouchesDueRows(a.db, s.now, k);
    ActivationKeeps(s);
    NeverDueBeforeValidFrom(a, k);
    assert RowAtOk(a, k);
    var d := a.db.versions[k.version].document;
    assert d in s.db.documents;
    hide Flip, VersionsOk;
    OneInForce(s.db, s.db.documents.Keys, d, s.now);
    assert k.version in InForceOf(a.db.versions, d, s.now);
  }

  lemma NothingOverdue(s: Sys, k: Key)
    requires Inv(s) && k in Tick(s.db, s.now).states
    ensures k.version in Activate(s.db, s.now).versions
    ensures !Overdue(Activate(s.db, s.now).versions[k.version], Tick(s.db, s.now).states[k], s.now)
  {
    var a := s.(db := Activate(s.db, s.now));
    ActivationKeeps(s);
    assert RowAtOk(a, k);
    PassLeavesNothingOverdue(a.db, s.now, k);
  }

  /** Who is tacitly accepted and who is blocked by the pass: exactly those whose deadline has passed, by mode. */
  lemma PassOutcome(s: Sys, k: Key)
    requires Inv(s) && k in s.db.states
    ensures k.version in s.db.versions
    ensures var row, version, done := s.db.states[k], s.db.versions[k.version], DeadlinePass(s.db, s.now);
      var passed := row.deadlineAt.Some? && row.deadlineAt.value <= s.now;
      && (k in done.acceptances && k !in s.db.acceptances <==>
            passed && version.mode == Passive && row.state == Notified)
      && (done.states[k].state == ExpiredBlocking && row.state != ExpiredBlocking <==>
          passed && version.mode == Active && (row.state == PendingNotification || row.state == Notified))
      && (done.states[k].state == Accepted <==> k in done.acceptances)
  {
    assert RowAtOk(s, k) && EvidenceAtOk(s, k);
    hide Inv;
    SweptInPass(s.db, k, s.now);
    hide SweepRows, SweptRow;
  }

  /** What the pass makes of one row and its evidence. */
  lemma SweptInPass(db: Db, k: Key, now: Time)
    requires k in db.states && k.version in db.versions
    ensures var done, swept := DeadlinePass(db, now), Sweep(db.states[k], db.versions[k.version], now);
      && k in done.states
      && (if Due(db.states[k], now) then done.states[k] == swept.row else done.states[k] == db.states[k])
      && (k in done.acceptances <==> k in db.acceptances || (Due(db.states[k], now) && swept.outcome == TacitAccepted))
  {
    hide Sweep, Due;
  }

  /** No event of the run moves a deadline to before its version's validFrom. */
  ghost predicate NoEarlyEdits(s: Sys, events: seq<Timed>) {
    events == [] ||
    var before, last := Run(s, events[..|events| - 1]), events[|events| - 1].event;
    NoEarlyEdits(s, events[..|events| - 1]) && (last.PatchState? ==> !IsEarlyEdit(before.db, last.k, last.patch))
  }

  lemma {:induction false} NothingEarly(s: Sys, events: seq<Timed>)
    requires NoEarlyEdits(s, events)
    ensures Run(s, events).early == s.early
  {
    if events != [] { NothingEarly(s, events[..|events| - 1]); }
  }

  /** The hourly tick, after any run whose deadline edits stay at or after validFrom. */
  lemma TickIsSafe(events: seq<Timed>, now: Time)
    requires IsRun(START, events) && NoEarlyEdits(START, events) && Run(START, events).now <= now
    ensures var db := Run(START, events).db;
      var activated, done := Activate(db, now), Tick(db, now);
      && done.versions == activated.versions
      && (forall k | TouchedByPass(activated, done, k) ::
            && k.version in done.versions
            && done.versions[k.version].validFrom <= now
            && Current(done.versions, done.versions[k.version].document, now) == Some(k.version))
      && (forall k | k in done.states ::
            k.version in done.versions && !Overdue(done.versions[k.version], done.states[k], now))
  {
    RunKeeps(START, events);
    NothingEarly(START, events);
    var s := Run(START, events).(now := now);
    Later(Run(START, events), now);
    var activated, done := Activate(s.db, now), Tick(s.db, now);
    forall k | TouchedByPass(activated, done, k)
      ensures k.version in done.versions && done.versions[k.version].validFrom <= now
              && Current(done.versions, done.versions[k.version].document, now) == Some(k.version)
    {
      PassTouchesOnlyCurrent(s, k);
    }
    forall k | k in done.states
      ensures k.version in done.versions && !Overdue(done.versions[k.version], done.states[k], now)
    {
      NothingOverdue(s, k);
    }
  }

  // Tacit acceptance.

  /** In every reachable state, what stands behind the rows and the tacit acceptances of PASSIVE versions. */
  lemma NoTacitWithoutAccess(events: seq<Timed>, k: Key)
    requires IsRun(START, events)
    ensures var s := Run(START, events);
      && (k in s.db.states && k.version in s.db.versions && s.db.versions[k.version].mode == Passive ==>
            var row := s.db.states[k];
            row.state != ExpiredBlocking && (row.state == Notified || row.state == Objected ==> row.notifiedAt.Some?))
      && (k in s.db.acceptances && s.db.acceptances[k].how == Tacit ==>
            && k in s.db.states && k.version in s.db.versions
            && s.db.versions[k.version].mode == Passive
            && s.db.states[k].state == Accepted
            && s.db.states[k].notifiedAt.Some?
            && s.db.versions[k.version].objectionPeriodDays.Some?
            && var notifiedAt, version, at :=
               s.db.states[k].notifiedAt.value, s.db.versions[k.version], s.db.acceptances[k].acceptedAt;
            && notifiedAt <= at
            && (k !in s.edited ==> at >= notifiedAt && at >= version.validFrom)
            && (k !in s.edited && k !in s.blockedAccess ==>
                  at >= notifiedAt + version.objectionPeriodDays.value * MS_PER_DAY))
  {
    hide Run, IsRun, VersionsOk;
    StartKeeps();
    RunKeeps(START, events);
    var s := Run(START, events);
    if k in s.db.states { assert RowAtOk(s, k) && EvidenceAtOk(s, k); }
  }
}
