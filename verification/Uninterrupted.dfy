/** A request or job that nothing interrupts does what the operation of the service does. */
module Uninterrupted {
  import opened Actors
  import opened Types
  import opened StateMachine
  import opened Lifecycle
  import opened Runs
  import opened Interleaving

  /** The request starts and takes n steps, with nothing in between. */
  ghost function Alone(m: Machine, start: Step, n: nat): Machine
    requires !start.Whole? && !start.Advance?
  {
    if n == 0 then After(m, start) else After(Alone(m, start, n - 1), Advance(start.i))
  }

  lemma StepByStep(m: Machine, start: Step)
    requires !start.Whole? && !start.Advance?
    ensures Alone(m, start, 1) == After(After(m, start), Advance(start.i))
    ensures Alone(m, start, 2) == After(Alone(m, start, 1), Advance(start.i))
    ensures Alone(m, start, 3) == After(Alone(m, start, 2), Advance(start.i))
  {
    hide After;
  }

  // What a step leads to, once the request has started.

  function With(m: Machine, i: nat, a: Actor): Machine {
    m.(actors := m.actors[i := a])
  }

  lemma NotStarted(m: Machine, start: Step, n: nat)
    requires !start.Whole? && !start.Advance? && start.i !in m.actors && Started(m.s, start).None?
    ensures Alone(m, start, n) == m
  {
    hide Started, Advanced, WholeStep;
    if n > 0 { NotStarted(m, start, n - 1); }
  }

  /** Winning and appending at once is booking; the bookkeeping is back where it was. */
  lemma WinAndAppend(m: Machine, i: nat, k: Key, evidence: Acceptance, a: Actor)
    requires i !in m.actors && k in m.s.db.states && k !in m.owed && evidence.acceptedAt == m.s.now
    ensures var won := Win(With(m, i, a), i, k, evidence);
      AppendStep(won, i, k, evidence) == m.(s := m.s.(db := Book(m.s.db, k, m.s.db.states[k], evidence).db))
  {
    assert m.actors[i := Appending(k, evidence)] - {i} == m.actors;
    assert m.owed[k := evidence] - {k} == m.owed;
  }

  /** From the checks on: read the row, win the transition, append. */
  lemma AcceptsAlone(m: Machine, i: nat, k: Key, evidence: Acceptance)
    requires i !in m.actors && k in m.s.db.states && k !in m.owed && evidence.acceptedAt == m.s.now
    ensures var one := After(With(m, i, Checked(k, evidence)), Advance(i));
      After(After(one, Advance(i)), Advance(i))
      == if AcceptError(m.s.db.states[k], evidence.how).Some? then m
         else m.(s := m.s.(db := Book(m.s.db, k, m.s.db.states[k], evidence).db))
  {
    hide Effect, Started, Book, Append, AppendStep, Win;
    var row := m.s.db.states[k];
    var checked := With(m, i, Checked(k, evidence));
    if AcceptError(row, evidence.how).Some? {
      assert checked.actors - {i} == m.actors;
    } else {
      var accepting := With(m, i, Accepting(k, evidence, row));
      assert After(checked, Advance(i)) == accepting;
      assert After(accepting, Advance(i)) == Win(accepting, i, k, evidence);
      WinAndAppend(m, i, k, evidence, Accepting(k, evidence, row));
      WonIsAppending(accepting, i, k, evidence);
    }
  }

  lemma WonIsAppending(m: Machine, i: nat, k: Key, evidence: Acceptance)
    requires k in m.s.db.states
    ensures After(Win(m, i, k, evidence), Advance(i)) == AppendStep(Win(m, i, k, evidence), i, k, evidence)
  {
    hide Effect, Started, AppendStep;
  }

  lemma ConsentEffect(s: Sys, k: Key, displayed: Option<string>, channel: Channel)
    requires k in s.db.states
    ensures Effect(s, GiveConsent(k, displayed, channel)) == s.(db := Consent(s.db, k, displayed, channel, s.now).db)
  {
    hide Consent;
  }

  /** Consent to an existing row. */
  lemma ConsentAlone(m: Machine, i: nat, k: Key, displayed: Option<string>, channel: Channel)
    requires i !in m.actors && k in m.s.db.states && k !in m.owed
    ensures Alone(m, StartConsent(i, k, displayed, channel), 3)
      == m.(s := Effect(m.s, GiveConsent(k, displayed, channel)))
  {
    hide Book, Advanced, WholeStep, Effect;
    var start := StartConsent(i, k, displayed, channel);
    ConsentEffect(m.s, k, displayed, channel);
    if ConsentRefused(m.s.db, k, displayed, channel, m.s.now).Some? {
      NotStarted(m, start, 3);
    } else {
      var evidence := ConsentEvidence(m.s.db.versions[k.version], channel, m.s.now);
      assert After(m, start) == With(m, i, Checked(k, evidence));
      StepByStep(m, start);
      AcceptsAlone(m, i, k, evidence);
    }
  }

  lemma ManualEffect(s: Sys, k: Key, recording: Recording)
    requires k in s.db.states
    ensures Effect(s, RecordManually(k, recording)) == s.(db := Manual(s.db, k, recording, s.now).db)
  {
    hide Manual;
  }

  /** Recording on an existing row. */
  lemma ManualAlone(m: Machine, i: nat, k: Key, recording: Recording)
    requires i !in m.actors && k in m.s.db.states && k !in m.owed
    ensures Alone(m, StartManual(i, k, recording), 3) == m.(s := Effect(m.s, RecordManually(k, recording)))
  {
    hide Book, Advanced, WholeStep, Effect;
    var start := StartManual(i, k, recording);
    ManualEffect(m.s, k, recording);
    if ManualRefused(m.s.db, k, recording).Some? {
      NotStarted(m, start, 3);
    } else {
      var evidence := ManualEvidence(m.s.db.versions[k.version], recording, m.s.now);
      assert After(m, start) == With(m, i, Checked(k, evidence));
      StepByStep(m, start);
      AcceptsAlone(m, i, k, evidence);
    }
  }

  lemma ObjectionEffect(s: Sys, k: Key)
    ensures Effect(s, ObjectTo(k)) == s.(db := RaiseObjection(s.db, k, s.now).db)
  {
    hide RaiseObjection;
  }

  lemma ObjectsAlone(m: Machine, i: nat, k: Key, seen: Row)
    requires i !in m.actors && Matches(m.s.db.states, k, Notified)
    ensures After(After(With(m, i, Objecting(k, seen)), Advance(i)), Advance(i))
         == m.(s := m.s.(db := m.s.db.(states := m.s.db.states[k := m.s.db.states[k].(state := Objected)],
                                       objections := m.s.db.objections + [Objection(k, m.s.now)])))
  {
    hide Effect, Started;
    var objecting := With(m, i, Objecting(k, seen));
    var noting := objecting.(s := Moved(m.s, k, Objected), actors := objecting.actors[i := Noting(k)]);
    assert After(objecting, Advance(i)) == noting;
    assert noting.actors - {i} == m.actors;
  }

  lemma ObjectionAlone(m: Machine, i: nat, k: Key)
    requires i !in m.actors
    ensures Alone(m, StartObjection(i, k), 2) == m.(s := Effect(m.s, ObjectTo(k)))
  {
    hide Advanced, WholeStep, Effect;
    ObjectionEffect(m.s, k);
    if Started(m.s, StartObjection(i, k)).None? {
      NotStarted(m, StartObjection(i, k), 2);
    } else {
      var row := m.s.db.states[k];
      assert After(m, StartObjection(i, k)) == With(m, i, Objecting(k, row));
      StepByStep(m, StartObjection(i, k));
      ObjectsAlone(m, i, k, row);
    }
  }

  lemma SweptAlone(m: Machine, i: nat, k: Key)
    requires i !in m.actors && k in m.s.db.states && k !in m.owed
    ensures After(After(With(m, i, Sweeping(k, m.s.db.states[k])), Advance(i)), Advance(i))
         == m.(s := m.s.(db := SweptOnto(m.s.db, k, m.s.db.states[k], m.s.now)))
  {
    hide Effect, Started, Append, AppendStep, Win;
    var row := m.s.db.states[k];
    var sweeping := With(m, i, Sweeping(k, row));
    assert sweeping.actors - {i} == m.actors;
    if k.version in m.s.db.versions && Sweep(row, m.s.db.versions[k.version], m.s.now).outcome == TacitAccepted {
      var evidence := TacitAcceptance(m.s.db.versions[k.version], m.s.now);
      WinAndAppend(m, i, k, evidence, Sweeping(k, row));
      WonIsAppending(sweeping, i, k, evidence);
    }
  }

  lemma NothingDue(db: Db, k: Key, now: Time)
    requires k in db.states ==> !Due(db.states[k], now)
    ensures SweepRows(db, {k}, now) == db
  {
  }

  /** Sweeping one row, due or not. */
  lemma SweepAlone(m: Machine, i: nat, k: Key)
    requires i !in m.actors && k !in m.owed
    ensures Alone(m, StartSweep(i, k), 2) == m.(s := m.s.(db := SweepRows(m.s.db, {k}, m.s.now)))
  {
    hide Advanced, WholeStep, Effect, SweepRows, SweptOnto, Due;
    if Started(m.s, StartSweep(i, k)).None? {
      NotStarted(m, StartSweep(i, k), 2);
      NothingDue(m.s.db, k, m.s.now);
    } else {
      assert After(m, StartSweep(i, k)) == With(m, i, Sweeping(k, m.s.db.states[k]));
      StepByStep(m, StartSweep(i, k));
      SweptAlone(m, i, k);
      SweptAsObserved(m.s.db, k, m.s.now);
    }
  }

  lemma RemindsAlone(m: Machine, i: nat, k: Key, sent: nat)
    requires i !in m.actors && k in m.s.db.states
    ensures After(With(m, i, Reminding(k, m.s.db.states[k], sent)), Advance(i))
         == m.(s := m.s.(db := UpdateRow(m.s.db, k, m.s.db.states[k].(remindersSent := sent))))
  {
    hide Effect, Started;
    assert With(m, i, Reminding(k, m.s.db.states[k], sent)).actors - {i} == m.actors;
  }

  lemma ReminderEffect(s: Sys, k: Key)
    ensures Effect(s, SendReminders(k))
      == if k in s.db.states && k.version in s.db.versions
            && (s.db.states[k].state == PendingNotification || s.db.states[k].state == Notified)
         then s.(db := UpdateRow(s.db, k, Reminded(s.db.states[k], s.db.versions[k.version], s.now))) else s
  {
    hide Reminded;
  }

  lemma ReminderAlone(m: Machine, i: nat, k: Key)
    requires i !in m.actors
    ensures Alone(m, StartReminder(i, k), 1) == m.(s := Effect(m.s, SendReminders(k)))
  {
    hide Advanced, WholeStep, Effect;
    ReminderEffect(m.s, k);
    if Started(m.s, StartReminder(i, k)).None? {
      NotStarted(m, StartReminder(i, k), 1);
    } else {
      var sent := Reminded(m.s.db.states[k], m.s.db.versions[k.version], m.s.now).remindersSent;
      assert After(m, StartReminder(i, k)) == With(m, i, Reminding(k, m.s.db.states[k], sent));
      RemindsAlone(m, i, k, sent);
    }
  }

  /** Whatever has happened meanwhile, a reminder job that had nothing to send writes nothing. */
  lemma IdleReminderWritesNothing(m: Machine, i: nat, k: Key, seen: Row)
    requires i in m.actors && m.actors[i] == Reminding(k, seen, seen.remindersSent)
    ensures After(m, Advance(i)).s == m.s
  {
    hide Effect, Started;
  }

  lemma AccessesAlone(m: Machine, i: nat, k: Key, update: Row, carried: bool)
    requires i !in m.actors
    ensures After(With(m, i, Accessing(k, update, carried)), Advance(i))
         == if Matches(m.s.db.states, k, PendingNotification) && m.s.db.states[k].notifiedAt.None?
            then m.(s := Accessed(m.s, k, m.s.db.states[k].(state := update.state, notifiedAt := update.notifiedAt,
                                                            deadlineAt := update.deadlineAt), carried))
            else m
  {
    hide Effect, Started;
    assert With(m, i, Accessing(k, update, carried)).actors - {i} == m.actors;
  }

  /** The first access of a row that is in order, or any later one. */
  lemma AccessEffect(s: Sys, k: Key)
    requires k in s.db.states ==> RowAtOk(s, k) && ContentError(s.db.versions[k.version]).None?
    ensures Effect(s, Access(k)) == s.(db := Notify(s.db, k, s.now).db, blockedAccess := BlockedAfterAccess(s, k))
    ensures !Matches(s.db.states, k, PendingNotification) ==> Effect(s, Access(k)) == s
    ensures Matches(s.db.states, k, PendingNotification) ==>
      var row, version := s.db.states[k], s.db.versions[k.version];
      && row.notifiedAt.None? && RecordAccess(row, s.now, version, row.carryOverBlocking).Ok?
      && Effect(s, Access(k))
         == Accessed(s, k, RecordAccess(row, s.now, version, row.carryOverBlocking).value, row.carryOverBlocking)
  {
  }

  lemma AccessStarts(m: Machine, i: nat, k: Key)
    requires i !in m.actors
    ensures var started := Started(m.s, StartAccess(i, k));
      && After(m, StartAccess(i, k)) == (if started.None? then m else With(m, i, started.value))
      && (started.Some? ==>
            && k in m.s.db.states && k.version in m.s.db.versions
            && var row := m.s.db.states[k];
            && var update := RecordAccess(row, m.s.now, m.s.db.versions[k.version], row.carryOverBlocking);
            && update.Ok? && started.value == Accessing(k, update.value, row.carryOverBlocking))
      && (started.None? ==> k in m.s.db.states && k.version in m.s.db.versions ==>
            var row := m.s.db.states[k];
            RecordAccess(row, m.s.now, m.s.db.versions[k.version], row.carryOverBlocking).Err?)
  {
    hide RecordAccess, Advanced, WholeStep;
  }

  lemma AccessAlone(m: Machine, i: nat, k: Key)
    requires i !in m.actors
    requires k in m.s.db.states ==> RowAtOk(m.s, k) && ContentError(m.s.db.versions[k.version]).None?
    ensures Alone(m, StartAccess(i, k), 1) == m.(s := Effect(m.s, Access(k)))
  {
    AccessEffect(m.s, k);
    AccessStarts(m, i, k);
    StepByStep(m, StartAccess(i, k));
    hide Effect, Started, After, Alone, RowOk, ContentError, RecordAccess, BlockedAfterAccess;
    var started := Started(m.s, StartAccess(i, k));
    if started.Some? {
      AccessesAlone(m, i, k, started.value.update, started.value.carried);
    } else {
      NotStarted(m, StartAccess(i, k), 1);
    }
  }

  // What an interruption can do: a deadline edit between the read and the write of a display.

  lemma EditEffect(s: Sys, k: Key, patch: PatchInput)
    requires k in s.db.states && EditsDeadline(patch) && !patch.suspendBlock && !Blank(patch.reason)
    ensures Effect(s, PatchState(k, patch)).db
         == UpdateRow(s.db, k, s.db.states[k].(deadlineAt := patch.deadlineAt))
  {
  }

  /** The first access of an ACTIVE version keeps the deadline it has read. */
  lemma ActiveAccessStarts(m: Machine, i: nat, k: Key)
    requires i !in m.actors && k.version in m.s.db.versions && m.s.db.versions[k.version].mode == Active
    requires Matches(m.s.db.states, k, PendingNotification) && m.s.db.states[k].notifiedAt.None?
    ensures var row := m.s.db.states[k];
      var update := row.(state := Notified, notifiedAt := Some(m.s.now));
      After(m, StartAccess(i, k)) == With(m, i, Accessing(k, update, row.carryOverBlocking))
  {
    hide Effect, Advanced, WholeStep;
  }

  lemma EditStep(m: Machine, k: Key, patch: PatchInput)
    requires k in m.s.db.states && EditsDeadline(patch) && !patch.suspendBlock && !Blank(patch.reason)
    ensures After(m, Whole(PatchState(k, patch))) == m.(s := Effect(m.s, PatchState(k, patch)))
  {
    hide Effect, Patch;
  }

  /** A deadline edit of a pending row of an ACTIVE version. */
  predicate EditableWhilePending(s: Sys, k: Key, patch: PatchInput) {
    && k.version in s.db.versions && s.db.versions[k.version].mode == Active
    && Matches(s.db.states, k, PendingNotification) && s.db.states[k].notifiedAt.None?
    && EditsDeadline(patch) && !patch.suspendBlock && !Blank(patch.reason)
  }

  lemma EditBetween(m: Machine, i: nat, k: Key, patch: PatchInput)
    requires i !in m.actors && EditableWhilePending(m.s, k, patch)
    ensures var started := After(m, StartAccess(i, k));
      var between := After(After(started, Whole(PatchState(k, patch))), Advance(i)).s.db.states;
      Matches(between, k, Notified) && between[k].deadlineAt == m.s.db.states[k].deadlineAt
  {
    ActiveAccessStarts(m, i, k);
    var row := m.s.db.states[k];
    var update := row.(state := Notified, notifiedAt := Some(m.s.now));
    var started := With(m, i, Accessing(k, update, row.carryOverBlocking));
    EditStep(started, k, patch);
    EditEffect(m.s, k, patch);
    hide Effect, After;
    var edited := m.(s := Effect(m.s, PatchState(k, patch)));
    assert With(edited, i, Accessing(k, update, row.carryOverBlocking)) == After(started, Whole(PatchState(k, patch)));
    AccessesAlone(edited, i, k, update, row.carryOverBlocking);
  }

  lemma EditBefore(m: Machine, i: nat, k: Key, patch: PatchInput)
    requires i !in m.actors && EditableWhilePending(m.s, k, patch)
    ensures var edited := After(m, Whole(PatchState(k, patch)));
      var after := After(After(edited, StartAccess(i, k)), Advance(i)).s.db.states;
      Matches(after, k, Notified) && after[k].deadlineAt == patch.deadlineAt
  {
    EditStep(m, k, patch);
    EditEffect(m.s, k, patch);
    hide Effect;
    var edited := m.(s := Effect(m.s, PatchState(k, patch)));
    ActiveAccessStarts(edited, i, k);
    hide After;
    var row := edited.s.db.states[k];
    AccessesAlone(edited, i, k, row.(state := Notified, notifiedAt := Some(edited.s.now)), row.carryOverBlocking);
  }

  lemma EditAfter(m: Machine, i: nat, k: Key, patch: PatchInput)
    requires i !in m.actors && EditableWhilePending(m.s, k, patch)
    ensures var displayed := After(After(m, StartAccess(i, k)), Advance(i));
      var after := After(displayed, Whole(PatchState(k, patch))).s.db.states;
      Matches(after, k, Notified) && after[k].deadlineAt == patch.deadlineAt
  {
    ActiveAccessStarts(m, i, k);
    hide Effect, After;
    var row := m.s.db.states[k];
    var update := row.(state := Notified, notifiedAt := Some(m.s.now));
    AccessesAlone(m, i, k, update, row.carryOverBlocking);
    var displayed := After(After(m, StartAccess(i, k)), Advance(i));
    EditStep(displayed, k, patch);
    EditEffect(displayed.s, k, patch);
  }

  /**
   * An edit that comes in between is lost: the deadline is the one the display has read, so the edit stands
   * exactly when it changed nothing. Before or after the whole display it always stands.
   */
  lemma EditDuringDisplayIsLost(m: Machine, i: nat, k: Key, patch: PatchInput)
    requires i !in m.actors && EditableWhilePending(m.s, k, patch)
    ensures var started := After(m, StartAccess(i, k));
      var between := After(After(started, Whole(PatchState(k, patch))), Advance(i)).s.db.states;
      && Matches(between, k, Notified)
      && (between[k].deadlineAt == patch.deadlineAt <==> m.s.db.states[k].deadlineAt == patch.deadlineAt)
    ensures var edited := After(m, Whole(PatchState(k, patch)));
      var after := After(After(edited, StartAccess(i, k)), Advance(i)).s.db.states;
      Matches(after, k, Notified) && after[k].deadlineAt == patch.deadlineAt
    ensures var displayed := After(After(m, StartAccess(i, k)), Advance(i));
      var after := After(displayed, Whole(PatchState(k, patch))).s.db.states;
      Matches(after, k, Notified) && after[k].deadlineAt == patch.deadlineAt
  {
    hide After;
    EditBetween(m, i, k, patch);
    EditBefore(m, i, k, patch);
    EditAfter(m, i, k, patch);
  }
}
