/** Reminders over whole runs: none is sent early, none is skipped, and rows of PASSIVE versions get none. */
module Reminders {
  import opened Types
  import opened StateMachine
  import opened Lifecycle
  import opened Customers
  import opened Runs
  import opened Invariants
  import opened Permanence
  import opened Rows
  import opened Evidence

  /** How many of the two reminders, seven and two days before the deadline, are due. */
  function RemindersDue(deadline: Option<Time>, now: Time): nat {
    if deadline.None? then 0 else
      (if deadline.value - 604_800_000 <= now then 1 else 0) + (if deadline.value - 172_800_000 <= now then 1 else 0)
  }

  // One reminder run.

  /** A run sends what is due and not sent yet; a counter that is ahead is left alone. */
  lemma RunCatchesUp(row: Row, version: Version, now: Time)
    ensures var after := Reminded(row, version, now);
      && after == row.(remindersSent := after.remindersSent)
      && (version.mode == Passive ==> after.remindersSent == row.remindersSent)
      && (version.mode == Active ==>
            var due := RemindersDue(row.deadlineAt, now);
            after.remindersSent == if row.remindersSent < due then due else row.remindersSent)
  {
    if version.mode == Active && row.deadlineAt.Some? {
      var deadline := row.deadlineAt.value;
      assert RemindersAfter(deadline, 2, now) == 2;
      assert RemindersAfter(deadline, 1, now) == if deadline - 172_800_000 <= now then 2 else 1;
      assert RemindersAfter(deadline, 0, now)
        == if deadline - 604_800_000 <= now then RemindersAfter(deadline, 1, now) else 0;
    }
  }

  // Whole runs.

  /** The counter of an unedited ACTIVE row never exceeds what is due; that of a PASSIVE row is zero. */
  predicate CounterOk(s: Sys, k: Key) {
    k in s.db.states && k.version in s.db.versions ==>
      && (s.db.versions[k.version].mode == Passive ==> s.db.states[k].remindersSent == 0)
      && (s.db.versions[k.version].mode == Active && k !in s.edited ==>
            s.db.states[k].remindersSent <= RemindersDue(s.db.states[k].deadlineAt, s.now))
  }

  /** No reminder is counted, and the deadline moves only by a repair or with the first access of a PASSIVE row. */
  predicate CounterKept(s: Sys, after: map<Key, Row>, edited: set<Key>, k: Key) {
    k in after ==>
      if k in s.db.states && k.version in s.db.versions then
        && after[k].remindersSent == s.db.states[k].remindersSent
        && (after[k].deadlineAt == s.db.states[k].deadlineAt || k in edited || s.db.versions[k.version].mode == Passive)
      else after[k].remindersSent == 0
  }

  lemma PublishKeepsCounter(s: Sys, v: nat, k: Key)
    requires Inv(s)
    ensures CounterKept(s, Publish(s.db, v, s.now).db.states, s.edited, k)
  {
    hide Inv, Publish;
    PublishSucceedsExactly(s.db, v, s.now);
    RowHasVersion(s, k);
    if Publish(s.db, v, s.now).error.None? {
      NoDraftRow(s, v);
      if k.version == v {
        NewRowAfterPublish(s.db, v, s.now, k.customer);
        } else { OldRowAfterPublish(s.db, v, s.now, k);
      }
    }
  }

  lemma RowHasVersion(s: Sys, k: Key)
    requires Inv(s)
    ensures k in s.db.states ==>
      && k.version in s.db.versions && s.db.versions[k.version].status != Draft && k.customer in s.db.customers
      && (s.db.versions[k.version].mode == Passive ==> s.db.versions[k.version].objectionPeriodDays.Some?)
  {
    hide EvidenceAtOk;
    if k in s.db.states { assert RowAtOk(s, k) && VersionOk(s.db.versions[k.version], s.now); }
  }

  lemma ActivationKeepsCounter(s: Sys, k: Key)
    requires Inv(s)
    ensures CounterKept(s, Activate(s.db, s.now).states, s.edited, k)
  {
    hide Inv, Activate, InheritsBlock;
    RowHasVersion(s, k);
    RowAfterActivation(s.db, s.now, k);
    if k in Activate(s.db, s.now).states && k !in s.db.states { NewRowAfterActivation(s.db, s.now, k); }
  }

  lemma TickKeepsCounter(s: Sys, k: Key)
    requires Inv(s)
    ensures CounterKept(s, Tick(s.db, s.now).states, s.edited, k)
  {
    hide Inv, Activate, DeadlinePass;
    ActivationKeepsCounter(s, k);
    PassOnlyAdds(Activate(s.db, s.now), s.now);
  }

  lemma AccessKeepsCounter(s: Sys, k: Key, j: Key)
    requires Inv(s)
    ensures CounterKept(s, Notify(s.db, k, s.now).db.states, s.edited, j)
  {
    hide Inv, Notify;
    RowHasVersion(s, k);
    RowHasVersion(s, j);
    if k in s.db.states { RowAfterAccess(s.db, k, s.now); } else { AccessFailsExactly(s.db, k, s.now); }
  }

  lemma ConsentKeepsCounter(s: Sys, k: Key, displayed: Option<string>, channel: Channel, j: Key)
    requires Inv(s)
    ensures CounterKept(s, Consent(s.db, k, displayed, channel, s.now).db.states, s.edited, j)
  {
    RowHasVersion(s, j);
    ConsentKeeps(s, k, displayed, channel);
    hide Inv, ConsentError, Book;
    if Consent(s.db, k, displayed, channel, s.now).error.None? { ConsentBooks(s.db, k, displayed, channel, s.now); }
  }

  lemma ManualKeepsCounter(s: Sys, k: Key, recording: Recording, j: Key)
    requires Inv(s) && Legal(s.db, RecordManually(k, recording))
    ensures CounterKept(s, Manual(s.db, k, recording, s.now).db.states, s.edited, j)
  {
    RowHasVersion(s, j);
    ManualKeeps(s, k, recording);
    hide Inv, ManualError, Book;
    if Manual(s.db, k, recording, s.now).error.None? { RecordingBooks(s.db, k, recording, s.now); }
  }

  lemma ObjectionKeepsCounter(s: Sys, k: Key, j: Key)
    requires Inv(s)
    ensures CounterKept(s, RaiseObjection(s.db, k, s.now).db.states, s.edited, j)
  {
    hide Inv, RaiseObjection;
    RowHasVersion(s, j);
    ObjectionSucceedsExactly(s.db, k, s.now);
  }

  lemma RepairKeepsCounter(s: Sys, k: Key, patch: PatchInput, j: Key)
    requires Inv(s)
    ensures CounterKept(s, Patch(s.db, k, patch).db.states, EditedAfterPatch(s, k, patch), j)
  {
    hide Inv, Patch;
    RowHasVersion(s, j);
    RepairSucceedsExactly(s.db, k, patch);
  }

  lemma OnboardingKeepsCounter(s: Sys, before: Db, c: nat, roles: seq<string>, k: Key)
    requires Inv(s) && CounterKept(s, before.states, s.edited, k) && (k in s.db.states ==> k in before.states)
    ensures CounterKept(s, Onboard(before, c, roles, s.now).states, s.edited, k)
  {
    hide Inv, Onboard, Owed;
    RowHasVersion(s, k);
    RowAfterOnboarding(before, c, roles, s.now, k);
  }

  lemma CreateKeepsCounter(s: Sys, c: nat, input: CustomerInput, k: Key)
    requires Inv(s) && c !in s.db.customers
    ensures CounterKept(s, Create(s.db, c, input, s.now).db.states, s.edited, k)
  {
    RowHasVersion(s, k);
    hide Inv, Onboard, Imports;
    if CreateError(s.db, input, s.now).None? {
      var saved := s.db.(customers := s.db.customers[c := NewCustomer(input)]);
      var imported := ImportAll(saved, c, Imports(s.db, input, s.now).value);
      OnboardingKeepsCounter(s, imported, c, input.roles, k);
    }
  }

  lemma UpdateKeepsCounter(s: Sys, c: nat, changes: Changes, k: Key)
    requires Inv(s)
    ensures CounterKept(s, Update(s.db, c, changes, s.now).db.states, s.edited, k)
  {
    RowHasVersion(s, k);
    hide Inv, Onboard, Changed;
    if UpdateError(s.db, c, changes).None? {
      var saved := s.db.(customers := s.db.customers[c := Changed(s.db.customers[c], changes)]);
      OnboardingKeepsCounter(s, saved, c,
          if changes.roles.Some? then Added(changes.roles.value, s.db.customers[c].roles) else [], k);
    }
  }

  lemma UpsertKeepsCounter(s: Sys, c: nat, input: CustomerInput, k: Key)
    requires Inv(s) && c !in s.db.customers
    ensures CounterKept(s, Upsert(s.db, c, input, s.now).done.db.states, s.edited, k)
  {
    RowHasVersion(s, k);
    hide Inv, Create, Update, Upsert, Resolve, Reactivated;
    var t, changes := UpsertCases(s.db, c, input, s.now);
    CreateKeepsCounter(s, c, Plain(input), k);
    UpdateKeepsCounter(s, t, changes, k);
  }

  lemma AdministrationKeepsCounter(s: Sys, e: Event, k: Key)
    requires Inv(s) && IsAdministration(e)
    ensures CounterKept(s, Effect(s, e).db.states, Effect(s, e).edited, k)
  {
    hide Inv, Create, Update, Upsert, CounterKept;
    NothingCounted(s, k);
    match e
    case CreateCustomer(c, input) => if c !in s.db.customers { CreateKeepsCounter(s, c, input, k); }
    case UpdateCustomer(c, changes) => UpdateKeepsCounter(s, c, changes, k);
    case UpsertCustomer(c, input) => if c !in s.db.customers { UpsertKeepsCounter(s, c, input, k); }
    case _ =>
  }

  lemma NothingCounted(s: Sys, k: Key)
    requires Inv(s)
    ensures CounterKept(s, s.db.states, s.edited, k)
  {
    RowHasVersion(s, k);
    hide Inv;
  }

  lemma OperationKeepsCounter(s: Sys, e: Event, k: Key)
    requires Inv(s) && !IsAdministration(e) && !e.SendReminders? && Legal(s.db, e)
    ensures CounterKept(s, Effect(s, e).db.states, Effect(s, e).edited, k)
  {
    hide Inv, CounterKept, Publish, Activate, Tick, Notify, Consent, Manual, RaiseObjection, Patch, EditedAfterPatch;
    match e
    case PublishVersion(v) => PublishKeepsCounter(s, v, k);
    case ActivationRun => ActivationKeepsCounter(s, k);
    case HourlyTick => TickKeepsCounter(s, k);
    case Access(j) => AccessKeepsCounter(s, j, k);
    case GiveConsent(j, displayed, channel) => ConsentKeepsCounter(s, j, displayed, channel, k);
    case RecordManually(j, recording) => ManualKeepsCounter(s, j, recording, k);
    case ObjectTo(j) => ObjectionKeepsCounter(s, j, k);
    case PatchState(j, patch) => RepairKeepsCounter(s, j, patch, k);
    case ClearNotificationDue(j) => ClearingKeepsCounter(s, j, k);
  }

  lemma ClearingKeepsCounter(s: Sys, j: Key, k: Key)
    requires Inv(s)
    ensures CounterKept(s, Effect(s, Event.ClearNotificationDue(j)).db.states, s.edited, k)
  {
    RowHasVersion(s, k);
    hide Inv;
  }

  /** What the counter may be survives anything that keeps counter and deadline. */
  lemma KeptIsOk(s: Sys, s': Sys, k: Key)
    requires Inv(s) && CounterOk(s, k) && CounterKept(s, s'.db.states, s'.edited, k)
    requires s.edited <= s'.edited && s'.now == s.now && ContentPersists(s.db.versions, s'.db.versions)
    ensures CounterOk(s', k)
  {
    RowHasVersion(s, k);
    hide Inv;
  }

  lemma ReminderKeepsOk(s: Sys, j: Key, k: Key)
    requires Inv(s) && CounterOk(s, k)
    ensures CounterOk(Effect(s, SendReminders(j)), k)
  {
    if j in s.db.states && j.version in s.db.versions { RunCatchesUp(s.db.states[j], s.db.versions[j.version], s.now); }
    hide Inv, Reminded;
  }

  lemma StepCounts(s: Sys, e: Event, k: Key)
    requires Inv(s) && Legal(s.db, e) && CounterOk(s, k)
    ensures CounterOk(Effect(s, e), k)
  {
    hide Inv, CounterOk, CounterKept, Legal;
    if e.SendReminders? {
      ReminderKeepsOk(s, e.k, k);
    } else {
      if IsAdministration(e) { AdministrationKeepsCounter(s, e, k); } else { OperationKeepsCounter(s, e, k); }
      StepPersists(s, e);
      EditsStay(s, e);
      hide Effect;
      KeptIsOk(s, Effect(s, e), k);
    }
  }

  lemma EditsStay(s: Sys, e: Event)
    ensures s.edited <= Effect(s, e).edited && Effect(s, e).now == s.now
  {
    hide Apply;
  }

  /** No reminder is ever early: none before its day for an unedited deadline, and none at all for a PASSIVE version. */
  lemma {:induction false} NoEarlyReminder(events: seq<Timed>, k: Key)
    requires IsRun(START, events)
    ensures CounterOk(Run(START, events), k)
  {
    hide Inv, Effect, Legal;
    StartKeeps();
    if events != [] {
      var last, rest := events[|events| - 1], events[..|events| - 1];
      var before := Run(START, rest);
      NoEarlyReminder(rest, k);
      RunKeeps(START, rest);
      Later(before, last.at);
      LegalLater(before, last.at, last.event);
      StepCounts(before.(now := last.at), last.event, k);
    }
  }

  lemma LegalLater(s: Sys, now: Time, e: Event)
    requires Legal(s.db, e)
    ensures Legal(s.(now := now).db, e)
  {
  }

  /** No reminder is skipped: a run on an open, unedited ACTIVE row brings its counter to exactly what is due. */
  lemma RemindersCatchUp(events: seq<Timed>, k: Key, now: Time)
    requires IsRun(START, events) && Run(START, events).now <= now
    requires var s := Run(START, events);
      && k in s.db.states && k.version in s.db.versions && k !in s.edited
      && s.db.versions[k.version].mode == Active
      && (s.db.states[k].state == PendingNotification || s.db.states[k].state == Notified)
    ensures var before, after :=
      Run(START, events).db.states, Run(START, events + [Timed(now, SendReminders(k))]).db.states;
      && IsRun(START, events + [Timed(now, SendReminders(k))])
      && k in after && after[k].remindersSent == RemindersDue(before[k].deadlineAt, now)
  {
    hide Inv, Reminded, Run, IsRun, RemindersDue;
    NoEarlyReminder(events, k);
    var s := Run(START, events);
    RunGoesOn(START, events, SendReminders(k), now);
    RunCatchesUp(s.db.states[k], s.db.versions[k.version], now);
    DueGrows(s.db.states[k].deadlineAt, s.now, now);
  }

  lemma DueGrows(deadline: Option<Time>, now: Time, later: Time)
    requires now <= later
    ensures RemindersDue(deadline, now) <= RemindersDue(deadline, later)
  {
  }
}
