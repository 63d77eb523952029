/** What no event ever takes back: rows, terminal states, evidence, and published content. */
module Permanence {
  import opened Types
  import opened StateMachine
  import opened Lifecycle
  import opened Customers
  import opened Runs
  import opened Invariants

  /**
   * Rows are never deleted, never leave ACCEPTED or SUPERSEDED, never go back to pending, keep their
   * first access and owe no second e-mail.
   */
  predicate RowsPersist(before: Db, after: Db) {
    forall k | k in before.states ::
      && k in after.states
      && (!IsOpen(before.states[k].state) ==> after.states[k].state == before.states[k].state)
      && (before.states[k].state != PendingNotification ==> after.states[k].state != PendingNotification)
      && (before.states[k].notifiedAt.Some? ==> after.states[k].notifiedAt == before.states[k].notifiedAt)
      && (before.states[k].notificationDueAt.None? ==> after.states[k].notificationDueAt.None?)
  }

  predicate EvidencePersists(before: Db, after: Db) {
    && (forall k | k in before.acceptances :: k in after.acceptances && after.acceptances[k] == before.acceptances[k])
    && before.objections <= after.objections
  }

  /** A published version keeps its content; its status can only go on to RETIRED. */
  predicate ContentPersists(before: map<nat, Version>, after: map<nat, Version>) {
    forall v | v in before && before[v].status != Draft ::
      && v in after
      && (after[v] == before[v] || after[v] == before[v].(status := Retired))
  }

  predicate Persists(before: Db, after: Db) {
    RowsPersist(before, after) && EvidencePersists(before, after) && ContentPersists(before.versions, after.versions)
  }

  lemma PersistsTransitively(a: Db, b: Db, c: Db)
    requires Persists(a, b) && Persists(b, c)
    ensures Persists(a, c)
  {
  }

  lemma UnrelatedPersists(before: Db, after: Db)
    requires after.states == before.states && after.acceptances == before.acceptances
    requires after.objections == before.objections && after.versions == before.versions
    ensures Persists(before, after)
  {
  }

  /** Rewriting one row persists what the row itself has to keep. */
  lemma OneRowPersists(before: Db, after: Db, k: Key)
    requires k in before.states && k in after.states && after.states == before.states[k := after.states[k]]
    requires after.acceptances == before.acceptances && before.objections <= after.objections
    requires after.versions == before.versions
    requires var row, row' := before.states[k], after.states[k];
      && (!IsOpen(row.state) ==> row'.state == row.state)
            && (row'.state == PendingNotification ==> row.state == PendingNotification)
      && (row.notifiedAt.Some? ==> row'.notifiedAt == row.notifiedAt)
      && (row.notificationDueAt.None? ==> row'.notificationDueAt.None?)
    ensures Persists(before, after)
  {
  }

  lemma DraftSavePersists(db: Db, v: nat, draft: Version)
    ensures Persists(db, SaveDraftTo(db, v, draft))
  {
  }

  lemma DraftDeletionPersists(db: Db, v: nat)
    ensures Persists(db, DeleteDraftFrom(db, v))
  {
  }

  lemma AccessPersists(db: Db, k: Key, now: Time)
    ensures Persists(db, Notify(db, k, now).db)
  {
    hide Persists;
    if Notify(db, k, now).db == db {
      UnrelatedPersists(db, db);
    } else {
      OneRowPersists(db, Notify(db, k, now).db, k);
    }
  }

  lemma ObjectionPersists(db: Db, k: Key, now: Time)
    ensures Persists(db, RaiseObjection(db, k, now).db)
  {
    hide Persists;
    if RaiseObjection(db, k, now).error.Some? {
      UnrelatedPersists(db, db);
    } else {
      OneRowPersists(db, RaiseObjection(db, k, now).db, k);
    }
  }

  lemma PatchPersists(db: Db, k: Key, patch: PatchInput)
    ensures Persists(db, Patch(db, k, patch).db)
  {
    hide Persists;
    if Patch(db, k, patch).error.Some? {
      UnrelatedPersists(db, db);
    } else {
      OneRowPersists(db, Patch(db, k, patch).db, k);
    }
  }

  lemma BookkeepingPersists(db: Db, k: Key, row: Row)
    requires k in db.states && row.state == db.states[k].state && row.notifiedAt == db.states[k].notifiedAt
    requires db.states[k].notificationDueAt.None? ==> row.notificationDueAt.None?
    ensures Persists(db, UpdateRow(db, k, row))
  {
    hide Persists;
    OneRowPersists(db, UpdateRow(db, k, row), k);
  }

  lemma PublishedRowsPersist(db: Db, v: nat, now: Time)
    requires PublishError(db, v).None? && forall k | k in db.states :: k.version != v
    ensures RowsPersist(db, PublishTo(db, v, now))
  {
  }

  lemma PublishedContentPersists(db: Db, v: nat, now: Time)
    requires PublishError(db, v).None?
    ensures ContentPersists(db.versions, PublishTo(db, v, now).versions)
  {
  }

  lemma PublishPersists(s: Sys, v: nat)
    requires Inv(s)
    ensures Persists(s.db, Publish(s.db, v, s.now).db)
  {
    if PublishError(s.db, v).None? {
      NoDraftRow(s, v);
      PublishedRowsPersist(s.db, v, s.now);
      PublishedContentPersists(s.db, v, s.now);
    } else {
      UnrelatedPersists(s.db, s.db);
    }
  }

  lemma ActivationRowsPersist(db: Db, now: Time)
    ensures RowsPersist(db, Activate(db, now))
  {
    hide Flip, Heirs, OpenRows, Outdated;
    forall k | k in db.states ensures
      && k in Activate(db, now).states
      && (!IsOpen(db.states[k].state) ==> Activate(db, now).states[k].state == db.states[k].state)
      && (db.states[k].state != PendingNotification ==> Activate(db, now).states[k].state != PendingNotification)
      && Activate(db, now).states[k].notifiedAt == db.states[k].notifiedAt
      && Activate(db, now).states[k].notificationDueAt == db.states[k].notificationDueAt
    {
      FlippedRow(db, db.documents.Keys, now, k);
    }
  }

  lemma ActivationPersists(db: Db, now: Time)
    ensures Persists(db, Activate(db, now))
  {
    hide RowsPersist, FlippedStates, OpenRows;
    ActivationRowsPersist(db, now);
  }

  lemma DeadlinePassPersists(db: Db, now: Time)
    ensures Persists(db, DeadlinePass(db, now))
  {
  }

  lemma TickPersists(db: Db, now: Time)
    ensures Persists(db, Tick(db, now))
  {
    hide Persists, Activate, DeadlinePass;
    ActivationPersists(db, now);
    DeadlinePassPersists(Activate(db, now), now);
    PersistsTransitively(db, Activate(db, now), Tick(db, now));
  }

  lemma BookPersists(s: Sys, k: Key, a: Acceptance)
    requires Inv(s) && Accept(RowOrFresh(s.db, k), a.how).Ok?
    ensures Persists(s.db, Book(s.db, k, RowOrFresh(s.db, k), a).db)
  {
    hide VersionsOk, RowOk;
    if k in s.db.states { assert RowAtOk(s, k) && EvidenceAtOk(s, k); }
  }

  lemma ConsentPersists(s: Sys, k: Key, displayed: Option<string>, channel: Channel)
    requires Inv(s)
    ensures Persists(s.db, Consent(s.db, k, displayed, channel, s.now).db)
  {
    if ConsentError(s.db, k, displayed, channel, s.now).None? {
      BookPersists(s, k, ConsentEvidence(s.db.versions[k.version], channel, s.now));
    }
  }

  lemma ManualPersists(s: Sys, k: Key, recording: Recording)
    requires Inv(s)
    ensures Persists(s.db, Manual(s.db, k, recording, s.now).db)
  {
    if ManualError(s.db, k, recording).None? {
      BookPersists(s, k, ManualEvidence(s.db.versions[k.version], recording, s.now));
    }
  }

  lemma OnboardPersists(db: Db, c: nat, roles: seq<string>, now: Time)
    ensures Persists(db, Onboard(db, c, roles, now))
  {
  }

  lemma ImportPersists(db: Db, c: nat, imports: map<nat, Time>)
    requires forall k | k in db.states :: k.customer != c
    ensures Persists(db, ImportAll(db, c, imports))
  {
  }

  lemma CreatePersists(s: Sys, c: nat, input: CustomerInput)
    requires Inv(s) && c !in s.db.customers
    ensures Persists(s.db, Create(s.db, c, input, s.now).db)
  {
    if CreateError(s.db, input, s.now).None? {
      forall k | k in s.db.states ensures k.customer != c { assert RowAtOk(s, k); }
      var saved := s.db.(customers := s.db.customers[c := NewCustomer(input)]);
      var imported := ImportAll(saved, c, Imports(s.db, input, s.now).value);
      ImportPersists(saved, c, Imports(s.db, input, s.now).value);
      OnboardPersists(imported, c, input.roles, s.now);
      PersistsTransitively(saved, imported, CreateTo(s.db, c, input, s.now));
    }
  }

  lemma UpdatePersists(db: Db, c: nat, changes: Changes, now: Time)
    ensures Persists(db, Update(db, c, changes, now).db)
  {
    if UpdateError(db, c, changes).None? {
      var saved := db.(customers := db.customers[c := Changed(db.customers[c], changes)]);
      OnboardPersists(saved, c, if changes.roles.Some? then Added(changes.roles.value, db.customers[c].roles) else [],
          now);
    }
  }

  lemma UpsertPersists(s: Sys, c: nat, input: CustomerInput)
    requires Inv(s) && c !in s.db.customers
    ensures Persists(s.db, Upsert(s.db, c, input, s.now).done.db)
  {
    hide Inv, Persists, Create, Update, Upsert;
    var t, changes := UpsertCases(s.db, c, input, s.now);
    CreatePersists(s, c, Plain(input));
    UpdatePersists(s.db, t, changes, s.now);
    if t in s.db.customers {
      UnrelatedPersists(s.db, s.db.(customers := s.db.customers[t := Reactivated(s.db.customers[t], input)]));
    }
    UnrelatedPersists(s.db, s.db);
  }

  lemma OperationPersists(s: Sys, e: Event)
    requires Inv(s) && !IsAdministration(e)
    ensures Persists(s.db, Effect(s, e).db)
  {
    hide Inv, Persists, Publish, Activate, Notify, Consent, Manual, RaiseObjection, Patch;
    UnrelatedPersists(s.db, s.db);
    match e
    case PublishVersion(v) => PublishPersists(s, v);
    case ActivationRun => ActivationPersists(s.db, s.now);
    case HourlyTick => TickPersists(s.db, s.now);
    case GiveConsent(k, displayed, channel) => ConsentPersists(s, k, displayed, channel);
    case Access(k) => AccessPersists(s.db, k, s.now);
    case RecordManually(k, recording) => ManualPersists(s, k, recording);
    case ObjectTo(k) => ObjectionPersists(s.db, k, s.now);
    case PatchState(k, patch) => PatchPersists(s.db, k, patch);
    case ClearNotificationDue(k) => if k in s.db.states {
      BookkeepingPersists(s.db, k, s.db.states[k].(notificationDueAt := None));
    }
    case SendReminders(k) =>
      if k in s.db.states && k.version in s.db.versions {
        BookkeepingPersists(s.db, k, Reminded(s.db.states[k], s.db.versions[k.version], s.now));
      }
  }

  lemma CustomerPersists(s: Sys, e: Event)
    requires Inv(s) && (e.CreateCustomer? || e.UpdateCustomer? || e.UpsertCustomer? || e.DeactivateCustomer?)
    ensures Persists(s.db, Effect(s, e).db)
  {
    hide Inv, Persists, Create, Update, Upsert, Deactivate;
    UnrelatedPersists(s.db, s.db);
    match e
    case CreateCustomer(c, input) => if c !in s.db.customers { CreatePersists(s, c, input); }
    case UpdateCustomer(c, changes) => UpdatePersists(s.db, c, changes, s.now);
    case UpsertCustomer(c, input) => if c !in s.db.customers { UpsertPersists(s, c, input); }
    case DeactivateCustomer(ref, audience) => DeactivatePersists(s.db, ref, audience, s.now);
  }

  lemma DeactivatePersists(db: Db, ref: string, audience: string, now: Time)
    ensures Persists(db, Deactivate(db, ref, audience, now))
  {
    hide Persists;
    UnrelatedPersists(db, Deactivate(db, ref, audience, now));
  }

  lemma AdministrationPersists(s: Sys, e: Event)
    requires Inv(s) && IsAdministration(e)
    ensures Persists(s.db, Effect(s, e).db)
  {
    hide Inv, Persists, SaveDraftTo, DeleteDraftFrom;
    match e
    case AddAudience(audience) => UnrelatedPersists(s.db, Effect(s, e).db);
    case AddDocument(id, document) => UnrelatedPersists(s.db, AddDocumentTo(s.db, id, document));
    case SaveDraft(v, draft) => DraftSavePersists(s.db, v, draft);
    case DeleteDraft(v) => DraftDeletionPersists(s.db, v);
    case _ => CustomerPersists(s, e);
  }

  lemma StepPersists(s: Sys, e: Event)
    requires Inv(s)
    ensures Persists(s.db, Effect(s, e).db)
  {
    hide Inv, Persists, Effect;
    if IsAdministration(e) {
      AdministrationPersists(s, e);
    } else {
      OperationPersists(s, e);
    }
  }

  /** Over any stretch of a run nothing above is taken back. */
  lemma {:induction false} RunPersists(s: Sys, events: seq<Timed>)
    requires Inv(s) && IsRun(s, events)
    ensures Persists(s.db, Run(s, events).db)
  {
    hide Inv, Persists, Effect, Legal;
    if events != [] {
      var last := events[|events| - 1];
      var before := Run(s, events[..|events| - 1]);
      RunPersists(s, events[..|events| - 1]);
      RunKeeps(s, events[..|events| - 1]);
      Later(before, last.at);
      StepPersists(before.(now := last.at), last.event);
      PersistsTransitively(s.db, before.db, Run(s, events).db);
    } else {
      UnrelatedPersists(s.db, s.db);
    }
  }
}
