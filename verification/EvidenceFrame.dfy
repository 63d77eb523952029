/** No operation that stays a single step looks at the evidence already stored. */
module EvidenceFrame {
  import opened Types
  import opened Lifecycle
  import opened Customers
  import opened Runs

  function With(db: Db, a: map<Key, Acceptance>): Db {
    db.(acceptances := a)
  }

  lemma PublishFrame(db: Db, a: map<Key, Acceptance>, v: nat, now: Time)
    ensures Publish(With(db, a), v, now).db == With(Publish(db, v, now).db, a)
    ensures Publish(db, v, now).db.acceptances == db.acceptances
  {
  }

  lemma FlippedStatesFrame(db: Db, a: map<Key, Acceptance>, rows: set<Key>, now: Time)
    ensures FlippedStates(With(db, a), rows, now) == FlippedStates(db, rows, now)
  {
    hide Heir, Carried;
    assert Heirs(With(db, a), rows, now) == Heirs(db, rows, now);
  }

  lemma ActivationFrame(db: Db, a: map<Key, Acceptance>, now: Time)
    ensures Activate(With(db, a), now) == With(Activate(db, now), a)
  {
    hide FlippedStates, Outdated, OpenRows, RetireAll;
    FlippedStatesFrame(db, a, OpenRows(db.states, Outdated(db.versions, db.documents.Keys, now)), now);
  }

  lemma PatchFrame(db: Db, a: map<Key, Acceptance>, k: Key, patch: PatchInput)
    ensures Patch(With(db, a), k, patch) == Done(With(Patch(db, k, patch).db, a), Patch(db, k, patch).error)
    ensures Patch(db, k, patch).db.acceptances == db.acceptances
  {
  }

  lemma OnboardFrame(db: Db, a: map<Key, Acceptance>, c: nat, roles: seq<string>, now: Time)
    ensures Onboard(With(db, a), c, roles, now) == With(Onboard(db, c, roles, now), a)
    ensures Onboard(db, c, roles, now).acceptances == db.acceptances
  {
    var versions := RolloutVersions(db, roles, now);
    assert RolloutVersions(With(db, a), roles, now) == versions;
    assert OnboardRows(With(db, a), c, versions) == OnboardRows(db, c, versions);
  }

  lemma UpdateFrame(db: Db, a: map<Key, Acceptance>, c: nat, changes: Changes, now: Time)
    ensures Update(With(db, a), c, changes, now).db == With(Update(db, c, changes, now).db, a)
  {
    hide Onboard, Changed, Added;
    if UpdateError(db, c, changes).None? {
      var saved := db.(customers := db.customers[c := Changed(db.customers[c], changes)]);
      OnboardFrame(saved, a, c, if changes.roles.Some? then Added(changes.roles.value, db.customers[c].roles) else [],
          now);
    }
  }

  lemma {:induction false} ExplicitFrame(db: Db, a: map<Key, Acceptance>, entries: seq<ImportRequest>, n: nat,
      roles: seq<string>, now: Time)
    requires n <= |entries|
    ensures ValidateImports(With(db, a), entries, n, roles, now) == ValidateImports(db, entries, n, roles, now)
  {
    if n > 0 { ExplicitFrame(db, a, entries, n - 1, roles, now); }
  }

  lemma TypeFrame(db: Db, a: map<Key, Acceptance>, docType: string, roles: seq<string>, date: Time)
    ensures ResolveType(With(db, a), docType, roles, date) == ResolveType(db, docType, roles, date)
  {
    var documents := DocumentsFor(db, Trim(docType), roles);
    assert DocumentsFor(With(db, a), Trim(docType), roles) == documents;
    assert EffectiveVersions(With(db, a), documents, date) == EffectiveVersions(db, documents, date);
  }

  lemma {:induction false} SignedFrame(db: Db, a: map<Key, Acceptance>, types: seq<string>, i: nat, roles: seq<string>,
      date: Time, found: set<nat>)
    requires i <= |types|
    ensures ResolveSigned(With(db, a), types, i, roles, date, found) == ResolveSigned(db, types, i, roles, date, found)
    decreases |types| - i
  {
    if i < |types| {
      TypeFrame(db, a, types[i], roles, date);
      var one := ResolveType(db, types[i], roles, date);
      if one.Ok? { SignedFrame(db, a, types, i + 1, roles, date, found + one.value); }
    }
  }

  lemma ImportsFrame(db: Db, a: map<Key, Acceptance>, input: CustomerInput, now: Time)
    ensures Imports(With(db, a), input, now) == Imports(db, input, now)
  {
    ExplicitFrame(db, a, input.acceptedVersions, |input.acceptedVersions|, input.roles, now);
    if input.signed.Some? {
      var signed := input.signed.value;
      SignedFrame(db, a, signed.documentTypes, 0, input.roles, signed.effectiveDate, {});
    }
  }

  /** A creation adds evidence of the new customer only. */
  lemma ImportFrame(db: Db, a: map<Key, Acceptance>, c: nat, imports: map<nat, Time>)
    requires forall k | k in a :: k.customer != c
    ensures var after := ImportAll(db, c, imports);
      && ImportAll(With(db, db.acceptances + a), c, imports) == With(after, after.acceptances + a)
      && forall k | k in after.acceptances :: k in db.acceptances || k.customer == c
  {
    var keys := KeysFor(c, imports.Keys);
    assert ImportedEvidence(db.acceptances + a, keys, imports) == ImportedEvidence(db.acceptances, keys, imports) + a;
  }

  lemma CreateFrame(db: Db, a: map<Key, Acceptance>, c: nat, input: CustomerInput, now: Time)
    requires forall k | k in a :: k.customer != c
    ensures var after := Create(db, c, input, now).db;
      && Create(With(db, db.acceptances + a), c, input, now).db == With(after, after.acceptances + a)
      && forall k | k in after.acceptances :: k in db.acceptances || k.customer == c
  {
    hide Onboard, ImportAll, Imports, NewCustomer;
    ImportsFrame(db, db.acceptances + a, input, now);
    if CreateError(db, input, now).None? {
      var imports := Imports(db, input, now).value;
      var saved := db.(customers := db.customers[c := NewCustomer(input)]);
      ImportFrame(saved, a, c, imports);
      var imported := ImportAll(saved, c, imports);
      OnboardFrame(imported, imported.acceptances + a, c, input.roles, now);
    }
  }

  lemma UpdateEvidence(db: Db, c: nat, changes: Changes, now: Time)
    ensures Update(db, c, changes, now).db.acceptances == db.acceptances
  {
  }

  /** Evidence that is appended a little later makes no difference to what an upsert does. */
  ghost predicate UpsertFramed(db: Db, a: map<Key, Acceptance>, c: nat, input: CustomerInput, now: Time) {
    var after := Upsert(db, c, input, now).done.db;
    && Upsert(With(db, db.acceptances + a), c, input, now).done.db == With(after, after.acceptances + a)
    && forall k | k in after.acceptances :: k in db.acceptances || k.customer == c
  }

  lemma RefusalFrame(db: Db, a: map<Key, Acceptance>, input: CustomerInput)
    ensures UpsertRefused(With(db, a), input) == UpsertRefused(db, input)
  {
  }

  lemma ReactivateFrame(db: Db, a: map<Key, Acceptance>, t: nat, input: CustomerInput)
    requires t in db.customers
    ensures Reactivate(With(db, a), t, input)
      == Done(With(Reactivate(db, t, input).db, a), Reactivate(db, t, input).error)
    ensures Reactivate(db, t, input).db.acceptances == db.acceptances
  {
    hide RefConflict, Reactivated;
  }

  lemma UpsertOldFrame(db: Db, a: map<Key, Acceptance>, c: nat, input: CustomerInput, t: nat, now: Time)
    requires t in db.customers
    ensures var after := UpsertInto(db, c, input, Some(t), now).done.db;
      && UpsertInto(With(db, db.acceptances + a), c, input, Some(t), now).done.db == With(after, after.acceptances + a)
      && after.acceptances == db.acceptances
  {
    hide Update, Diff, Reactivate;
    if db.customers[t].deletedAt.Some? {
      ReactivateFrame(db, db.acceptances + a, t, input);
    } else {
      UpdateFrame(db, db.acceptances + a, t, Diff(db.customers[t], input), now);
      UpdateEvidence(db, t, Diff(db.customers[t], input), now);
    }
  }

  lemma UpsertNewFrame(db: Db, a: map<Key, Acceptance>, c: nat, input: CustomerInput, now: Time)
    requires forall k | k in a :: k.customer != c
    ensures var after := UpsertInto(db, c, input, None, now).done.db;
      && UpsertInto(With(db, db.acceptances + a), c, input, None, now).done.db == With(after, after.acceptances + a)
      && forall k | k in after.acceptances :: k in db.acceptances || k.customer == c
  {
    CreateFrame(db, a, c, Plain(input), now);
  }

  lemma UpsertFrame(db: Db, a: map<Key, Acceptance>, c: nat, input: CustomerInput, now: Time)
    requires forall k | k in a :: k.customer != c
    ensures UpsertFramed(db, a, c, input, now)
  {
    RefusalFrame(db, db.acceptances + a, input);
    if UpsertRefused(db, input).None? {
      var target := Resolve(db.customers, input.externalRef, input.roles);
      if target.None? {
        UpsertNewFrame(db, a, c, input, now);
      } else {
        UpsertOldFrame(db, a, c, input, target.value, now);
      }
    }
  }

  lemma DeactivateFrame(db: Db, a: map<Key, Acceptance>, ref: string, audience: string, now: Time)
    ensures Deactivate(With(db, a), ref, audience, now) == With(Deactivate(db, ref, audience, now), a)
    ensures Deactivate(db, ref, audience, now).acceptances == db.acceptances
  {
  }

  /** The operations that stay single steps. */
  predicate IsWhole(e: Event) {
    !e.GiveConsent? && !e.RecordManually? && !e.ObjectTo? && !e.HourlyTick? && !e.SendReminders? && !e.Access?
  }

  /** Evidence that is appended a little later makes no difference to such an operation. */
  ghost predicate Framed(db: Db, a: map<Key, Acceptance>, e: Event, now: Time) {
    var after := Apply(db, e, now);
    && Apply(With(db, db.acceptances + a), e, now) == With(after, after.acceptances + a)
    && (forall k | k in after.acceptances :: k in db.acceptances || k.customer !in db.customers)
  }

  lemma CatalogueFrame(db: Db, a: map<Key, Acceptance>, e: Event, now: Time)
    requires e.AddAudience? || e.AddDocument? || e.SaveDraft? || e.DeleteDraft?
    ensures Framed(db, a, e, now)
  {
    hide SaveDraftTo, DeleteDraftFrom, AddDocumentTo;
    match e
    case AddAudience(_) =>
    case AddDocument(id, document) => DocumentFrame(db, db.acceptances + a, id, document);
    case SaveDraft(v, draft) => DraftFrame(db, db.acceptances + a, v, draft);
    case DeleteDraft(v) => DraftFrame(db, db.acceptances + a, v, NO_VERSION);
  }

  lemma DocumentFrame(db: Db, a: map<Key, Acceptance>, id: nat, document: Document)
    ensures AddDocumentTo(With(db, a), id, document) == With(AddDocumentTo(db, id, document), a)
    ensures AddDocumentTo(db, id, document).acceptances == db.acceptances
  {
  }

  lemma DraftFrame(db: Db, a: map<Key, Acceptance>, v: nat, draft: Version)
    ensures SaveDraftTo(With(db, a), v, draft) == With(SaveDraftTo(db, v, draft), a)
    ensures DeleteDraftFrom(With(db, a), v) == With(DeleteDraftFrom(db, v), a)
    ensures SaveDraftTo(db, v, draft).acceptances == db.acceptances == DeleteDraftFrom(db, v).acceptances
  {
  }

  lemma UpdatedFrame(db: Db, a: map<Key, Acceptance>, e: Event, now: Time)
    requires e.UpdateCustomer?
    ensures Framed(db, a, e, now)
  {
    hide Update;
    UpdateFrame(db, db.acceptances + a, e.c, e.changes, now);
    UpdateEvidence(db, e.c, e.changes, now);
  }

  lemma DeactivatedFrame(db: Db, a: map<Key, Acceptance>, e: Event, now: Time)
    requires e.DeactivateCustomer?
    ensures Framed(db, a, e, now)
  {
    hide Deactivate;
    DeactivateFrame(db, db.acceptances + a, e.ref, e.audience, now);
  }

  lemma PublishedFrame(db: Db, a: map<Key, Acceptance>, e: Event, now: Time)
    requires e.PublishVersion?
    ensures Framed(db, a, e, now)
  {
    hide Publish;
    PublishFrame(db, db.acceptances + a, e.v, now);
  }

  lemma ActivatedFrame(db: Db, a: map<Key, Acceptance>, e: Event, now: Time)
    requires e.ActivationRun?
    ensures Framed(db, a, e, now)
  {
    hide FlippedStates, Outdated, OpenRows, RetireAll;
    ActivationFrame(db, db.acceptances + a, now);
  }

  lemma PatchedFrame(db: Db, a: map<Key, Acceptance>, e: Event, now: Time)
    requires e.PatchState?
    ensures Framed(db, a, e, now)
  {
    hide Patch;
    PatchFrame(db, db.acceptances + a, e.k, e.patch);
  }

  lemma ClearedFrame(db: Db, a: map<Key, Acceptance>, e: Event, now: Time)
    requires e.ClearNotificationDue?
    ensures Framed(db, a, e, now)
  {
  }

  lemma CreatedFrame(db: Db, a: map<Key, Acceptance>, e: Event, now: Time)
    requires e.CreateCustomer? && forall k | k in a :: k.customer in db.customers
    ensures Framed(db, a, e, now)
  {
    hide Create;
    if e.c in db.customers {
      assert Apply(db, e, now) == db;
    } else {
      CreateFrame(db, a, e.c, e.input, now);
    }
  }

  lemma UpsertedFrame(db: Db, a: map<Key, Acceptance>, e: Event, now: Time)
    requires e.UpsertCustomer? && forall k | k in a :: k.customer in db.customers
    ensures Framed(db, a, e, now)
  {
    hide Upsert;
    if e.c in db.customers {
      assert Apply(db, e, now) == db;
    } else {
      UpsertFrame(db, a, e.c, e.input, now);
    }
  }

  lemma WholeFrame(db: Db, a: map<Key, Acceptance>, e: Event, now: Time)
    requires IsWhole(e) && forall k | k in a :: k.customer in db.customers
    ensures Framed(db, a, e, now)
  {
    hide Framed;
    match e
    case CreateCustomer(_, _) => CreatedFrame(db, a, e, now);
    case UpdateCustomer(_, _) => UpdatedFrame(db, a, e, now);
    case UpsertCustomer(_, _) => UpsertedFrame(db, a, e, now);
    case DeactivateCustomer(_, _) => DeactivatedFrame(db, a, e, now);
    case PublishVersion(_) => PublishedFrame(db, a, e, now);
    case ActivationRun => ActivatedFrame(db, a, e, now);
    case PatchState(_, _) => PatchedFrame(db, a, e, now);
    case ClearNotificationDue(_) => ClearedFrame(db, a, e, now);
    case _ => CatalogueFrame(db, a, e, now);
  }

  /** None of these operations raises an objection. */
  lemma ObjectionsUntouched(db: Db, e: Event, now: Time)
    requires IsWhole(e)
    ensures Apply(db, e, now).objections == db.objections
  {
    hide Create, Update, Upsert, Deactivate;
    match e
    case CreateCustomer(c, input) => CreateWrites(db, c, input, now);
    case UpdateCustomer(c, changes) => UpdateWrites(db, c, changes, now);
    case UpsertCustomer(c, input) => UpsertWrites(db, c, input, now);
    case DeactivateCustomer(ref, audience) => DeactivateWrites(db, ref, audience, now);
    case _ =>
  }

  lemma UpsertKeepsCustomers(db: Db, c: nat, input: CustomerInput, now: Time)
    ensures db.customers.Keys <= Upsert(db, c, input, now).done.db.customers.Keys
  {
    hide Upsert, CreateError, Imports, UpdateError, Changed, RolloutVersions, OnboardRows, ImportedEvidence;
    hide NewCustomer;
    var t, changes := UpsertCases(db, c, input, now);
  }

  lemma CustomersStay(db: Db, e: Event, now: Time)
    requires IsWhole(e)
    ensures db.customers.Keys <= Apply(db, e, now).customers.Keys
  {
    hide Upsert;
    if e.UpsertCustomer? { UpsertKeepsCustomers(db, e.c, e.input, now); }
  }
}
