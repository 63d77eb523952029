/** Every event keeps the invariant of Runs, so it holds in every reachable state. */
module Invariants {
  import opened Types
  import opened StateMachine
  import opened Versions
  import opened Lifecycle
  import opened Customers
  import opened Runs

  lemma Later(s: Sys, now: Time)
    requires Inv(s) && s.now <= now
    ensures Inv(s.(now := now))
  {
  }

  /** Replacing one row, with or without new evidence, only has to be checked at that row. */
  lemma OneRow(s: Sys, s': Sys, k: Key, row: Row, a: map<Key, Acceptance>)
    requires Inv(s) && a.Keys <= {k}
    requires s' == s.(db := s.db.(states := s.db.states[k := row], acceptances := s.db.acceptances + a,
                                  objections := s'.db.objections),
                      edited := s'.edited, early := s'.early, blockedAccess := s'.blockedAccess)
    requires forall j | j != k :: (j in s.edited <==> j in s'.edited) && (j in s.early <==> j in s'.early)
                                  && (j in s.blockedAccess <==> j in s'.blockedAccess)
    requires RowAtOk(s', k) && EvidenceAtOk(s', k)
    ensures Inv(s')
  {
    forall j | j in s'.db.states && j != k ensures RowAtOk(s', j) && EvidenceAtOk(s', j) {
      assert RowAtOk(s, j) && EvidenceAtOk(s, j);
    }
  }

  /** A first access always succeeds on a row that is in order, and leaves it in order. */
  lemma AccessedRowOk(s: Sys, k: Key)
    requires VersionsOk(s) && k in s.db.states && RowAtOk(s, k) && EvidenceAtOk(s, k)
    ensures Notify(s.db, k, s.now).error.None?
    ensures var s' := s.(db := Notify(s.db, k, s.now).db, blockedAccess := BlockedAfterAccess(s, k));
      RowAtOk(s', k) && EvidenceAtOk(s', k)
  {
    assert VersionOk(s.db.versions[k.version], s.now);
    hide VersionsOk, VersionOk;
  }

  lemma AccessKeeps(s: Sys, k: Key)
    requires Inv(s)
    ensures k in s.db.states ==> Notify(s.db, k, s.now).error.None?
    ensures Inv(s.(db := Notify(s.db, k, s.now).db, blockedAccess := BlockedAfterAccess(s, k)))
  {
    hide VersionsOk, RowAtOk, EvidenceAtOk;
    if k in s.db.states {
      AccessedRowOk(s, k);
      hide Inv, RecordAccess;
      var s' := s.(db := Notify(s.db, k, s.now).db, blockedAccess := BlockedAfterAccess(s, k));
      OneRow(s, s', k, s'.db.states[k], map[]);
    }
  }

  /** Booking a consent from any open row, or from none: the append is never refused. */
  lemma BookKeeps(s: Sys, k: Key, a: Acceptance)
    requires Inv(s)
    requires k.version in s.db.versions && s.db.versions[k.version].status != Draft && k.customer in s.db.customers
    requires Accept(RowOrFresh(s.db, k), a.how).Ok? && MethodChannelAllowed(a.how, a.channel)
    requires a.how == ActiveConsent && s.db.versions[k.version].mode == Active
      ==> a.consentText == s.db.versions[k.version].consentText
    ensures Book(s.db, k, RowOrFresh(s.db, k), a).error.None?
    ensures Inv(s.(db := Book(s.db, k, RowOrFresh(s.db, k), a).db))
  {
    hide RowAtOk, EvidenceAtOk, VersionsOk, Accept;
    var s' := s.(db := Book(s.db, k, RowOrFresh(s.db, k), a).db);
    NotYetAccepted(s, k, a);
    BookedRowOk(s, k, a);
    OneRow(s, s', k, s'.db.states[k], map[k := a]);
  }

  lemma NotYetAccepted(s: Sys, k: Key, a: Acceptance)
    requires Inv(s) && Accept(RowOrFresh(s.db, k), a.how).Ok?
    ensures k !in s.db.acceptances
  {
    hide VersionsOk, RowOk, EvidenceOk;
    if k in s.db.states { assert RowAtOk(s, k) && EvidenceAtOk(s, k); }
  }

  lemma BookedRowOk(s: Sys, k: Key, a: Acceptance)
    requires k !in s.db.acceptances && (k in s.db.states ==> RowAtOk(s, k))
    requires k.version in s.db.versions && s.db.versions[k.version].status != Draft && k.customer in s.db.customers
    requires Accept(RowOrFresh(s.db, k), a.how).Ok? && MethodChannelAllowed(a.how, a.channel)
    requires a.how == ActiveConsent && s.db.versions[k.version].mode == Active
      ==> a.consentText == s.db.versions[k.version].consentText
    ensures var s' := s.(db := Book(s.db, k, RowOrFresh(s.db, k), a).db);
      RowAtOk(s', k) && EvidenceAtOk(s', k)
  {
  }

  lemma ConsentKeeps(s: Sys, k: Key, displayed: Option<string>, channel: Channel)
    requires Inv(s)
    ensures Inv(s.(db := Consent(s.db, k, displayed, channel, s.now).db))
    ensures Consent(s.db, k, displayed, channel, s.now).error == ConsentError(s.db, k, displayed, channel, s.now)
  {
    if ConsentError(s.db, k, displayed, channel, s.now).None? {
      BookKeeps(s, k, ConsentEvidence(s.db.versions[k.version], channel, s.now));
    }
  }

  lemma ManualKeeps(s: Sys, k: Key, recording: Recording)
    requires Inv(s) && Legal(s.db, RecordManually(k, recording))
    ensures Inv(s.(db := Manual(s.db, k, recording, s.now).db))
    ensures Manual(s.db, k, recording, s.now).error == ManualError(s.db, k, recording)
  {
    if ManualError(s.db, k, recording).None? {
      BookKeeps(s, k, ManualEvidence(s.db.versions[k.version], recording, s.now));
    }
  }

  lemma ObjectedRowOk(s: Sys, k: Key)
    requires k in s.db.states && RowAtOk(s, k) && EvidenceAtOk(s, k) && RaiseObjection(s.db, k, s.now).error.None?
    ensures var s' := s.(db := RaiseObjection(s.db, k, s.now).db);
      RowAtOk(s', k) && EvidenceAtOk(s', k)
  {
  }

  lemma ObjectionKeeps(s: Sys, k: Key)
    requires Inv(s)
    ensures Inv(s.(db := RaiseObjection(s.db, k, s.now).db))
  {
    hide VersionsOk, RowAtOk, EvidenceAtOk;
    if RaiseObjection(s.db, k, s.now).error.None? {
      ObjectedRowOk(s, k);
      hide Inv, Object;
      var s' := s.(db := RaiseObjection(s.db, k, s.now).db);
      OneRow(s, s', k, s'.db.states[k], map[]);
    }
  }

  lemma PatchedRowOk(s: Sys, k: Key, patch: PatchInput)
    requires k in s.db.states && RowAtOk(s, k) && EvidenceAtOk(s, k) && Patch(s.db, k, patch).error.None?
    ensures var s' :=
        s.(db := Patch(s.db, k, patch).db, edited := EditedAfterPatch(s, k, patch),
            early := EarlyAfterPatch(s, k, patch));
      RowAtOk(s', k) && EvidenceAtOk(s', k)
  {
  }

  lemma PatchKeeps(s: Sys, k: Key, patch: PatchInput)
    requires Inv(s)
    ensures Inv(s.(db := Patch(s.db, k, patch).db, edited := EditedAfterPatch(s, k, patch),
                   early := EarlyAfterPatch(s, k, patch)))
  {
    hide VersionsOk, RowAtOk, EvidenceAtOk;
    if Patch(s.db, k, patch).error.None? {
      PatchedRowOk(s, k, patch);
      hide Inv, PatchedRow;
      var s' :=
        s.(db := Patch(s.db, k, patch).db, edited := EditedAfterPatch(s, k, patch),
            early := EarlyAfterPatch(s, k, patch));
      OneRow(s, s', k, s'.db.states[k], map[]);
    }
  }

  lemma BookkeepingKeeps(s: Sys, k: Key, row: Row)
    requires Inv(s) && k in s.db.states
    requires row == s.db.states[k].(remindersSent := row.remindersSent, notificationDueAt := row.notificationDueAt)
    ensures Inv(s.(db := UpdateRow(s.db, k, row)))
  {
    hide VersionsOk, RowAtOk, EvidenceAtOk;
    BookkeptRowOk(s, k, row);
    hide Inv;
    OneRow(s, s.(db := UpdateRow(s.db, k, row)), k, row, map[]);
  }

  lemma BookkeptRowOk(s: Sys, k: Key, row: Row)
    requires k in s.db.states && RowAtOk(s, k) && EvidenceAtOk(s, k)
    requires row == s.db.states[k].(remindersSent := row.remindersSent, notificationDueAt := row.notificationDueAt)
    ensures var s' := s.(db := UpdateRow(s.db, k, row));
      RowAtOk(s', k) && EvidenceAtOk(s', k)
  {
  }

  /** A row that is kept, or superseded while its version is retired, stays in order. */
  lemma KeptRowOk(s: Sys, k: Key, version: Version, row: Row, s': Sys)
    requires Inv(s) && k in s.db.states && RowAtOk(s, k) && EvidenceAtOk(s, k)
    requires s' == s.(db := s'.db) && s'.db.acceptances == s.db.acceptances && s'.db.customers == s.db.customers
    requires k.version in s'.db.versions && s'.db.versions[k.version] == version
    requires k in s'.db.states && s'.db.states[k] == row
    requires
      || (row == s.db.states[k] && version == s.db.versions[k.version])
      || (row == s.db.states[k] && !IsOpen(row.state) && version == s.db.versions[k.version].(status := Retired))
      || (row == s.db.states[k].(state := Superseded) && IsOpen(s.db.states[k].state)
          && version == s.db.versions[k.version].(status := Retired))
    ensures RowAtOk(s', k) && EvidenceAtOk(s', k)
  {
  }

  lemma NoDraftRow(s: Sys, v: nat)
    requires Inv(s) && v in s.db.versions && s.db.versions[v].status == Draft
    ensures forall k | k in s.db.states :: k.version != v
  {
    forall k | k in s.db.states ensures k.version != v {
      assert RowAtOk(s, k);
    }
  }

  lemma PublishKeepsRow(s: Sys, v: nat, s': Sys, k: Key)
    requires Inv(s) && PublishError(s.db, v).None?
    requires s' == s.(db := PublishTo(s.db, v, s.now)) && k in s'.db.states
    ensures RowAtOk(s', k) && EvidenceAtOk(s', k)
  {
    NoDraftRow(s, v);
    if k.version == v {
      hide Siblings, OpenRows, BlockedCustomers, SupersedeAll;
      assert k.customer in Targets(s.db.customers, s.db.documents[s.db.versions[v].document].audience);
      assert RowOk(s'.db.versions[v], s'.db.states[k], k in s.edited, k in s.early, k in s.blockedAccess, s.now);
    } else {
      assert RowAtOk(s, k) && EvidenceAtOk(s, k);
      hide RowOk, EvidenceOk, VersionOk, BlockedCustomers, Targets;
      KeptRowOk(s, k, s'.db.versions[k.version], s'.db.states[k], s');
    }
  }

  lemma PublishKeeps(s: Sys, v: nat)
    requires Inv(s)
    ensures Inv(s.(db := Publish(s.db, v, s.now).db))
  {
    if PublishError(s.db, v).None? {
      var s' := s.(db := PublishTo(s.db, v, s.now));
      forall k | k in s'.db.states ensures RowAtOk(s', k) && EvidenceAtOk(s', k) {
        PublishKeepsRow(s, v, s', k);
      }
    }
  }

  lemma InheritedRowOk(s: Sys, k: Key)
    requires Inv(s)
    requires k in Heirs(s.db, OpenRows(s.db.states, Outdated(s.db.versions, s.db.documents.Keys, s.now)), s.now)
    ensures k.version in s.db.versions && k.version !in Outdated(s.db.versions, s.db.documents.Keys, s.now)
    ensures k.customer in s.db.customers
    ensures RowOk(s.db.versions[k.version], CarryOver(s.db, k), k in s.edited, k in s.early, k in s.blockedAccess,
        s.now)
    ensures CarryOver(s.db, k).state == Accepted <==> k in s.db.acceptances
    ensures k in s.db.states ==> CarryOver(s.db, k).notifiedAt == s.db.states[k].notifiedAt
  {
    var j := HeirSource(s.db, s.db.documents.Keys, s.now, k);
    assert RowAtOk(s, j);
    HeirIsCurrent(s.db.versions, s.db.documents.Keys, j.version, s.now);
    if k in s.db.states { assert RowAtOk(s, k) && EvidenceAtOk(s, k); }
  }

  lemma ActivationKeepsRow(s: Sys, s': Sys, k: Key)
    requires Inv(s) && s' == s.(db := Activate(s.db, s.now)) && k in s'.db.states
    ensures RowAtOk(s', k) && EvidenceAtOk(s', k)
  {
    FlippedRow(s.db, s.db.documents.Keys, s.now, k);
    if k in Heirs(s.db, OpenRows(s.db.states, Outdated(s.db.versions, s.db.documents.Keys, s.now)), s.now) {
      InheritedRowOk(s, k);
      if k in s.db.states { assert EvidenceAtOk(s, k); }
    } else {
      assert RowAtOk(s, k) && EvidenceAtOk(s, k);
      KeptRowOk(s, k, s'.db.versions[k.version], s'.db.states[k], s');
    }
  }

  lemma ActivationKeeps(s: Sys)
    requires Inv(s)
    ensures Inv(s.(db := Activate(s.db, s.now)))
  {
    var s' := s.(db := Activate(s.db, s.now));
    forall k | k in s'.db.states ensures RowAtOk(s', k) && EvidenceAtOk(s', k) {
      ActivationKeepsRow(s, s', k);
    }
  }

  lemma DeadlinePassKeeps(s: Sys)
    requires Inv(s)
    ensures Inv(s.(db := DeadlinePass(s.db, s.now)))
  {
    hide RowOk, EvidenceOk, SweptRow, VersionOk;
    var s' := s.(db := DeadlinePass(s.db, s.now));
    forall k | k in s'.db.states ensures RowAtOk(s', k) && EvidenceAtOk(s', k) {
      assert RowAtOk(s, k) && EvidenceAtOk(s, k);
      PassKeepsRow(s, k);
    }
  }

  lemma PassKeepsRow(s: Sys, k: Key)
    requires k in s.db.states && RowAtOk(s, k) && EvidenceAtOk(s, k) && VersionOk(s.db.versions[k.version], s.now)
    ensures var s' := s.(db := DeadlinePass(s.db, s.now));
      k in s'.db.states && RowAtOk(s', k) && EvidenceAtOk(s', k)
  {
  }

  /** Drafts, documents, audiences and customers may change freely: no row depends on a draft. */
  lemma CatalogueKeeps(s: Sys, s': Sys)
    requires Inv(s)
    requires s' == s.(db := s'.db) && s'.db.states == s.db.states && s'.db.acceptances == s.db.acceptances
    requires s.db.documents.Keys <= s'.db.documents.Keys && s.db.customers.Keys <= s'.db.customers.Keys
    requires forall v | v in s'.db.versions ::
      (v in s.db.versions && s'.db.versions[v] == s.db.versions[v])
      || (s'.db.versions[v].status == Draft && s'.db.versions[v].publishedAt.None?
           && s'.db.versions[v].document in s'.db.documents)
    requires forall v | v in s.db.versions && s.db.versions[v].status != Draft ::
      v in s'.db.versions && s'.db.versions[v] == s.db.versions[v]
    ensures Inv(s')
  {
    forall k | k in s'.db.states ensures RowAtOk(s', k) && EvidenceAtOk(s', k) {
      assert RowAtOk(s, k) && EvidenceAtOk(s, k);
    }
  }

  /** Adding rows only has to be checked at the new rows. */
  lemma NewRows(s: Sys, s': Sys)
    requires Inv(s) && s' == s.(db := s.db.(states := s'.db.states, acceptances := s'.db.acceptances))
    requires forall k | k in s.db.states ::
      k in s'.db.states && s'.db.states[k] == s.db.states[k] && (k in s'.db.acceptances <==> k in s.db.acceptances)
    requires forall k | k in s.db.acceptances :: k in s'.db.acceptances && s'.db.acceptances[k] == s.db.acceptances[k]
    requires forall k | k in s'.db.states && k !in s.db.states :: RowAtOk(s', k) && EvidenceAtOk(s', k)
    requires s'.db.acceptances.Keys <= s'.db.states.Keys
    ensures Inv(s')
  {
    forall k | k in s.db.states ensures RowAtOk(s', k) && EvidenceAtOk(s', k) {
      assert RowAtOk(s, k) && EvidenceAtOk(s, k);
    }
  }

  /** A version rolled out to a new customer is published. */
  lemma OnboardedFresh(s: Sys, v: nat, roles: seq<string>)
    requires v in RolloutVersions(s.db, roles, s.now)
    ensures s.db.versions[v].status == Published
  {
    var document := s.db.versions[v].document;
    if Current(s.db.versions, document, s.now) == Some(v) { assert v in InForceOf(s.db.versions, document, s.now); }
  }

  lemma FreshRowOk(version: Version, edited: bool, early: bool, blocked: bool, now: Time)
    requires VersionOk(version, now) && version.status == Published
    ensures RowOk(version, RolloutRow(version, false, None), edited, early, blocked, now)
  {
  }

  lemma OnboardedRowOk(s: Sys, c: nat, roles: seq<string>, k: Key)
    requires Inv(s) && c in s.db.customers
    ensures var s' := s.(db := Onboard(s.db, c, roles, s.now));
      k in s'.db.states && k !in s.db.states ==> RowAtOk(s', k) && EvidenceAtOk(s', k)
  {
    hide EvidenceOk, RowOk, VersionOk;
    if k in Onboard(s.db, c, roles, s.now).states && k !in s.db.states {
      OnboardedFresh(s, k.version, roles);
      FreshRowOk(s.db.versions[k.version], k in s.edited, k in s.early, k in s.blockedAccess, s.now);
    }
  }

  lemma OnboardKeeps(s: Sys, c: nat, roles: seq<string>)
    requires Inv(s) && c in s.db.customers
    ensures Inv(s.(db := Onboard(s.db, c, roles, s.now)))
  {
    hide RowAtOk, EvidenceAtOk, VersionsOk, RolloutVersions;
    var s' := s.(db := Onboard(s.db, c, roles, s.now));
    forall k | k in s'.db.states && k !in s.db.states ensures RowAtOk(s', k) && EvidenceAtOk(s', k) {
      OnboardedRowOk(s, c, roles, k);
    }
    NewRows(s, s');
  }

  lemma ImportedRowOk(s: Sys, c: nat, imports: map<nat, Time>, k: Key)
    requires Inv(s) && c in s.db.customers
    requires forall v | v in imports :: v in s.db.versions && s.db.versions[v].status != Draft
    ensures var s' := s.(db := ImportAll(s.db, c, imports));
      k in s'.db.states && k !in s.db.states ==> RowAtOk(s', k) && EvidenceAtOk(s', k)
  {
    hide VersionsOk;
  }

  lemma ImportKeeps(s: Sys, c: nat, imports: map<nat, Time>)
    requires Inv(s) && c in s.db.customers
    requires forall k | k in s.db.states :: k.customer != c
    requires forall v | v in imports :: v in s.db.versions && s.db.versions[v].status != Draft
    ensures Inv(s.(db := ImportAll(s.db, c, imports)))
  {
    hide RowAtOk, EvidenceAtOk, VersionsOk;
    var s' := s.(db := ImportAll(s.db, c, imports));
    forall k | k in s'.db.states && k !in s.db.states ensures RowAtOk(s', k) && EvidenceAtOk(s', k) {
      ImportedRowOk(s, c, imports, k);
    }
    NewRows(s, s');
  }

  lemma {:induction false} ExplicitImportsPublished(db: Db, entries: seq<ImportRequest>, n: nat, roles: seq<string>,
      now: Time)
    requires n <= |entries| && ValidateImports(db, entries, n, roles, now).Ok?
    ensures forall v | v in ValidateImports(db, entries, n, roles, now).value ::
              v in db.versions && db.versions[v].status != Draft
  {
    if n > 0 { ExplicitImportsPublished(db, entries, n - 1, roles, now); }
  }

  lemma {:induction false} SignedImportsPublished(db: Db, types: seq<string>, i: nat, roles: seq<string>, date: Time,
      found: set<nat>)
    requires i <= |types| && ResolveSigned(db, types, i, roles, date, found).Ok?
    requires forall v | v in found :: v in db.versions && db.versions[v].status != Draft
    ensures forall v | v in ResolveSigned(db, types, i, roles, date, found).value ::
              v in db.versions && db.versions[v].status != Draft
    decreases |types| - i
  {
    if i < |types| {
      SignedImportsPublished(db, types, i + 1, roles, date, found + ResolveType(db, types[i], roles, date).value);
    }
  }

  /** Only published or retired versions are ever imported. */
  lemma ImportsPublished(db: Db, input: CustomerInput, now: Time)
    requires Imports(db, input, now).Ok?
    ensures forall v | v in Imports(db, input, now).value :: v in db.versions && db.versions[v].status != Draft
  {
    ExplicitImportsPublished(db, input.acceptedVersions, |input.acceptedVersions|, input.roles, now);
    if input.signed.Some? {
      var signed := input.signed.value;
      SignedImportsPublished(db, signed.documentTypes, 0, input.roles, signed.effectiveDate, {});
    }
  }

  lemma CreateKeeps(s: Sys, c: nat, input: CustomerInput)
    requires Inv(s) && c !in s.db.customers
    ensures Inv(s.(db := Create(s.db, c, input, s.now).db))
  {
    if CreateError(s.db, input, s.now).None? {
      var imports := Imports(s.db, input, s.now).value;
      ImportsPublished(s.db, input, s.now);
      var saved := s.(db := s.db.(customers := s.db.customers[c := NewCustomer(input)]));
      forall k | k in s.db.states ensures k.customer != c { assert RowAtOk(s, k); }
      CatalogueKeeps(s, saved);
      ImportKeeps(saved, c, imports);
      OnboardKeeps(saved.(db := ImportAll(saved.db, c, imports)), c, input.roles);
    }
  }

  lemma UpdateKeeps(s: Sys, c: nat, changes: Changes)
    requires Inv(s)
    ensures Inv(s.(db := Update(s.db, c, changes, s.now).db))
  {
    if UpdateError(s.db, c, changes).None? {
      var saved := s.(db := s.db.(customers := s.db.customers[c := Changed(s.db.customers[c], changes)]));
      CatalogueKeeps(s, saved);
      OnboardKeeps(saved, c, if changes.roles.Some? then Added(changes.roles.value, s.db.customers[c].roles) else []);
    }
  }

  lemma UpsertKeeps(s: Sys, c: nat, input: CustomerInput)
    requires Inv(s) && c !in s.db.customers
    ensures Inv(s.(db := Upsert(s.db, c, input, s.now).done.db))
  {
    var t, changes := UpsertCases(s.db, c, input, s.now);
    CreateKeeps(s, c, Plain(input));
    UpdateKeeps(s, t, changes);
    if t in s.db.customers {
      CatalogueKeeps(s, s.(db := s.db.(customers := s.db.customers[t := Reactivated(s.db.customers[t], input)])));
    }
  }

  lemma DraftSaveKeeps(s: Sys, v: nat, draft: Version)
    requires Inv(s)
    ensures Inv(s.(db := SaveDraftTo(s.db, v, draft)))
  {
    hide VersionOk, RowAtOk, EvidenceAtOk;
    assert forall w | w in s.db.versions :: VersionOk(s.db.versions[w], s.now);
    CatalogueKeeps(s, s.(db := SaveDraftTo(s.db, v, draft)));
  }

  lemma DraftDeletionKeeps(s: Sys, v: nat)
    requires Inv(s)
    ensures Inv(s.(db := DeleteDraftFrom(s.db, v)))
  {
    hide Inv;
    CatalogueKeeps(s, s.(db := DeleteDraftFrom(s.db, v)));
  }

  lemma DocumentKeeps(s: Sys, id: nat, document: Document)
    requires Inv(s)
    ensures Inv(s.(db := AddDocumentTo(s.db, id, document)))
  {
    hide Inv;
    CatalogueKeeps(s, s.(db := AddDocumentTo(s.db, id, document)));
  }

  lemma DeactivationKeeps(s: Sys, ref: string, audience: string)
    requires Inv(s)
    ensures Inv(s.(db := Deactivate(s.db, ref, audience, s.now)))
  {
    hide Inv;
    CatalogueKeeps(s, s.(db := Deactivate(s.db, ref, audience, s.now)));
  }

  /** Events on the catalogue of documents and customers, as opposed to events on rollout states. */
  predicate IsAdministration(e: Event) {
    e.AddAudience? || e.AddDocument? || e.SaveDraft? || e.DeleteDraft?
    || e.CreateCustomer? || e.UpdateCustomer? || e.UpsertCustomer? || e.DeactivateCustomer?
  }

  /** An event on single rows changes neither the catalogue nor the customers. */
  predicate SameCatalogue(db: Db, after: Db) {
    after == db.(states := after.states, acceptances := after.acceptances, objections := after.objections)
  }

  lemma RowOperationsKeepCatalogue(s: Sys, e: Event)
    requires !IsAdministration(e) && !e.PublishVersion? && !e.ActivationRun? && !e.HourlyTick?
    ensures SameCatalogue(s.db, Effect(s, e).db)
  {
    hide ConsentError, ManualError, PatchedRow, RecordAccess, Object, Reminded;
    match e
    case Access(_) =>
    case GiveConsent(_, _, _) =>
    case RecordManually(_, _) =>
    case ObjectTo(_) =>
    case PatchState(_, _) =>
    case ClearNotificationDue(_) =>
    case SendReminders(_) =>
  }

  lemma AdministrationKeeps(s: Sys, e: Event)
    requires Inv(s) && IsAdministration(e)
    ensures Inv(Effect(s, e))
  {
    hide Inv, SaveDraftTo, DeleteDraftFrom, AddDocumentTo, Deactivate, Create, Update, Upsert;
    match e
    case AddAudience(audience) => CatalogueKeeps(s, s.(db := s.db.(audiences := s.db.audiences + {audience})));
    case AddDocument(id, document) => DocumentKeeps(s, id, document);
    case SaveDraft(v, draft) => DraftSaveKeeps(s, v, draft);
    case DeleteDraft(v) => DraftDeletionKeeps(s, v);
    case CreateCustomer(c, input) => if c !in s.db.customers { CreateKeeps(s, c, input); }
    case UpdateCustomer(c, changes) => UpdateKeeps(s, c, changes);
    case UpsertCustomer(c, input) => if c !in s.db.customers { UpsertKeeps(s, c, input); }
    case DeactivateCustomer(ref, audience) => DeactivationKeeps(s, ref, audience);
  }

  lemma TickKeeps(s: Sys)
    requires Inv(s)
    ensures Inv(s.(db := Tick(s.db, s.now)))
  {
    hide Inv, Activate, DeadlinePass;
    ActivationKeeps(s);
    DeadlinePassKeeps(s.(db := Activate(s.db, s.now)));
  }

  lemma MailKeeps(s: Sys, e: Event)
    requires Inv(s) && (e.ClearNotificationDue? || e.SendReminders?)
    ensures Inv(Effect(s, e))
  {
    hide Inv;
    if e.k in s.db.states {
      BookkeepingKeeps(s, e.k, s.db.states[e.k].(notificationDueAt := None));
      if e.k.version in s.db.versions {
        BookkeepingKeeps(s, e.k, Reminded(s.db.states[e.k], s.db.versions[e.k.version], s.now));
      }
    }
  }

  lemma OperationKeeps(s: Sys, e: Event)
    requires Inv(s) && !IsAdministration(e) && Legal(s.db, e)
    ensures Inv(Effect(s, e))
  {
    hide Inv, Publish, Activate, Tick, Notify, Consent, Manual, RaiseObjection, Patch;
    match e
    case PublishVersion(v) => PublishKeeps(s, v);
    case ActivationRun => ActivationKeeps(s);
    case HourlyTick => TickKeeps(s);
    case Access(k) => AccessKeeps(s, k);
    case GiveConsent(k, displayed, channel) => ConsentKeeps(s, k, displayed, channel);
    case RecordManually(k, recording) => ManualKeeps(s, k, recording);
    case ObjectTo(k) => ObjectionKeeps(s, k);
    case PatchState(k, patch) => PatchKeeps(s, k, patch);
    case _ => MailKeeps(s, e);
  }

  /** One event keeps the invariant. */
  lemma StepKeeps(s: Sys, e: Event, now: Time)
    requires Inv(s) && s.now <= now && Legal(s.db, e)
    ensures Inv(Next(s, e, now))
  {
    hide Inv, Effect;
    Later(s, now);
    if IsAdministration(e) {
      AdministrationKeeps(s.(now := now), e);
    } else {
      OperationKeeps(s.(now := now), e);
    }
  }

  lemma StartKeeps()
    ensures Inv(START)
  {
  }

  /** Every reachable state satisfies the invariant. */
  lemma {:induction false} RunKeeps(s: Sys, events: seq<Timed>)
    requires Inv(s) && IsRun(s, events)
    ensures Inv(Run(s, events))
  {
    hide Inv, Effect;
    if events != [] {
      var last := events[|events| - 1];
      RunKeeps(s, events[..|events| - 1]);
      StepKeeps(Run(s, events[..|events| - 1]), last.event, last.at);
    }
  }
}
