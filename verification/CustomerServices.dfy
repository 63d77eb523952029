/** Customer administration, step by step. */
module CustomerServices {
  import opened Types
  import opened StateMachine
  import opened Versions
  import opened Lifecycle
  import opened Customers
  import opened Stores

  // Imports.

  /** Once an entry fails, the whole list does. */
  lemma {:induction false} ImportErrorSticks(db: Db, entries: seq<ImportRequest>, n: nat, m: nat, roles: seq<string>,
      now: Time)
    requires n <= m <= |entries| && ValidateImports(db, entries, n, roles, now).Err?
    ensures ValidateImports(db, entries, m, roles, now) == ValidateImports(db, entries, n, roles, now)
  {
    if n < m { ImportErrorSticks(db, entries, n, m - 1, roles, now); }
  }

  method CheckImports(store: Store, entries: seq<ImportRequest>, roles: seq<string>, now: Time)
      returns (r: Result<map<nat, Time>>)
    ensures r == ValidateImports(store.Snapshot(), entries, |entries|, roles, now)
  {
    var validated: map<nat, Time> := map[];
    var seen: set<nat> := {};
    for i := 0 to |entries|
      invariant ValidateImports(store.Snapshot(), entries, i, roles, now) == Ok(validated)
      invariant forall v :: v in seen <==> exists j | 0 <= j < i :: entries[j].version == v
    {
      var entry := entries[i];
      var v := entry.version;
      var error: Option<Error> := None;
      if v in seen { error := Some(InvalidState); }
      else if v !in store.versions { error := Some(VersionNotFound); }
      else if store.versions[v].status == Draft { error := Some(InvalidState); }
      else if store.versions[v].document !in store.documents { error := Some(InvalidState); }
      else if store.documents[store.versions[v].document].audience !in roles { error := Some(RoleMismatch); }
      assert error == ImportError(store.Snapshot(), entries, i, roles);
      if error.Some? {
        ImportErrorSticks(store.Snapshot(), entries, i + 1, |entries|, roles, now);
        return Err(error.value);
      }
      seen := seen + {v};
      validated := validated[v := if entry.acceptedAt.Some? then entry.acceptedAt.value else now];
    }
    r := Ok(validated);
  }

  method FindByTypeAndAudience(store: Store, docType: string, audience: string) returns (r: Option<nat>)
    requires DocumentsUnique(store.documents)
    ensures DocumentsFor(store.Snapshot(), docType, [audience]) == if r.Some? then {r.value} else {}
  {
    var found := DocumentsFor(store.Snapshot(), docType, [audience]);
    if found == {} { return None; }
    var d :| d in found;
    assert forall e | e in found :: store.documents[e] == Document(docType, audience);
    r := Some(d);
  }

  method ResolveOneType(store: Store, name: string, roles: seq<string>, date: Time) returns (r: Result<set<nat>>)
    requires DocumentsUnique(store.documents)
    ensures r == ResolveType(store.Snapshot(), name, roles, date)
  {
    var docType := Trim(name);
    var matched := false;
    var found: set<nat> := {};
    ghost var db := store.Snapshot();
    for i := 0 to |roles|
      invariant matched <==> DocumentsFor(db, docType, roles[..i]) != {}
      invariant found == EffectiveVersions(db, DocumentsFor(db, docType, roles[..i]), date)
    {
      assert DocumentsFor(db, docType, roles[..i + 1])
        == DocumentsFor(db, docType, roles[..i]) + DocumentsFor(db, docType, [roles[i]]);
      var d := FindByTypeAndAudience(store, docType, roles[i]);
      if d.Some? {
        matched := true;
        var v := store.PickNewest(EligibleAt(store.versions, d.value, date));
        assert EffectiveVersions(db, {d.value}, date) == if v.Some? then {v.value} else {};
        if v.Some? { found := found + {v.value}; }
      }
    }
    assert roles[..|roles|] == roles;
    r := if !matched then Err(UnknownDocumentType) else if found == {} then Err(InvalidState) else Ok(found);
  }

  method ResolveSignedDocuments(store: Store, types: seq<string>, roles: seq<string>, date: Time)
      returns (r: Result<set<nat>>)
    requires DocumentsUnique(store.documents)
    ensures r == ResolveSigned(store.Snapshot(), types, 0, roles, date, {})
  {
    ghost var db := store.Snapshot();
    var found: set<nat> := {};
    for i := 0 to |types|
      invariant ResolveSigned(db, types, i, roles, date, found) == ResolveSigned(db, types, 0, roles, date, {})
    {
      var one := ResolveOneType(store, types[i], roles, date);
      if one.Err? { return one; }
      found := found + one.value;
    }
    r := Ok(found);
  }

  method CollectImports(store: Store, input: CustomerInput, now: Time) returns (r: Result<map<nat, Time>>)
    requires DocumentsUnique(store.documents)
    ensures r == Imports(store.Snapshot(), input, now)
  {
    r := CheckImports(store, input.acceptedVersions, input.roles, now);
    if r.Err? || input.signed.None? { return; }
    var signed := input.signed.value;
    var resolved := ResolveSignedDocuments(store, signed.documentTypes, input.roles, signed.effectiveDate);
    if resolved.Err? { return Err(resolved.error); }
    r := Ok((map v | v in resolved.value :: signed.effectiveDate) + r.value);
  }

  lemma ImportedEvidenceGrows(acceptances: map<Key, Acceptance>, keys: set<Key>, imports: map<nat, Time>, k: Key)
    requires k !in keys && k.version in imports
    ensures var before := ImportedEvidence(acceptances, keys, imports);
      ImportedEvidence(acceptances, keys + {k}, imports)
      == if k in before then before else before[k := Acceptance(Import, Admin, imports[k.version], None)]
  {
  }

  lemma ImportedRowsGrow(states: map<Key, Row>, keys: set<Key>, k: Key)
    ensures ImportedRows(states, keys + {k}) == ImportedRows(states, keys)[k := IMPORTED_ROW]
  {
  }

  method ImportAcceptances(store: Store, c: nat, imports: map<nat, Time>)
    modifies store`states, store`acceptances
    ensures store.Snapshot() == ImportAll(old(store.Snapshot()), c, imports)
  {
    ghost var states, acceptances := store.states, store.acceptances;
    var todo := imports.Keys;
    ghost var done: set<nat> := {};
    while todo != {}
      invariant todo !! done && todo + done == imports.Keys
      invariant store.states == ImportedRows(states, KeysFor(c, done))
      invariant store.acceptances == ImportedEvidence(acceptances, KeysFor(c, done), imports)
    {
      var v :| v in todo;
      assert KeysFor(c, done + {v}) == KeysFor(c, done) + {Key(c, v)};
      ImportedRowsGrow(states, KeysFor(c, done), Key(c, v));
      ImportedEvidenceGrows(acceptances, KeysFor(c, done), imports, Key(c, v));
      store.states := store.states[Key(c, v) := IMPORTED_ROW];
      var error := store.AppendAcceptance(Key(c, v), Acceptance(Import, Admin, imports[v], None));
      todo, done := todo - {v}, done + {v};
    }
    assert done == imports.Keys;
  }

  // Onboarding rollout.

  /** Current and upcoming versions of one document. */
  ghost function Obligations(versions: map<nat, Version>, documents: set<nat>, now: Time): set<nat> {
    set v | v in versions && versions[v].document in documents
            && (Current(versions, versions[v].document, now) == Some(v) || Upcoming(versions[v], now))
  }

  lemma NothingToInsert(db: Db, c: nat)
    ensures OnboardRows(db, c, {}) == map[]
  {
  }

  /** A missing row is inserted, an existing one left alone. */
  lemma OnboardedAt(db: Db, c: nat, versions: set<nat>, k: Key)
    ensures RowAt(db.states + OnboardRows(db, c, versions), k)
      == if k.customer == c && k.version in versions && k.version in db.versions && k !in db.states
         then Some(RolloutRow(db.versions[k.version], false, None)) else RowAt(db.states, k)
  {
    assert k in KeysFor(c, versions) <==> k.customer == c && k.version in versions;
  }

  lemma OneMoreRow(db: Db, c: nat, done: set<nat>, v: nat)
    requires v in db.versions && v !in done
    ensures var before, k := db.states + OnboardRows(db, c, done), Key(c, v);
      db.states + OnboardRows(db, c, done + {v})
      == if k in before then before else before[k := RolloutRow(db.versions[v], false, None)]
  {
    hide OnboardRows;
    var before, after := db.states + OnboardRows(db, c, done), db.states + OnboardRows(db, c, done + {v});
    var step := if Key(c, v) in before then before else before[Key(c, v) := RolloutRow(db.versions[v], false, None)];
    OnboardedAt(db, c, done, Key(c, v));
    forall k ensures RowAt(step, k) == RowAt(after, k) {
      OnboardedAt(db, c, done, k);
      OnboardedAt(db, c, done + {v}, k);
    }
    SameRows(step, after);
  }

  method InsertMissing(store: Store, c: nat, versions: set<nat>)
    requires versions <= store.versions.Keys
    modifies store`states
    ensures store.states == old(store.states) + OnboardRows(old(store.Snapshot()), c, versions)
  {
    hide OnboardRows;
    ghost var db := store.Snapshot();
    NothingToInsert(db, c);
    var todo := versions;
    ghost var done: set<nat> := {};
    while todo != {}
      invariant todo !! done && todo + done == versions
      invariant store.states == db.states + OnboardRows(db, c, done)
    {
      var v :| v in todo;
      var k := Key(c, v);
      OneMoreRow(db, c, done, v);
      if k !in store.states {
        store.states := store.states[k := RolloutRow(store.versions[v], false, None)];
      }
      todo, done := todo - {v}, done + {v};
    }
  }

  lemma OnboardSplits(db: Db, c: nat, some: set<nat>, more: set<nat>)
    ensures var partly := db.(states := db.states + OnboardRows(db, c, some));
      partly.states + OnboardRows(partly, c, more) == db.states + OnboardRows(db, c, some + more)
  {
    hide OnboardRows;
    var partly := db.(states := db.states + OnboardRows(db, c, some));
    var left, right := partly.states + OnboardRows(partly, c, more), db.states + OnboardRows(db, c, some + more);
    forall k ensures RowAt(left, k) == RowAt(right, k) {
      OnboardedAt(db, c, some, k);
      OnboardedAt(partly, c, more, k);
      OnboardedAt(db, c, some + more, k);
    }
    SameRows(left, right);
  }

  /** Taking in one more document: its current version and its upcoming ones. */
  lemma ObligationsGrow(versions: map<nat, Version>, documents: set<nat>, d: nat, now: Time, current: Option<nat>,
      more: set<nat>)
    requires current == Current(versions, d, now)
    requires more == (set v | v in versions && versions[v].document == d && Upcoming(versions[v], now))
                     + (if current.Some? then {current.value} else {})
    ensures Obligations(versions, documents + {d}, now) == Obligations(versions, documents, now) + more
    ensures more <= versions.Keys
  {
    if current.Some? { assert current.value in InForceOf(versions, d, now); }
    hide Upcoming, Newer, InForce;
  }

  lemma NoObligations(db: Db, c: nat, now: Time)
    ensures OnboardRows(db, c, Obligations(db.versions, {}, now)) == map[]
  {
    hide Current, Upcoming;
  }

  lemma AllObligations(db: Db, documents: set<nat>, roles: seq<string>, now: Time)
    requires documents == set d | d in db.documents && db.documents[d].audience in roles
    ensures Obligations(db.versions, documents, now) == RolloutVersions(db, roles, now)
  {
    hide Current, Upcoming;
  }

  method RolloutCurrentVersions(store: Store, c: nat, roles: seq<string>, now: Time)
    modifies store`states
    ensures store.Snapshot() == Onboard(old(store.Snapshot()), c, roles, now)
  {
    hide OnboardRows, Obligations, Current;
    ghost var db := store.Snapshot();
    NoObligations(db, c, now);
    var documents := set d | d in store.documents && store.documents[d].audience in roles;
    var todo := documents;
    ghost var done: set<nat> := {};
    while todo != {}
      invariant todo !! done && todo + done == documents
      invariant store.states == db.states + OnboardRows(db, c, Obligations(db.versions, done, now))
    {
      var d :| d in todo;
      var current := store.FindCurrentPublished(d, now);
      var upcoming := set v | v in store.versions && store.versions[v].document == d
        && Upcoming(store.versions[v], now);
      var versions := upcoming + (if current.Some? then {current.value} else {});
      ObligationsGrow(db.versions, done, d, now, current, versions);
      OnboardSplits(db, c, Obligations(db.versions, done, now), versions);
      InsertMissing(store, c, versions);
      todo, done := todo - {d}, done + {d};
    }
    AllObligations(db, documents, roles, now);
  }

  // Operations.

  method CreateCustomer(store: Store, c: nat, input: CustomerInput, now: Time) returns (error: Option<Error>)
    requires c !in store.customers && DocumentsUnique(store.documents)
    modifies store
    ensures Done(store.Snapshot(), error) == Create(old(store.Snapshot()), c, input, now)
  {
    if Blank(input.externalRef) { return Some(InvalidState); }
    if !RolesKnown(store.Snapshot(), input.roles) { return Some(UnknownAudience); }
    if !EmailsValid(input.contactEmails) { return Some(InvalidState); }
    if RefConflict(store.customers, input.externalRef, input.roles, None) { return Some(InvalidState); }
    var imports := CollectImports(store, input, now);
    if imports.Err? { return Some(imports.error); }
    store.customers := store.customers[c := NewCustomer(input)];
    ImportAcceptances(store, c, imports.value);
    RolloutCurrentVersions(store, c, input.roles, now);
    error := None;
  }

  method UpdateCustomer(store: Store, c: nat, changes: Changes, now: Time) returns (error: Option<Error>)
    modifies store
    ensures Done(store.Snapshot(), error) == Update(old(store.Snapshot()), c, changes, now)
  {
    if c !in store.customers { return Some(CustomerNotFound); }
    var existing := store.customers[c];
    if existing.deletedAt.Some? { return Some(InvalidState); }
    if changes.roles.Some? {
      if !RolesKnown(store.Snapshot(), changes.roles.value) { return Some(UnknownAudience); }
      if RefConflict(store.customers, existing.externalRef, changes.roles.value, Some(c)) { return Some(InvalidState); }
    }
    if changes.contactEmails.Some? && !EmailsValid(changes.contactEmails.value) { return Some(InvalidState); }
    store.customers := store.customers[c := Changed(existing, changes)];
    var added := if changes.roles.Some? then Added(changes.roles.value, existing.roles) else [];
    RolloutCurrentVersions(store, c, added, now);
    error := None;
  }

  method FirstOf(candidates: set<nat>) returns (r: Option<nat>)
    ensures r.None? <==> candidates == {}
    ensures r.Some? ==> IsLeast(candidates, r.value)
  {
    r := None;
    var todo := candidates;
    while todo != {}
      invariant todo <= candidates
      invariant (r.None? ==> candidates - todo == {}) && (r.Some? ==> IsLeast(candidates - todo, r.value))
    {
      var c :| c in todo;
      assert candidates - (todo - {c}) == (candidates - todo) + {c};
      todo := todo - {c};
      if r.None? || c < r.value { r := Some(c); }
    }
    assert candidates - {} == candidates;
  }

  method UpsertByExternalRef(store: Store, c: nat, input: CustomerInput, now: Time)
      returns (error: Option<Error>, kind: UpsertKind)
    requires c !in store.customers && DocumentsUnique(store.documents)
    modifies store
    ensures Upserted(Done(store.Snapshot(), error), kind) == Upsert(old(store.Snapshot()), c, input, now)
  {
    kind := Refused;
    if Blank(input.externalRef) { return Some(InvalidState), Refused; }
    if !RolesKnown(store.Snapshot(), input.roles) { return Some(UnknownAudience), Refused; }
    if !EmailsValid(input.contactEmails) { return Some(InvalidState), Refused; }
    var matches := set m | m in store.customers && IsMatch(store.customers, input.externalRef, input.roles, m);
    var target := FirstOf(matches);
    assert target == Resolve(store.customers, input.externalRef, input.roles);
    if target.None? {
      error := CreateCustomer(store, c, input.(acceptedVersions := [], signed := None), now);
      kind := if error.None? then Created else Refused;
    } else if store.customers[target.value].deletedAt.Some? {
      var existing := store.customers[target.value];
      if RefConflict(store.customers, existing.externalRef, input.roles, target) { return Some(InvalidState), Refused; }
      store.customers := store.customers[target.value := Reactivated(existing, input)];
      error, kind := None, Revived;
    } else {
      var changes := Diff(store.customers[target.value], input);
      if changes == NO_CHANGES { return None, Unchanged; }
      error := UpdateCustomer(store, target.value, changes, now);
      kind := if error.None? then Updated else Refused;
    }
  }

  method DeactivateByExternalRef(store: Store, ref: string, audience: string, now: Time)
    modifies store`customers
    ensures store.Snapshot() == Deactivate(old(store.Snapshot()), ref, audience, now)
  {
    var matches := set m | m in store.customers && IsActiveMatch(store.customers, ref, audience, m);
    var existing := FirstOf(matches);
    if existing.None? { return; }
    store.customers := store.customers[existing.value := store.customers[existing.value].(deletedAt := Some(now))];
  }
}
