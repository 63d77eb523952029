/** Customer administration: creation with imports, updates, the inbound upsert, onboarding rollout. */
module Customers {
  import opened Types
  import opened StateMachine
  import opened Versions
  import opened Lifecycle

  // Out-of-band acceptances.

  datatype ImportRequest = ImportRequest(version: nat, acceptedAt: Option<Time>)

  datatype SignedDocuments = SignedDocuments(effectiveDate: Time, documentTypes: seq<string>)

  datatype CustomerInput = CustomerInput(
    externalRef: string,
    firstName: Option<string>,
    lastName: Option<string>,
    companyName: Option<string>,
    roles: seq<string>,
    contactEmails: seq<string>,
    acceptedVersions: seq<ImportRequest>,
    signed: Option<SignedDocuments>)

  function ImportError(db: Db, entries: seq<ImportRequest>, i: nat, roles: seq<string>): Option<Error>
    requires i < |entries|
  {
    var v := entries[i].version;
    if exists j | 0 <= j < i :: entries[j].version == v then Some(InvalidState)
    else if v !in db.versions then Some(VersionNotFound)
    else if db.versions[v].status == Draft then Some(InvalidState)
    else if db.versions[v].document !in db.documents then Some(InvalidState)
    else if db.documents[db.versions[v].document].audience !in roles then Some(RoleMismatch)
    else None
  }

  /** The first entries, in order: the acceptance dates by version, or the first error met. */
  function ValidateImports(db: Db, entries: seq<ImportRequest>, n: nat, roles: seq<string>,
      now: Time): Result<map<nat, Time>>
    requires n <= |entries|
  {
    if n == 0 then Ok(map[]) else
      match ValidateImports(db, entries, n - 1, roles, now)
      case Err(e) => Err(e)
      case Ok(done) =>
        var error := ImportError(db, entries, n - 1, roles);
        var entry := entries[n - 1];
        if error.Some? then Err(error.value)
        else Ok(done[entry.version := if entry.acceptedAt.Some? then entry.acceptedAt.value else now])
  }

  function Trim(s: string): string {
    if s != "" && IsSpace(s[0]) then Trim(s[1..])
    else if s != "" && IsSpace(s[|s| - 1]) then Trim(s[..|s| - 1])
    else s
  }

  /** Versions a backdated lookup may return: published by then and valid by then, retired or not. */
  function EligibleAt(versions: map<nat, Version>, document: nat, date: Time): set<nat> {
    set v | v in versions && versions[v].document == document && versions[v].status != Draft
            && versions[v].publishedAt.Some? && versions[v].publishedAt.value <= date && versions[v].validFrom <= date
  }

  /** The version of a document that was in force at `date`, as `resolveEffectiveVersionAt` finds it. */
  ghost function EffectiveAt(versions: map<nat, Version>, document: nat, date: Time): Option<nat> {
    Newest(versions, EligibleAt(versions, document, date))
  }

  /** One document per pair of type and audience. */
  predicate DocumentsUnique(documents: map<nat, Document>) {
    forall d, e | d in documents && e in documents && documents[d] == documents[e] :: d == e
  }

  function DocumentsFor(db: Db, docType: string, roles: seq<string>): set<nat> {
    set d | d in db.documents && db.documents[d].docType == docType && db.documents[d].audience in roles
  }

  ghost function EffectiveVersions(db: Db, documents: set<nat>, date: Time): set<nat> {
    set v | v in db.versions && db.versions[v].document in documents
            && EffectiveAt(db.versions, db.versions[v].document, date) == Some(v)
  }

  /** What one signed document type resolves to: in some audience of the roles, a version in force then. */
  ghost function ResolveType(db: Db, docType: string, roles: seq<string>, date: Time): Result<set<nat>> {
    var documents := DocumentsFor(db, Trim(docType), roles);
    var found := EffectiveVersions(db, documents, date);
    if documents == {} then Err(UnknownDocumentType)
    else if found == {} then Err(InvalidState)
    else Ok(found)
  }

  /** The versions found so far and those the types from i on resolve to, or the first error met. */
  ghost function ResolveSigned(db: Db, types: seq<string>, i: nat, roles: seq<string>, date: Time,
      found: set<nat>): Result<set<nat>>
    requires i <= |types|
    decreases |types| - i
  {
    if i == |types| then Ok(found) else
      match ResolveType(db, types[i], roles, date)
      case Err(e) => Err(e)
      case Ok(more) => ResolveSigned(db, types, i + 1, roles, date, found + more)
  }

  /** All imports of a creation: explicit ones win over signed ones. */
  ghost function Imports(db: Db, input: CustomerInput, now: Time): Result<map<nat, Time>> {
    match ValidateImports(db, input.acceptedVersions, |input.acceptedVersions|, input.roles, now)
    case Err(e) => Err(e)
    case Ok(explicit) =>
      if input.signed.None? then Ok(explicit) else
        var signed := input.signed.value;
        match ResolveSigned(db, signed.documentTypes, 0, input.roles, signed.effectiveDate, {})
        case Err(e) => Err(e)
        case Ok(versions) => Ok((map v | v in versions :: signed.effectiveDate) + explicit)
  }

  function KeysFor(c: nat, versions: set<nat>): set<Key> {
    set v | v in versions :: Key(c, v)
  }

  const IMPORTED_ROW := FRESH_ROW.(state := Accepted)

  function ImportedRows(states: map<Key, Row>, keys: set<Key>): map<Key, Row> {
    map k | k in states.Keys + keys :: if k in keys then IMPORTED_ROW else states[k]
  }

  /** An effective acceptance already there stays. */
  function ImportedEvidence(acceptances: map<Key, Acceptance>, keys: set<Key>, imports: map<nat, Time>): map<Key,
      Acceptance> {
    map k | k in acceptances.Keys + keys && (k in acceptances || k.version in imports)
      :: if k in acceptances then acceptances[k] else Acceptance(Import, Admin, imports[k.version], None)
  }

  /** Imported versions become ACCEPTED rows with IMPORT evidence. */
  function ImportAll(db: Db, c: nat, imports: map<nat, Time>): Db {
    var keys := KeysFor(c, imports.Keys);
    db.(states := ImportedRows(db.states, keys), acceptances := ImportedEvidence(db.acceptances, keys, imports))
  }

  // Onboarding rollout.

  /** Current and upcoming versions of the documents the roles cover. */
  ghost function RolloutVersions(db: Db, roles: seq<string>, now: Time): set<nat> {
    set v | v in db.versions && db.versions[v].document in db.documents
            && db.documents[db.versions[v].document].audience in roles
            && (Current(db.versions, db.versions[v].document, now) == Some(v) || Upcoming(db.versions[v], now))
  }

  function OnboardRows(db: Db, c: nat, versions: set<nat>): map<Key, Row> {
    map k | k in KeysFor(c, versions) && k.version in db.versions && k !in db.states
      :: RolloutRow(db.versions[k.version], false, None)
  }

  ghost function Onboard(db: Db, c: nat, roles: seq<string>, now: Time): Db {
    db.(states := db.states + OnboardRows(db, c, RolloutVersions(db, roles, now)))
  }

  // Validation.

  predicate Overlap(a: seq<string>, b: seq<string>) {
    exists i | 0 <= i < |a| :: a[i] in b
  }

  /** `^[^\s@]+@[^\s@]+\.[^\s@]+$`: one @ with text before it, and a dot with text around it after. */
  predicate ValidEmail(s: string) {
    && (forall i | 0 <= i < |s| :: !IsSpace(s[i]))
    && exists at | 0 < at < |s| ::
         && s[at] == '@'
         && (forall i | 0 <= i < |s| && s[i] == '@' :: i == at)
         && exists dot | at + 1 < dot < |s| - 1 :: s[dot] == '.'
  }

  predicate RolesKnown(db: Db, roles: seq<string>) {
    forall i | 0 <= i < |roles| :: roles[i] in db.audiences
  }

  predicate EmailsValid(emails: seq<string>) {
    forall i | 0 <= i < |emails| :: ValidEmail(emails[i])
  }

  /** Another customer, soft-deleted or not, carries the reference with a common role. */
  predicate RefConflict(customers: map<nat, Customer>, ref: string, roles: seq<string>, exclude: Option<nat>) {
    exists c | c in customers ::
      customers[c].externalRef == ref && exclude != Some(c) && Overlap(customers[c].roles, roles)
  }

  function CompanyName(name: Option<string>): Option<string> {
    if name.Some? && !Blank(name.value) then name else None
  }

  function OrEmpty(name: Option<string>): string {
    if name.Some? then name.value else ""
  }

  function NewCustomer(input: CustomerInput): Customer {
    Customer(input.externalRef, OrEmpty(input.firstName), OrEmpty(input.lastName), CompanyName(input.companyName),
             input.roles, input.contactEmails, None)
  }

  // Operations.

  ghost function CreateError(db: Db, input: CustomerInput, now: Time): Option<Error> {
    if Blank(input.externalRef) then Some(InvalidState)
    else if !RolesKnown(db, input.roles) then Some(UnknownAudience)
    else if !EmailsValid(input.contactEmails) then Some(InvalidState)
    else if RefConflict(db.customers, input.externalRef, input.roles, None) then Some(InvalidState)
    else match Imports(db, input, now)
      case Err(e) => Some(e)
      case Ok(_) => None
  }

  ghost function CreateTo(db: Db, c: nat, input: CustomerInput, now: Time): Db
    requires CreateError(db, input, now).None?
  {
    var saved := db.(customers := db.customers[c := NewCustomer(input)]);
    Onboard(ImportAll(saved, c, Imports(db, input, now).value), c, input.roles, now)
  }

  /** c is the fresh id of the new customer. */
  ghost function Create(db: Db, c: nat, input: CustomerInput, now: Time): Done {
    var error := CreateError(db, input, now);
    if error.Some? then Done(db, error) else Done(CreateTo(db, c, input, now), None)
  }

  /** The fields to change; an absent field stays as it is. */
  datatype Changes = Changes(
    firstName: Option<string>,
    lastName: Option<string>,
    companyName: Option<string>,
    roles: Option<seq<string>>,
    contactEmails: Option<seq<string>>)

  const NO_CHANGES := Changes(None, None, None, None, None)

  function UpdateError(db: Db, c: nat, changes: Changes): Option<Error> {
    if c !in db.customers then Some(CustomerNotFound)
    else if db.customers[c].deletedAt.Some? then Some(InvalidState)
    else if changes.roles.Some? && !RolesKnown(db, changes.roles.value) then Some(UnknownAudience)
    else if changes.roles.Some? && RefConflict(db.customers, db.customers[c].externalRef, changes.roles.value, Some(c))
    then Some(InvalidState)
    else if changes.contactEmails.Some? && !EmailsValid(changes.contactEmails.value) then Some(InvalidState)
    else None
  }

  function Changed(before: Customer, changes: Changes): Customer {
    before.(firstName := if changes.firstName.Some? then changes.firstName.value else before.firstName,
         lastName := if changes.lastName.Some? then changes.lastName.value else before.lastName,
         companyName := if changes.companyName.Some? then CompanyName(changes.companyName) else before.companyName,
         roles := if changes.roles.Some? then changes.roles.value else before.roles,
         contactEmails := if changes.contactEmails.Some? then changes.contactEmails.value else before.contactEmails)
  }

  /** The roles of `next` that are not in `previous`, in order. */
  function Added(next: seq<string>, previous: seq<string>): seq<string> {
    if next == [] then [] else
      (if next[0] in previous then [] else [next[0]]) + Added(next[1..], previous)
  }

  ghost function UpdateTo(db: Db, c: nat, changes: Changes, now: Time): Db
    requires c in db.customers
  {
    var saved := db.(customers := db.customers[c := Changed(db.customers[c], changes)]);
    var added := if changes.roles.Some? then Added(changes.roles.value, db.customers[c].roles) else [];
    Onboard(saved, c, added, now)
  }

  ghost function Update(db: Db, c: nat, changes: Changes, now: Time): Done {
    var error := UpdateError(db, c, changes);
    if error.Some? then Done(db, error) else Done(UpdateTo(db, c, changes, now), None)
  }

  /** The earliest customer with the reference and a common role, soft-deleted or not. */
  predicate IsMatch(customers: map<nat, Customer>, ref: string, roles: seq<string>, c: nat) {
    c in customers && customers[c].externalRef == ref && Overlap(customers[c].roles, roles)
  }

  ghost function Resolve(customers: map<nat, Customer>, ref: string, roles: seq<string>): (r: Option<nat>)
    ensures r.Some? ==> IsMatch(customers, ref, roles, r.value)
    ensures r.None? <==> forall c :: !IsMatch(customers, ref, roles, c)
  {
    var matches := set c | c in customers && IsMatch(customers, ref, roles, c);
    if matches == {} then
      assert forall c :: IsMatch(customers, ref, roles, c) ==> c in matches;
      None
    else
      LeastExists(matches);
      var c :| IsLeast(matches, c);
      assert c in matches;
      Some(c)
  }

  ghost predicate IsLeast(s: set<nat>, c: nat) {
    c in s && forall d | d in s :: c <= d
  }

  lemma {:induction false} LeastExists(s: set<nat>)
    requires s != {}
    ensures exists c :: IsLeast(s, c)
  {
    var c :| c in s;
    var rest := s - {c};
    assert forall d | d in s && d != c :: d in rest;
    if rest == {} {
      assert IsLeast(s, c);
    } else {
      LeastExists(rest);
      var d :| IsLeast(rest, d);
      assert IsLeast(s, if c < d then c else d);
    }
  }

  /** Comparison after sorting: the two sequences hold the same strings equally often. */
  predicate SameStrings(a: seq<string>, b: seq<string>) {
    multiset(a) == multiset(b)
  }

  function Diff(before: Customer, input: CustomerInput): Changes {
    var first, last, company := OrEmpty(input.firstName), OrEmpty(input.lastName), CompanyName(input.companyName);
    Changes(if first != before.firstName then Some(first) else None,
            if last != before.lastName then Some(last) else None,
            if company != before.companyName then Some(OrEmpty(company)) else None,
            if SameStrings(input.roles, before.roles) then None else Some(input.roles),
            if SameStrings(input.contactEmails, before.contactEmails) then None else Some(input.contactEmails))
  }

  function Reactivated(before: Customer, input: CustomerInput): Customer {
    NewCustomer(input).(externalRef := before.externalRef)
  }

  function Reactivate(db: Db, c: nat, input: CustomerInput): Done
    requires c in db.customers
  {
    if RefConflict(db.customers, db.customers[c].externalRef, input.roles, Some(c))
    then Done(db, Some(InvalidState))
    else Done(db.(customers := db.customers[c := Reactivated(db.customers[c], input)]), None)
  }

  datatype UpsertKind = Created | Revived | Updated | Unchanged | Refused

  datatype Upserted = Upserted(done: Done, kind: UpsertKind)

  function Outcome(done: Done, kind: UpsertKind): Upserted {
    Upserted(done, if done.error.Some? then Refused else kind)
  }

  /** An inbound record as the creation it may lead to: it never imports. */
  function Plain(input: CustomerInput): CustomerInput {
    input.(acceptedVersions := [], signed := None)
  }

  function UpsertRefused(db: Db, input: CustomerInput): Option<Error> {
    if Blank(input.externalRef) then Some(InvalidState)
    else if !RolesKnown(db, input.roles) then Some(UnknownAudience)
    else if !EmailsValid(input.contactEmails) then Some(InvalidState)
    else None
  }

  /** An upsert onto the record it resolved to; c is the id a creation would use. */
  ghost function UpsertInto(db: Db, c: nat, input: CustomerInput, target: Option<nat>, now: Time): Upserted
    requires target.Some? ==> target.value in db.customers
  {
    if target.None? then Outcome(Create(db, c, Plain(input), now), Created)
    else if db.customers[target.value].deletedAt.Some? then Outcome(Reactivate(db, target.value, input), Revived)
    else
      var changes := Diff(db.customers[target.value], input);
      if changes == NO_CHANGES then Upserted(Done(db, None), Unchanged)
      else Outcome(Update(db, target.value, changes, now), Updated)
  }

  ghost function Upsert(db: Db, c: nat, input: CustomerInput, now: Time): Upserted {
    var refused := UpsertRefused(db, input);
    if refused.Some? then Upserted(Done(db, refused), Refused)
    else UpsertInto(db, c, input, Resolve(db.customers, input.externalRef, input.roles), now)
  }

  /** The three ways an upsert can write. */
  lemma UpsertCases(db: Db, c: nat, input: CustomerInput, now: Time) returns (t: nat, changes: Changes)
    ensures var after := Upsert(db, c, input, now).done.db;
      || after == db
      || (Resolve(db.customers, input.externalRef, input.roles).None? && after == Create(db, c, Plain(input), now).db)
      || (t in db.customers && db.customers[t].deletedAt.Some?
          && after == db.(customers := db.customers[t := Reactivated(db.customers[t], input)]))
      || after == Update(db, t, changes, now).db
  {
    var target := Resolve(db.customers, input.externalRef, input.roles);
    t, changes := 0, NO_CHANGES;
    if target.Some? {
      t, changes := target.value, Diff(db.customers[target.value], input);
    }
  }

  predicate IsActiveMatch(customers: map<nat, Customer>, ref: string, audience: string, c: nat) {
    c in customers && customers[c].externalRef == ref && customers[c].deletedAt.None? && audience in customers[c].roles
  }

  /** Soft-deletes the active customer with the reference and the audience, if there is one. */
  ghost function Deactivate(db: Db, ref: string, audience: string, now: Time): Db {
    var matches := set c | c in db.customers && IsActiveMatch(db.customers, ref, audience, c);
    if matches == {} then db else
      LeastExists(matches);
      var c :| IsLeast(matches, c);
      db.(customers := db.customers[c := db.customers[c].(deletedAt := Some(now))])
  }

  // What the operations on customers write to.

  /** Audiences, documents, versions and objections are as they were. */
  predicate OnlyCustomers(db: Db, after: Db) {
    after == db.(customers := after.customers, states := after.states, acceptances := after.acceptances)
  }

  lemma CreateWrites(db: Db, c: nat, input: CustomerInput, now: Time)
    ensures OnlyCustomers(db, Create(db, c, input, now).db)
  {
    hide RolloutVersions, OnboardRows, CreateError, Imports, ImportedRows, ImportedEvidence, NewCustomer;
  }

  lemma UpdateWrites(db: Db, c: nat, changes: Changes, now: Time)
    ensures OnlyCustomers(db, Update(db, c, changes, now).db)
  {
    hide RolloutVersions, OnboardRows, Changed, Added;
  }

  lemma UpsertWrites(db: Db, c: nat, input: CustomerInput, now: Time)
    ensures OnlyCustomers(db, Upsert(db, c, input, now).done.db)
  {
    hide Create, Update, Upsert, Reactivated, Resolve;
    var t, changes := UpsertCases(db, c, input, now);
    CreateWrites(db, c, Plain(input), now);
    UpdateWrites(db, t, changes, now);
  }

  lemma DeactivateWrites(db: Db, ref: string, audience: string, now: Time)
    ensures OnlyCustomers(db, Deactivate(db, ref, audience, now))
  {
  }
}
