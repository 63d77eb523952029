/** What creating, pushing, updating and deactivating a customer leaves in the record, field by field. */
module Pushes {
  import opened Types
  import opened Customers
  import opened References
  import opened Rows
  import opened Evidence

  // Inbound pushes.

  /** An active record with the pushed data; e-mails and roles are compared without their order. */
  predicate Carries(customer: Customer, input: CustomerInput) {
    && customer.externalRef == input.externalRef && customer.deletedAt == None
    && customer.firstName == (if input.firstName.Some? then input.firstName.value else "")
    && customer.lastName == (if input.lastName.Some? then input.lastName.value else "")
    && customer.companyName == GivenCompany(input)
    && multiset(customer.roles) == multiset(input.roles)
    && multiset(customer.contactEmails) == multiset(input.contactEmails)
  }

  /** The company as given; an absent or blank one is none. */
  function GivenCompany(input: CustomerInput): Option<string> {
    if input.companyName.Some? && exists i | 0 <= i < |input.companyName.value| :: !IsSpace(input.companyName.value[i])
    then input.companyName else None
  }

  lemma DiffFindsAll(customer: Customer, input: CustomerInput)
    requires customer.externalRef == input.externalRef && customer.deletedAt.None?
    ensures Diff(customer, input) == NO_CHANGES <==> Carries(customer, input)
    ensures Carries(Changed(customer, Diff(customer, input)), input)
  {
  }

  /** After every push that is not refused the record written to carries the pushed data; nobody else's changes. */
  lemma PushLeavesRecord(db: Db, c: nat, input: CustomerInput, now: Time)
    requires c !in db.customers && !Upsert(db, c, input, now).kind.Refused?
    ensures var after, t := Upsert(db, c, input, now).done.db.customers, Written(db, c, input);
      && t in after && Carries(after[t], input)
      && after == db.customers[t := after[t]]
  {
    hide Onboard, ImportAll, RefConflict;
    var target := Resolve(db.customers, input.externalRef, input.roles);
    if target.Some? && db.customers[target.value].deletedAt.None? { DiffFindsAll(db.customers[target.value], input); }
    hide Diff, Changed;
    if target.None? { CreationLeavesRecord(db, c, Plain(input), now); }
    if target.Some? { UpdateLeavesRecord(db, target.value, Diff(db.customers[target.value], input), now); }
  }

  lemma CreationLeavesRecord(db: Db, c: nat, input: CustomerInput, now: Time)
    requires Create(db, c, input, now).error.None?
    ensures var after := Create(db, c, input, now).db.customers;
      c in after && Carries(after[c], input) && after == db.customers[c := after[c]]
      && after[c].roles == input.roles && after[c].contactEmails == input.contactEmails
  {
    hide RolloutVersions, OnboardRows, ImportedRows, ImportedEvidence, CreateError, Imports;
  }

  lemma UpdateLeavesRecord(db: Db, c: nat, changes: Changes, now: Time)
    requires c in db.customers
    ensures Update(db, c, changes, now).db.customers
      == if UpdateError(db, c, changes).None? then db.customers[c := Changed(db.customers[c], changes)]
        else db.customers
  {
    hide RolloutVersions, OnboardRows, Changed, UpdateError;
  }

  /** Shares the reference and a role with the push; soft-deleted records count. */
  predicate Reached(customers: map<nat, Customer>, input: CustomerInput, t: nat) {
    && t in customers && customers[t].externalRef == input.externalRef
    && exists role | role in customers[t].roles :: role in input.roles
  }

  lemma ReachedIsMatch(customers: map<nat, Customer>, input: CustomerInput, t: nat)
    ensures Reached(customers, input, t) <==> IsMatch(customers, input.externalRef, input.roles, t)
  {
    if Reached(customers, input, t) {
      var role :| role in customers[t].roles && role in input.roles;
      var i :| 0 <= i < |customers[t].roles| && customers[t].roles[i] == role;
      assert customers[t].roles[i] in input.roles;
    }
  }

  /** A push goes to the earliest record it reaches. */
  lemma ResolvesToEarliest(customers: map<nat, Customer>, input: CustomerInput, t: nat)
    ensures Resolve(customers, input.externalRef, input.roles) == Some(t)
      <==> Reached(customers, input, t) && forall o | o in customers && Reached(customers, input, o) :: t <= o
  {
    hide Reached, IsMatch;
    forall o ensures Reached(customers, input, o) <==> IsMatch(customers, input.externalRef, input.roles, o) {
      ReachedIsMatch(customers, input, o);
    }
    ResolveIsLeast(customers, input.externalRef, input.roles);
    if Reached(customers, input, t) && forall o | o in customers && Reached(customers, input, o) :: t <= o {
      assert IsMatch(customers, input.externalRef, input.roles, t);
      ReachedExists(customers, input, Resolve(customers, input.externalRef, input.roles).value);
    }
    if Resolve(customers, input.externalRef, input.roles) == Some(t) {
      forall o | o in customers && Reached(customers, input, o) ensures t <= o {
        assert IsMatch(customers, input.externalRef, input.roles, o);
      }
    }
  }

  lemma ReachedExists(customers: map<nat, Customer>, input: CustomerInput, t: nat)
    requires IsMatch(customers, input.externalRef, input.roles, t)
    ensures t in customers && Reached(customers, input, t)
  {
    ReachedIsMatch(customers, input, t);
  }

  lemma ResolveIsLeast(customers: map<nat, Customer>, ref: string, roles: seq<string>)
    ensures Resolve(customers, ref, roles).Some? ==>
      forall o | IsMatch(customers, ref, roles, o) :: Resolve(customers, ref, roles).value <= o
  {
    hide Overlap;
    var matches := set c | c in customers && IsMatch(customers, ref, roles, c);
    forall o | IsMatch(customers, ref, roles, o) && Resolve(customers, ref, roles).Some?
      ensures Resolve(customers, ref, roles).value <= o
    {
      assert o in matches;
    }
  }

  /** What a push that is not refused does: by the earliest record it reaches, and nothing if that one is up to date. */
  lemma PushOutcome(db: Db, c: nat, input: CustomerInput, now: Time)
    requires c !in db.customers && !Upsert(db, c, input, now).kind.Refused?
    ensures var pushed, t := Upsert(db, c, input, now), Written(db, c, input);
      && pushed.done.error.None?
      && (pushed.kind == Created <==> t == c)
      && (pushed.kind == Created <==> forall o :: !Reached(db.customers, input, o))
      && (t != c ==>
            && Reached(db.customers, input, t)
            && forall o | o in db.customers && Reached(db.customers, input, o) :: t <= o)
      && (pushed.kind == Revived <==> t != c && db.customers[t].deletedAt.Some?)
      && (pushed.kind == Unchanged <==> t != c && Carries(db.customers[t], input))
      && (pushed.kind == Unchanged ==> pushed.done.db == db)
  {
    hide Reached, IsMatch, Create, Update, Reactivate, UpsertRefused;
    var target := Resolve(db.customers, input.externalRef, input.roles);
    forall o ensures Reached(db.customers, input, o) <==> IsMatch(db.customers, input.externalRef, input.roles, o) {
      ReachedIsMatch(db.customers, input, o);
    }
    if target.Some? {
      ResolvesToEarliest(db.customers, input, target.value);
      MatchHasReference(db.customers, input, target.value);
      if db.customers[target.value].deletedAt.None? { DiffFindsAll(db.customers[target.value], input); }
    }
    hide Diff, Carries;
  }

  lemma MatchHasReference(customers: map<nat, Customer>, input: CustomerInput, t: nat)
    requires IsMatch(customers, input.externalRef, input.roles, t)
    ensures t in customers && customers[t].externalRef == input.externalRef
  {
  }

  /** A push is refused exactly for malformed data, or when two records carry its reference and one of its roles. */
  lemma PushRefusedExactly(db: Db, c: nat, input: CustomerInput, now: Time)
    requires RefsDisjoint(db.customers)
    ensures Upsert(db, c, input, now).kind == Refused <==>
      || (forall i | 0 <= i < |input.externalRef| :: IsSpace(input.externalRef[i]))
      || (exists role | role in input.roles :: role !in db.audiences)
      || (exists email | email in input.contactEmails :: !ValidEmail(email))
      || (exists a, b :: a != b && Reached(db.customers, input, a) && Reached(db.customers, input, b))
    ensures Upsert(db, c, input, now).kind == Refused ==> Upsert(db, c, input, now).done.db == db
  {
    RolesOneByOne(db, input.roles);
    EmailsOneByOne(input.contactEmails);
    TwoReached(db.customers, input);
    hide RolesKnown, EmailsValid, ValidEmail, Reached, ReachesTwo, UpsertInto;
    if UpsertRefused(db, input).None? { AmbiguousPushIsRefused(db, c, input, now); }
  }

  lemma TwoReached(customers: map<nat, Customer>, input: CustomerInput)
    ensures ReachesTwo(customers, input.externalRef, input.roles)
      <==> exists a, b :: a != b && Reached(customers, input, a) && Reached(customers, input, b)
  {
    hide Reached, IsMatch;
    forall o ensures Reached(customers, input, o) <==> IsMatch(customers, input.externalRef, input.roles, o) {
      ReachedIsMatch(customers, input, o);
    }
  }

  // Creation.

  /** An explicit import names an existing, published or retired version of a document for one of the roles. */
  predicate Importable(db: Db, v: nat, roles: seq<string>) {
    && v in db.versions && db.versions[v].status != Draft && db.versions[v].document in db.documents
    && db.documents[db.versions[v].document].audience in roles
  }

  lemma {:induction false} ExplicitSucceedsExactly(db: Db, entries: seq<ImportRequest>, n: nat, roles: seq<string>,
      now: Time)
    requires n <= |entries|
    ensures ValidateImports(db, entries, n, roles, now).Ok? <==>
      && (forall i | 0 <= i < n :: Importable(db, entries[i].version, roles))
      && (forall i, j | 0 <= i < j < n :: entries[i].version != entries[j].version)
  {
    if n > 0 { ExplicitSucceedsExactly(db, entries, n - 1, roles, now); }
  }

  /** A signed document type stands for the version, of some document of that type for a role, in force at the date. */
  ghost predicate SignedFor(db: Db, docType: string, roles: seq<string>, date: Time, v: nat) {
    && v in db.versions && db.versions[v].document in db.documents
    && db.documents[db.versions[v].document].docType == Trim(docType)
    && db.documents[db.versions[v].document].audience in roles
    && EffectiveAt(db.versions, db.versions[v].document, date) == Some(v)
  }

  ghost predicate IsSigned(db: Db, docType: string, roles: seq<string>, date: Time) {
    exists v :: SignedFor(db, docType, roles, date, v)
  }

  /** The text between i and j: before and after it there are only spaces, and it neither starts nor ends with one. */
  predicate IsMiddle(s: string, i: nat, j: nat, middle: string) {
    && i <= j <= |s| && middle == s[i..j]
    && (forall n | 0 <= n < i :: IsSpace(s[n])) && (forall n | j <= n < |s| :: IsSpace(s[n]))
    && (i < j ==> !IsSpace(s[i]) && !IsSpace(s[j - 1]))
  }

  lemma MiddleAfterFirst(s: string, i: nat, j: nat, middle: string)
    requires s != "" && IsSpace(s[0]) && IsMiddle(s[1..], i, j, middle)
    ensures IsMiddle(s, i + 1, j + 1, middle)
  {
    hide IsSpace;
    forall n | 0 <= n < i + 1 ensures IsSpace(s[n]) {
      if n > 0 { assert s[1..][n - 1] == s[n]; }
    }
    forall n | j + 1 <= n < |s| ensures IsSpace(s[n]) { assert s[1..][n - 1] == s[n]; }
  }

  lemma MiddleBeforeLast(s: string, i: nat, j: nat, middle: string)
    requires s != "" && IsSpace(s[|s| - 1]) && IsMiddle(s[..|s| - 1], i, j, middle)
    ensures IsMiddle(s, i, j, middle)
  {
    hide IsSpace;
    forall n | j <= n < |s| ensures IsSpace(s[n]) {
      if n < |s| - 1 { assert s[..|s| - 1][n] == s[n]; }
    }
  }

  /** Trimming takes the spaces off both ends and nothing else. */
  lemma {:induction false} TrimIsMiddle(s: string) returns (i: nat, j: nat)
    ensures IsMiddle(s, i, j, Trim(s))
  {
    hide IsSpace, IsMiddle;
    if s != "" && IsSpace(s[0]) {
      i, j := TrimIsMiddle(s[1..]);
      MiddleAfterFirst(s, i, j, Trim(s));
      i, j := i + 1, j + 1;
    } else if s != "" && IsSpace(s[|s| - 1]) {
      i, j := TrimIsMiddle(s[..|s| - 1]);
      MiddleBeforeLast(s, i, j, Trim(s));
    } else {
      i, j := 0, |s|;
      AllIsMiddle(s);
    }
  }

  lemma AllIsMiddle(s: string)
    requires s != "" ==> !IsSpace(s[0]) && !IsSpace(s[|s| - 1])
    ensures IsMiddle(s, 0, |s|, s)
  {
    hide IsSpace;
  }

  lemma TypeResolvesExactly(db: Db, docType: string, roles: seq<string>, date: Time)
    ensures ResolveType(db, docType, roles, date).Ok? <==> IsSigned(db, docType, roles, date)
    ensures ResolveType(db, docType, roles, date).Ok? ==>
      forall v :: v in ResolveType(db, docType, roles, date).value <==> SignedFor(db, docType, roles, date, v)
  {
    hide EffectiveAt, Trim;
    var found := EffectiveVersions(db, DocumentsFor(db, Trim(docType), roles), date);
    forall v ensures v in found <==> SignedFor(db, docType, roles, date, v) {
    }
    if found != {} {
      var v :| v in found;
      assert db.versions[v].document in DocumentsFor(db, Trim(docType), roles);
    }
  }

  lemma {:induction false} SignedResolveExactly(db: Db, types: seq<string>, i: nat, roles: seq<string>, date: Time,
      found: set<nat>)
    requires i <= |types|
    ensures ResolveSigned(db, types, i, roles, date, found).Ok? <==>
      forall j | i <= j < |types| :: IsSigned(db, types[j], roles, date)
    ensures ResolveSigned(db, types, i, roles, date, found).Ok? ==>
      forall v :: v in ResolveSigned(db, types, i, roles, date, found).value <==>
        v in found || exists j | i <= j < |types| :: SignedFor(db, types[j], roles, date, v)
    decreases |types| - i
  {
    hide SignedFor, IsSigned, ResolveType;
    if i < |types| {
      TypeResolvesExactly(db, types[i], roles, date);
      var one := ResolveType(db, types[i], roles, date);
      if one.Ok? { SignedResolveExactly(db, types, i + 1, roles, date, found + one.value); }
    }
  }

  /** Which versions a creation imports: those listed, and those the signed document types stand for. */
  ghost predicate IsImported(db: Db, input: CustomerInput, v: nat) {
    || (exists i | 0 <= i < |input.acceptedVersions| :: input.acceptedVersions[i].version == v)
    || (input.signed.Some? && exists i | 0 <= i < |input.signed.value.documentTypes| ::
          SignedFor(db, input.signed.value.documentTypes[i], input.roles, input.signed.value.effectiveDate, v))
  }

  /**
   * The imports are in order: listed versions can be imported and are listed once, signed types stand
   * for something.
   */
  ghost predicate ImportsInOrder(db: Db, input: CustomerInput) {
    var entries := input.acceptedVersions;
    && (forall i | 0 <= i < |entries| :: Importable(db, entries[i].version, input.roles))
    && (forall i, j | 0 <= i < j < |entries| :: entries[i].version != entries[j].version)
    && (input.signed.Some? ==>
          forall i | 0 <= i < |input.signed.value.documentTypes| ::
            IsSigned(db, input.signed.value.documentTypes[i], input.roles, input.signed.value.effectiveDate))
  }

  lemma ImportsExactly(db: Db, input: CustomerInput, now: Time)
    ensures Imports(db, input, now).Ok? <==> ImportsInOrder(db, input)
    ensures Imports(db, input, now).Ok? ==>
      forall v :: v in Imports(db, input, now).value <==> IsImported(db, input, v)
  {
    hide SignedFor, IsSigned, Importable, ValidateImports, ResolveSigned;
    var entries := input.acceptedVersions;
    ExplicitSucceedsExactly(db, entries, |entries|, input.roles, now);
    if input.signed.Some? {
      var signed := input.signed.value;
      SignedResolveExactly(db, signed.documentTypes, 0, input.roles, signed.effectiveDate, {});
    }
    if Imports(db, input, now).Ok? {
      forall v ensures v in Imports(db, input, now).value <==> IsImported(db, input, v) {
        ExplicitDated(db, entries, |entries|, input.roles, now, v);
      }
    }
  }

  /** A creation succeeds exactly with a reference nobody of these roles has, known roles, valid e-mails and imports. */
  lemma CreateSucceedsExactly(db: Db, c: nat, input: CustomerInput, now: Time)
    ensures Create(db, c, input, now).error.None? <==>
      && (exists i | 0 <= i < |input.externalRef| :: !IsSpace(input.externalRef[i]))
      && (forall role | role in input.roles :: role in db.audiences)
      && (forall email | email in input.contactEmails :: ValidEmail(email))
      && (forall o :: !Reached(db.customers, input, o))
      && ImportsInOrder(db, input)
    ensures Create(db, c, input, now).error.Some? ==> Create(db, c, input, now).db == db
  {
    hide Reached, Imports, ImportsInOrder, ValidEmail, CreateTo, IsMatch;
    ImportsExactly(db, input, now);
    NobodyReached(db.customers, input);
    RolesOneByOne(db, input.roles);
    EmailsOneByOne(input.contactEmails);
    hide RefConflict, RolesKnown, EmailsValid;
  }

  /** Each refusal of a creation names a cause that is there. */
  lemma CreationRefusalNamesCause(db: Db, c: nat, input: CustomerInput, now: Time)
    requires Create(db, c, input, now).error.Some?
    ensures match Create(db, c, input, now).error.value
      case UnknownAudience => exists role | role in input.roles :: role !in db.audiences
      case VersionNotFound =>
        exists i | 0 <= i < |input.acceptedVersions| :: input.acceptedVersions[i].version !in db.versions
      case RoleMismatch =>
        exists i | 0 <= i < |input.acceptedVersions| ::
          ListedForOtherRole(db, input.acceptedVersions[i].version, input.roles)
      case UnknownDocumentType => input.signed.Some? && exists i | 0 <= i < |input.signed.value.documentTypes| ::
        forall d | d in db.documents && db.documents[d].audience in input.roles ::
          db.documents[d].docType != Trim(input.signed.value.documentTypes[i])
      case InvalidState => true
      case _ => false
  {
    hide CreateTo, ImportError, ResolveType;
    RolesOneByOne(db, input.roles);
    hide RolesKnown;
    if ValidateImports(db, input.acceptedVersions, |input.acceptedVersions|, input.roles, now).Err? {
      ExplicitRefusalNamesCause(db, input.acceptedVersions, |input.acceptedVersions|, input.roles, now);
    }
    if input.signed.Some? {
      SignedRefusalNamesCause(db, input.signed.value.documentTypes, 0, input.roles, input.signed.value.effectiveDate,
          {});
    }
  }

  predicate ListedForOtherRole(db: Db, v: nat, roles: seq<string>) {
    && v in db.versions && db.versions[v].document in db.documents
    && db.documents[db.versions[v].document].audience !in roles
  }

  lemma {:induction false} ExplicitRefusalNamesCause(db: Db, entries: seq<ImportRequest>, n: nat, roles: seq<string>,
      now: Time)
    requires n <= |entries| && ValidateImports(db, entries, n, roles, now).Err?
    ensures match ValidateImports(db, entries, n, roles, now).error
      case VersionNotFound => exists i | 0 <= i < n :: entries[i].version !in db.versions
      case RoleMismatch => exists i | 0 <= i < n :: ListedForOtherRole(db, entries[i].version, roles)
      case InvalidState => true
      case _ => false
  {
    if ValidateImports(db, entries, n - 1, roles, now).Err? {
      ExplicitRefusalNamesCause(db, entries, n - 1, roles, now);
    }
  }

  lemma {:induction false} SignedRefusalNamesCause(db: Db, types: seq<string>, i: nat, roles: seq<string>, date: Time,
      found: set<nat>)
    requires i <= |types|
    ensures ResolveSigned(db, types, i, roles, date, found).Err? ==>
      match ResolveSigned(db, types, i, roles, date, found).error
      case UnknownDocumentType => exists j | i <= j < |types| ::
        forall d | d in db.documents && db.documents[d].audience in roles :: db.documents[d].docType != Trim(types[j])
      case InvalidState => true
      case _ => false
    decreases |types| - i
  {
    hide Trim, EffectiveVersions;
    if i < |types| {
      var one := ResolveType(db, types[i], roles, date);
      if one.Ok? {
        SignedRefusalNamesCause(db, types, i + 1, roles, date, found + one.value);
      } else if one.error == UnknownDocumentType {
        forall d | d in db.documents && db.documents[d].audience in roles
          ensures db.documents[d].docType != Trim(types[i]) {
          assert d !in DocumentsFor(db, Trim(types[i]), roles);
        }
      }
    }
  }

  lemma NobodyReached(customers: map<nat, Customer>, input: CustomerInput)
    ensures RefConflict(customers, input.externalRef, input.roles, None) <==> exists o :: Reached(customers, input, o)
  {
    hide Reached;
    forall o ensures Reached(customers, input, o) <==> IsMatch(customers, input.externalRef, input.roles, o) {
      ReachedIsMatch(customers, input, o);
    }
    if exists o :: Reached(customers, input, o) {
      var o :| Reached(customers, input, o);
      assert IsMatch(customers, input.externalRef, input.roles, o);
    }
    if RefConflict(customers, input.externalRef, input.roles, None) {
      var o :| o in customers && customers[o].externalRef == input.externalRef
           && Overlap(customers[o].roles, input.roles);
      assert IsMatch(customers, input.externalRef, input.roles, o);
    }
  }

  lemma RolesOneByOne(db: Db, roles: seq<string>)
    ensures RolesKnown(db, roles) <==> forall role | role in roles :: role in db.audiences
  {
    if RolesKnown(db, roles) {
      forall role | role in roles ensures role in db.audiences {
        var i :| 0 <= i < |roles| && roles[i] == role;
      }
    }
  }

  lemma EmailsOneByOne(emails: seq<string>)
    ensures EmailsValid(emails) <==> forall email | email in emails :: ValidEmail(email)
  {
    hide ValidEmail;
    if EmailsValid(emails) {
      forall email | email in emails ensures ValidEmail(email) {
        var i :| 0 <= i < |emails| && emails[i] == email;
      }
    }
  }

  /** The new customer's rows: imported versions are ACCEPTED without an access, owed ones pending, and no others. */
  lemma RowAfterCreation(db: Db, c: nat, input: CustomerInput, now: Time, k: Key)
    requires Create(db, c, input, now).error.None? && forall j | j in db.states :: j.customer != c
    ensures var before, after := db.states, Create(db, c, input, now).db.states;
      && (k in after <==>
            k in before
            || (k.customer == c && (IsImported(db, input, k.version) || Owed(db, input.roles, now, k.version))))
      && (k in before ==> after[k] == before[k])
      && (k.customer == c && IsImported(db, input, k.version) ==>
            after[k] == Row(Accepted, None, None, 0, false, None))
      && (k in after && k !in before && !IsImported(db, input, k.version) ==>
            && k.version in db.versions
            && after[k].state == PendingNotification && after[k].notifiedAt == None && after[k].remindersSent == 0
            && !after[k].carryOverBlocking && after[k].notificationDueAt == None
            && var version := db.versions[k.version];
            && after[k].deadlineAt == (if version.mode == Active then version.hardDeadlineAt else None))
  {
    ImportsExactly(db, input, now);
    hide IsImported, ImportsInOrder, Imports, Onboard, Owed;
    var imports := Imports(db, input, now).value;
    var saved := db.(customers := db.customers[c := NewCustomer(input)]);
    var imported := ImportAll(saved, c, imports);
    assert k in KeysFor(c, imports.Keys) <==> k.customer == c && k.version in imports;
    RowAfterOnboarding(imported, c, input.roles, now, k);
    OwedIgnoresRows(db, imported, input.roles, now, k.version);
  }

  lemma OwedIgnoresRows(db: Db, after: Db, roles: seq<string>, now: Time, v: nat)
    requires after.versions == db.versions && after.documents == db.documents
    ensures Owed(after, roles, now, v) == Owed(db, roles, now, v)
  {
  }

  // Updates.

  /**
   * An update succeeds exactly on an active record, with known roles nobody else of the reference has
   * and valid e-mails.
   */
  lemma UpdateSucceedsExactly(db: Db, c: nat, changes: Changes, now: Time)
    ensures Update(db, c, changes, now).error.None? <==>
      && c in db.customers && db.customers[c].deletedAt == None
      && (changes.roles.Some? ==>
            && (forall role | role in changes.roles.value :: role in db.audiences)
            && !exists o | o in db.customers ::
                 o != c && db.customers[o].externalRef == db.customers[c].externalRef
                 && Overlap(db.customers[o].roles, changes.roles.value))
      && (changes.contactEmails.Some? ==> forall email | email in changes.contactEmails.value :: ValidEmail(email))
    ensures Update(db, c, changes, now).error.Some? ==>
      && Update(db, c, changes, now).db == db
      && match Update(db, c, changes, now).error.value
         case CustomerNotFound => c !in db.customers
         case UnknownAudience =>
           changes.roles.Some? && exists role | role in changes.roles.value :: role !in db.audiences
         case InvalidState => c in db.customers
         case _ => false
  {
    hide ValidEmail, Overlap, UpdateTo;
    if changes.roles.Some? { RolesOneByOne(db, changes.roles.value); }
    if changes.contactEmails.Some? { EmailsOneByOne(changes.contactEmails.value); }
    hide RolesKnown, EmailsValid;
  }

  /** A given field is replaced, an absent one stays; a blank company name clears the company. */
  lemma RecordAfterUpdate(db: Db, c: nat, changes: Changes, now: Time)
    requires Update(db, c, changes, now).error.None?
    ensures var customers := Update(db, c, changes, now).db.customers;
      && c in db.customers && c in customers && customers == db.customers[c := customers[c]]
      && var before, after := db.customers[c], customers[c];
      && after == before.(firstName := after.firstName, lastName := after.lastName, companyName := after.companyName,
                          roles := after.roles, contactEmails := after.contactEmails)
      && after.firstName == (if changes.firstName.Some? then changes.firstName.value else before.firstName)
      && after.lastName == (if changes.lastName.Some? then changes.lastName.value else before.lastName)
      && after.roles == (if changes.roles.Some? then changes.roles.value else before.roles)
      && after.contactEmails
         == (if changes.contactEmails.Some? then changes.contactEmails.value else before.contactEmails)
      && (changes.companyName.None? ==> after.companyName == before.companyName)
      && (changes.companyName.Some? ==>
            after.companyName == if exists i | 0 <= i < |changes.companyName.value| ::
              !IsSpace(changes.companyName.value[i])
                                 then changes.companyName else None)
  {
    UpdateLeavesRecord(db, c, changes, now);
    hide Update;
  }

  /** An update inserts the missing rows of the roles it adds, and of no other. */
  lemma RowAfterUpdate(db: Db, c: nat, changes: Changes, now: Time, k: Key)
    requires Update(db, c, changes, now).error.None?
    ensures c in db.customers
    ensures var before, after := db.states, Update(db, c, changes, now).db.states;
      && (k in before ==> k in after && after[k] == before[k])
      && (k in after && k !in before <==>
            && k !in before && k.customer == c && changes.roles.Some? && Owed(db, changes.roles.value, now, k.version)
            && db.documents[db.versions[k.version].document].audience !in db.customers[c].roles)
  {
    hide Onboard;
    var had := db.customers[c].roles;
    var saved := db.(customers := db.customers[c := Changed(db.customers[c], changes)]);
    var added := if changes.roles.Some? then Added(changes.roles.value, had) else [];
    RowAfterOnboarding(saved, c, added, now, k);
    if k.version in db.versions && db.versions[k.version].document in db.documents && changes.roles.Some? {
      AddedExactly(changes.roles.value, had, db.documents[db.versions[k.version].document].audience);
    }
  }

  lemma {:induction false} AddedExactly(next: seq<string>, previous: seq<string>, role: string)
    ensures role in Added(next, previous) <==> role in next && role !in previous
  {
    if next != [] { AddedExactly(next[1..], previous, role); }
  }

  // Deactivation.

  /** The earliest active customer with the reference and the role is soft-deleted; nothing else changes. */
  lemma DeactivationByFields(db: Db, ref: string, audience: string, now: Time, t: nat)
    requires t in db.customers && db.customers[t].externalRef == ref && db.customers[t].deletedAt == None
    requires audience in db.customers[t].roles
    requires forall o | o in db.customers && db.customers[o].externalRef == ref && db.customers[o].deletedAt == None
                        && audience in db.customers[o].roles :: t <= o
    ensures Deactivate(db, ref, audience, now)
         == db.(customers := db.customers[t := db.customers[t].(deletedAt := Some(now))])
  {
    var matches := set c | c in db.customers && IsActiveMatch(db.customers, ref, audience, c);
    assert t in matches;
    LeastExists(matches);
    forall c | IsLeast(matches, c) ensures c == t {
    }
  }

  lemma NobodyToDeactivate(db: Db, ref: string, audience: string, now: Time)
    requires forall o | o in db.customers ::
      db.customers[o].externalRef != ref || db.customers[o].deletedAt.Some? || audience !in db.customers[o].roles
    ensures Deactivate(db, ref, audience, now) == db
  {
  }
}
