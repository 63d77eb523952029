/** External references: overlap-aware uniqueness, and the inbound upsert that can be repeated. */
module References {
  import opened Types
  import opened Lifecycle
  import opened Customers
  import opened Runs

  /** Two customers with one reference, soft-deleted or not, never share a role. */
  predicate RefsDisjoint(customers: map<nat, Customer>) {
    forall a, b | a in customers && b in customers && a != b && customers[a].externalRef == customers[b].externalRef ::
      !Overlap(customers[a].roles, customers[b].roles)
  }

  lemma OverlapSymmetric(a: seq<string>, b: seq<string>)
    ensures Overlap(a, b) <==> Overlap(b, a)
  {
  }

  /** Writing one customer whose reference and roles conflict with nobody else's. */
  lemma OneCustomerDisjoint(customers: map<nat, Customer>, c: nat, customer: Customer)
    requires RefsDisjoint(customers) && !RefConflict(customers, customer.externalRef, customer.roles, Some(c))
    ensures RefsDisjoint(customers[c := customer])
  {
    forall d | d in customers && d != c && customers[d].externalRef == customer.externalRef
      ensures !Overlap(customers[d].roles, customer.roles) && !Overlap(customer.roles, customers[d].roles)
    {
      OverlapSymmetric(customers[d].roles, customer.roles);
    }
  }

  /** A record that keeps its roles cannot come to conflict with another. */
  lemma SameRolesNoConflict(customers: map<nat, Customer>, c: nat)
    requires RefsDisjoint(customers) && c in customers
    ensures !RefConflict(customers, customers[c].externalRef, customers[c].roles, Some(c))
  {
  }

  lemma CreateDisjoint(db: Db, c: nat, input: CustomerInput, now: Time)
    requires RefsDisjoint(db.customers)
    ensures RefsDisjoint(Create(db, c, input, now).db.customers)
  {
    if CreateError(db, input, now).None? { OneCustomerDisjoint(db.customers, c, NewCustomer(input)); }
  }

  lemma UpdateDisjoint(db: Db, c: nat, changes: Changes, now: Time)
    requires RefsDisjoint(db.customers)
    ensures RefsDisjoint(Update(db, c, changes, now).db.customers)
  {
    if UpdateError(db, c, changes).None? {
      SameRolesNoConflict(db.customers, c);
      OneCustomerDisjoint(db.customers, c, Changed(db.customers[c], changes));
    }
  }

  lemma ReactivateDisjoint(db: Db, c: nat, input: CustomerInput)
    requires RefsDisjoint(db.customers) && c in db.customers
    ensures RefsDisjoint(Reactivate(db, c, input).db.customers)
  {
    if Reactivate(db, c, input).error.None? {
      OneCustomerDisjoint(db.customers, c, Reactivated(db.customers[c], input));
    }
  }

  lemma UpsertDisjoint(db: Db, c: nat, input: CustomerInput, now: Time)
    requires RefsDisjoint(db.customers)
    ensures RefsDisjoint(Upsert(db, c, input, now).done.db.customers)
  {
    hide RefsDisjoint, Create, Update, Reactivate, Resolve, Diff;
    var target := Resolve(db.customers, input.externalRef, input.roles);
    if target.None? {
      CreateDisjoint(db, c, Plain(input), now);
    } else {
      ReactivateDisjoint(db, target.value, input);
      UpdateDisjoint(db, target.value, Diff(db.customers[target.value], input), now);
    }
  }

  lemma DeactivateDisjoint(db: Db, ref: string, audience: string, now: Time)
    requires RefsDisjoint(db.customers)
    ensures RefsDisjoint(Deactivate(db, ref, audience, now).customers)
  {
  }

  /** Only these four events write to the customers at all. */
  lemma OthersKeepCustomers(s: Sys, e: Event)
    requires !e.CreateCustomer? && !e.UpdateCustomer? && !e.UpsertCustomer? && !e.DeactivateCustomer?
    ensures Effect(s, e).db.customers == s.db.customers
  {
    hide ConsentError, ManualError, PatchedRow, PublishError, RetiredByPublish, FlippedStates, OpenRows;
  }

  lemma StepDisjoint(s: Sys, e: Event)
    requires RefsDisjoint(s.db.customers)
    ensures RefsDisjoint(Effect(s, e).db.customers)
  {
    hide RefsDisjoint, Create, Update, Upsert, Deactivate;
    match e
    case CreateCustomer(c, input) => CreateDisjoint(s.db, c, input, s.now);
    case UpdateCustomer(c, changes) => UpdateDisjoint(s.db, c, changes, s.now);
    case UpsertCustomer(c, input) => UpsertDisjoint(s.db, c, input, s.now);
    case DeactivateCustomer(ref, audience) => DeactivateDisjoint(s.db, ref, audience, s.now);
    case _ => OthersKeepCustomers(s, e);
  }

  /** In every run references stay disjoint. */
  lemma {:induction false} RunDisjoint(s: Sys, events: seq<Timed>)
    requires RefsDisjoint(s.db.customers)
    ensures RefsDisjoint(Run(s, events).db.customers)
  {
    if events != [] {
      var last, before := events[|events| - 1], Run(s, events[..|events| - 1]);
      RunDisjoint(s, events[..|events| - 1]);
      StepDisjoint(before.(now := last.at), last.event);
    }
  }

  // Repeating an upsert.

  /** If nobody but c conflicts and c matches, the lookup finds c. */
  lemma ResolvesTo(customers: map<nat, Customer>, ref: string, roles: seq<string>, c: nat)
    requires IsMatch(customers, ref, roles, c) && !RefConflict(customers, ref, roles, Some(c))
    ensures Resolve(customers, ref, roles) == Some(c)
  {
    assert !(forall d :: !IsMatch(customers, ref, roles, d));
  }

  lemma NonEmptyOverlap(a: seq<string>, b: seq<string>)
    requires a != [] && SameStrings(a, b)
    ensures Overlap(a, b) && Overlap(b, a)
  {
    assert a[0] in multiset(a);
    assert a[0] in multiset(b);
    assert a[0] in b;
    OverlapSymmetric(a, b);
  }

  lemma SameStringsSameOverlap(roles: seq<string>, a: seq<string>, b: seq<string>)
    requires SameStrings(a, b)
    ensures Overlap(roles, a) <==> Overlap(roles, b)
  {
    forall x: string ensures x in a <==> x in b {
      assert x in a <==> x in multiset(a);
      assert x in b <==> x in multiset(b);
    }
  }

  /** Applying the differences leaves none. */
  lemma DiffSettles(before: Customer, input: CustomerInput)
    ensures Diff(Changed(before, Diff(before, input)), input) == NO_CHANGES
  {
  }

  /** The record the first push wrote or found. */
  ghost function Written(db: Db, c: nat, input: CustomerInput): nat {
    var target := Resolve(db.customers, input.externalRef, input.roles);
    if target.Some? then target.value else c
  }

  /** After a successful push the record is active, equals the input up to order, and nobody conflicts with it. */
  ghost predicate IsUpToDate(customers: map<nat, Customer>, t: nat, input: CustomerInput) {
    && t in customers && customers[t].deletedAt.None? && customers[t].externalRef == input.externalRef
    && SameStrings(input.roles, customers[t].roles)
    && Diff(customers[t], input) == NO_CHANGES
    && !RefConflict(customers, input.externalRef, input.roles, Some(t))
  }

  lemma CreatedUpToDate(db: Db, c: nat, input: CustomerInput, now: Time)
    requires c !in db.customers && Create(db, c, Plain(input), now).error.None?
    ensures IsUpToDate(Create(db, c, Plain(input), now).db.customers, c, input)
  {
  }

  lemma RevivedUpToDate(db: Db, t: nat, input: CustomerInput)
    requires t in db.customers && db.customers[t].externalRef == input.externalRef
    requires Reactivate(db, t, input).error.None?
    ensures IsUpToDate(Reactivate(db, t, input).db.customers, t, input)
  {
  }

  lemma UnchangedUpToDate(customers: map<nat, Customer>, t: nat, input: CustomerInput)
    requires RefsDisjoint(customers) && t in customers && customers[t].deletedAt.None?
    requires customers[t].externalRef == input.externalRef && Diff(customers[t], input) == NO_CHANGES
    ensures IsUpToDate(customers, t, input)
  {
    forall d | d in customers && d != t && customers[d].externalRef == input.externalRef
      ensures !Overlap(customers[d].roles, input.roles)
    {
      SameStringsSameOverlap(customers[d].roles, input.roles, customers[t].roles);
    }
  }

  lemma UpdatedUpToDate(db: Db, t: nat, input: CustomerInput, now: Time)
    requires RefsDisjoint(db.customers) && t in db.customers && db.customers[t].externalRef == input.externalRef
    requires Update(db, t, Diff(db.customers[t], input), now).error.None?
    ensures IsUpToDate(Update(db, t, Diff(db.customers[t], input), now).db.customers, t, input)
  {
    var changes := Diff(db.customers[t], input);
    UpdateDisjoint(db, t, changes, now);
    DiffSettles(db.customers[t], input);
    UnchangedUpToDate(Update(db, t, changes, now).db.customers, t, input);
  }

  lemma PushedUpToDate(db: Db, c: nat, input: CustomerInput, now: Time)
    requires RefsDisjoint(db.customers) && c !in db.customers && !Upsert(db, c, input, now).kind.Refused?
    ensures IsUpToDate(Upsert(db, c, input, now).done.db.customers, Written(db, c, input), input)
  {
    var target := Resolve(db.customers, input.externalRef, input.roles);
    if target.None? {
      CreatedUpToDate(db, c, input, now);
    } else if db.customers[target.value].deletedAt.Some? {
      RevivedUpToDate(db, target.value, input);
    } else if Diff(db.customers[target.value], input) == NO_CHANGES {
      UnchangedUpToDate(db.customers, target.value, input);
    } else {
      UpdatedUpToDate(db, target.value, input, now);
    }
  }

  lemma PushKeepsCatalogue(db: Db, c: nat, input: CustomerInput, now: Time)
    ensures var after := Upsert(db, c, input, now).done.db;
      after.audiences == db.audiences && after.documents == db.documents
  {
    hide Upsert;
    UpsertWrites(db, c, input, now);
  }

  /**
   * Repeating a successful push finds the same record and writes nothing, at any later time, exactly
   * when the input names a role; without one it never matches a record, and creates another.
   */
  lemma UpsertRepeats(db: Db, c: nat, input: CustomerInput, now: Time, c': nat, later: Time)
    requires RefsDisjoint(db.customers) && c !in db.customers && !Upsert(db, c, input, now).kind.Refused?
    ensures var after := Upsert(db, c, input, now).done.db;
      && (Upsert(after, c', input, later) == Upserted(Done(after, None), Unchanged) <==> input.roles != [])
      && (input.roles != [] ==> Resolve(after.customers, input.externalRef, input.roles) == Some(Written(db, c, input)))
  {
    var after, t := Upsert(db, c, input, now).done.db, Written(db, c, input);
    PushedUpToDate(db, c, input, now);
    PushKeepsCatalogue(db, c, input, now);
    Repeated(after, t, c', input, later);
  }

  lemma Repeated(db: Db, t: nat, c: nat, input: CustomerInput, now: Time)
    requires UpsertRefused(db, input).None? && IsUpToDate(db.customers, t, input)
    ensures Upsert(db, c, input, now) == Upserted(Done(db, None), Unchanged) <==> input.roles != []
    ensures input.roles != [] ==> Resolve(db.customers, input.externalRef, input.roles) == Some(t)
  {
    if input.roles != [] {
      NonEmptyOverlap(input.roles, db.customers[t].roles);
      ResolvesTo(db.customers, input.externalRef, input.roles, t);
    } else {
      assert forall d :: !IsMatch(db.customers, input.externalRef, [], d);
    }
  }

  /** The roles of a push reach two records that carry its reference. */
  ghost predicate ReachesTwo(customers: map<nat, Customer>, ref: string, roles: seq<string>) {
    exists a, b :: a != b && IsMatch(customers, ref, roles, a) && IsMatch(customers, ref, roles, b)
  }

  /** The record a lookup finds conflicts with another one exactly if a second one is reached. */
  lemma ConflictBesideTarget(customers: map<nat, Customer>, ref: string, roles: seq<string>)
    requires Resolve(customers, ref, roles).Some?
    ensures RefConflict(customers, ref, roles, Resolve(customers, ref, roles)) <==> ReachesTwo(customers, ref, roles)
  {
    var target := Resolve(customers, ref, roles);
    if RefConflict(customers, ref, roles, target) {
      var c :| c in customers && customers[c].externalRef == ref && target != Some(c)
           && Overlap(customers[c].roles, roles);
      assert IsMatch(customers, ref, roles, c) && IsMatch(customers, ref, roles, target.value);
    }
    if ReachesTwo(customers, ref, roles) {
      var a, b :| a != b && IsMatch(customers, ref, roles, a) && IsMatch(customers, ref, roles, b);
      var c := if target == Some(a) then b else a;
      assert customers[c].externalRef == ref && target != Some(c) && Overlap(customers[c].roles, roles);
    }
  }

  /** Reaching two records means pushing roles the found record does not have. */
  lemma TwoMeansNewRoles(customers: map<nat, Customer>, ref: string, roles: seq<string>, t: nat)
    requires RefsDisjoint(customers) && IsMatch(customers, ref, roles, t) && ReachesTwo(customers, ref, roles)
    ensures !SameStrings(roles, customers[t].roles)
  {
    var a, b :| a != b && IsMatch(customers, ref, roles, a) && IsMatch(customers, ref, roles, b);
    var o := if t == a then b else a;
    if SameStrings(roles, customers[t].roles) {
      SameStringsSameOverlap(customers[o].roles, roles, customers[t].roles);
    }
  }

  lemma NoMatchNoConflict(customers: map<nat, Customer>, ref: string, roles: seq<string>)
    requires Resolve(customers, ref, roles).None?
    ensures !RefConflict(customers, ref, roles, None)
  {
    if RefConflict(customers, ref, roles, None) {
      var c :| c in customers && customers[c].externalRef == ref && Overlap(customers[c].roles, roles);
      assert IsMatch(customers, ref, roles, c);
    }
  }

  /** A push that finds no record creates one without a conflict. */
  lemma FreshPushSucceeds(db: Db, c: nat, input: CustomerInput, now: Time)
    requires UpsertRefused(db, input).None? && Resolve(db.customers, input.externalRef, input.roles).None?
    ensures Create(db, c, Plain(input), now).error.None?
  {
    NoMatchNoConflict(db.customers, input.externalRef, input.roles);
  }

  /**
   * A well-formed push is refused, and then changes nothing, exactly when its roles reach two records;
   * the lookup alone would take the first of them.
   */
  lemma AmbiguousPushIsRefused(db: Db, c: nat, input: CustomerInput, now: Time)
    requires RefsDisjoint(db.customers) && UpsertRefused(db, input).None?
    ensures Upsert(db, c, input, now).kind == Refused <==> ReachesTwo(db.customers, input.externalRef, input.roles)
    ensures Upsert(db, c, input, now).kind == Refused ==> Upsert(db, c, input, now).done.db == db
  {
    var target := Resolve(db.customers, input.externalRef, input.roles);
    if target.None? {
      FreshPushSucceeds(db, c, input, now);
    } else {
      ConflictBesideTarget(db.customers, input.externalRef, input.roles);
      if ReachesTwo(db.customers, input.externalRef, input.roles) {
        TwoMeansNewRoles(db.customers, input.externalRef, input.roles, target.value);
      }
    }
  }

  /** A push of a single role never reaches two records, so it is never refused for that. */
  lemma SingleRoleReachesOne(customers: map<nat, Customer>, ref: string, role: string)
    requires RefsDisjoint(customers)
    ensures !ReachesTwo(customers, ref, [role])
  {
    forall a, b | IsMatch(customers, ref, [role], a) && IsMatch(customers, ref, [role], b) ensures a == b {
      SharedRole(customers[a].roles, customers[b].roles, role);
    }
  }

  /** An audience and a reference name at most one active customer: whom a deactivation removes is never a choice. */
  lemma DeactivationIsUnambiguous(customers: map<nat, Customer>, ref: string, audience: string, a: nat, b: nat)
    requires RefsDisjoint(customers)
    requires IsActiveMatch(customers, ref, audience, a) && IsActiveMatch(customers, ref, audience, b)
    ensures a == b
  {
    SharedRole(customers[a].roles, customers[b].roles, audience);
  }

  lemma SharedRole(a: seq<string>, b: seq<string>, role: string)
    requires role in a && role in b
    ensures Overlap(a, b)
  {
    var i :| 0 <= i < |a| && a[i] == role;
    assert a[i] in b;
  }

  // Documents.

  lemma OthersKeepDocuments(s: Sys, e: Event)
    requires !e.AddDocument?
    ensures Effect(s, e).db.documents == s.db.documents
  {
    if e.UpsertCustomer? { PushKeepsCatalogue(s.db, e.c, e.input, s.now); }
  }

  /** In every run there is one document per pair of type and audience. */
  lemma {:induction false} RunDocumentsUnique(s: Sys, events: seq<Timed>)
    requires DocumentsUnique(s.db.documents)
    ensures DocumentsUnique(Run(s, events).db.documents)
  {
    if events != [] {
      var last, before := events[|events| - 1], Run(s, events[..|events| - 1]);
      RunDocumentsUnique(s, events[..|events| - 1]);
      if !last.event.AddDocument? { OthersKeepDocuments(before.(now := last.at), last.event); }
    }
  }
}
