/** The operations that stay single steps keep the interleaved system sound. */
module WholeSteps {
  import opened Actors
  import opened EvidenceFrame
  import opened Types
  import opened StateMachine
  import opened Lifecycle
  import opened Customers
  import opened Runs
  import opened Invariants
  import opened Permanence
  import opened Interleaving
  import opened RequestSteps

  /** Objections are neither raised nor withdrawn; a row may only be superseded from under one. */
  predicate ObjectionsStand(before: map<Key, Row>, after: map<Key, Row>) {
    && (forall k | k in after && after[k].state == Objected :: k in before && before[k].state == Objected)
    && (forall k | k in before && before[k].state == Objected ::
          k in after && (after[k].state == Objected || !IsOpen(after[k].state)))
  }

  lemma PublishedStands(db: Db, v: nat, now: Time)
    requires PublishError(db, v).None? && forall k | k in db.states :: k.version != v
    ensures ObjectionsStand(db.states, PublishTo(db, v, now).states)
  {
    hide RetireAll, RetiredByPublish, PublishError, BlockedCustomers, Targets;
  }

  lemma PublishStands(s: Sys, v: nat)
    requires Inv(s)
    ensures ObjectionsStand(s.db.states, Publish(s.db, v, s.now).db.states)
  {
    hide Inv, PublishTo;
    if PublishError(s.db, v).None? {
      NoDraftRow(s, v);
      PublishedStands(s.db, v, s.now);
    }
  }

  lemma ActivationStands(db: Db, now: Time)
    ensures ObjectionsStand(db.states, Activate(db, now).states)
  {
    forall k
      ensures k in Activate(db, now).states && Activate(db, now).states[k].state == Objected
        ==> k in db.states && db.states[k].state == Objected
      ensures k in db.states && db.states[k].state == Objected ==>
                k in Activate(db, now).states
                  && (Activate(db, now).states[k].state == Objected || !IsOpen(Activate(db, now).states[k].state))
    {
      FlippedRow(db, db.documents.Keys, now, k);
    }
  }

  lemma OneRowStands(states: map<Key, Row>, k: Key, row: Row)
    requires k in states && (row.state == Objected <==> states[k].state == Objected)
    ensures ObjectionsStand(states, states[k := row])
  {
  }

  lemma PatchStands(db: Db, k: Key, patch: PatchInput)
    ensures !patch.reopenObjection || Patch(db, k, patch).error.Some?
      ==> ObjectionsStand(db.states, Patch(db, k, patch).db.states)
  {
  }

  lemma OnboardStands(db: Db, c: nat, roles: seq<string>, now: Time)
    ensures ObjectionsStand(db.states, Onboard(db, c, roles, now).states)
  {
  }

  lemma StandsTransitively(a: map<Key, Row>, b: map<Key, Row>, c: map<Key, Row>)
    requires ObjectionsStand(a, b) && ObjectionsStand(b, c)
    requires forall k | k in b && !IsOpen(b[k].state) :: k in c && !IsOpen(c[k].state)
    ensures ObjectionsStand(a, c)
  {
  }

  lemma ImportStands(db: Db, c: nat, imports: map<nat, Time>)
    requires forall k | k in db.states :: k.customer != c
    ensures ObjectionsStand(db.states, ImportAll(db, c, imports).states)
  {
  }

  lemma CreateStands(s: Sys, c: nat, input: CustomerInput)
    requires Inv(s) && c !in s.db.customers
    ensures ObjectionsStand(s.db.states, Create(s.db, c, input, s.now).db.states)
  {
    if CreateError(s.db, input, s.now).None? {
      forall k | k in s.db.states ensures k.customer != c { assert RowAtOk(s, k); }
      var saved := s.db.(customers := s.db.customers[c := NewCustomer(input)]);
      var imported := ImportAll(saved, c, Imports(s.db, input, s.now).value);
      ImportStands(saved, c, Imports(s.db, input, s.now).value);
      OnboardStands(imported, c, input.roles, s.now);
      OnboardPersists(imported, c, input.roles, s.now);
      StandsTransitively(s.db.states, imported.states, CreateTo(s.db, c, input, s.now).states);
    }
  }

  lemma UpdateStands(db: Db, c: nat, changes: Changes, now: Time)
    ensures ObjectionsStand(db.states, Update(db, c, changes, now).db.states)
  {
    if UpdateError(db, c, changes).None? {
      var saved := db.(customers := db.customers[c := Changed(db.customers[c], changes)]);
      OnboardStands(saved, c, if changes.roles.Some? then Added(changes.roles.value, db.customers[c].roles) else [],
          now);
    }
  }

  lemma UpsertStands(s: Sys, c: nat, input: CustomerInput)
    requires Inv(s) && c !in s.db.customers
    ensures ObjectionsStand(s.db.states, Upsert(s.db, c, input, s.now).done.db.states)
  {
    var t, changes := UpsertCases(s.db, c, input, s.now);
    CreateStands(s, c, Plain(input));
    UpdateStands(s.db, t, changes, s.now);
  }

  lemma CustomersStand(s: Sys, e: Event)
    requires Inv(s) && (e.CreateCustomer? || e.UpdateCustomer? || e.UpsertCustomer?)
    ensures ObjectionsStand(s.db.states, Apply(s.db, e, s.now).states)
  {
    hide Inv, Create, Update, Upsert;
    match e
    case CreateCustomer(c, input) => if c !in s.db.customers { CreateStands(s, c, input); }
    case UpdateCustomer(c, changes) => UpdateStands(s.db, c, changes, s.now);
    case UpsertCustomer(c, input) => if c !in s.db.customers { UpsertStands(s, c, input); }
  }

  lemma WholeStands(s: Sys, e: Event)
    requires Inv(s) && IsWhole(e) && !Reopens(s.db, e)
    ensures ObjectionsStand(s.db.states, Apply(s.db, e, s.now).states)
  {
    hide Inv, Publish, Activate, Patch, Create, Update, Upsert;
    if e.CreateCustomer? || e.UpdateCustomer? || e.UpsertCustomer? {
      CustomersStand(s, e);
    } else {
      match e
      case PublishVersion(v) => PublishStands(s, v);
      case ActivationRun => ActivationStands(s.db, s.now);
      case PatchState(k, patch) => PatchStands(s.db, k, patch);
      case ClearNotificationDue(k) =>
        if k in s.db.states { OneRowStands(s.db.states, k, s.db.states[k].(notificationDueAt := None)); }
      case _ =>
    }
  }

  lemma OwedToCustomers(m: Machine, k: Key)
    requires Inv(Completed(m)) && k in m.owed
    ensures k.customer in m.s.db.customers
  {
    var c := Completed(m);
    assert k in c.db.acceptances;
    assert RowAtOk(c, k);
  }

  lemma WholeFramed(m: Machine, e: Event)
    requires Inv(Completed(m)) && IsWhole(e)
    ensures Framed(m.s.db, m.owed, e, m.s.now)
  {
    hide Inv, Framed;
    forall k | k in m.owed ensures k.customer in m.s.db.customers { OwedToCustomers(m, k); }
    WholeFrame(m.s.db, m.owed, e, m.s.now);
  }

  /** The operation acts on the completed system as it acts on the stored one. */
  lemma WholeCompletes(m: Machine, e: Event)
    requires Inv(Completed(m)) && IsWhole(e)
    ensures Completed(WholeStep(m, e)) == Effect(Completed(m), e)
  {
    hide Apply, Inv, IsWhole, Patch;
    WholeFramed(m, e);
    if e.PatchState? { PatchFrame(m.s.db, Completed(m).db.acceptances, e.k, e.patch); }
  }

  lemma WholeOwed(m: Machine, e: Event)
    requires Inv(Completed(m)) && OwedOk(m) && IsWhole(e)
    ensures OwedOk(WholeStep(m, e))
  {
    hide Apply, Inv, Reopens;
    WholeFramed(m, e);
    forall k | k in m.owed ensures k !in WholeStep(m, e).s.db.acceptances { OwedToCustomers(m, k); }
  }

  lemma WholeOnward(s: Sys, e: Event)
    requires Inv(s) && IsWhole(e)
    ensures Onward(s, Effect(s, e))
  {
    hide Apply, Inv, Persists;
    StepPersists(s, e);
    CustomersStay(s.db, e, s.now);
  }

  lemma WholeBalanced(m: Machine, e: Event, k: Key)
    requires Balanced(m, k) && IsWhole(e) && RowsPersist(m.s.db, WholeStep(m, e).s.db)
    requires Reopens(m.s.db, e) || ObjectionsStand(m.s.db.states, WholeStep(m, e).s.db.states)
    ensures Balanced(WholeStep(m, e), k)
  {
    hide Holders, Raised, IsWhole, RowsPersist, ObjectionsStand, Balanced;
    ObjectionsUntouched(m.s.db, e, m.s.now);
    if Reopens(m.s.db, e) {
      assert Apply(m.s.db, e, m.s.now) == Patch(m.s.db, e.k, e.patch).db;
      ReopeningBalanced(m, e.k, e.patch, k);
    } else {
      WholeBalancedApart(m, e, k);
    }
  }

  lemma ReopeningBalanced(m: Machine, k: Key, patch: PatchInput, j: Key)
    requires Balanced(m, j) && patch.reopenObjection && Patch(m.s.db, k, patch).error.None?
    ensures Balanced(m.(s := m.s.(db := Patch(m.s.db, k, patch).db), reopened := m.reopened + multiset{k}), j)
  {
    hide Holders, Raised;
  }

  lemma WholeBalancedApart(m: Machine, e: Event, k: Key)
    requires Balanced(m, k) && RowsPersist(m.s.db, WholeStep(m, e).s.db)
    requires WholeStep(m, e).s.db.objections == m.s.db.objections
    requires !Reopens(m.s.db, e) && ObjectionsStand(m.s.db.states, WholeStep(m, e).s.db.states)
    ensures Balanced(WholeStep(m, e), k)
  {
    hide Holders, Raised, Apply, Reopens;
  }

  lemma WholeActors(m: Machine, e: Event)
    requires Sound(m) && IsWhole(e) && Completed(WholeStep(m, e)) == Effect(Completed(m), e)
    ensures ActorsOk(WholeStep(m, e))
  {
    hide Effect, Inv, OwedOk, Balanced, ActorOk, Onward, IsWhole, Reopens;
    WholeOnward(Completed(m), e);
    forall i | i in m.actors ensures ActorOk(Effect(Completed(m), e), m.actors[i]) {
      ActorStays(Completed(m), Effect(Completed(m), e), m.actors[i]);
    }
  }

  lemma WholeRows(m: Machine, e: Event)
    requires Inv(Completed(m)) && Completed(WholeStep(m, e)) == Effect(Completed(m), e)
    ensures RowsPersist(m.s.db, WholeStep(m, e).s.db)
  {
    hide Effect, Inv, Reopens;
    StepPersists(Completed(m), e);
    assert RowsPersist(Completed(m).db, Completed(WholeStep(m, e)).db);
  }

  lemma WholeObjections(m: Machine, e: Event)
    requires Inv(Completed(m)) && IsWhole(e) && Completed(WholeStep(m, e)) == Effect(Completed(m), e)
    requires !Reopens(m.s.db, e)
    ensures ObjectionsStand(m.s.db.states, WholeStep(m, e).s.db.states)
  {
    hide Apply, Inv, IsWhole, ObjectionsStand, Reopens;
    ReopensOnCompleted(m, e);
    WholeStands(Completed(m), e);
    assert Completed(WholeStep(m, e)).db.states == WholeStep(m, e).s.db.states;
  }

  lemma ReopensOnCompleted(m: Machine, e: Event)
    ensures Reopens(m.s.db, e) == Reopens(Completed(m).db, e)
  {
  }

  lemma WholeBalances(m: Machine, e: Event)
    requires Sound(m) && IsWhole(e) && Completed(WholeStep(m, e)) == Effect(Completed(m), e)
    ensures forall k :: Balanced(WholeStep(m, e), k)
  {
    hide Effect, Inv, OwedOk, ActorsOk, Balanced, IsWhole, Reopens, Completed, WholeStep;
    WholeRows(m, e);
    if !Reopens(m.s.db, e) { WholeObjections(m, e); }
    forall k ensures Balanced(WholeStep(m, e), k) {
      assert Balanced(m, k);
      WholeBalanced(m, e, k);
    }
  }

  lemma WholeSound(m: Machine, e: Event)
    requires Sound(m) && IsWhole(e)
    ensures Sound(WholeStep(m, e))
  {
    hide Effect, Inv, OwedOk, ActorsOk, Balanced, Completed, WholeStep;
    WholeCompletes(m, e);
    WholeOwed(m, e);
    StepKeeps(Completed(m), e, Completed(m).now);
    assert Next(Completed(m), e, Completed(m).now) == Effect(Completed(m), e);
    WholeActors(m, e);
    WholeBalances(m, e);
  }
}
