/** The hourly job's two sweepers, loop by loop. */
module Sweepers {
  import opened Types
  import opened StateMachine
  import opened Versions
  import opened Lifecycle
  import opened Stores

  // Flips compose.

  /** Flipping some documents does not disturb the versions and rows of another one. */
  lemma OtherDocumentUndisturbed(db: Db, documents: set<nat>, d: nat, now: Time)
    requires d !in documents
    ensures var db' := Flip(db, documents, now);
      && Current(db'.versions, d, now) == Current(db.versions, d, now)
      && Outdated(db'.versions, {d}, now) == Outdated(db.versions, {d}, now)
      && (forall v | v in Outdated(db.versions, {d}, now) :: Heir(db'.versions, v, now) == Heir(db.versions, v, now))
  {
    assert InForceOf(Flip(db, documents, now).versions, d, now) == InForceOf(db.versions, d, now);
  }

  lemma OtherRowUndisturbed(db: Db, documents: set<nat>, d: nat, now: Time, k: Key)
    requires d !in documents && k.version in db.versions && db.versions[k.version].document == d
    ensures RowAt(Flip(db, documents, now).states, k) == RowAt(db.states, k)
  {
    FlippedRow(db, documents, now, k);
    if k in Heirs(db, OpenRows(db.states, Outdated(db.versions, documents, now)), now) {
      var j := HeirSource(db, documents, now, k);
      HeirIsCurrent(db.versions, documents, j.version, now);
    }
  }

  lemma HeirsSplit(db: Db, documents: set<nat>, d: nat, now: Time, k: Key)
    ensures k in Heirs(db, OpenRows(db.states, Outdated(db.versions, documents + {d}, now)), now)
      <==> k in Heirs(db, OpenRows(db.states, Outdated(db.versions, documents, now)), now)
           || k in Heirs(db, OpenRows(db.states, Outdated(db.versions, {d}, now)), now)
  {
    assert Outdated(db.versions, documents + {d}, now)
      == Outdated(db.versions, documents, now) + Outdated(db.versions, {d}, now);
    assert OpenRows(db.states, Outdated(db.versions, documents + {d}, now))
        == OpenRows(db.states, Outdated(db.versions, documents, now))
          + OpenRows(db.states, Outdated(db.versions, {d}, now));
  }

  lemma OpenRowsUndisturbed(db: Db, documents: set<nat>, d: nat, now: Time)
    requires d !in documents
    ensures var db' := Flip(db, documents, now);
      var open := OpenRows(db.states, Outdated(db.versions, {d}, now));
      && OpenRows(db'.states, Outdated(db'.versions, {d}, now)) == open
      && forall j | j in open :: j in db'.states && db'.states[j] == db.states[j]
  {
    hide FlippedStates, Heir, Current;
    var db' := Flip(db, documents, now);
    OtherDocumentUndisturbed(db, documents, d, now);
    forall j: Key | j.version in Outdated(db.versions, {d}, now) ensures RowAt(db'.states, j) == RowAt(db.states, j) {
      OtherRowUndisturbed(db, documents, d, now, j);
    }
    var open := OpenRows(db.states, Outdated(db.versions, {d}, now));
    forall j ensures j in OpenRows(db'.states, Outdated(db'.versions, {d}, now)) <==> j in open {
      if j.version in Outdated(db.versions, {d}, now) { assert RowAt(db'.states, j) == RowAt(db.states, j); }
    }
    forall j | j in open ensures j in db'.states && db'.states[j] == db.states[j] {
      assert RowAt(db'.states, j) == RowAt(db.states, j);
    }
  }

  lemma HeirsUndisturbed(db: Db, documents: set<nat>, d: nat, now: Time, k: Key)
    requires d !in documents
    ensures var db' := Flip(db, documents, now);
      k in Heirs(db', OpenRows(db'.states, Outdated(db'.versions, {d}, now)), now)
      <==> k in Heirs(db, OpenRows(db.states, Outdated(db.versions, {d}, now)), now)
  {
    hide Flip, Current, Heir;
    OtherDocumentUndisturbed(db, documents, d, now);
    OpenRowsUndisturbed(db, documents, d, now);
  }

  /** Heirs of a document's rows are rows of that document. */
  lemma HeirsStayInDocument(db: Db, documents: set<nat>, now: Time, k: Key)
    requires k in Heirs(db, OpenRows(db.states, Outdated(db.versions, documents, now)), now)
    ensures k.version in db.versions && db.versions[k.version].document in documents
  {
    var j := HeirSource(db, documents, now, k);
    HeirIsCurrent(db.versions, documents, j.version, now);
  }

  lemma FlipRowAddsHere(db: Db, documents: set<nat>, d: nat, now: Time, k: Key)
    requires d !in documents && k.version in db.versions && db.versions[k.version].document == d
    ensures RowAt(Flip(Flip(db, documents, now), {d}, now).states, k) == RowAt(Flip(db, documents + {d}, now).states, k)
  {
    hide Heirs, OpenRows, FlippedStates, Heir, Current;
    var db' := Flip(db, documents, now);
    OtherDocumentUndisturbed(db, documents, d, now);
    OtherRowUndisturbed(db, documents, d, now, k);
    HeirsSplit(db, documents, d, now, k);
    HeirsUndisturbed(db, documents, d, now, k);
    if k in Heirs(db, OpenRows(db.states, Outdated(db.versions, documents, now)), now) {
      HeirsStayInDocument(db, documents, now, k);
    }
    FlippedRow(db', {d}, now, k);
    FlippedRow(db, documents + {d}, now, k);
    assert db'.versions[k.version] == db.versions[k.version];
  }

  lemma FlipRowAddsElsewhere(db: Db, documents: set<nat>, d: nat, now: Time, k: Key)
    requires d !in documents && !(k.version in db.versions && db.versions[k.version].document == d)
    ensures RowAt(Flip(Flip(db, documents, now), {d}, now).states, k) == RowAt(Flip(db, documents + {d}, now).states, k)
  {
    hide Heirs, OpenRows, FlippedStates, Heir, Current, Carried;
    OtherDocumentUndisturbed(db, documents, d, now);
    HeirsSplit(db, documents, d, now, k);
    HeirsUndisturbed(db, documents, d, now, k);
    if k in Heirs(db, OpenRows(db.states, Outdated(db.versions, {d}, now)), now) {
      HeirsStayInDocument(db, {d}, now, k);
    }
    FlippedRow(db, documents, now, k);
    FlippedRow(Flip(db, documents, now), {d}, now, k);
    FlippedRow(db, documents + {d}, now, k);
  }

  /** Flipping one more document after some others is flipping them all. */
  lemma FlipAdds(db: Db, documents: set<nat>, d: nat, now: Time)
    requires d !in documents
    ensures Flip(Flip(db, documents, now), {d}, now) == Flip(db, documents + {d}, now)
  {
    hide RowAt, FlippedStates, Heir, Current, OpenRows;
    OtherDocumentUndisturbed(db, documents, d, now);
    forall k ensures RowAt(Flip(Flip(db, documents, now), {d}, now).states, k)
      == RowAt(Flip(db, documents + {d}, now).states, k) {
      if k.version in db.versions && db.versions[k.version].document == d {
        FlipRowAddsHere(db, documents, d, now, k);
      } else {
        FlipRowAddsElsewhere(db, documents, d, now, k);
      }
    }
    SameRows(Flip(Flip(db, documents, now), {d}, now).states, Flip(db, documents + {d}, now).states);
    assert Flip(Flip(db, documents, now), {d}, now).versions == Flip(db, documents + {d}, now).versions;
  }

  // The activation sweeper.

  /** Rows still to be superseded are untouched so far. */
  lemma NotYetFlipped(db: Db, d: nat, rows: set<Key>, k: Key, now: Time)
    requires k in OpenRows(db.states, Outdated(db.versions, {d}, now)) && k !in rows
    requires rows <= OpenRows(db.states, Outdated(db.versions, {d}, now))
    ensures RowAt(FlippedStates(db, rows, now), k) == Some(db.states[k])
  {
    if k in Heirs(db, rows, now) {
      var j :| j in rows && db.states[j].state == ExpiredBlocking
           && k == Key(j.customer, Heir(db.versions, j.version, now));
      HeirIsCurrent(db.versions, {d}, j.version, now);
    }
  }

  lemma HeirsGrow(db: Db, d: nat, rows: set<Key>, k: Key, now: Time)
    requires k in OpenRows(db.states, Outdated(db.versions, {d}, now))
    requires rows <= OpenRows(db.states, Outdated(db.versions, {d}, now))
    ensures var heir := Key(k.customer, Heir(db.versions, k.version, now));
      && heir.version in db.versions && heir !in rows && heir != k
      && k !in Heirs(db, rows + {k}, now)
      && Heirs(db, rows + {k}, now)
         == Heirs(db, rows, now) + (if db.states[k].state == ExpiredBlocking then {heir} else {})
  {
    HeirIsCurrent(db.versions, {d}, k.version, now);
    forall j | j in rows + {k} ensures Key(j.customer, Heir(db.versions, j.version, now)) != k {
      HeirIsCurrent(db.versions, {d}, j.version, now);
    }
  }

  lemma FlippedStatesAt(db: Db, rows: set<Key>, now: Time, j: Key)
    ensures RowAt(FlippedStates(db, rows, now), j)
      == if j in Heirs(db, rows, now) then Some(CarryOver(db, j))
         else if j in db.states && j in rows then Some(db.states[j].(state := Superseded))
         else RowAt(db.states, j)
  {
  }

  /** The states after superseding the row of k and, if it was blocking, carrying the block to its heir. */
  function OneMore(states: map<Key, Row>, k: Key, row: Row, heir: Key, version: Version): map<Key, Row> {
    var superseded := states[k := row.(state := Superseded)];
    if row.state == ExpiredBlocking then superseded[heir := Carried(superseded, version, heir)] else superseded
  }

  lemma OneMoreAt(states: map<Key, Row>, k: Key, row: Row, heir: Key, version: Version, j: Key)
    requires heir != k
    ensures RowAt(OneMore(states, k, row, heir, version), j)
      == if j == heir && row.state == ExpiredBlocking then Some(Carried(states, version, heir))
         else if j == k then Some(row.(state := Superseded))
         else RowAt(states, j)
  {
  }

  /** Carrying a block over twice is carrying it over once. */
  lemma CarriedOnce(db: Db, states: map<Key, Row>, k: Key)
    requires RowAt(states, k) == RowAt(db.states, k) || RowAt(states, k) == Some(CarryOver(db, k))
    requires k.version in db.versions
    ensures Carried(states, db.versions[k.version], k) == CarryOver(db, k)
  {
  }

  /** Superseding one more open row of the document, with its block, is one step of the flip. */
  lemma FlipOneMoreRow(db: Db, d: nat, rows: set<Key>, k: Key, now: Time)
    requires k in OpenRows(db.states, Outdated(db.versions, {d}, now)) && k !in rows
    requires rows <= OpenRows(db.states, Outdated(db.versions, {d}, now))
    ensures var heir := Key(k.customer, Heir(db.versions, k.version, now));
      && heir.version in db.versions
      && OneMore(FlippedStates(db, rows, now), k, db.states[k], heir, db.versions[heir.version])
         == FlippedStates(db, rows + {k}, now)
  {
    HeirsGrow(db, d, rows, k, now);
    hide FlippedStates, Heirs, Outdated, Heir, OneMore, Carried;
    var heir := Key(k.customer, Heir(db.versions, k.version, now));
    var before, after := FlippedStates(db, rows, now), FlippedStates(db, rows + {k}, now);
    var step := OneMore(before, k, db.states[k], heir, db.versions[heir.version]);
    FlippedStatesAt(db, rows, now, heir);
    CarriedOnce(db, before, heir);
    forall j ensures RowAt(step, j) == RowAt(after, j) {
      FlippedStatesAt(db, rows, now, j);
      FlippedStatesAt(db, rows + {k}, now, j);
      OneMoreAt(before, k, db.states[k], heir, db.versions[heir.version], j);
    }
    SameRows(step, after);
  }

  lemma NoHeirOutdated(db: Db, d: nat, done: set<nat>, w: nat, now: Time, k: Key)
    requires w in Outdated(db.versions, {d}, now) && done <= Outdated(db.versions, {d}, now) && w !in done
    requires k.version == w
    ensures k !in Heirs(db, OpenRows(db.states, done), now)
  {
    forall j | j in OpenRows(db.states, done) ensures Key(j.customer, Heir(db.versions, j.version, now)) != k {
      HeirIsCurrent(db.versions, {d}, j.version, now);
    }
  }

  /** The open rows of a version are the same before and after others are flipped. */
  lemma OpenRowsUnflipped(db: Db, d: nat, done: set<nat>, w: nat, now: Time)
    requires w in Outdated(db.versions, {d}, now) && done <= Outdated(db.versions, {d}, now) && w !in done
    ensures OpenRows(FlippedStates(db, OpenRows(db.states, done), now), {w}) == OpenRows(db.states, {w})
  {
    var states := FlippedStates(db, OpenRows(db.states, done), now);
    forall k ensures k in OpenRows(states, {w}) <==> k in OpenRows(db.states, {w}) {
      if k.version == w {
        FlippedStatesAt(db, OpenRows(db.states, done), now, k);
        NoHeirOutdated(db, d, done, w, now, k);
        assert RowAt(states, k) == RowAt(db.states, k);
      }
    }
  }

  method ActivateOne(store: Store, d: nat, now: Time)
    modifies store`versions, store`states
    ensures store.Snapshot() == Flip(old(store.Snapshot()), {d}, now)
  {
    ghost var db := store.Snapshot();
    var current := store.FindCurrentPublished(d, now);
    var predecessors := set v | v in store.versions && store.versions[v].document == d && current != Some(v)
                                && InForce(store.versions[v], now);
    assert predecessors == Outdated(db.versions, {d}, now);
    if current.None? || predecessors == {} {
      SettledStays(db, {d}, now);
      return;
    }
    RetirePredecessors(store, db, d, predecessors, current.value, now);
  }

  lemma NothingFlippedYet(db: Db, now: Time)
    ensures RetireAll(db.versions, {}) == db.versions
    ensures FlippedStates(db, OpenRows(db.states, {}), now) == db.states
  {
    assert OpenRows(db.states, {}) == {};
    assert Heirs(db, {}, now) == {};
  }

  lemma OneMoreRetired(db: Db, done: set<nat>, w: nat)
    requires w in db.versions
    ensures RetireAll(db.versions, done)[w := RetireAll(db.versions, done)[w].(status := Retired)]
      == RetireAll(db.versions, done + {w})
    ensures OpenRows(db.states, done + {w}) == OpenRows(db.states, done) + OpenRows(db.states, {w})
  {
  }

  method RetirePredecessors(store: Store, ghost db: Db, d: nat, predecessors: set<nat>, current: nat, now: Time)
    requires store.versions == db.versions && store.states == db.states
    requires predecessors == Outdated(db.versions, {d}, now) && Current(db.versions, d, now) == Some(current)
    modifies store`versions, store`states
    ensures store.versions == RetireAll(db.versions, predecessors)
    ensures store.states == FlippedStates(db, OpenRows(db.states, predecessors), now)
  {
    hide FlippedStates, OpenRows;
    var todo := predecessors;
    ghost var done: set<nat> := {};
    NothingFlippedYet(db, now);
    while todo != {}
      invariant todo !! done && todo + done == predecessors
      invariant store.versions == RetireAll(db.versions, done)
      invariant store.states == FlippedStates(db, OpenRows(db.states, done), now)
    {
      var w :| w in todo;
      OneMoreRetired(db, done, w);
      store.versions := store.versions[w := store.versions[w].(status := Retired)];
      SupersedeAndCarry(store, db, d, done, w, current, now);
      todo, done := todo - {w}, done + {w};
    }
  }

  method SupersedeAndCarry(store: Store, ghost db: Db, d: nat, ghost done: set<nat>, w: nat, current: nat, now: Time)
    requires Current(db.versions, d, now) == Some(current)
    requires w in Outdated(db.versions, {d}, now) && done <= Outdated(db.versions, {d}, now) && w !in done
    requires store.states == FlippedStates(db, OpenRows(db.states, done), now)
    requires current in store.versions && store.versions[current] == db.versions[current]
    modifies store`states
    ensures store.states == FlippedStates(db, OpenRows(db.states, done) + OpenRows(db.states, {w}), now)
  {
    OpenRowsUnflipped(db, d, done, w, now);
    hide FlippedStates, Outdated, Current;
    SupersedeRows(store, db, d, OpenRows(db.states, done), OpenRows(store.states, {w}), current, now);
  }

  /** The inner loop of the activation: one retired predecessor's open rows. */
  method SupersedeRows(store: Store, ghost db: Db, d: nat, ghost base: set<Key>, open: set<Key>, current: nat,
      now: Time)
    requires Current(db.versions, d, now) == Some(current)
    requires base !! open && base + open <= OpenRows(db.states, Outdated(db.versions, {d}, now))
    requires store.states == FlippedStates(db, base, now)
    requires current in store.versions && store.versions[current] == db.versions[current]
    modifies store`states
    ensures store.states == FlippedStates(db, base + open, now)
  {
    hide FlippedStates, OpenRows, Outdated, Current;
    var todo := open;
    ghost var handled: set<Key> := {};
    assert base + {} == base;
    while todo != {}
      invariant todo !! handled && todo + handled == open
      invariant store.states == FlippedStates(db, base + handled, now)
    {
      var k :| k in todo;
      SupersedeOne(store, db, d, base + handled, k, current, now);
      assert base + handled + {k} == base + (handled + {k});
      todo, handled := todo - {k}, handled + {k};
    }
    assert handled == open;
  }

  method SupersedeOne(store: Store, ghost db: Db, d: nat, ghost rows: set<Key>, k: Key, current: nat, now: Time)
    requires Current(db.versions, d, now) == Some(current)
    requires k in OpenRows(db.states, Outdated(db.versions, {d}, now)) && k !in rows
    requires rows <= OpenRows(db.states, Outdated(db.versions, {d}, now))
    requires store.states == FlippedStates(db, rows, now)
    requires current in store.versions && store.versions[current] == db.versions[current]
    modifies store`states
    ensures store.states == FlippedStates(db, rows + {k}, now)
  {
    NotYetFlipped(db, d, rows, k, now);
    FlipOneMoreRow(db, d, rows, k, now);
    hide FlippedStates, Current;
    var superseded := Supersede(store.states[k]).value;
    store.states := store.states[k := superseded.row];
    if superseded.wasBlocking {
      CarryBlockOver(store, k.customer, current);
    }
  }

  /** Continues a block on the successor row; a missing row is created, a terminal one left alone. */
  method CarryBlockOver(store: Store, customer: nat, current: nat)
    requires current in store.versions
    modifies store`states
    ensures store.states == old(store.states)[Key(customer, current)
      := Carried(old(store.states), store.versions[current], Key(customer, current))]
  {
    var k := Key(customer, current);
    if k !in store.states {
      store.states := store.states[k := RolloutRow(store.versions[current], true, None)];
      return;
    }
    var successor := store.states[k];
    var isOpenForCarryOver := successor.state == PendingNotification || successor.state == Notified;
    if isOpenForCarryOver && !successor.carryOverBlocking {
      store.states := store.states[k := successor.(carryOverBlocking := true)];
    }
  }

  method RunActivation(store: Store, now: Time)
    modifies store`versions, store`states
    ensures store.Snapshot() == Activate(old(store.Snapshot()), now)
  {
    ghost var db := store.Snapshot();
    var todo := store.documents.Keys;
    ghost var done: set<nat> := {};
    assert Outdated(db.versions, {}, now) == {};
    SettledStays(db, {}, now);
    while todo != {}
      invariant todo !! done && todo + done == db.documents.Keys
      invariant store.Snapshot() == Flip(db, done, now)
    {
      var d :| d in todo;
      ActivateOne(store, d, now);
      FlipAdds(db, done, d, now);
      todo, done := todo - {d}, done + {d};
    }
  }

  // The deadline sweeper.

  /** One due row: transition from the observed state first, evidence second. */
  method SweepOne(store: Store, k: Key, observed: Row, now: Time)
    modifies store`states, store`acceptances
    ensures store.Snapshot() == SweptOnto(old(store.Snapshot()), k, observed, now)
  {
    if k.version !in store.versions { return; }
    var version := store.versions[k.version];
    var result := Sweep(observed, version, now);
    if result.outcome == Noop { return; }
    var transitioned := store.Transition(k, observed.state, result.row.state, None);
    if transitioned.None? { return; }
    if result.outcome == TacitAccepted {
      var error := store.AppendAcceptance(k, TacitAcceptance(version, now));
    }
  }

  lemma EvidenceOneMore(db: Db, rows: set<Key>, k: Key, now: Time, j: Key)
    requires k in DueRows(db.states, now) && k !in rows
    ensures var one, all :=
      SweepRows(SweepRows(db, rows, now), {k}, now).acceptances, SweepRows(db, rows + {k}, now).acceptances;
      (j in one <==> j in all) && (j in one ==> one[j] == all[j])
  {
    assert SweptRow(SweepRows(db, rows, now), k, now) == SweptRow(db, k, now);
  }

  lemma EvidenceAllTheSame(db: Db, rows: set<Key>, k: Key, now: Time)
    requires k in DueRows(db.states, now) && k !in rows
    ensures SweepRows(SweepRows(db, rows, now), {k}, now).acceptances == SweepRows(db, rows + {k}, now).acceptances
  {
    hide SweepRows, DueRows;
    forall j ensures var one, all :=
        SweepRows(SweepRows(db, rows, now), {k}, now).acceptances, SweepRows(db, rows + {k}, now).acceptances;
      (j in one <==> j in all) && (j in one ==> one[j] == all[j])
    {
      EvidenceOneMore(db, rows, k, now, j);
    }
  }

  lemma SweepOneMore(db: Db, rows: set<Key>, k: Key, now: Time)
    requires k in DueRows(db.states, now) && k !in rows
    ensures RowAt(SweepRows(db, rows, now).states, k) == Some(db.states[k])
    ensures SweepRows(SweepRows(db, rows, now), {k}, now) == SweepRows(db, rows + {k}, now)
  {
    hide Due, Sweep;
    var some, one, all :=
      SweepRows(db, rows, now), SweepRows(SweepRows(db, rows, now), {k}, now), SweepRows(db, rows + {k}, now);
    EvidenceAllTheSame(db, rows, k, now);
    assert SweptRow(some, k, now) == SweptRow(db, k, now);
    assert one.states == all.states;
  }

  lemma NothingSweptYet(db: Db, now: Time)
    ensures SweepRows(db, {}, now) == db
  {
  }

  method RunDeadlinePass(store: Store, now: Time)
    modifies store`states, store`acceptances
    ensures store.Snapshot() == DeadlinePass(old(store.Snapshot()), now)
  {
    hide SweepRows, SweptOnto, Due;
    ghost var db := store.Snapshot();
    NothingSweptYet(db, now);
    var found := store.states;
    var todo := DueRows(store.states, now);
    ghost var done: set<Key> := {};
    while todo != {}
      invariant todo !! done && todo + done == DueRows(db.states, now)
      invariant store.Snapshot() == SweepRows(db, done, now)
    {
      var k :| k in todo;
      SweepOneMore(db, done, k, now);
      SweptAsObserved(store.Snapshot(), k, now);
      SweepOne(store, k, found[k], now);
      todo, done := todo - {k}, done + {k};
    }
  }

  method RunHourlyJob(store: Store, now: Time)
    modifies store`versions, store`states, store`acceptances
    ensures store.Snapshot() == Tick(old(store.Snapshot()), now)
  {
    RunActivation(store, now);
    RunDeadlinePass(store, now);
  }
}
