/** Publishing: retire and supersede the predecessors, then roll out to every customer with the role. */
module PublishService {
  import opened Types
  import opened StateMachine
  import opened Lifecycle
  import opened Stores

  method Publish(store: Store, v: nat, now: Time) returns (error: Option<Error>)
    modifies store
    ensures Done(store.Snapshot(), error) == Lifecycle.Publish(old(store.Snapshot()), v, now)
  {
    hide RetireAll, SupersedeAll, OpenRows, BlockedCustomers, Rollout, Targets, ContentError;
    if v !in store.versions { return Some(VersionNotFound); }
    var version := store.versions[v];
    error := ValidateForPublish(version);
    if error.Some? { return; }
    if version.document !in store.documents { return Some(InvalidState); }

    assert Siblings(store.versions[v := Stamp(version, now)], v) == Siblings(store.versions, v);
    store.versions := store.versions[v := Stamp(version, now)];
    var blocked := RetireIfEffective(store, v, now);
    RollOut(store, v, Stamp(version, now), store.documents[version.document].audience, blocked, now);
    error := None;
  }

  /** A scheduled publish leaves the predecessors alone until the flip. */
  method RetireIfEffective(store: Store, v: nat, now: Time) returns (blocked: set<nat>)
    requires v in store.versions
    modifies store`versions, store`states
    ensures var retired := if old(store.versions)[v].validFrom <= now then Siblings(old(store.versions), v) else {};
      && store.versions == RetireAll(old(store.versions), retired)
      && store.states == SupersedeAll(old(store.states), OpenRows(old(store.states), retired))
      && blocked == BlockedCustomers(old(store.states), OpenRows(old(store.states), retired))
  {
    blocked := {};
    if store.versions[v].validFrom <= now {
      blocked := RetirePredecessors(store, v);
    } else {
      assert OpenRows(store.states, {}) == {};
    }
  }

  lemma NothingRetired(db: Db)
    ensures RetireAll(db.versions, {}) == db.versions && SupersedeAll(db.states, OpenRows(db.states, {})) == db.states
    ensures BlockedCustomers(db.states, OpenRows(db.states, {})) == {}
  {
    assert OpenRows(db.states, {}) == {};
  }

  /** Retiring one more version only concerns the rows of that version. */
  lemma OneMoreRetired(db: Db, done: set<nat>, w: nat)
    requires w in db.versions && w !in done
    ensures RetireAll(db.versions, done)[w := RetireAll(db.versions, done)[w].(status := Retired)]
         == RetireAll(db.versions, done + {w})
    ensures var states := SupersedeAll(db.states, OpenRows(db.states, done));
      && SupersedeAll(states, OpenRows(states, {w})) == SupersedeAll(db.states, OpenRows(db.states, done + {w}))
      && BlockedCustomers(db.states, OpenRows(db.states, done)) + BlockedCustomers(states, OpenRows(states, {w}))
         == BlockedCustomers(db.states, OpenRows(db.states, done + {w}))
  {
    var some, one, all := OpenRows(db.states, done), OpenRows(db.states, {w}), OpenRows(db.states, done + {w});
    var states := SupersedeAll(db.states, some);
    assert OpenRows(states, {w}) == one && some + one == all;
    SupersedeTwice(db.states, some, one);
    BlockedTwice(db.states, some, one);
    assert BlockedCustomers(states, one) == BlockedCustomers(db.states, one) by { BlockedApart(db.states, some, one); }
  }

  lemma SupersedeTwice(states: map<Key, Row>, some: set<Key>, more: set<Key>)
    ensures SupersedeAll(SupersedeAll(states, some), more) == SupersedeAll(states, some + more)
  {
  }

  lemma BlockedTwice(states: map<Key, Row>, some: set<Key>, more: set<Key>)
    ensures BlockedCustomers(states, some) + BlockedCustomers(states, more) == BlockedCustomers(states, some + more)
  {
  }

  lemma BlockedApart(states: map<Key, Row>, some: set<Key>, more: set<Key>)
    requires some !! more
    ensures BlockedCustomers(SupersedeAll(states, some), more) == BlockedCustomers(states, more)
  {
  }

  method RetirePredecessors(store: Store, v: nat) returns (blocked: set<nat>)
    requires v in store.versions
    modifies store`versions, store`states
    ensures var siblings := Siblings(old(store.versions), v);
      && store.versions == RetireAll(old(store.versions), siblings)
      && store.states == SupersedeAll(old(store.states), OpenRows(old(store.states), siblings))
      && blocked == BlockedCustomers(old(store.states), OpenRows(old(store.states), siblings))
  {
    hide SupersedeAll, BlockedCustomers, OpenRows;
    blocked := {};
    NothingRetired(store.Snapshot());
    var siblings := Siblings(store.versions, v);
    var todo := siblings;
    ghost var done: set<nat> := {};
    while todo != {}
      invariant todo !! done && todo + done == siblings
      invariant store.versions == RetireAll(old(store.versions), done)
      invariant store.states == SupersedeAll(old(store.states), OpenRows(old(store.states), done))
      invariant blocked == BlockedCustomers(old(store.states), OpenRows(old(store.states), done))
    {
      var w :| w in todo;
      OneMoreRetired(old(store.Snapshot()), done, w);
      store.versions := store.versions[w := store.versions[w].(status := Retired)];
      var more := SupersedeOpen(store, w);
      blocked := blocked + more;
      todo, done := todo - {w}, done + {w};
    }
  }

  method SupersedeOpen(store: Store, w: nat) returns (blocked: set<nat>)
    modifies store`states
    ensures store.states == SupersedeAll(old(store.states), OpenRows(old(store.states), {w}))
    ensures blocked == BlockedCustomers(old(store.states), OpenRows(old(store.states), {w}))
  {
    blocked := {};
    var open := OpenRows(store.states, {w});
    var todo := open;
    ghost var done: set<Key> := {};
    while todo != {}
      invariant todo !! done && todo + done == open
      invariant store.states == SupersedeAll(old(store.states), done)
      invariant blocked == BlockedCustomers(old(store.states), done)
    {
      var k :| k in todo;
      var superseded := Supersede(store.states[k]).value;
      store.states := store.states[k := superseded.row];
      if superseded.wasBlocking {
        blocked := blocked + {k.customer};
      }
      todo, done := todo - {k}, done + {k};
    }
  }

  lemma NothingRolledOut(v: nat, version: Version, blocked: set<nat>, now: Time)
    ensures Rollout({}, v, version, blocked, now) == map[]
  {
  }

  lemma OneMoreRolledOut(done: set<nat>, c: nat, v: nat, version: Version, blocked: set<nat>, now: Time)
    ensures Rollout(done + {c}, v, version, blocked, now)
         == Rollout(done, v, version, blocked, now)[Key(c, v) := RolloutRow(version, c in blocked, Some(now))]
  {
    assert KeysOf(done + {c}, v) == KeysOf(done, v) + {Key(c, v)};
  }

  method RollOut(store: Store, v: nat, version: Version, audience: string, blocked: set<nat>, now: Time)
    modifies store`states
    ensures store.states == old(store.states) + Rollout(Targets(store.customers, audience), v, version, blocked, now)
  {
    hide Rollout;
    var targets := Targets(store.customers, audience);
    NothingRolledOut(v, version, blocked, now);
    var todo := targets;
    ghost var done: set<nat> := {};
    while todo != {}
      invariant todo !! done && todo + done == targets
      invariant store.states == old(store.states) + Rollout(done, v, version, blocked, now)
    {
      var c :| c in todo;
      store.states := store.states[Key(c, v) := RolloutRow(version, c in blocked, Some(now))];
      OneMoreRolledOut(done, c, v, version, blocked, now);
      todo, done := todo - {c}, done + {c};
    }
  }
}
