/** Each step a request or job takes by itself keeps the interleaved system sound. */
module RequestSteps {
  import opened Actors
  import opened Collections
  import opened Types
  import opened StateMachine
  import opened Versions
  import opened Lifecycle
  import opened Runs
  import opened Invariants
  import opened Permanence
  import opened Interleaving

  // Time and the set of requests.

  lemma LaterSound(m: Machine, now: Time)
    requires Sound(m) && m.s.now <= now
    ensures Sound(m.(s := m.s.(now := now)))
  {
    var m' := m.(s := m.s.(now := now));
    Later(Completed(m), now);
    assert Completed(m') == Completed(m).(now := now);
    forall i | i in m.actors ensures ActorOk(Completed(m'), m'.actors[i]) {
      assert ActorOk(Completed(m), m.actors[i]);
    }
    forall k ensures Balanced(m', k) { assert Balanced(m, k); }
  }

  predicate IsQuiet(a: Option<Actor>) {
    a.None? || (!a.value.Appending? && !a.value.Noting?)
  }

  /** Starting, stopping or moving on a request that has not won anything. */
  lemma QuietSound(m: Machine, i: nat, a: Option<Actor>)
    requires Sound(m) && IsQuiet(ActorAt(m.actors, i)) && IsQuiet(a)
    requires a.Some? ==> ActorOk(Completed(m), a.value)
    ensures Sound(m.(actors := Replaced(m.actors, i, a)))
  {
    hide Inv, Balanced, ActorOk;
    var m' := m.(actors := Replaced(m.actors, i, a));
    assert Completed(m') == Completed(m);
    forall k ensures Balanced(m', k) {
      assert Balanced(m, k);
      QuietBalanced(m, i, a, k);
    }
  }

  lemma QuietBalanced(m: Machine, i: nat, a: Option<Actor>, k: Key)
    requires Balanced(m, k) && IsQuiet(ActorAt(m.actors, i)) && IsQuiet(a)
    ensures Balanced(m.(actors := Replaced(m.actors, i, a)), k)
  {
    hide Holders, Replaced;
    CountsChange(m.actors, i, a, k);
  }

  // What a request knows stays true.

  /** What every step leaves standing for the requests under way. */
  predicate Onward(s: Sys, s': Sys) {
    && Persists(s.db, s'.db)
    && s.db.customers.Keys <= s'.db.customers.Keys
    && s.edited <= s'.edited && s.early <= s'.early
    && s.now <= s'.now
    && forall k | k in s.db.states && s.db.states[k].notifiedAt.Some? :: k in s.blockedAccess <==> k in s'.blockedAccess
  }

  lemma ActorStays(s: Sys, s': Sys, a: Actor)
    requires ActorOk(s, a) && Onward(s, s')
    ensures ActorOk(s', a)
  {
  }

  /** Every request goes on as before, except for those that hold a win; what it knows still stands. */
  lemma ActorsStay(m: Machine, m': Machine)
    requires Sound(m) && Onward(Completed(m), Completed(m'))
    requires forall i | i in m'.actors :: (i in m.actors && m'.actors[i] == m.actors[i]) || m'.actors[i].Appending?
                                          || (m'.actors[i].Noting? && m'.actors[i].k in m'.s.db.states)
    ensures ActorsOk(m')
  {
    hide Inv, OwedOk, Balanced, Onward;
    forall i | i in m'.actors ensures ActorOk(Completed(m'), m'.actors[i]) {
      if i in m.actors && m'.actors[i] == m.actors[i] { ActorStays(Completed(m), Completed(m'), m.actors[i]); }
    }
  }

  // The steps of one request.

  /** Rewriting one open row in place; its first access is recorded at most once. */
  predicate RowMovesOn(before: Row, after: Row) {
    && IsOpen(before.state)
    && (after.state == PendingNotification ==> before.state == PendingNotification)
    && (before.notifiedAt.Some? ==> after.notifiedAt == before.notifiedAt)
    && after.notificationDueAt == before.notificationDueAt
  }

  /** The other rows and what was recorded about them are untouched. */
  lemma OneRowOnward(s: Sys, s': Sys, k: Key)
    requires k in s.db.states && k in s'.db.states && RowMovesOn(s.db.states[k], s'.db.states[k])
    requires s' == s.(db := s.db.(states := s.db.states[k := s'.db.states[k]], acceptances := s'.db.acceptances),
                      blockedAccess := s'.blockedAccess)
    requires forall j | j in s.db.states && s.db.states[j].notifiedAt.Some? ::
      j in s.blockedAccess <==> j in s'.blockedAccess
    requires EvidencePersists(s.db, s'.db)
    ensures Onward(s, s')
  {
    hide EvidencePersists;
  }

  lemma WinCompletes(m: Machine, i: nat, k: Key, evidence: Acceptance)
    requires Inv(Completed(m))
    requires k in m.s.db.states && k.version in m.s.db.versions && IsOpen(m.s.db.states[k].state)
    requires EvidenceOk(m.s.db.versions[k.version], m.s.db.states[k], evidence, k in m.s.edited, k in m.s.blockedAccess)
    ensures Inv(Completed(Win(m, i, k, evidence)))
    ensures k !in m.owed && k !in m.s.db.acceptances
    ensures Completed(Win(m, i, k, evidence)).db.acceptances == Completed(m).db.acceptances[k := evidence]
  {
    var c, m' := Completed(m), Win(m, i, k, evidence);
    assert RowAtOk(c, k) && EvidenceAtOk(c, k);
    MergeUpdated(m.s.db.acceptances, m.owed, k, evidence);
    OneRow(c, Completed(m'), k, m'.s.db.states[k], map[k := evidence]);
  }

  lemma WinOnward(m: Machine, i: nat, k: Key, evidence: Acceptance)
    requires Inv(Completed(m)) && k in m.s.db.states && IsOpen(m.s.db.states[k].state)
    requires k !in m.owed && k !in m.s.db.acceptances
    requires Completed(Win(m, i, k, evidence)).db.acceptances == Completed(m).db.acceptances[k := evidence]
    ensures Onward(Completed(m), Completed(Win(m, i, k, evidence)))
  {
    hide Onward, RowAtOk, EvidenceAtOk, VersionsOk;
    OneRowOnward(Completed(m), Completed(Win(m, i, k, evidence)), k);
  }

  lemma WinActors(m: Machine, i: nat, k: Key, evidence: Acceptance)
    requires Sound(m) && k in m.s.db.states
    requires Onward(Completed(m), Completed(Win(m, i, k, evidence)))
    ensures ActorsOk(Win(m, i, k, evidence))
  {
    hide Inv, OwedOk, Balanced, Onward, ActorOk, ActorsOk;
    ActorsStay(m, Win(m, i, k, evidence));
  }

  lemma WinOwed(m: Machine, i: nat, k: Key, evidence: Acceptance)
    requires OwedOk(m) && k in m.s.db.states && k !in m.owed && k !in m.s.db.acceptances
    requires evidence.acceptedAt <= m.s.now
    ensures OwedOk(Win(m, i, k, evidence))
  {
  }

  /** Winning the transition: the row is ACCEPTED and its evidence is owed. */
  lemma WinSound(m: Machine, i: nat, k: Key, evidence: Acceptance)
    requires Sound(m) && IsQuiet(ActorAt(m.actors, i))
    requires k in m.s.db.states && k.version in m.s.db.versions && IsOpen(m.s.db.states[k].state)
    requires EvidenceOk(m.s.db.versions[k.version], m.s.db.states[k], evidence, k in m.s.edited, k in m.s.blockedAccess)
    requires evidence.acceptedAt <= m.s.now
    ensures Sound(Win(m, i, k, evidence))
  {
    hide Inv, OwedOk, ActorsOk, Balanced, Onward, Completed, Win;
    WinCompletes(m, i, k, evidence);
    WinOnward(m, i, k, evidence);
    WinActors(m, i, k, evidence);
    WinOwed(m, i, k, evidence);
    forall j ensures Balanced(Win(m, i, k, evidence), j) {
      assert Balanced(m, j);
      WinBalanced(m, i, k, evidence, j);
    }
  }

  lemma WinBalanced(m: Machine, i: nat, k: Key, evidence: Acceptance, j: Key)
    requires Balanced(m, j) && IsQuiet(ActorAt(m.actors, i))
    requires k in m.s.db.states && IsOpen(m.s.db.states[k].state) && k !in m.owed
    ensures Balanced(Win(m, i, k, evidence), j)
  {
    hide Holders;
    CountsChange(m.actors, i, Some(Appending(k, evidence)), j);
  }

  /** The evidence of an acceptance is stamped when it is appended, not earlier. */
  lemma LaterEvidence(s: Sys, k: Key, at: Time)
    requires Inv(s) && k in s.db.acceptances && s.db.acceptances[k].acceptedAt <= at
    ensures Inv(s.(db := s.db.(acceptances := s.db.acceptances[k := s.db.acceptances[k].(acceptedAt := at)])))
  {
    var s' := s.(db := s.db.(acceptances := s.db.acceptances[k := s.db.acceptances[k].(acceptedAt := at)]));
    forall j | j in s'.db.states ensures RowAtOk(s', j) && EvidenceAtOk(s', j) {
      assert RowAtOk(s, j) && EvidenceAtOk(s, j);
    }
  }

  lemma AppendCompletes(m: Machine, i: nat, k: Key, evidence: Acceptance)
    requires Sound(m) && i in m.actors && m.actors[i] == Appending(k, evidence)
    ensures Append(m.s.db, k, evidence.(acceptedAt := m.s.now)).error.None?
    ensures Inv(Completed(AppendStep(m, i, k, evidence)))
    ensures forall j | j in m.actors :: ActorOk(Completed(AppendStep(m, i, k, evidence)), m.actors[j])
  {
    var c, m' := Completed(m), AppendStep(m, i, k, evidence);
    MergeMoved(m.s.db.acceptances, m.owed, k, evidence.(acceptedAt := m.s.now));
    LaterEvidence(c, k, m.s.now);
    forall j | j in m.actors ensures ActorOk(Completed(m'), m.actors[j]) { assert ActorOk(c, m.actors[j]); }
  }

  lemma AppendBalanced(m: Machine, i: nat, k: Key, evidence: Acceptance, j: Key)
    requires Balanced(m, j) && k in m.owed && i in m.actors && m.actors[i] == Appending(k, evidence)
    ensures Balanced(AppendStep(m, i, k, evidence), j)
  {
    hide Holders;
    CountsChange(m.actors, i, None, j);
  }

  /** Nobody else is about to append an acceptance of the same pair. */
  lemma OnlyHolder(m: Machine, i: nat, k: Key, evidence: Acceptance, j: nat)
    requires Balanced(m, k) && i in m.actors && m.actors[i] == Appending(k, evidence)
    requires j in m.actors && j != i && m.actors[j].Appending?
    ensures m.actors[j].k != k
  {
    OnlyElement(Holders(m.actors, k, false), i);
    assert j !in Holders(m.actors, k, false);
  }

  lemma OnlyElement(s: set<nat>, i: nat)
    requires i in s && |s| <= 1
    ensures s == {i}
  {
    assert |s - {i}| == 0;
  }

  lemma AppendOwed(m: Machine, i: nat, k: Key, evidence: Acceptance)
    requires Sound(m) && i in m.actors && m.actors[i] == Appending(k, evidence)
    ensures OwedOk(AppendStep(m, i, k, evidence))
  {
    hide Inv, ActorsOk, Balanced;
    var m' := AppendStep(m, i, k, evidence);
    forall j | j in m'.actors && m'.actors[j].Appending? ensures m'.actors[j].k != k {
      assert Balanced(m, k);
      OnlyHolder(m, i, k, evidence, j);
    }
  }

  /** A request that has won appends its evidence without being refused. */
  lemma AppendSound(m: Machine, i: nat, k: Key, evidence: Acceptance)
    requires Sound(m) && i in m.actors && m.actors[i] == Appending(k, evidence)
    ensures Append(m.s.db, k, evidence.(acceptedAt := m.s.now)).error.None?
    ensures Sound(AppendStep(m, i, k, evidence))
  {
    hide Inv, Balanced, ActorOk, Completed;
    var m' := AppendStep(m, i, k, evidence);
    AppendCompletes(m, i, k, evidence);
    AppendOwed(m, i, k, evidence);
    forall j ensures Balanced(m', j) {
      assert Balanced(m, j);
      AppendBalanced(m, i, k, evidence, j);
    }
  }

  /** A step that rewrites a row without booking an acceptance; `a` is where the request goes on, if it does. */
  function Rewritten(m: Machine, i: nat, k: Key, row: Row, a: Option<Actor>): Machine {
    m.(s := m.s.(db := UpdateRow(m.s.db, k, row)), actors := Replaced(m.actors, i, a))
  }

  /** What such a step may do: raise an objection that is still to be noted, or leave objections alone. */
  predicate MayRewrite(before: Row, after: Row, k: Key, a: Option<Actor>) {
    && IsOpen(before.state) && IsOpen(after.state) && before.state != Objected
    && (after.state == PendingNotification ==> before.state == PendingNotification)
    && after.notifiedAt == before.notifiedAt && after.notificationDueAt == before.notificationDueAt
    && a == (if after.state == Objected then Some(Noting(k)) else None)
  }

  lemma RewriteBalanced(m: Machine, i: nat, k: Key, row: Row, a: Option<Actor>, j: Key)
    requires IsQuiet(ActorAt(m.actors, i)) && k in m.s.db.states && MayRewrite(m.s.db.states[k], row, k, a)
    requires Balanced(m, j)
    ensures Balanced(Rewritten(m, i, k, row, a), j)
  {
    hide Holders;
    CountsChange(m.actors, i, a, j);
  }

  lemma RewriteActors(m: Machine, i: nat, k: Key, row: Row, a: Option<Actor>)
    requires Sound(m) && k in m.s.db.states && MayRewrite(m.s.db.states[k], row, k, a)
    ensures ActorsOk(Rewritten(m, i, k, row, a))
  {
    hide Onward, Inv, OwedOk, Balanced, ActorOk, ActorsOk;
    var m' := Rewritten(m, i, k, row, a);
    OneRowOnward(Completed(m), Completed(m'), k);
    ActorsStay(m, m');
  }

  lemma RewriteOwed(m: Machine, i: nat, k: Key, row: Row, a: Option<Actor>)
    requires OwedOk(m) && (a.Some? ==> a.value.Noting?)
    ensures OwedOk(Rewritten(m, i, k, row, a))
  {
  }

  lemma RewriteSound(m: Machine, i: nat, k: Key, row: Row, a: Option<Actor>)
    requires Sound(m) && IsQuiet(ActorAt(m.actors, i)) && k in m.s.db.states && MayRewrite(m.s.db.states[k], row, k, a)
    requires k.version in m.s.db.versions
    requires RowOk(m.s.db.versions[k.version], row, k in m.s.edited, k in m.s.early, k in m.s.blockedAccess, m.s.now)
    ensures Sound(Rewritten(m, i, k, row, a))
  {
    hide Inv, OwedOk, ActorsOk, Balanced, RowOk;
    var m' := Rewritten(m, i, k, row, a);
    RewriteCompletes(Completed(m), k, row);
    assert Completed(m') == Completed(m).(db := UpdateRow(Completed(m).db, k, row));
    RewriteActors(m, i, k, row, a);
    RewriteOwed(m, i, k, row, a);
    forall j ensures Balanced(m', j) {
      assert Balanced(m, j);
      RewriteBalanced(m, i, k, row, a, j);
    }
  }

  lemma RewriteCompletes(s: Sys, k: Key, row: Row)
    requires Inv(s) && k in s.db.states && k.version in s.db.versions && IsOpen(s.db.states[k].state)
    requires IsOpen(row.state)
    requires RowOk(s.db.versions[k.version], row, k in s.edited, k in s.early, k in s.blockedAccess, s.now)
    ensures Inv(s.(db := UpdateRow(s.db, k, row)))
  {
    var s' := s.(db := UpdateRow(s.db, k, row));
    forall j | j in s'.db.states ensures RowAtOk(s', j) && EvidenceAtOk(s', j) {
      assert RowAtOk(s, j) && EvidenceAtOk(s, j);
    }
  }

  lemma NoteBalanced(m: Machine, i: nat, k: Key, j: Key)
    requires Balanced(m, j) && i in m.actors && m.actors[i] == Noting(k)
    ensures Balanced(NoteStep(m, i, k), j)
  {
    hide Holders, Raised;
    CountsChange(m.actors, i, None, j);
    RaisedGrows(m.s.db.objections, Objection(k, m.s.now), j);
  }

  lemma RaisedGrows(objections: seq<Objection>, o: Objection, k: Key)
    ensures |Raised(objections + [o], k)| == |Raised(objections, k)| + if o.key == k then 1 else 0
  {
    assert Raised(objections + [o], k) == Raised(objections, k) + if o.key == k then {|objections|} else {};
  }

  lemma NoteCompletes(s: Sys, objections: seq<Objection>)
    requires Inv(s)
    ensures Inv(s.(db := s.db.(objections := objections)))
  {
    var s' := s.(db := s.db.(objections := objections));
    forall j | j in s.db.states ensures RowAtOk(s', j) && EvidenceAtOk(s', j) {
      assert RowAtOk(s, j) && EvidenceAtOk(s, j);
    }
  }

  lemma NoteActors(m: Machine, i: nat, k: Key)
    requires ActorsOk(m)
    ensures ActorsOk(NoteStep(m, i, k))
  {
    var m' := NoteStep(m, i, k);
    forall j | j in m'.actors ensures ActorOk(Completed(m'), m'.actors[j]) {
      assert ActorOk(Completed(m), m.actors[j]);
    }
  }

  lemma NoteSound(m: Machine, i: nat, k: Key)
    requires Sound(m) && i in m.actors && m.actors[i] == Noting(k)
    ensures Sound(NoteStep(m, i, k))
  {
    var c, m' := Completed(m), NoteStep(m, i, k);
    NoteCompletes(c, m'.s.db.objections);
    assert Completed(m') == c.(db := c.db.(objections := m'.s.db.objections));
    NoteActors(m, i, k);
    forall j ensures Balanced(m', j) {
      assert Balanced(m, j);
      NoteBalanced(m, i, k, j);
    }
  }

  // Each kind of step.

  lemma StopSound(m: Machine, i: nat)
    requires Sound(m) && IsQuiet(ActorAt(m.actors, i))
    ensures Sound(Stop(m, i))
  {
    QuietSound(m, i, None);
  }

  lemma CheckedSound(m: Machine, i: nat)
    requires Sound(m) && i in m.actors && m.actors[i].Checked?
    ensures Sound(Advanced(m, i))
  {
    hide Inv, OwedOk, Balanced, CheckedOk;
    var k, evidence := m.actors[i].k, m.actors[i].evidence;
    StopSound(m, i);
    if k in m.s.db.states && Accept(m.s.db.states[k], evidence.how).Ok? {
      assert ActorOk(Completed(m), m.actors[i]);
      QuietSound(m, i, Some(Accepting(k, evidence, m.s.db.states[k])));
    }
  }

  lemma AcceptingSound(m: Machine, i: nat)
    requires Sound(m) && i in m.actors && m.actors[i].Accepting?
    ensures Sound(Advanced(m, i))
  {
    hide Inv, OwedOk, Balanced;
    var k, evidence := m.actors[i].k, m.actors[i].evidence;
    StopSound(m, i);
    if Matches(m.s.db.states, k, m.actors[i].seen.state) {
      assert ActorOk(Completed(m), m.actors[i]);
      WinSound(m, i, k, evidence);
    }
  }

  /** A tacit acceptance decided on the row that was read still holds for the row that is stored. */
  lemma SweepEvidence(s: Sys, k: Key, seen: Row)
    requires Inv(s) && SweepingOk(s, k, seen) && Matches(s.db.states, k, seen.state)
    requires Sweep(seen, s.db.versions[k.version], s.now).outcome == TacitAccepted
    ensures var version := s.db.versions[k.version];
      EvidenceOk(version, s.db.states[k], TacitAcceptance(version, s.now), k in s.edited, k in s.blockedAccess)
  {
    assert RowAtOk(s, k);
  }

  lemma SweepBlocks(s: Sys, k: Key, seen: Row)
    requires Inv(s) && SweepingOk(s, k, seen) && Matches(s.db.states, k, seen.state)
    requires Sweep(seen, s.db.versions[k.version], s.now).outcome == BecameBlocking
    ensures var row := s.db.states[k].(state := ExpiredBlocking);
      && MayRewrite(s.db.states[k], row, k, None)
      && RowOk(s.db.versions[k.version], row, k in s.edited, k in s.early, k in s.blockedAccess, s.now)
  {
    assert RowAtOk(s, k);
  }

  lemma SweptSound(m: Machine, i: nat, k: Key, seen: Row)
    requires Sound(m) && IsQuiet(ActorAt(m.actors, i)) && SweepingOk(Completed(m), k, seen)
    requires Matches(m.s.db.states, k, seen.state) && Sweep(seen, m.s.db.versions[k.version], m.s.now).outcome != Noop
    ensures Sound(SweepStep(m, i, k, seen))
  {
    hide Inv, OwedOk, ActorsOk, Balanced, RowOk, EvidenceOk;
    if Sweep(seen, m.s.db.versions[k.version], m.s.now).outcome == TacitAccepted {
      SweepEvidence(Completed(m), k, seen);
      WinSound(m, i, k, TacitAcceptance(m.s.db.versions[k.version], m.s.now));
    } else {
      SweepBlocks(Completed(m), k, seen);
      RewriteSound(m, i, k, m.s.db.states[k].(state := ExpiredBlocking), None);
    }
  }

  lemma SweepingSound(m: Machine, i: nat)
    requires Sound(m) && i in m.actors && m.actors[i].Sweeping?
    ensures Sound(Advanced(m, i))
  {
    hide Inv, OwedOk, Balanced, Sweep;
    var k, seen := m.actors[i].k, m.actors[i].seen;
    StopSound(m, i);
    assert ActorOk(Completed(m), m.actors[i]);
    if Matches(m.s.db.states, k, seen.state) && Sweep(seen, m.s.db.versions[k.version], m.s.now).outcome != Noop {
      SweptSound(m, i, k, seen);
    }
  }

  lemma ObjectingSound(m: Machine, i: nat)
    requires Sound(m) && i in m.actors && m.actors[i].Objecting?
    ensures Sound(Advanced(m, i))
  {
    hide VersionsOk, OwedOk, Balanced;
    var k := m.actors[i].k;
    StopSound(m, i);
    if Matches(m.s.db.states, k, Notified) {
      assert ActorOk(Completed(m), m.actors[i]);
      assert RowAtOk(Completed(m), k);
      RewriteSound(m, i, k, m.s.db.states[k].(state := Objected), Some(Noting(k)));
    }
  }

  lemma RemindingSound(m: Machine, i: nat)
    requires Sound(m) && i in m.actors && m.actors[i].Reminding?
    ensures Sound(Advanced(m, i))
  {
    hide VersionsOk, OwedOk, Balanced;
    var k := m.actors[i].k;
    StopSound(m, i);
    if Matches(m.s.db.states, k, m.actors[i].seen.state) {
      assert ActorOk(Completed(m), m.actors[i]);
      assert RowAtOk(Completed(m), k);
      RewriteSound(m, i, k, m.s.db.states[k].(remindersSent := m.actors[i].sent), None);
    }
  }

  // First access.

  lemma AccessOnward(m: Machine, k: Key, row: Row, carried: bool)
    requires Inv(Completed(m)) && Matches(m.s.db.states, k, PendingNotification)
    requires row.notificationDueAt == m.s.db.states[k].notificationDueAt && row.state == Notified
    ensures Onward(Completed(m), Completed(m.(s := Accessed(m.s, k, row, carried))))
  {
    hide Onward, VersionsOk;
    assert RowAtOk(Completed(m), k);
    OneRowOnward(Completed(m), Completed(m.(s := Accessed(m.s, k, row, carried))), k);
  }

  function AccessedRow(row: Row, update: Row): Row {
    row.(state := update.state, notifiedAt := update.notifiedAt, deadlineAt := update.deadlineAt)
  }

  lemma AccessedRowOk(s: Sys, k: Key, update: Row, carried: bool)
    requires Matches(s.db.states, k, PendingNotification) && RowAtOk(s, k) && EvidenceAtOk(s, k)
    requires AccessingOk(s, k, update, carried)
    ensures var s' := Accessed(s, k, AccessedRow(s.db.states[k], update), carried);
      RowAtOk(s', k) && EvidenceAtOk(s', k)
  {
  }

  lemma AccessCompletes(s: Sys, k: Key, update: Row, carried: bool)
    requires Inv(s) && Matches(s.db.states, k, PendingNotification) && AccessingOk(s, k, update, carried)
    ensures Inv(Accessed(s, k, AccessedRow(s.db.states[k], update), carried))
  {
    hide RowAtOk, EvidenceAtOk, VersionsOk, AccessingOk;
    var row := AccessedRow(s.db.states[k], update);
    AccessedRowOk(s, k, update, carried);
    OneRow(s, Accessed(s, k, row, carried), k, row, map[]);
  }

  lemma AccessBalanced(m: Machine, i: nat, k: Key, row: Row, carried: bool, j: Key)
    requires Matches(m.s.db.states, k, PendingNotification) && row.state == Notified && Balanced(m, j)
    requires IsQuiet(ActorAt(m.actors, i))
    ensures Balanced(Stop(m, i).(s := Accessed(m.s, k, row, carried)), j)
  {
    CountsChange(m.actors, i, None, j);
  }

  /** The row is still pending: what was decided is written. */
  lemma AccessedSound(m: Machine, i: nat, k: Key, update: Row, carried: bool)
    requires Sound(m) && IsQuiet(ActorAt(m.actors, i)) && AccessingOk(Completed(m), k, update, carried)
    requires Matches(m.s.db.states, k, PendingNotification) && m.s.db.states[k].notifiedAt.None?
    ensures Sound(AccessStep(m, i, k, update, carried))
  {
    hide Inv, Balanced, Onward, ActorOk, ActorsOk;
    var row := AccessedRow(m.s.db.states[k], update);
    var m' := AccessStep(m, i, k, update, carried);
    AccessCompletes(Completed(m), k, update, carried);
    AccessOnward(m, k, row, carried);
    assert Completed(m') == Accessed(Completed(m), k, row, carried)
      == Completed(m.(s := Accessed(m.s, k, row, carried)));
    ActorsStay(m, m');
    forall j ensures Balanced(m', j) {
      assert Balanced(m, j);
      AccessBalanced(m, i, k, row, carried, j);
    }
  }

  lemma AccessingSound(m: Machine, i: nat)
    requires Sound(m) && i in m.actors && m.actors[i].Accessing?
    ensures Sound(Advanced(m, i))
  {
    hide Inv, OwedOk, Balanced, AccessingOk;
    var k, update, carried := m.actors[i].k, m.actors[i].update, m.actors[i].carried;
    StopSound(m, i);
    if Matches(m.s.db.states, k, PendingNotification) && m.s.db.states[k].notifiedAt.None? {
      assert AccessingOk(Completed(m), k, update, carried);
      AccessedSound(m, i, k, update, carried);
    }
  }

  lemma AdvanceSound(m: Machine, i: nat)
    requires Sound(m) && i in m.actors
    ensures Sound(Advanced(m, i))
  {
    match m.actors[i]
    case Checked(_, _) => CheckedSound(m, i);
    case Accepting(_, _, _) => AcceptingSound(m, i);
    case Appending(k, evidence) => AppendSound(m, i, k, evidence);
    case Sweeping(_, _) => SweepingSound(m, i);
    case Objecting(_, _) => ObjectingSound(m, i);
    case Noting(k) => NoteSound(m, i, k);
    case Reminding(_, _, _) => RemindingSound(m, i);
    case Accessing(_, _, _) => AccessingSound(m, i);
  }

  // How requests and jobs start.

  /** A version that may be consented to is published. */
  lemma ConsentableIsPublished(s: Sys, k: Key, displayed: Option<string>, channel: Channel)
    requires Inv(s) && ConsentRefused(s.db, k, displayed, channel, s.now).None?
    ensures s.db.versions[k.version].status == Published
  {
    hide RowAtOk, EvidenceAtOk;
    var version := s.db.versions[k.version];
    if Current(s.db.versions, version.document, s.now) == Some(k.version) {
      assert k.version in InForceOf(s.db.versions, version.document, s.now);
    }
  }

  lemma RequestStartsOk(s: Sys, step: Step)
    requires Inv(s) && (step.StartConsent? || step.StartManual?) && Started(s, step).Some?
    requires step.StartManual? ==> Legal(s.db, RecordManually(step.k, step.recording))
    ensures IsQuiet(Started(s, step)) && ActorOk(s, Started(s, step).value)
  {
    hide Inv;
    if step.StartConsent? { ConsentableIsPublished(s, step.k, step.displayed, step.channel); }
  }

  lemma RowStartsOk(s: Sys, step: Step)
    requires !step.Whole? && !step.Advance? && !step.StartConsent? && !step.StartManual? && Started(s, step).Some?
    requires step.k in s.db.states && RowAtOk(s, step.k)
    requires ContentError(s.db.versions[step.k.version]).None?
    ensures IsQuiet(Started(s, step)) && ActorOk(s, Started(s, step).value)
  {
  }

  /** Starting does not look at the evidence. */
  lemma StartedOnCompleted(m: Machine, step: Step)
    ensures Started(m.s, step) == Started(Completed(m), step)
  {
  }

  lemma StartedOk(m: Machine, step: Step)
    requires Sound(m) && Started(m.s, step).Some? && Permitted(m, step)
    ensures IsQuiet(Started(m.s, step)) && ActorOk(Completed(m), Started(m.s, step).value)
  {
    hide ActorOk, IsQuiet, ActorsOk, OwedOk, Balanced;
    var s := Completed(m);
    StartedOnCompleted(m, step);
    if step.StartConsent? || step.StartManual? {
      RequestStartsOk(s, step);
    } else {
      assert RowAtOk(s, step.k) && VersionOk(s.db.versions[step.k.version], s.now);
      RowStartsOk(s, step);
    }
  }
}
