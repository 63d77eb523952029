/** What holds however requests, jobs and operations interleave. */
module Concurrency {
  import opened Actors
  import opened EvidenceFrame
  import opened Types
  import opened Lifecycle
  import opened Runs
  import opened Interleaving
  import opened RequestSteps
  import opened WholeSteps

  lemma StartSound(m: Machine, step: Step)
    requires Sound(m) && Permitted(m, step) && !step.Whole? && !step.Advance?
    ensures Sound(After(m, step))
  {
    hide Sound, Started, Permitted;
    if step.i !in m.actors && Started(m.s, step).Some? {
      StartedOk(m, step);
      QuietSound(m, step.i, Started(m.s, step));
    }
  }

  lemma StepSound(m: Machine, step: Step)
    requires Sound(m) && Permitted(m, step)
    ensures Sound(After(m, step))
  {
    hide Sound, Started, WholeStep, Advanced, IsWhole, Legal;
    match step
    case Whole(e) => WholeSound(m, e);
    case Advance(i) => if i in m.actors { AdvanceSound(m, i); }
    case _ => StartSound(m, step);
  }

  lemma PermittedLater(m: Machine, now: Time, step: Step)
    requires Permitted(m, step)
    ensures Permitted(m.(s := m.s.(now := now)), step)
  {
  }

  const IDLE := Machine(START, map[], map[], multiset{})

  lemma IdleSound()
    ensures Sound(IDLE)
  {
  }

  /** However the steps interleave, the system is sound at every moment. */
  lemma {:induction false} InterleavingSound(steps: seq<Moment>)
    requires IsInterleaving(IDLE, steps)
    ensures Sound(Interleave(IDLE, steps))
  {
    hide Sound, After, Permitted;
    if steps == [] {
      IdleSound();
    } else {
      var last, before := steps[|steps| - 1], Interleave(IDLE, steps[..|steps| - 1]);
      InterleavingSound(steps[..|steps| - 1]);
      LaterSound(before, last.at);
      PermittedLater(before, last.at, last.step);
      StepSound(before.(s := before.s.(now := last.at)), last.step);
    }
  }

  /** An accepted row has exactly one acceptance, appended or about to be; no other row has any. */
  lemma OneAcceptanceEach(steps: seq<Moment>, k: Key)
    requires IsInterleaving(IDLE, steps)
    ensures var m := Interleave(IDLE, steps);
      (if k in m.s.db.acceptances then 1 else 0) + |Holders(m.actors, k, false)|
      == if Matches(m.s.db.states, k, Accepted) then 1 else 0
  {
    hide Interleave, IsInterleaving, ActorsOk, RowOk, EvidenceOk, VersionsOk;
    InterleavingSound(steps);
    var m := Interleave(IDLE, steps);
    assert Balanced(m, k);
    if k in m.s.db.states { assert RowAtOk(Completed(m), k) && EvidenceAtOk(Completed(m), k); }
  }

  /** The evidence of a won transition is never refused as a duplicate. */
  lemma AppendNeverRefused(steps: seq<Moment>, i: nat, at: Time)
    requires IsInterleaving(IDLE, steps)
    ensures var m := Interleave(IDLE, steps);
      i in m.actors && m.actors[i].Appending?
      ==> Append(m.s.db, m.actors[i].k, m.actors[i].evidence.(acceptedAt := at)).error.None?
  {
    InterleavingSound(steps);
  }

  /** Objections, noted or about to be, exceed the reopenings by one at most, and by one while the row is OBJECTED. */
  lemma ObjectionsBounded(steps: seq<Moment>, k: Key)
    requires IsInterleaving(IDLE, steps)
    ensures var m := Interleave(IDLE, steps);
      var n := |Raised(m.s.db.objections, k)| + |Holders(m.actors, k, true)|;
      && m.reopened[k] <= n <= m.reopened[k] + 1
      && (Matches(m.s.db.states, k, Objected) ==> n == m.reopened[k] + 1)
  {
    InterleavingSound(steps);
    assert Balanced(Interleave(IDLE, steps), k);
  }

  lemma NothingOwed(m: Machine)
    requires Sound(m) && forall i | i in m.actors :: !m.actors[i].Appending?
    ensures Completed(m) == m.s
  {
    hide Inv, ActorsOk;
    forall k ensures k !in m.owed {
      assert Balanced(m, k);
      assert Holders(m.actors, k, false) == {};
    }
    assert m.owed == map[];
  }

  /** When no append is outstanding, the stored rows and the stored evidence agree by themselves. */
  lemma QuiescentIsInOrder(steps: seq<Moment>)
    requires IsInterleaving(IDLE, steps)
    requires forall i | i in Interleave(IDLE, steps).actors :: !Interleave(IDLE, steps).actors[i].Appending?
    ensures Inv(Interleave(IDLE, steps).s)
  {
    hide Interleave, IsInterleaving, Inv, Balanced, ActorsOk, OwedOk;
    InterleavingSound(steps);
    NothingOwed(Interleave(IDLE, steps));
  }
}
