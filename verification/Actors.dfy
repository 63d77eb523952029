/** The requests and jobs under way, and how many of them hold a win for a row. */
module Actors {
  import opened Types

  /** Where a request or job stands; what it has read is remembered. */
  datatype Actor =
    | Checked(k: Key, evidence: Acceptance)
    | Accepting(k: Key, evidence: Acceptance, seen: Row)
    | Appending(k: Key, evidence: Acceptance)
    | Sweeping(k: Key, seen: Row)
    | Objecting(k: Key, seen: Row)
    | Noting(k: Key)
    | Reminding(k: Key, seen: Row, sent: nat)
    | Accessing(k: Key, update: Row, carried: bool)

  predicate Counts(a: Actor, k: Key, noting: bool) {
    a.k == k && if noting then a.Noting? else a.Appending?
  }

  /** The requests about to append an acceptance of the pair, or to note an objection to it. */
  function Holders(actors: map<nat, Actor>, k: Key, noting: bool): set<nat> {
    set i | i in actors && Counts(actors[i], k, noting)
  }

  function ActorAt(actors: map<nat, Actor>, i: nat): Option<Actor> {
    if i in actors then Some(actors[i]) else None
  }

  function Replaced(actors: map<nat, Actor>, i: nat, a: Option<Actor>): map<nat, Actor> {
    if a.Some? then actors[i := a.value] else actors - {i}
  }

  function Share(a: Option<Actor>, k: Key, noting: bool): nat {
    if a.Some? && Counts(a.value, k, noting) then 1 else 0
  }

  /** Replacing one actor only decides whether that one holds anything. */
  lemma HoldersReplaced(actors: map<nat, Actor>, i: nat, a: Option<Actor>, k: Key, noting: bool)
    ensures var before, after := Holders(actors, k, noting), Holders(Replaced(actors, i, a), k, noting);
      && after - {i} == before - {i}
      && Share(ActorAt(actors, i), k, noting) == (if i in before then 1 else 0)
      && Share(a, k, noting) == (if i in after then 1 else 0)
  {
    hide Counts;
  }

  /** Replacing one actor changes the counts of a key by what that actor contributes. */
  lemma CountChanges(actors: map<nat, Actor>, i: nat, a: Option<Actor>, k: Key, noting: bool)
    ensures |Holders(Replaced(actors, i, a), k, noting)|
         == |Holders(actors, k, noting)| - Share(ActorAt(actors, i), k, noting) + Share(a, k, noting)
  {
    hide Holders, Replaced, ActorAt, Share;
    HoldersReplaced(actors, i, a, k, noting);
    WithAndWithout(Holders(actors, k, noting), i);
    WithAndWithout(Holders(Replaced(actors, i, a), k, noting), i);
  }

  lemma WithAndWithout(s: set<nat>, i: nat)
    ensures |s| == |s - {i}| + if i in s then 1 else 0
  {
    if i in s { assert s == (s - {i}) + {i}; } else { assert s == s - {i}; }
  }

  lemma CountsChange(actors: map<nat, Actor>, i: nat, a: Option<Actor>, k: Key)
    ensures forall noting ::
      |Holders(Replaced(actors, i, a), k, noting)|
      == |Holders(actors, k, noting)| - Share(ActorAt(actors, i), k, noting) + Share(a, k, noting)
  {
    CountChanges(actors, i, a, k, false);
    CountChanges(actors, i, a, k, true);
  }
}
