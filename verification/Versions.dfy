/** Which version of a document is in force: the order behind `findCurrentPublished`. */
module Versions {
  import opened Types

  function PublishedAt(version: Version): Time {
    if version.publishedAt.Some? then version.publishedAt.value else 0
  }

  /** a sorts before b: later validFrom, then later publishedAt, then earlier creation. */
  predicate Newer(versions: map<nat, Version>, a: nat, b: nat) {
    && a in versions
    && b in versions
    && var va, vb := versions[a], versions[b];
    || va.validFrom > vb.validFrom
    || (va.validFrom == vb.validFrom
        && (PublishedAt(va) > PublishedAt(vb) || (PublishedAt(va) == PublishedAt(vb) && a < b)))
  }

  predicate InForce(version: Version, now: Time) {
    version.status == Published && version.validFrom <= now
  }

  predicate Upcoming(version: Version, now: Time) {
    version.status == Published && version.validFrom > now
  }

  function InForceOf(versions: map<nat, Version>, document: nat, now: Time): set<nat> {
    set v | v in versions && versions[v].document == document && InForce(versions[v], now)
  }

  ghost predicate IsNewest(versions: map<nat, Version>, among: set<nat>, v: nat) {
    v in among && forall w | w in among && w != v :: Newer(versions, v, w)
  }

  /** Every non-empty set of versions has a first element in the order. */
  lemma {:induction false} NewestExists(versions: map<nat, Version>, among: set<nat>)
    requires among != {} && among <= versions.Keys
    ensures exists v :: IsNewest(versions, among, v)
  {
    var v :| v in among;
    var rest := among - {v};
    assert forall w | w in among && w != v :: w in rest;
    if rest == {} {
      assert IsNewest(versions, among, v);
    } else {
      NewestExists(versions, rest);
      var w :| IsNewest(versions, rest, w);
      var best := if Newer(versions, w, v) then w else v;
      assert IsNewest(versions, among, best);
    }
  }

  ghost function Newest(versions: map<nat, Version>, among: set<nat>): (r: Option<nat>)
    requires among <= versions.Keys
    ensures r.None? <==> among == {}
    ensures r.Some? ==> IsNewest(versions, among, r.value)
  {
    if among == {} then
      None
    else
      NewestExists(versions, among);
      var v :| IsNewest(versions, among, v);
      Some(v)
  }

  /** The contract of `findCurrentPublished`: the newest version of the document in force at `now`. */
  ghost function Current(versions: map<nat, Version>, document: nat, now: Time): (r: Option<nat>) {
    Newest(versions, InForceOf(versions, document, now))
  }

  function UpcomingOf(versions: map<nat, Version>, document: nat, now: Time): set<nat> {
    set v | v in versions && versions[v].document == document && Upcoming(versions[v], now)
  }

  /** a takes effect before b; of two that start together, the one that will be in force comes first. */
  predicate Sooner(versions: map<nat, Version>, a: nat, b: nat) {
    && a in versions
    && b in versions
    && (versions[a].validFrom < versions[b].validFrom
        || (versions[a].validFrom == versions[b].validFrom && Newer(versions, a, b)))
  }

  /** The contract of `findUpcomingPublishedList`: every upcoming version of the document, the next one first. */
  ghost predicate IsUpcomingList(versions: map<nat, Version>, document: nat, now: Time, list: seq<nat>) {
    && (forall v :: v in list <==> v in UpcomingOf(versions, document, now))
    && forall i, j | 0 <= i < j < |list| :: Sooner(versions, list[i], list[j])
  }
}
