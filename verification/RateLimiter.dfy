/** The sliding-window rate limiter of the hosted acceptance page. */
module RateLimiter {
  import opened Types

  /** A rate-limited key; keys are only ever compared for equality. */
  type Client = nat

  datatype Hit = Hit(key: Client, at: Time)

  /** Hits in the order they came, the latest outermost. */
  datatype History = Empty | Then(before: History, hit: Hit)

  /** How many hits of the key lie in the interval (lo, hi]. */
  function Count(h: History, key: Client, lo: Time, hi: Time): nat {
    match h
    case Empty => 0
    case Then(before, hit) => Count(before, key, lo, hi) + if hit.key == key && lo < hit.at <= hi then 1 else 0
  }

  /** The reference: with the whole past at hand, a hit is admitted while its window has room. */
  function Admitted(log: History, limit: nat, window: nat): History {
    match log
    case Empty => Empty
    case Then(earlier, hit) =>
      var before := Admitted(earlier, limit, window);
      if Count(before, hit.key, hit.at - window, hit.at) < limit then Then(before, hit) else before
  }

  /** The clock never went backwards, and stands at `clock`. */
  predicate Ordered(h: History, clock: Time) {
    h == Empty || (h.hit.at <= clock && Ordered(h.before, h.hit.at))
  }

  /** The times after the cutoff, in order. */
  function Recent(times: seq<Time>, cutoff: Time): seq<Time> {
    if times == [] then [] else
      var before, last := Recent(times[..|times| - 1], cutoff), times[|times| - 1];
      if last > cutoff then before + [last] else before
  }

  /** The times of the key's hits after the cutoff, in order. */
  function RecentOf(h: History, key: Client, cutoff: Time): seq<Time> {
    match h
    case Empty => []
    case Then(earlier, hit) =>
      var before := RecentOf(earlier, key, cutoff);
      if hit.key == key && hit.at > cutoff then before + [hit.at] else before
  }

  // The fast form: one pruned list per key.

  function HitsOf(hits: map<Client, seq<Time>>, key: Client): seq<Time> {
    if key in hits then hits[key] else []
  }

  /** From the cutoff on, the list and the whole past say the same about the key. */
  ghost predicate Agree(times: seq<Time>, past: History, key: Client, since: Time) {
    forall cutoff | since <= cutoff :: Recent(times, cutoff) == RecentOf(past, key, cutoff)
  }

  ghost predicate Tracks(hits: map<Client, seq<Time>>, past: History, since: Time) {
    forall key :: Agree(HitsOf(hits, key), past, key, since)
  }

  lemma OrderedThen(log: History, clock: Time, hit: Hit)
    requires Ordered(log, clock) && clock <= hit.at
    ensures Ordered(Then(log, hit), hit.at)
  {
    if log != Empty { assert log.hit.at <= hit.at; }
  }

  class SlidingWindowRateLimiter {
    const limit: nat
    const windowMs: nat
    var hits: map<Client, seq<Time>>
    ghost var log: History
    ghost var clock: Time

    constructor (limit: nat, windowMs: nat, start: Time)
      ensures Valid() && log == Empty && clock == start && this.limit == limit && this.windowMs == windowMs
    {
      this.limit, this.windowMs, hits, log, clock := limit, windowMs, map[], Empty, start;
    }

    /** The pruned lists agree with the whole past on everything still inside a window. */
    ghost predicate Valid()
      reads this
    {
      Ordered(log, clock) && Tracks(hits, Admitted(log, limit, windowMs), clock - windowMs)
    }

    method Allow(key: Client, now: Time) returns (allowed: bool)
      requires Valid() && clock <= now
      modifies this`hits, this`log, this`clock
      ensures Valid() && log == Then(old(log), Hit(key, now)) && clock == now
      ensures allowed <==> Count(Admitted(old(log), limit, windowMs), key, now - windowMs, now) < limit
      ensures forall k | k != key :: HitsOf(hits, k) == HitsOf(old(hits), k)
    {
      hide Tracks, Ordered, Count;
      ghost var past := Admitted(log, limit, windowMs);
      OrderedThen(log, clock, Hit(key, now));
      CallTracks(hits, past, clock - windowMs, key, now, limit, windowMs);
      AdmittedOrdered(log, limit, windowMs, clock);
      PrunedCount(hits, past, clock - windowMs, key, now, windowMs);
      var recent := Prune(HitsOf(hits, key), now - windowMs);
      allowed := |recent| < limit;
      if allowed {
        recent := recent + [now];
      }
      hits := hits[key := recent];
      log := Then(log, Hit(key, now));
      clock := now;
    }
  }

  method Prune(times: seq<Time>, cutoff: Time) returns (recent: seq<Time>)
    ensures recent == Recent(times, cutoff)
  {
    recent := [];
    for i := 0 to |times|
      invariant recent == Recent(times[..i], cutoff)
    {
      assert times[..i + 1][..i] == times[..i];
      if times[i] > cutoff {
        recent := recent + [times[i]];
      }
    }
    assert times[..|times|] == times;
  }

  lemma RecentSnoc(times: seq<Time>, t: Time, cutoff: Time)
    ensures Recent(times + [t], cutoff) == if t > cutoff then Recent(times, cutoff) + [t] else Recent(times, cutoff)
  {
    assert (times + [t])[..|times|] == times;
  }

  /** Pruning early loses nothing a later, higher cutoff would keep. */
  lemma {:induction false} RecentTwice(times: seq<Time>, low: Time, high: Time)
    requires low <= high
    ensures Recent(Recent(times, low), high) == Recent(times, high)
  {
    if times != [] {
      RecentTwice(times[..|times| - 1], low, high);
      RecentSnoc(Recent(times[..|times| - 1], low), times[|times| - 1], high);
    }
  }

  lemma {:induction false} RecentCounts(h: History, key: Client, cutoff: Time, now: Time)
    requires Ordered(h, now)
    ensures |RecentOf(h, key, cutoff)| == Count(h, key, cutoff, now)
  {
    if h.Then? {
      CountAhead(h.before, key, cutoff, h.hit.at, now);
      RecentCounts(h.before, key, cutoff, h.hit.at);
    }
  }

  lemma {:induction false} CountAhead(h: History, key: Client, lo: Time, clock: Time, hi: Time)
    requires Ordered(h, clock) && clock <= hi
    ensures Count(h, key, lo, hi) == Count(h, key, lo, clock)
  {
    if h.Then? {
      CountAhead(h.before, key, lo, h.hit.at, hi);
      CountAhead(h.before, key, lo, h.hit.at, clock);
    }
  }

  lemma {:induction false} AdmittedOrdered(log: History, limit: nat, window: nat, clock: Time)
    requires Ordered(log, clock)
    ensures Ordered(Admitted(log, limit, window), clock)
  {
    if log.Then? {
      AdmittedOrdered(log.before, limit, window, log.hit.at);
      OrderedLater(Admitted(log.before, limit, window), log.hit.at, clock);
    }
  }

  lemma OrderedLater(h: History, clock: Time, later: Time)
    requires Ordered(h, clock) && clock <= later
    ensures Ordered(h, later)
  {
  }

  /** The pruned list holds exactly the admitted hits of the last window. */
  lemma PrunedCount(hits: map<Client, seq<Time>>, past: History, since: Time, key: Client, now: Time, window: nat)
    requires Tracks(hits, past, since) && since <= now - window && Ordered(past, now)
    ensures |Recent(HitsOf(hits, key), now - window)| == Count(past, key, now - window, now)
  {
    assert Agree(HitsOf(hits, key), past, key, since);
    RecentCounts(past, key, now - window, now);
  }

  lemma AgreesAt(times: seq<Time>, past: History, key: Client, now: Time, cutoff: Time, admitted: bool, c: Time)
    requires cutoff <= c && Recent(times, c) == RecentOf(past, key, c)
    ensures var recent := Recent(times, cutoff);
      Recent(if admitted then recent + [now] else recent, c)
      == RecentOf(if admitted then Then(past, Hit(key, now)) else past, key, c)
  {
    RecentTwice(times, cutoff, c);
    RecentSnoc(Recent(times, cutoff), now, c);
  }

  lemma CallAgrees(times: seq<Time>, past: History, key: Client, since: Time, now: Time, cutoff: Time, admitted: bool)
    requires since <= cutoff && Agree(times, past, key, since)
    ensures var recent := Recent(times, cutoff);
      Agree(if admitted then recent + [now] else recent, if admitted then Then(past, Hit(key, now)) else past, key,
          cutoff)
  {
    var recent := if admitted then Recent(times, cutoff) + [now] else Recent(times, cutoff);
    var present := if admitted then Then(past, Hit(key, now)) else past;
    forall c | cutoff <= c ensures Recent(recent, c) == RecentOf(present, key, c) {
      AgreesAt(times, past, key, now, cutoff, admitted, c);
    }
  }

  /** One call leaves the pruned lists in agreement with the whole past. */
  lemma CallTracks(hits: map<Client, seq<Time>>, past: History, since: Time, key: Client, now: Time, limit: nat,
      window: nat)
    requires Tracks(hits, past, since) && since <= now - window
    ensures var recent := Recent(HitsOf(hits, key), now - window);
      Tracks(hits[key := if |recent| < limit then recent + [now] else recent],
             if |recent| < limit then Then(past, Hit(key, now)) else past, now - window)
  {
    var recent := Recent(HitsOf(hits, key), now - window);
    var hits' := hits[key := if |recent| < limit then recent + [now] else recent];
    var present := if |recent| < limit then Then(past, Hit(key, now)) else past;
    forall k ensures Agree(HitsOf(hits', k), present, k, now - window) {
      assert Agree(HitsOf(hits, k), past, k, since);
      if k == key { CallAgrees(HitsOf(hits, key), past, key, since, now, now - window, |recent| < limit); }
    }
  }

  // What the reference promises.

  lemma {:induction false} CountShrinks(h: History, key: Client, lo: Time, hi: Time, lo': Time, hi': Time)
    requires lo <= lo' && Ordered(h, hi)
    ensures Count(h, key, lo', hi') <= Count(h, key, lo, hi)
  {
    if h.Then? {
      CountAhead(h.before, key, lo, h.hit.at, hi);
      CountShrinks(h.before, key, lo, h.hit.at, lo', hi');
    }
  }

  /** No interval as long as the window ever holds more than `limit` admitted hits of a key. */
  lemma {:induction false} EveryWindowIsBounded(log: History, limit: nat, window: nat, key: Client, t: Time,
      clock: Time)
    requires Ordered(log, clock)
    ensures Count(Admitted(log, limit, window), key, t, t + window) <= limit
  {
    if log.Then? {
      var before, hit := Admitted(log.before, limit, window), log.hit;
      EveryWindowIsBounded(log.before, limit, window, key, t, hit.at);
      if hit.key == key && t < hit.at <= t + window {
        AdmittedOrdered(log.before, limit, window, hit.at);
        CountShrinks(before, key, hit.at - window, hit.at, t, t + window);
      }
    }
  }

  function Only(h: History, key: Client): History {
    match h
    case Empty => Empty
    case Then(before, hit) => if hit.key == key then Then(Only(before, key), hit) else Only(before, key)
  }

  lemma {:induction false} OnlyCounts(h: History, key: Client, lo: Time, hi: Time)
    ensures Count(Only(h, key), key, lo, hi) == Count(h, key, lo, hi)
  {
    if h.Then? { OnlyCounts(h.before, key, lo, hi); }
  }

  /** What happens to a key is what would happen if no other key were ever used. */
  lemma {:induction false} KeysAreIndependent(log: History, limit: nat, window: nat, key: Client)
    ensures Only(Admitted(log, limit, window), key) == Admitted(Only(log, key), limit, window)
  {
    if log.Then? {
      KeysAreIndependent(log.before, limit, window, key);
      OnlyCounts(Admitted(log.before, limit, window), key, log.hit.at - window, log.hit.at);
    }
  }

  /** With a limit of one, a second hit is allowed exactly when a whole window has passed. */
  lemma OneHitPerWindow(window: nat, key: Client, first: Time, second: Time)
    requires first <= second
    ensures var log := Then(Then(Empty, Hit(key, first)), Hit(key, second));
      Admitted(log, 1, window) == if second - first >= window then log else Then(Empty, Hit(key, first))
  {
    var one := Then(Empty, Hit(key, first));
    assert Admitted(one, 1, window) == one;
    assert Count(one, key, second - window, second) == if second - window < first then 1 else 0;
  }

  /** A hit is refused only if `limit` earlier ones of the key, allowed or not, lie less than a window back. */
  lemma {:induction false} NoNeedlessRefusal(log: History, limit: nat, window: nat, hit: Hit)
    requires Count(log, hit.key, hit.at - window, hit.at) < limit
    ensures Admitted(Then(log, hit), limit, window) == Then(Admitted(log, limit, window), hit)
  {
    AdmittedAreFewer(log, limit, window, hit.key, hit.at - window, hit.at);
  }

  lemma {:induction false} AdmittedAreFewer(log: History, limit: nat, window: nat, key: Client, lo: Time, hi: Time)
    ensures Count(Admitted(log, limit, window), key, lo, hi) <= Count(log, key, lo, hi)
  {
    if log.Then? { AdmittedAreFewer(log.before, limit, window, key, lo, hi); }
  }
}
