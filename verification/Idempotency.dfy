/** The idempotency reservation: one consent per key is processed, every other request replays its response. */
module Idempotency {
  import opened Types

  datatype Response = Response(acceptanceId: nat)

  datatype Entry = Pending | Stored(response: Response)

  const REPLAY_POLL_ATTEMPTS: nat := 50

  /** What a reader of the key sees: a reservation without a response looks like nothing. */
  function Visible(entries: map<string, Entry>, key: string): Option<Response> {
    if key in entries && entries[key].Stored? then Some(entries[key].response) else None
  }

  function Released(entries: map<string, Entry>, key: string): map<string, Entry> {
    if key in entries && entries[key] == Pending then entries - {key} else entries
  }

  datatype Outcome = Outcome(entries: map<string, Entry>, answer: Option<Response>)

  /** One request with nobody else running: it replays, or processes and stores what processing gives. */
  function Alone(entries: map<string, Entry>, key: string, outcome: Option<Response>): Outcome {
    if key in entries then Outcome(entries, Visible(entries, key))
    else if outcome.Some? then Outcome(entries[key := Stored(outcome.value)], outcome)
    else Outcome(entries, None)
  }

  class IdempotencyStore {
    var entries: map<string, Entry>

    constructor ()
      ensures entries == map[]
    {
      entries := map[];
    }

    method Get(key: string) returns (r: Option<Response>)
      ensures r == Visible(entries, key)
    {
      if key !in entries { return None; }
      match entries[key]
      case Pending => r := None;
      case Stored(response) => r := Some(response);
    }

    method Put(key: string, response: Response)
      modifies this
      ensures entries == old(entries)[key := Stored(response)]
    {
      entries := entries[key := Stored(response)];
    }

    method Reserve(key: string) returns (reserved: bool)
      modifies this
      ensures reserved <==> key !in old(entries)
      ensures entries == if reserved then old(entries)[key := Pending] else old(entries)
    {
      if key in entries { return false; }
      entries := entries[key := Pending];
      reserved := true;
    }

    method Release(key: string)
      modifies this
      ensures entries == Released(old(entries), key)
    {
      if key in entries && entries[key] == Pending {
        entries := entries - {key};
      }
    }

    /** Polls for the response of the request that holds the reservation. */
    method AwaitReplay(key: string) returns (r: Option<Response>)
      ensures r == Visible(entries, key)
    {
      for attempt := 0 to REPLAY_POLL_ATTEMPTS
        invariant attempt > 0 ==> Visible(entries, key).None?
      {
        r := Get(key);
        if r.Some? { return; }
      }
      r := None;
    }

    /** One request with nobody else running; `outcome` is what processing it would give. */
    method Accept(key: string, outcome: Option<Response>) returns (r: Option<Response>)
      modifies this
      ensures Outcome(entries, r) == Alone(old(entries), key, outcome)
      ensures Visible(entries, key) == r
      ensures forall k | k != key :: Visible(entries, k) == Visible(old(entries), k)
    {
      r := Get(key);
      if r.Some? { return; }
      var reserved := Reserve(key);
      if !reserved {
        r := AwaitReplay(key);
      } else if outcome.Some? {
        Put(key, outcome.value);
        r := outcome;
      } else {
        Release(key);
        r := None;
      }
    }
  }

  // Any number of requests at once.

  /** Where a request stands between two of its accesses to the store. */
  datatype Phase =
    | Starting
    | Reserving
    | Processing
    | Finishing(response: Response)
    | Failing
    | Waiting(polls: nat)
    | Succeeded(response: Response)
    | Failed

  datatype Request = Request(key: string, phase: Phase)

  /**
   * Bookkeeping: `processed` counts the processings of a key that ended in a response, `owner` who
   * reserved it last.
   */
  datatype Traffic = Traffic(
    entries: map<string, Entry>,
    requests: map<nat, Request>,
    processed: multiset<string>,
    owner: map<string, nat>)

  /** A new request arrives, or one takes its next step; `outcome` matters only while it is processed. */
  datatype Move = Arrive(i: nat, key: string) | Step(i: nat, outcome: Option<Response>)

  function Enter(t: Traffic, i: nat, phase: Phase): Traffic
    requires i in t.requests
  {
    t.(requests := t.requests[i := t.requests[i].(phase := phase)])
  }

  function Stepped(t: Traffic, i: nat, outcome: Option<Response>): Traffic
    requires i in t.requests
  {
    var key := t.requests[i].key;
    var visible := Visible(t.entries, key);
    match t.requests[i].phase
    case Starting => Enter(t, i, if visible.Some? then Succeeded(visible.value) else Reserving)
    case Reserving =>
      if key in t.entries then Enter(t, i, Waiting(0))
      else Enter(t, i, Processing).(entries := t.entries[key := Pending], owner := t.owner[key := i])
    case Processing =>
      if outcome.Some? then Enter(t, i, Finishing(outcome.value)).(processed := t.processed + multiset{key})
      else Enter(t, i, Failing)
    case Finishing(response) => Enter(t, i, Succeeded(response)).(entries := t.entries[key := Stored(response)])
    case Failing => Enter(t, i, Failed).(entries := Released(t.entries, key))
    case Waiting(polls) =>
      if polls >= REPLAY_POLL_ATTEMPTS then Enter(t, i, Failed)
      else Enter(t, i, if visible.Some? then Succeeded(visible.value) else Waiting(polls + 1))
    case Succeeded(_) => t
    case Failed => t
  }

  function Made(t: Traffic, move: Move): Traffic {
    match move
    case Arrive(i, key) => if i in t.requests then t else t.(requests := t.requests[i := Request(key, Starting)])
    case Step(i, outcome) => if i in t.requests then Stepped(t, i, outcome) else t
  }

  function After(moves: seq<Move>): Traffic {
    if moves == [] then Traffic(map[], map[], multiset{}, map[])
    else Made(After(moves[..|moves| - 1]), moves[|moves| - 1])
  }

  /** Between reserve and put or release. */
  predicate Owns(t: Traffic, i: nat, key: string) {
    && i in t.requests && t.requests[i].key == key
    && (t.requests[i].phase == Processing || t.requests[i].phase == Failing || t.requests[i].phase.Finishing?)
  }

  predicate Holds(t: Traffic, i: nat, key: string, processed: nat) {
    && key in t.entries && t.entries[key] == Pending
    && key in t.owner && t.owner[key] == i
    && t.processed[key] == processed
  }

  predicate RequestOk(t: Traffic, i: nat)
    requires i in t.requests
  {
    var key := t.requests[i].key;
    match t.requests[i].phase
    case Processing => Holds(t, i, key, 0)
    case Finishing(_) => Holds(t, i, key, 1)
    case Failing => Holds(t, i, key, 0)
    case Succeeded(response) => Visible(t.entries, key) == Some(response)
    case Waiting(polls) => polls <= REPLAY_POLL_ATTEMPTS
    case _ => true
  }

  predicate KeyOk(t: Traffic, key: string) {
    if key !in t.entries then t.processed[key] == 0
    else if t.entries[key] == Pending then key in t.owner && Owns(t, t.owner[key], key)
    else t.processed[key] == 1
  }

  ghost predicate Sound(t: Traffic) {
    && (forall i | i in t.requests :: RequestOk(t, i))
    && (forall key :: KeyOk(t, key))
  }

  /** A step of i leaves it in order, given that its key is. */
  lemma OwnStepKeepsRequest(t: Traffic, i: nat, outcome: Option<Response>)
    requires i in t.requests && RequestOk(t, i) && KeyOk(t, t.requests[i].key)
    ensures RequestOk(Stepped(t, i, outcome), i)
  {
    match t.requests[i].phase
    case Waiting(_) =>
    case _ =>
  }

  /** A step of i does not disturb another request, even of the same key. */
  lemma OtherStepKeepsRequest(t: Traffic, i: nat, outcome: Option<Response>, j: nat)
    requires i in t.requests && j in t.requests && i != j
    requires RequestOk(t, i) && RequestOk(t, j) && KeyOk(t, t.requests[i].key)
    ensures RequestOk(Stepped(t, i, outcome), j)
  {
    assert Stepped(t, i, outcome).requests[j] == t.requests[j];
  }

  lemma OwnStepKeepsKey(t: Traffic, i: nat, outcome: Option<Response>)
    requires i in t.requests && RequestOk(t, i) && KeyOk(t, t.requests[i].key)
    ensures KeyOk(Stepped(t, i, outcome), t.requests[i].key)
  {
    match t.requests[i].phase
    case Waiting(_) =>
    case _ =>
  }

  lemma OtherStepKeepsKey(t: Traffic, i: nat, outcome: Option<Response>, key: string)
    requires i in t.requests && KeyOk(t, key) && key != t.requests[i].key
    ensures KeyOk(Stepped(t, i, outcome), key)
  {
  }

  lemma StepSound(t: Traffic, i: nat, outcome: Option<Response>)
    requires Sound(t) && i in t.requests
    ensures Sound(Stepped(t, i, outcome))
  {
    hide KeyOk, RequestOk;
    var t' := Stepped(t, i, outcome);
    assert RequestOk(t, i) && KeyOk(t, t.requests[i].key);
    forall j | j in t'.requests ensures RequestOk(t', j) {
      if j == i { OwnStepKeepsRequest(t, i, outcome); } else { OtherStepKeepsRequest(t, i, outcome, j); }
    }
    forall key ensures KeyOk(t', key) {
      if key == t.requests[i].key { OwnStepKeepsKey(t, i, outcome); } else { OtherStepKeepsKey(t, i, outcome, key); }
    }
  }

  lemma ArrivalSound(t: Traffic, i: nat, key: string)
    requires Sound(t)
    ensures Sound(Made(t, Arrive(i, key)))
  {
    var t' := Made(t, Arrive(i, key));
    forall j | j in t.requests ensures RequestOk(t', j) { assert RequestOk(t, j); }
    forall other ensures KeyOk(t', other) { assert KeyOk(t, other); }
  }

  lemma MoveSound(t: Traffic, move: Move)
    requires Sound(t)
    ensures Sound(Made(t, move))
  {
    hide Sound, Stepped;
    match move
    case Arrive(i, key) => ArrivalSound(t, i, key);
    case Step(i, outcome) => if i in t.requests { StepSound(t, i, outcome); }
  }

  lemma {:induction false} TrafficSound(moves: seq<Move>)
    ensures Sound(After(moves))
  {
    if moves != [] {
      TrafficSound(moves[..|moves| - 1]);
      MoveSound(After(moves[..|moves| - 1]), moves[|moves| - 1]);
    }
  }

  /** A key has at most one owner, a reservation has exactly one, and at most one processing succeeds. */
  lemma OneOwner(moves: seq<Move>, key: string)
    ensures var t := After(moves);
      && (forall i, j | Owns(t, i, key) && Owns(t, j, key) :: i == j)
      && (key in t.entries && t.entries[key] == Pending <==> exists i :: Owns(t, i, key))
      && t.processed[key] <= 1
      && (Visible(t.entries, key).Some? ==> t.processed[key] == 1)
  {
    TrafficSound(moves);
    var t := After(moves);
    assert KeyOk(t, key);
    forall i | Owns(t, i, key) ensures t.entries[key] == Pending && t.owner[key] == i && t.processed[key] <= 1 {
      assert RequestOk(t, i);
    }
    if key in t.entries && t.entries[key] == Pending { assert RequestOk(t, t.owner[key]); }
  }

  /** All successful responses for a key are the stored one, hence identical. */
  lemma OneResponse(moves: seq<Move>, i: nat, j: nat)
    requires var requests := After(moves).requests;
      && i in requests && j in requests && requests[i].key == requests[j].key
      && requests[i].phase.Succeeded? && requests[j].phase.Succeeded?
    ensures var t := After(moves);
      && t.requests[i].phase == t.requests[j].phase
      && Visible(t.entries, t.requests[i].key) == Some(t.requests[i].phase.response)
  {
    TrafficSound(moves);
    assert RequestOk(After(moves), i) && RequestOk(After(moves), j);
  }

  /** Nothing that happens later, a failing request in particular, erases a stored response. */
  lemma ResponsesStay(moves: seq<Move>, move: Move, key: string)
    requires Visible(After(moves).entries, key).Some?
    ensures Visible(Made(After(moves), move).entries, key) == Visible(After(moves).entries, key)
  {
    TrafficSound(moves);
    if move.Step? && move.i in After(moves).requests { assert RequestOk(After(moves), move.i); }
  }

  /** How many steps of its own a request can still take. */
  function StepsLeft(phase: Phase): nat {
    match phase
    case Starting => REPLAY_POLL_ATTEMPTS + 3
    case Reserving => REPLAY_POLL_ATTEMPTS + 2
    case Waiting(polls) => if polls <= REPLAY_POLL_ATTEMPTS then REPLAY_POLL_ATTEMPTS - polls + 1 else 1
    case Processing => 2
    case Finishing(_) => 1
    case Failing => 1
    case Succeeded(_) => 0
    case Failed => 0
  }

  lemma OwnStepCounts(t: Traffic, i: nat, outcome: Option<Response>)
    requires i in t.requests && StepsLeft(t.requests[i].phase) > 0
    ensures StepsLeft(Stepped(t, i, outcome).requests[i].phase) < StepsLeft(t.requests[i].phase) <= REPLAY_POLL_ATTEMPTS
      + 3
  {
    var visible := Visible(t.entries, t.requests[i].key);
    match t.requests[i].phase
    case Starting => assert Stepped(t, i, outcome).requests[i].phase
      == if visible.Some? then Succeeded(visible.value) else Reserving;
    case Waiting(polls) =>
    case _ =>
  }

  /** Every request stops: its own steps use up a bounded budget and nobody else's step adds to it. */
  lemma RequestsStop(t: Traffic, move: Move, i: nat)
    requires i in t.requests
    ensures i in Made(t, move).requests
    ensures var left, left' := StepsLeft(t.requests[i].phase), StepsLeft(Made(t, move).requests[i].phase);
      && left <= REPLAY_POLL_ATTEMPTS + 3
      && (if move.Step? && move.i == i && left > 0 then left' < left else left' == left)
  {
    if move.Step? && move.i == i && StepsLeft(t.requests[i].phase) > 0 { OwnStepCounts(t, i, move.outcome); }
  }

  // A request that is not disturbed does what the method does.

  /** The request takes n steps and nobody else takes any. */
  function SteppedTimes(t: Traffic, i: nat, outcome: Option<Response>, n: nat): Traffic
    requires i in t.requests
    decreases n
  {
    if n == 0 then t else SteppedTimes(Stepped(t, i, outcome), i, outcome, n - 1)
  }

  predicate IsSettled(t: Traffic, i: nat) {
    i in t.requests && (t.requests[i].phase.Succeeded? || t.requests[i].phase.Failed?)
  }

  lemma {:induction false} SettledTimes(t: Traffic, i: nat, outcome: Option<Response>, n: nat)
    requires IsSettled(t, i)
    ensures SteppedTimes(t, i, outcome, n) == t
  {
    if n > 0 { SettledTimes(t, i, outcome, n - 1); }
  }

  lemma OneMoreStep(t: Traffic, i: nat, outcome: Option<Response>, n: nat)
    requires i in t.requests && n > 0
    ensures SteppedTimes(t, i, outcome, n) == SteppedTimes(Stepped(t, i, outcome), i, outcome, n - 1)
  {
  }

  /** A waiter asks fifty times before it gives up. */
  lemma {:induction false} KeepsPolling(t: Traffic, i: nat, outcome: Option<Response>, polls: nat, n: nat)
    requires i in t.requests && t.requests[i].phase == Waiting(polls) && polls + n <= 50
    requires Visible(t.entries, t.requests[i].key).None?
    ensures SteppedTimes(t, i, outcome, n) == Enter(t, i, Waiting(polls + n))
    decreases n
  {
    if n > 0 {
      hide SteppedTimes, Visible;
      OneMoreStep(t, i, outcome, n);
      var one := Stepped(t, i, outcome);
      assert one == Enter(t, i, Waiting(polls + 1));
      KeepsPolling(one, i, outcome, polls + 1, n - 1);
      assert Enter(one, i, Waiting(polls + n)) == Enter(t, i, Waiting(polls + n));
    } else {
      assert t.requests[i := t.requests[i].(phase := Waiting(polls))] == t.requests;
    }
  }

  /** A reservation that nobody releases is waited for in vain. */
  lemma {:induction false} WaitsInVain(t: Traffic, i: nat, outcome: Option<Response>, polls: nat, n: nat)
    requires i in t.requests && t.requests[i].phase == Waiting(polls) && polls <= REPLAY_POLL_ATTEMPTS
    requires Visible(t.entries, t.requests[i].key).None? && n >= REPLAY_POLL_ATTEMPTS - polls + 1
    ensures SteppedTimes(t, i, outcome, n) == Enter(t, i, Failed)
    decreases REPLAY_POLL_ATTEMPTS - polls
  {
    hide SteppedTimes, Visible;
    OneMoreStep(t, i, outcome, n);
    var one := Stepped(t, i, outcome);
    if polls == REPLAY_POLL_ATTEMPTS {
      assert one == Enter(t, i, Failed);
      SettledTimes(one, i, outcome, n - 1);
    } else {
      assert one == Enter(t, i, Waiting(polls + 1));
      WaitsInVain(one, i, outcome, polls + 1, n - 1);
      assert Enter(one, i, Failed) == Enter(t, i, Failed);
    }
  }

  lemma ProcessesAlone(t: Traffic, i: nat, outcome: Option<Response>, n: nat)
    requires i in t.requests && t.requests[i].phase == Reserving && t.requests[i].key !in t.entries && n >= 3
    ensures var done, alone := SteppedTimes(t, i, outcome, n), Alone(t.entries, t.requests[i].key, outcome);
      && done.entries == alone.entries && i in done.requests
      && done.requests[i].phase == if alone.answer.Some? then Succeeded(alone.answer.value) else Failed
  {
    hide SteppedTimes;
    var one := Stepped(t, i, outcome);
    var two := Stepped(one, i, outcome);
    var three := Stepped(two, i, outcome);
    OneMoreStep(t, i, outcome, n);
    OneMoreStep(one, i, outcome, n - 1);
    OneMoreStep(two, i, outcome, n - 2);
    assert three.entries == Alone(t.entries, t.requests[i].key, outcome).entries;
    SettledTimes(three, i, outcome, n - 3);
  }

  /** Undisturbed, a request ends within its budget of steps as `Accept` does: same entries, same answer. */
  lemma UndisturbedAsAccept(t: Traffic, i: nat, outcome: Option<Response>)
    requires i in t.requests && t.requests[i].phase == Starting
    ensures var done := SteppedTimes(t, i, outcome, REPLAY_POLL_ATTEMPTS + 3);
      var alone := Alone(t.entries, t.requests[i].key, outcome);
      && done.entries == alone.entries && i in done.requests
      && done.requests[i].phase == if alone.answer.Some? then Succeeded(alone.answer.value) else Failed
  {
    hide SteppedTimes;
    var n := REPLAY_POLL_ATTEMPTS + 3;
    var one := Stepped(t, i, outcome);
    OneMoreStep(t, i, outcome, n);
    if Visible(t.entries, t.requests[i].key).Some? {
      SettledTimes(one, i, outcome, n - 1);
    } else if t.requests[i].key in t.entries {
      OneMoreStep(one, i, outcome, n - 1);
      WaitsInVain(Stepped(one, i, outcome), i, outcome, 0, n - 2);
    } else {
      ProcessesAlone(one, i, outcome, n - 1);
    }
  }
}
