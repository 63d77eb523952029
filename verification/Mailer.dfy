/** The rollout mailer: it clears a row's marker before it sends, so no crash makes it send twice. */
module Mailer {
  import opened Types
  import opened Lifecycle
  import opened Runs
  import opened Invariants
  import opened Permanence
  import opened Stores

  // One run.

  predicate IsDue(states: map<Key, Row>, k: Key) {
    k in states && states[k].state == PendingNotification && states[k].notificationDueAt.Some?
  }

  function DueForMail(states: map<Key, Row>): set<Key> {
    set k | k in states && IsDue(states, k)
  }

  predicate Distinct(keys: seq<Key>) {
    forall i, j | 0 <= i < j < |keys| :: keys[i] != keys[j]
  }

  /** When the row's e-mail became due. */
  function DueAt(states: map<Key, Row>, k: Key): Time {
    if IsDue(states, k) then states[k].notificationDueAt.value else 0
  }

  /** Every key of the list is due no later than the given one. */
  predicate NoneLater(states: map<Key, Row>, keys: seq<Key>, k: Key) {
    forall i | 0 <= i < |keys| :: DueAt(states, keys[i]) <= DueAt(states, k)
  }

  /** The contract of `findDueForNotification`: the oldest due rows, `limit` of them at most. */
  predicate IsBatch(states: map<Key, Row>, due: seq<Key>, limit: nat) {
    && Distinct(due)
    && (forall i | 0 <= i < |due| :: IsDue(states, due[i]))
    && |due| == (if |DueForMail(states)| < limit then |DueForMail(states)| else limit)
    && forall k | k in DueForMail(states) && k !in due :: NoneLater(states, due, k)
  }

  method Oldest(store: Store, among: set<Key>) returns (oldest: Key)
    requires among != {} && forall k | k in among :: IsDue(store.states, k)
    ensures oldest in among
    ensures forall k | k in among :: DueAt(store.states, oldest) <= DueAt(store.states, k)
  {
    oldest :| oldest in among;
    var todo := among;
    while todo != {}
      invariant todo <= among && oldest in among
      invariant forall k | k in among - todo :: DueAt(store.states, oldest) <= DueAt(store.states, k)
    {
      var k :| k in todo;
      todo := todo - {k};
      if DueAt(store.states, k) < DueAt(store.states, oldest) {
        oldest := k;
      }
    }
  }

  method FindDueForNotification(store: Store, limit: nat) returns (due: seq<Key>)
    ensures IsBatch(store.states, due, limit)
  {
    var rest := DueForMail(store.states);
    ghost var all := rest;
    due := [];
    while rest != {} && |due| < limit
      invariant rest <= all && |rest| + |due| == |all| && |due| <= limit
      invariant forall k | k in all :: k in due <==> k !in rest
      invariant Distinct(due) && forall i | 0 <= i < |due| :: due[i] in all
      invariant forall k | k in rest :: NoneLater(store.states, due, k)
      decreases rest
    {
      var k := Oldest(store, rest);
      due, rest := due + [k], rest - {k};
    }
  }

  /** A version and a customer to send to are still there. */
  predicate Deliverable(db: Db, k: Key) {
    k.version in db.versions && k.customer in db.customers && db.customers[k.customer].deletedAt.None?
  }

  function Deliveries(db: Db, due: seq<Key>): seq<Key> {
    if due == [] then [] else
      var before, k := Deliveries(db, due[..|due| - 1]), due[|due| - 1];
      if Deliverable(db, k) then before + [k] else before
  }

  function Unmarked(states: map<Key, Row>, claimed: set<Key>): map<Key, Row> {
    map k | k in states :: if k in claimed then states[k].(notificationDueAt := None) else states[k]
  }

  function Elements(keys: seq<Key>): set<Key> {
    set k | k in keys
  }

  method ClearNotificationDue(store: Store, k: Key)
    modifies store`states
    ensures store.states == Unmarked(old(store.states), {k})
  {
    if k in store.states {
      store.states := store.states[k := store.states[k].(notificationDueAt := None)];
    }
  }

  /** One run that is not cut short: it mails the oldest due rows, in order, and clears exactly their markers. */
  method RunMailer(store: Store, batch: nat) returns (due: seq<Key>, sent: seq<Key>)
    modifies store`states
    ensures IsBatch(old(store.states), due, batch)
    ensures store.states == Unmarked(old(store.states), Elements(due))
    ensures sent == Deliveries(old(store.Snapshot()), due)
  {
    ghost var db := store.Snapshot();
    due := FindDueForNotification(store, batch);
    sent := [];
    for i := 0 to |due|
      invariant store.states == Unmarked(db.states, Elements(due[..i]))
      invariant sent == Deliveries(db, due[..i])
    {
      assert due[..i + 1][..i] == due[..i];
      assert Elements(due[..i + 1]) == Elements(due[..i]) + {due[i]};
      ClearNotificationDue(store, due[i]);
      if Deliverable(store.Snapshot(), due[i]) {
        sent := sent + [due[i]];
      }
    }
    assert due[..|due|] == due;
  }

  /**
   * A batch is full unless it holds every pending row that is marked, and nothing left out was marked
   * before what is in.
   */
  lemma BatchHoldsOldest(states: map<Key, Row>, due: seq<Key>, limit: nat)
    requires IsBatch(states, due, limit)
    ensures |due| <= limit
    ensures forall i | 0 <= i < |due| ::
      due[i] in states && states[due[i]].state == PendingNotification && states[due[i]].notificationDueAt.Some?
    ensures forall k | k in states && states[k].state == PendingNotification && states[k].notificationDueAt.Some?
      && k !in due ::
      && |due| == limit
      && forall i | 0 <= i < |due| :: states[due[i]].notificationDueAt.value <= states[k].notificationDueAt.value
  {
    forall k | k in states && states[k].state == PendingNotification && states[k].notificationDueAt.Some? && k !in due
      ensures |due| == limit
      ensures forall i | 0 <= i < |due| :: states[due[i]].notificationDueAt.value <= states[k].notificationDueAt.value
    {
      assert k in DueForMail(states) && NoneLater(states, due, k);
      if |DueForMail(states)| < limit { AllTaken(states, due, k); }
    }
  }

  lemma AllTaken(states: map<Key, Row>, due: seq<Key>, k: Key)
    requires Distinct(due) && (forall i | 0 <= i < |due| :: IsDue(states, due[i])) && IsDue(states, k)
    requires |due| == |DueForMail(states)|
    ensures k in due
  {
    ElementsCount(due);
    assert Elements(due) <= DueForMail(states);
    SubsetOfSize(Elements(due), DueForMail(states));
    assert k in Elements(due);
  }

  lemma SubsetOfSize(part: set<Key>, whole: set<Key>)
    requires part <= whole && |part| == |whole|
    ensures part == whole
  {
    assert whole == part + (whole - part);
  }

  /** Of a batch exactly the rows whose version exists and whose customer exists and is active are mailed, once each. */
  lemma {:induction false} MailedExactly(db: Db, due: seq<Key>, k: Key)
    ensures multiset(Deliveries(db, due))[k]
      == if k.version in db.versions && k.customer in db.customers && db.customers[k.customer].deletedAt == None
         then multiset(due)[k] else 0
  {
    if due != [] {
      var before, last := due[..|due| - 1], due[|due| - 1];
      MailedExactly(db, before, k);
      assert due == before + [last];
    }
  }

  /** In the order of the batch. */
  lemma {:induction false} MailedInOrder(db: Db, due: seq<Key>, i: nat, j: nat) returns (p: nat, q: nat)
    requires i < j < |Deliveries(db, due)|
    ensures p < q < |due| && due[p] == Deliveries(db, due)[i] && due[q] == Deliveries(db, due)[j]
  {
    var before := due[..|due| - 1];
    if j < |Deliveries(db, before)| {
      p, q := MailedInOrder(db, before, i, j);
    } else {
      p := MailedFrom(db, before, i);
      q := |due| - 1;
    }
  }

  lemma {:induction false} MailedFrom(db: Db, due: seq<Key>, i: nat) returns (p: nat)
    requires i < |Deliveries(db, due)|
    ensures p < |due| && due[p] == Deliveries(db, due)[i]
  {
    var before := due[..|due| - 1];
    if i < |Deliveries(db, before)| { p := MailedFrom(db, before, i); } else { p := |due| - 1; }
  }

  /** A completed run leaves exactly min(batch, due) fewer rows due. */
  lemma RunsDrain(states: map<Key, Row>, due: seq<Key>, batch: nat)
    requires IsBatch(states, due, batch)
    ensures DueForMail(Unmarked(states, Elements(due))) == DueForMail(states) - Elements(due)
    ensures var n := |DueForMail(states)|;
      |DueForMail(Unmarked(states, Elements(due)))| == if n < batch then 0 else n - batch
  {
    ElementsCount(due);
    var claimed := Elements(due);
    assert claimed <= DueForMail(states);
    assert DueForMail(states) == (DueForMail(states) - claimed) + claimed;
  }

  /** Runs that each complete, one after the other, with nothing else in between; the rows after each of them. */
  ghost predicate AreRuns(states: map<Key, Row>, runs: seq<seq<Key>>, batch: nat) {
    runs == [] ||
    (AreRuns(states, runs[..|runs| - 1], batch)
     && IsBatch(AfterRuns(states, runs[..|runs| - 1]), runs[|runs| - 1], batch))
  }

  function AfterRuns(states: map<Key, Row>, runs: seq<seq<Key>>): map<Key, Row> {
    if runs == [] then states
    else Unmarked(AfterRuns(states, runs[..|runs| - 1]), Elements(runs[|runs| - 1]))
  }

  /** After n completed runs n batches fewer are due, so ceil(due / batch) runs leave nothing due and fewer do not. */
  lemma {:induction false} RunsDrainAll(states: map<Key, Row>, runs: seq<seq<Key>>, batch: nat)
    requires AreRuns(states, runs, batch)
    ensures var n, left := |DueForMail(states)|, |DueForMail(AfterRuns(states, runs))|;
      && left == (if n < |runs| * batch then 0 else n - |runs| * batch)
      && (batch > 0 ==> (left == 0 <==> |runs| >= (n + batch - 1) / batch))
  {
    hide IsBatch, DueForMail, Unmarked, Elements;
    if runs != [] {
      RunsDrainAll(states, runs[..|runs| - 1], batch);
      RunsDrain(AfterRuns(states, runs[..|runs| - 1]), runs[|runs| - 1], batch);
      assert |runs| * batch == (|runs| - 1) * batch + batch;
    }
    if batch > 0 { RoundsUp(|DueForMail(states)|, |runs|, batch); }
  }

  lemma RoundsUp(n: nat, runs: nat, batch: nat)
    requires batch > 0
    ensures n <= runs * batch <==> runs >= (n + batch - 1) / batch
  {
    var q, r := (n + batch - 1) / batch, (n + batch - 1) % batch;
    assert n + batch - 1 == q * batch + r && 0 <= r < batch;
    if runs >= q { TimesGrows(q, runs, batch); } else { TimesGrows(runs, q - 1, batch); }
  }

  lemma TimesGrows(a: nat, b: nat, c: nat)
    requires a <= b
    ensures a * c <= b * c && (b > 0 ==> (b - 1) * c == b * c - c) && (b + 1) * c == b * c + c
  {
    assert b * c == a * c + (b - a) * c;
  }

  lemma {:induction false} ElementsCount(keys: seq<Key>)
    requires Distinct(keys)
    ensures |Elements(keys)| == |keys|
  {
    if keys != [] {
      var before, last := keys[..|keys| - 1], keys[|keys| - 1];
      ElementsCount(before);
      assert keys == before + [last];
      assert Elements(keys) == Elements(before) + {last};
    }
  }

  /** A publish owes an e-mail to exactly the customers of the role, and to nobody else about this version. */
  lemma PublishOwesMail(db: Db, v: nat, now: Time, c: nat)
    requires PublishError(db, v).None? && forall k | k in db.states :: k.version != v
    ensures IsDue(PublishTo(db, v, now).states, Key(c, v))
      <==> c in db.customers && db.documents[db.versions[v].document].audience in db.customers[c].roles
  {
  }

  // Any number of runs, with anything else happening meanwhile and crashes at any point.

  datatype Work = Idle | Batch(todo: seq<Key>) | Sending(k: Key, todo: seq<Key>)

  /** `running` and `work` live in memory and are lost in a crash; `sent` is every e-mail that went out. */
  datatype Mailing = Mailing(s: Sys, running: bool, work: Work, sent: multiset<Key>)

  datatype Move =
    | Happens(event: Event)
    | StartRun(due: seq<Key>)
    | Claim
    | Send
    | EndRun
    | Crash

  ghost function After(m: Mailing, move: Move): Mailing {
    match move
    case Happens(e) => m.(s := Effect(m.s, e))
    case StartRun(due) => if m.running then m else m.(running := true, work := Batch(due))
    case Claim =>
      if !m.work.Batch? || m.work.todo == [] then m
      else m.(s := Effect(m.s, Event.ClearNotificationDue(m.work.todo[0])),
          work := Sending(m.work.todo[0], m.work.todo[1..]))
    case Send =>
      if !m.work.Sending? then m
      else m.(work := Batch(m.work.todo),
          sent := if Deliverable(m.s.db, m.work.k) then m.sent + multiset{m.work.k} else m.sent)
    case EndRun => if m.work == Batch([]) then m.(running := false, work := Idle) else m
    case Crash => m.(running := false, work := Idle)
  }

  predicate Permitted(m: Mailing, move: Move, batch: nat) {
    && (move.Happens? ==> !move.event.ClearNotificationDue? && Legal(m.s.db, move.event))
    && (move.StartRun? ==> IsBatch(m.s.db.states, move.due, batch))
  }

  datatype Moment = Moment(at: Time, move: Move)

  ghost function Mail(moments: seq<Moment>): Mailing {
    if moments == [] then Mailing(START, false, Idle, multiset{}) else
      var before, last := Mail(moments[..|moments| - 1]), moments[|moments| - 1];
      After(before.(s := before.s.(now := last.at)), last.move)
  }

  ghost predicate IsMailing(moments: seq<Moment>, batch: nat) {
    moments == [] ||
    var before, last := Mail(moments[..|moments| - 1]), moments[|moments| - 1];
    IsMailing(moments[..|moments| - 1], batch) && before.s.now <= last.at && Permitted(before, last.move, batch)
  }

  /** Mailed, and its marker is gone for good. */
  predicate Settled(m: Mailing, k: Key) {
    k in m.s.db.states && m.s.db.states[k].notificationDueAt.None? && m.sent[k] == 1
  }

  predicate Unsent(m: Mailing, k: Key) {
    k in m.s.db.states && m.sent[k] == 0
  }

  ghost predicate Sound(m: Mailing) {
    && Inv(m.s)
    && (m.running <==> !m.work.Idle?)
    && (forall k | m.sent[k] > 0 :: Settled(m, k))
    && (!m.work.Idle? ==> Distinct(m.work.todo) && forall i | 0 <= i < |m.work.todo| :: Unsent(m, m.work.todo[i]))
    && (m.work.Sending? ==>
          Unsent(m, m.work.k) && m.s.db.states[m.work.k].notificationDueAt.None? && m.work.k !in m.work.todo)
  }

  lemma ProgressSound(m: Mailing, s: Sys)
    requires Sound(m) && Inv(s) && RowsPersist(m.s.db, s.db)
    ensures Sound(m.(s := s))
  {
    hide Inv;
  }

  /** Whatever else happens, no marker comes back and no row disappears. */
  lemma EventSound(m: Mailing, e: Event)
    requires Sound(m) && Legal(m.s.db, e)
    ensures Sound(m.(s := Effect(m.s, e)))
  {
    hide Inv, Effect, Distinct, Settled, Unsent;
    StepKeeps(m.s, e, m.s.now);
    assert Next(m.s, e, m.s.now) == Effect(m.s, e);
    StepPersists(m.s, e);
    ProgressSound(m, Effect(m.s, e));
  }

  lemma TakeSound(m: Mailing)
    requires Sound(m) && m.work.Batch? && m.work.todo != []
    requires m.work.todo[0] in m.s.db.states ==> m.s.db.states[m.work.todo[0]].notificationDueAt.None?
    ensures Sound(m.(work := Sending(m.work.todo[0], m.work.todo[1..])))
  {
    hide Inv;
    assert Unsent(m, m.work.todo[0]);
  }

  /** Clearing a marker changes nothing else. */
  lemma ClearedMarker(s: Sys, k: Key)
    ensures Effect(s, Event.ClearNotificationDue(k)) == s.(db := s.db.(states := Unmarked(s.db.states, {k})))
  {
    assert k !in s.db.states ==> Unmarked(s.db.states, {k}) == s.db.states;
  }

  /** The marker is cleared first, so the row can never be in a later batch. */
  lemma ClaimSound(m: Mailing)
    requires Sound(m) && m.work.Batch? && m.work.todo != []
    ensures Sound(After(m, Claim))
  {
    hide Inv, Effect, Settled, Distinct;
    var k := m.work.todo[0];
    assert Unsent(m, k);
    EventSound(m, Event.ClearNotificationDue(k));
    ClearedMarker(m.s, k);
    hide Sound;
    TakeSound(m.(s := Effect(m.s, Event.ClearNotificationDue(k))));
  }

  lemma SendSound(m: Mailing)
    requires Sound(m) && m.work.Sending?
    ensures Sound(After(m, Send))
  {
    hide Inv, Effect;
  }

  lemma StartSound(m: Mailing, due: seq<Key>, batch: nat)
    requires Sound(m) && IsBatch(m.s.db.states, due, batch)
    ensures Sound(After(m, StartRun(due)))
  {
    hide Inv, Effect;
  }

  lemma StopSound(m: Mailing)
    requires Sound(m)
    ensures Sound(m.(running := false, work := Idle))
  {
    hide Inv;
  }

  lemma MoveSound(m: Mailing, move: Move, batch: nat)
    requires Sound(m) && Permitted(m, move, batch)
    ensures Sound(After(m, move))
  {
    hide Effect, Sound, IsBatch;
    match move
    case Happens(e) => EventSound(m, e);
    case StartRun(due) => StartSound(m, due, batch);
    case Claim => if m.work.Batch? && m.work.todo != [] { ClaimSound(m); }
    case Send => if m.work.Sending? { SendSound(m); }
    case EndRun => StopSound(m);
    case Crash => StopSound(m);
  }

  lemma LaterSound(m: Mailing, now: Time)
    requires Sound(m) && m.s.now <= now
    ensures Sound(m.(s := m.s.(now := now)))
  {
    hide Inv;
    Later(m.s, now);
  }

  lemma {:induction false} MailingSound(moments: seq<Moment>, batch: nat)
    requires IsMailing(moments, batch)
    ensures Sound(Mail(moments))
  {
    hide After, Permitted;
    if moments == [] {
      StartKeeps();
    } else {
      hide Sound;
      var before, last := Mail(moments[..|moments| - 1]), moments[|moments| - 1];
      MailingSound(moments[..|moments| - 1], batch);
      LaterSound(before, last.at);
      PermittedLater(before, last.at, last.move, batch);
      MoveSound(before.(s := before.s.(now := last.at)), last.move, batch);
    }
  }

  lemma PermittedLater(m: Mailing, now: Time, move: Move, batch: nat)
    requires Permitted(m, move, batch)
    ensures Permitted(m.(s := m.s.(now := now)), move, batch)
  {
  }

  /** No row is ever mailed twice, and none is mailed while its marker stands. */
  lemma AtMostOnce(moments: seq<Moment>, batch: nat, k: Key)
    requires IsMailing(moments, batch)
    ensures Mail(moments).sent[k] <= 1
    ensures Mail(moments).sent[k] == 1 ==> k in Mail(moments).s.db.states && !IsDue(Mail(moments).s.db.states, k)
  {
    hide Mail, IsMailing, Inv;
    MailingSound(moments, batch);
  }

  // A run that is not disturbed does what the method does.

  /** n rows of the batch are claimed and sent, with nothing in between. */
  ghost function SentOneByOne(m: Mailing, n: nat): Mailing {
    if n == 0 then m else After(After(SentOneByOne(m, n - 1), Claim), Send)
  }

  /** The system with the markers of some rows cleared. */
  function Claimed(s: Sys, keys: seq<Key>): Sys {
    s.(db := s.db.(states := Unmarked(s.db.states, Elements(keys))))
  }

  lemma ClaimedOneMore(s: Sys, due: seq<Key>, n: nat)
    requires n < |due|
    ensures Effect(Claimed(s, due[..n]), Event.ClearNotificationDue(due[n])) == Claimed(s, due[..n + 1])
    ensures Deliveries(s.db, due[..n + 1])
         == Deliveries(s.db, due[..n]) + if Deliverable(s.db, due[n]) then [due[n]] else []
  {
    ClearedMarker(Claimed(s, due[..n]), due[n]);
    hide Effect;
    assert due[..n + 1][..n] == due[..n];
    assert Elements(due[..n + 1]) == Elements(due[..n]) + {due[n]};
  }

  lemma ClaimAndSend(s: Sys, due: seq<Key>, n: nat, sent: multiset<Key>)
    requires n < |due|
    ensures After(After(Mailing(Claimed(s, due[..n]), true, Batch(due[n..]), sent), Claim), Send)
         == Mailing(Claimed(s, due[..n + 1]), true, Batch(due[n + 1..]),
                    if Deliverable(s.db, due[n]) then sent + multiset{due[n]} else sent)
  {
    hide Effect, Unmarked, Elements;
    ClaimedOneMore(s, due, n);
    assert due[n..][1..] == due[n + 1..];
  }

  /** The first n rows of a batch are claimed and sent, the others still to do. */
  ghost function SoFar(m: Mailing, due: seq<Key>, n: nat): Mailing
    requires n <= |due|
  {
    Mailing(Claimed(m.s, due[..n]), true, Batch(due[n..]), m.sent + multiset(Deliveries(m.s.db, due[..n])))
  }

  lemma NothingSoFar(m: Mailing, due: seq<Key>)
    requires !m.running && m.work.Idle?
    ensures After(m, StartRun(due)) == SoFar(m, due, 0)
  {
    hide Effect;
    assert Unmarked(m.s.db.states, Elements(due[..0])) == m.s.db.states;
    assert due[0..] == due;
  }

  lemma OneMoreSoFar(m: Mailing, due: seq<Key>, n: nat)
    requires n < |due|
    ensures After(After(SoFar(m, due, n), Claim), Send) == SoFar(m, due, n + 1)
  {
    hide Effect, Deliveries, Claimed, After, Deliverable;
    ClaimedOneMore(m.s, due, n);
    ClaimAndSend(m.s, due, n, m.sent + multiset(Deliveries(m.s.db, due[..n])));
  }

  lemma {:induction false} SentSoFar(m: Mailing, due: seq<Key>, n: nat)
    requires !m.running && m.work.Idle? && n <= |due|
    ensures SentOneByOne(After(m, StartRun(due)), n) == SoFar(m, due, n)
  {
    hide After, SoFar;
    if n == 0 {
      NothingSoFar(m, due);
    } else {
      SentSoFar(m, due, n - 1);
      OneMoreSoFar(m, due, n - 1);
    }
  }

  /** Undisturbed, a run from start to end does to the rows and sends what `RunMailer` does, and nothing else. */
  lemma UndisturbedAsRunMailer(m: Mailing, due: seq<Key>)
    requires !m.running && m.work.Idle?
    ensures After(SentOneByOne(After(m, StartRun(due)), |due|), EndRun)
         == m.(s := Claimed(m.s, due), sent := m.sent + multiset(Deliveries(m.s.db, due)))
  {
    hide Effect, Deliveries, Claimed;
    SentSoFar(m, due, |due|);
    assert due[..|due|] == due;
  }
}
