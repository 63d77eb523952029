/** The popup feed, and that accepting what it marks as blocking opens the gate. */
module Popup {
  import opened Types
  import opened StateMachine
  import opened Versions
  import opened Lifecycle
  import opened Runs
  import opened Invariants
  import opened Stores
  import opened Gate

  datatype Item = Item(
    version: nat,
    documentType: string,
    audience: string,
    changeSummary: string,
    mode: Mode,
    consentText: Option<string>,
    deadlineAt: Option<Time>,
    blocking: bool,
    upcoming: bool,
    validFrom: Time,
    canObject: bool)

  predicate Shown(state: StateValue) {
    state == PendingNotification || state == Notified || state == ExpiredBlocking
  }

  /** The version is offered to the customer: in force or upcoming, in scope, with a row still open. */
  ghost predicate Offered(db: Db, c: nat, asked: Option<string>, now: Time, v: nat)
    requires c in db.customers
  {
    && v in db.versions && db.versions[v].document in db.documents
    && InScope(db.customers[c].roles, asked, db.documents[db.versions[v].document].audience)
    && (Current(db.versions, db.versions[v].document, now) == Some(v) || Upcoming(db.versions[v], now))
    && Key(c, v) in db.states && Shown(db.states[Key(c, v)].state)
  }

  ghost function OfferedOf(db: Db, c: nat, asked: Option<string>, now: Time, documents: set<nat>): set<nat>
    requires c in db.customers
  {
    set v | v in db.versions && db.versions[v].document in documents && Offered(db, c, asked, now, v)
  }

  function ItemOf(db: Db, c: nat, v: nat, now: Time): Item
    requires v in db.versions && db.versions[v].document in db.documents && Key(c, v) in db.states
  {
    var version, row := db.versions[v], db.states[Key(c, v)];
    var document := db.documents[version.document];
    Item(v, document.docType, document.audience, version.changeSummary, version.mode, version.consentText,
         row.deadlineAt, IsBlocking(row), Upcoming(version, now), version.validFrom,
         version.mode == Passive && !Upcoming(version, now))
  }

  predicate CanBeListed(db: Db, c: nat, v: nat) {
    v in db.versions && db.versions[v].document in db.documents && Key(c, v) in db.states
  }

  /** One item for each version of the set, and nothing else. */
  predicate Lists(db: Db, c: nat, now: Time, versions: set<nat>, items: seq<Item>) {
    && (forall v | v in versions :: CanBeListed(db, c, v))
    && (forall i | 0 <= i < |items| :: items[i].version in versions && items[i] == ItemOf(db, c, items[i].version, now))
    && (forall i, j | 0 <= i < j < |items| :: items[i].version != items[j].version)
    && (forall v | v in versions :: exists i | 0 <= i < |items| :: items[i].version == v)
  }

  function DocumentOf(db: Db, v: nat): Option<nat> {
    if v in db.versions then Some(db.versions[v].document) else None
  }

  /** Of one document the version in force comes first, then the upcoming ones, the next one first. */
  predicate Comes(versions: map<nat, Version>, a: nat, b: nat, now: Time) {
    && a in versions && b in versions && Upcoming(versions[b], now)
    && (Upcoming(versions[a], now) ==> Sooner(versions, a, b))
  }

  /** Document by document, in any order of the documents. */
  predicate Ordered(db: Db, now: Time, items: seq<Item>) {
    && (forall i, j | 0 <= i < j < |items| && DocumentOf(db, items[i].version) == DocumentOf(db, items[j].version) ::
          Comes(db.versions, items[i].version, items[j].version, now))
    && (forall i, j, k | 0 <= i < j < k < |items|
          && DocumentOf(db, items[i].version) == DocumentOf(db, items[k].version) ::
          DocumentOf(db, items[j].version) == DocumentOf(db, items[i].version))
  }

  /** Every version offered to the customer, each exactly once, document by document. */
  ghost predicate IsFeed(db: Db, c: nat, asked: Option<string>, now: Time, items: seq<Item>)
    requires c in db.customers
  {
    Lists(db, c, now, OfferedOf(db, c, asked, now, db.documents.Keys), items) && Ordered(db, now, items)
  }

  /** The items of some versions of a document, skipping those without an open row. */
  function ItemsOf(db: Db, c: nat, now: Time, versions: seq<nat>): seq<Item>
    requires Listed(db, versions)
  {
    if versions == [] then [] else
      var before, v := ItemsOf(db, c, now, versions[..|versions| - 1]), versions[|versions| - 1];
      if Key(c, v) in db.states && Shown(db.states[Key(c, v)].state) then before + [ItemOf(db, c, v, now)] else before
  }

  predicate InFeedOrder(db: Db, now: Time, versions: seq<nat>) {
    forall i, j | 0 <= i < j < |versions| :: Comes(db.versions, versions[i], versions[j], now)
  }

  predicate Listed(db: Db, versions: seq<nat>) {
    forall v | v in versions :: v in db.versions && db.versions[v].document in db.documents
  }

  predicate HasOpenRow(db: Db, c: nat, v: nat) {
    Key(c, v) in db.states && Shown(db.states[Key(c, v)].state)
  }

  lemma {:induction false} ItemAt(db: Db, c: nat, now: Time, versions: seq<nat>, i: nat)
    requires Listed(db, versions) && i < |ItemsOf(db, c, now, versions)|
    ensures var item := ItemsOf(db, c, now, versions)[i];
      item.version in versions && HasOpenRow(db, c, item.version) && item == ItemOf(db, c, item.version, now)
  {
    hide Shown, IsBlocking, Upcoming;
    var before := versions[..|versions| - 1];
    if i < |ItemsOf(db, c, now, before)| { ItemAt(db, c, now, before, i); }
  }

  lemma {:induction false} ItemFor(db: Db, c: nat, now: Time, versions: seq<nat>, v: nat) returns (i: nat)
    requires Listed(db, versions) && v in versions && HasOpenRow(db, c, v)
    ensures i < |ItemsOf(db, c, now, versions)| && ItemsOf(db, c, now, versions)[i].version == v
  {
    var before, last := versions[..|versions| - 1], versions[|versions| - 1];
    i := |ItemsOf(db, c, now, before)|;
    if v != last { i := ItemFor(db, c, now, before, v); }
  }

  lemma {:induction false} ItemsInOrder(db: Db, c: nat, now: Time, versions: seq<nat>, i: nat, j: nat)
    requires Listed(db, versions) && InFeedOrder(db, now, versions) && i < j < |ItemsOf(db, c, now, versions)|
    ensures var items := ItemsOf(db, c, now, versions);
      Comes(db.versions, items[i].version, items[j].version, now)
  {
    hide Comes, Shown, IsBlocking, Upcoming;
    var before := versions[..|versions| - 1];
    if j < |ItemsOf(db, c, now, before)| {
      ItemsInOrder(db, c, now, before, i, j);
    } else {
      ItemAt(db, c, now, before, i);
      var at :| 0 <= at < |before| && before[at] == ItemsOf(db, c, now, before)[i].version;
      assert Comes(db.versions, versions[at], versions[|versions| - 1], now);
    }
  }

  /** The current and the upcoming versions of a document, in the order they are offered. */
  ghost predicate AreCandidates(db: Db, d: nat, now: Time, versions: seq<nat>) {
    && InFeedOrder(db, now, versions)
    && (forall v :: v in versions <==>
          v in db.versions && db.versions[v].document == d
          && (Current(db.versions, d, now) == Some(v) || Upcoming(db.versions[v], now)))
  }

  lemma CandidatesOf(db: Db, d: nat, now: Time, current: Option<nat>, upcoming: seq<nat>)
    requires current == Current(db.versions, d, now) && IsUpcomingList(db.versions, d, now, upcoming)
    ensures AreCandidates(db, d, now, (if current.Some? then [current.value] else []) + upcoming)
  {
    if current.Some? { assert current.value in InForceOf(db.versions, d, now); }
    forall i | 0 <= i < |upcoming| ensures upcoming[i] in UpcomingOf(db.versions, d, now) {
      assert upcoming[i] in upcoming;
    }
  }

  /** The items of one more document extend the feed. */
  lemma FeedGrows(db: Db, c: nat, asked: Option<string>, now: Time, done: set<nat>, d: nat, versions: seq<nat>,
      items: seq<Item>)
    requires c in db.customers && d in db.documents && d !in done
    requires InScope(db.customers[c].roles, asked, db.documents[d].audience) && AreCandidates(db, d, now, versions)
    requires Lists(db, c, now, OfferedOf(db, c, asked, now, done), items) && Ordered(db, now, items)
    ensures Lists(db, c, now, OfferedOf(db, c, asked, now, done + {d}), items + ItemsOf(db, c, now, versions))
    ensures Ordered(db, now, items + ItemsOf(db, c, now, versions))
  {
    OrderGrows(db, c, asked, now, done, d, versions, items);
    ListGrows(db, c, asked, now, done, d, versions, items);
  }

  lemma OrderGrows(db: Db, c: nat, asked: Option<string>, now: Time, done: set<nat>, d: nat, versions: seq<nat>,
      items: seq<Item>)
    requires c in db.customers && d in db.documents && d !in done && AreCandidates(db, d, now, versions)
    requires Lists(db, c, now, OfferedOf(db, c, asked, now, done), items) && Ordered(db, now, items)
    ensures Ordered(db, now, items + ItemsOf(db, c, now, versions))
  {
    hide Comes, Offered, ItemOf, Current, ItemsOf;
    var more := ItemsOf(db, c, now, versions);
    forall i | 0 <= i < |more| ensures DocumentOf(db, more[i].version) == Some(d) { ItemAt(db, c, now, versions, i); }
    forall i, j | 0 <= i < j < |more| ensures Comes(db.versions, more[i].version, more[j].version, now) {
      ItemsInOrder(db, c, now, versions, i, j);
    }
    assert forall i | 0 <= i < |items| :: DocumentOf(db, items[i].version) != Some(d);
    hide DocumentOf, Lists, OfferedOf, AreCandidates;
    OrderAppends(db, now, items, more, d);
  }

  lemma OrderAppends(db: Db, now: Time, items: seq<Item>, more: seq<Item>, d: nat)
    requires Ordered(db, now, items)
    requires forall i | 0 <= i < |items| :: DocumentOf(db, items[i].version) != Some(d)
    requires forall i | 0 <= i < |more| :: DocumentOf(db, more[i].version) == Some(d)
    requires forall i, j | 0 <= i < j < |more| :: Comes(db.versions, more[i].version, more[j].version, now)
    ensures Ordered(db, now, items + more)
  {
    hide Comes, DocumentOf;
  }

  lemma ListGrows(db: Db, c: nat, asked: Option<string>, now: Time, done: set<nat>, d: nat, versions: seq<nat>,
      items: seq<Item>)
    requires c in db.customers && d in db.documents && d !in done
    requires InScope(db.customers[c].roles, asked, db.documents[d].audience) && AreCandidates(db, d, now, versions)
    requires Lists(db, c, now, OfferedOf(db, c, asked, now, done), items)
    ensures Lists(db, c, now, OfferedOf(db, c, asked, now, done + {d}), items + ItemsOf(db, c, now, versions))
  {
    hide ItemOf, Current, ItemsOf, InFeedOrder;
    var more := ItemsOf(db, c, now, versions);
    var before, after := OfferedOf(db, c, asked, now, done), OfferedOf(db, c, asked, now, done + {d});
    forall i | 0 <= i < |more|
      ensures more[i].version in after && more[i].version !in before && more[i] == ItemOf(db, c, more[i].version, now)
    {
      ItemAt(db, c, now, versions, i);
    }
    forall i, j | 0 <= i < j < |more| ensures more[i].version != more[j].version {
      ItemsInOrder(db, c, now, versions, i, j);
    }
    forall v | v in after && v !in before ensures exists i | 0 <= i < |more| :: more[i].version == v {
      var i := ItemFor(db, c, now, versions, v);
    }
    ListsAppend(db, c, now, before, items, after, more);
  }

  lemma ListsAppend(db: Db, c: nat, now: Time, before: set<nat>, items: seq<Item>, after: set<nat>, more: seq<Item>)
    requires Lists(db, c, now, before, items) && before <= after && forall v | v in after :: CanBeListed(db, c, v)
    requires forall i | 0 <= i < |more| ::
      more[i].version in after && more[i].version !in before
      && CanBeListed(db, c, more[i].version) && more[i] == ItemOf(db, c, more[i].version, now)
    requires forall i, j | 0 <= i < j < |more| :: more[i].version != more[j].version
    requires forall v | v in after && v !in before :: exists i | 0 <= i < |more| :: more[i].version == v
    ensures Lists(db, c, now, after, items + more)
  {
    hide ItemOf;
    var all := items + more;
    forall v | v in after ensures exists i | 0 <= i < |all| :: all[i].version == v {
      if v in before {
        var i :| 0 <= i < |items| && items[i].version == v;
        assert all[i].version == v;
      } else {
        var i :| 0 <= i < |more| && more[i].version == v;
        assert all[|items| + i].version == v;
      }
    }
  }

  lemma OneMoreItem(db: Db, c: nat, now: Time, versions: seq<nat>, n: nat)
    requires Listed(db, versions) && n < |versions|
    ensures Listed(db, versions[..n]) && Listed(db, versions[..n + 1])
    ensures HasOpenRow(db, c, versions[n]) ==> CanBeListed(db, c, versions[n])
    ensures var before := ItemsOf(db, c, now, versions[..n]);
      ItemsOf(db, c, now, versions[..n + 1])
      == if HasOpenRow(db, c, versions[n]) then before + [ItemOf(db, c, versions[n], now)] else before
  {
    hide ItemOf, Shown;
    assert versions[..n + 1][..n] == versions[..n];
  }

  method CollectItems(store: Store, c: nat, versions: seq<nat>, now: Time) returns (items: seq<Item>)
    requires Listed(store.Snapshot(), versions)
    ensures items == ItemsOf(store.Snapshot(), c, now, versions)
  {
    hide ItemsOf, ItemOf, HasOpenRow, Listed;
    items := [];
    NoItems(store.Snapshot(), c, now, versions);
    for n := 0 to |versions|
      invariant Listed(store.Snapshot(), versions[..n]) && items == ItemsOf(store.Snapshot(), c, now, versions[..n])
    {
      OneMoreItem(store.Snapshot(), c, now, versions, n);
      if HasOpenRow(store.Snapshot(), c, versions[n]) {
        items := items + [ItemOf(store.Snapshot(), c, versions[n], now)];
      }
    }
    assert versions[..|versions|] == versions;
  }

  /** The part of the feed about one document. */
  method FeedDocument(store: Store, c: nat, d: nat, now: Time) returns (items: seq<Item>, ghost versions: seq<nat>)
    requires d in store.documents
    ensures AreCandidates(store.Snapshot(), d, now, versions)
    ensures items == ItemsOf(store.Snapshot(), c, now, versions)
  {
    hide Current, ItemsOf, InFeedOrder, IsUpcomingList;
    var current := store.FindCurrentPublished(d, now);
    var upcoming := store.FindUpcomingPublishedList(d, now);
    CandidatesOf(store.Snapshot(), d, now, current, upcoming);
    var list := (if current.Some? then [current.value] else []) + upcoming;
    items := CollectItems(store, c, list, now);
    versions := list;
  }

  lemma NoItems(db: Db, c: nat, now: Time, versions: seq<nat>)
    ensures Listed(db, versions[..0]) && ItemsOf(db, c, now, versions[..0]) == []
  {
  }

  /** The feed lists every version offered to the customer exactly once, as the store has it, document by document. */
  method GetPendingAgreements(store: Store, c: nat, asked: Option<string>, now: Time) returns (r: Result<seq<Item>>)
    ensures var db := store.Snapshot();
      if asked.Some? && asked.value !in db.audiences then r == Err(UnknownAudience)
      else if c !in db.customers then r == Err(CustomerNotFound)
      else r.Ok? && IsFeed(db, c, asked, now, r.value)
  {
    if asked.Some? && asked.value !in store.audiences { return Err(UnknownAudience); }
    if c !in store.customers { return Err(CustomerNotFound); }
    ghost var db := store.Snapshot();
    var items: seq<Item> := [];
    var todo := store.documents.Keys;
    ghost var done: set<nat> := {};
    while todo != {}
      invariant todo !! done && todo + done == db.documents.Keys
      invariant Lists(db, c, now, OfferedOf(db, c, asked, now, done), items) && Ordered(db, now, items)
    {
      var d :| d in todo;
      if InScope(store.customers[c].roles, asked, store.documents[d].audience) {
        var more, versions := FeedDocument(store, c, d, now);
        FeedGrows(db, c, asked, now, done, d, versions, items);
        items := items + more;
      } else {
        assert OfferedOf(db, c, asked, now, done + {d}) == OfferedOf(db, c, asked, now, done);
      }
      todo, done := todo - {d}, done + {d};
    }
    r := Ok(items);
  }

  /**
   * A version is in the feed exactly if it is offered: for an asked role, current or upcoming, with a
   * row not yet answered.
   */
  lemma FeedHoldsExactly(db: Db, c: nat, asked: Option<string>, now: Time, items: seq<Item>, v: nat)
    requires c in db.customers && IsFeed(db, c, asked, now, items)
    ensures (exists i | 0 <= i < |items| :: items[i].version == v) <==>
      && v in db.versions && db.versions[v].document in db.documents
      && var audience := db.documents[db.versions[v].document].audience;
      && audience in db.customers[c].roles && (asked == None || asked == Some("") || asked == Some(audience))
      && (Current(db.versions, db.versions[v].document, now) == Some(v)
          || (db.versions[v].status == Published && db.versions[v].validFrom > now))
      && Key(c, v) in db.states
      && (db.states[Key(c, v)].state == PendingNotification || db.states[Key(c, v)].state == Notified
          || db.states[Key(c, v)].state == ExpiredBlocking)
  {
    hide Current, Comes;
    assert v in OfferedOf(db, c, asked, now, db.documents.Keys)
      <==> v in db.versions && db.versions[v].document in db.documents && Offered(db, c, asked, now, v);
  }

  /** An item says what the version, its document and the row say; only PASSIVE versions in force can be objected to. */
  lemma ItemSays(db: Db, c: nat, asked: Option<string>, now: Time, items: seq<Item>, i: nat)
    requires c in db.customers && IsFeed(db, c, asked, now, items) && i < |items|
    ensures CanBeListed(db, c, items[i].version)
    ensures var item := items[i];
      var version, row := db.versions[item.version], db.states[Key(c, item.version)];
      && item.documentType == db.documents[version.document].docType
      && item.audience == db.documents[version.document].audience
      && item.changeSummary == version.changeSummary && item.mode == version.mode
      && item.consentText == version.consentText && item.deadlineAt == row.deadlineAt
      && item.validFrom == version.validFrom && (item.upcoming <==> version.validFrom > now)
      && (item.canObject <==> version.mode == Passive && version.validFrom <= now)
      && (item.blocking <==>
            row.state == ExpiredBlocking
            || (row.carryOverBlocking && (row.state == PendingNotification || row.state == Notified)))
  {
    var v := items[i].version;
    assert v in OfferedOf(db, c, asked, now, db.documents.Keys);
    if Current(db.versions, db.versions[v].document, now) == Some(v) {
      assert v in InForceOf(db.versions, db.versions[v].document, now);
    }
    hide Current, Comes;
  }

  // The feed and the gate.

  /** A version the feed shows as blocking and in force. */
  ghost predicate Closing(db: Db, c: nat, asked: Option<string>, now: Time, v: nat)
    requires c in db.customers
  {
    Offered(db, c, asked, now, v) && ItemOf(db, c, v, now).blocking && !ItemOf(db, c, v, now).upcoming
  }

  ghost function ClosingSet(db: Db, c: nat, asked: Option<string>, now: Time): set<nat>
    requires c in db.customers
  {
    set v | v in db.versions && Closing(db, c, asked, now, v)
  }

  /** The gate is closed exactly when the feed shows something blocking that is already in force. */
  lemma ClosedGateIsShown(db: Db, c: nat, asked: Option<string>, now: Time)
    requires c in db.customers && db.customers[c].deletedAt.None?
    ensures !GateOpen(db, c, asked, now) <==> exists v :: Closing(db, c, asked, now, v)
  {
    if !GateOpen(db, c, asked, now) {
      var d :| d in db.documents && InScope(db.customers[c].roles, asked, db.documents[d].audience)
           && !DocumentOpen(db, c, d, now);
      assert Closing(db, c, asked, now, Current(db.versions, d, now).value);
    }
    if exists v :: Closing(db, c, asked, now, v) {
      var v :| Closing(db, c, asked, now, v);
      assert !DocumentOpen(db, c, db.versions[v].document, now);
    }
  }

  /** Accepting one such item as the popup shows it always succeeds. */
  lemma AcceptingSucceeds(s: Sys, c: nat, asked: Option<string>, v: nat, shown: Option<string>)
    requires Inv(s) && c in s.db.customers && Closing(s.db, c, asked, s.now, v)
    requires s.db.versions[v].mode == Active ==> shown == s.db.versions[v].consentText
    ensures var k, done := Key(c, v), Consent(s.db, Key(c, v), shown, Portal, s.now);
      && done.error.None? && Inv(s.(db := done.db))
      && done.db
         == s.db.(states := s.db.states[k := s.db.states[k].(state := Accepted)], acceptances := done.db.acceptances)
  {
    var k := Key(c, v);
    assert RowAtOk(s, k) && EvidenceAtOk(s, k);
    ConsentKeeps(s, k, shown, Portal);
  }

  /** Consent to one item with the text it shows. */
  ghost function AcceptItem(db: Db, c: nat, item: Item, now: Time): Done {
    Consent(db, Key(c, item.version), item.consentText, Portal, now)
  }

  ghost predicate Follows(stores: seq<Db>, c: nat, items: seq<Item>, now: Time, i: nat)
    requires |stores| == |items| + 1 && i < |items|
  {
    stores[i + 1] == AcceptItem(stores[i], c, items[i], now).db
  }

  /** The stores gone through when the items are accepted one after the other, starting from the given one. */
  ghost predicate AreAccepted(db: Db, c: nat, items: seq<Item>, now: Time, stores: seq<Db>) {
    && |stores| == |items| + 1 && stores[0] == db
    && forall i | 0 <= i < |items| :: Follows(stores, c, items, now, i)
  }

  /** The rows of the first n items are ACCEPTED and nothing else has changed but the evidence. */
  predicate Progress(before: Db, after: Db, c: nat, items: seq<Item>, n: nat)
    requires n <= |items|
  {
    && after == before.(states := after.states, acceptances := after.acceptances)
    && after.states.Keys == before.states.Keys
    && (forall i | 0 <= i < n :: Matches(after.states, Key(c, items[i].version), Accepted))
    && (forall k | k in before.states && (forall i | 0 <= i < n :: k != Key(c, items[i].version)) ::
          after.states[k] == before.states[k])
  }

  predicate Matches(states: map<Key, Row>, k: Key, state: StateValue) {
    k in states && states[k].state == state
  }

  /** The items are blocking, in force, all different, and as the feed shows them. */
  ghost predicate AreClosing(db: Db, c: nat, asked: Option<string>, now: Time, items: seq<Item>)
    requires c in db.customers
  {
    && (forall i | 0 <= i < |items| ::
          Closing(db, c, asked, now, items[i].version) && items[i] == ItemOf(db, c, items[i].version, now))
    && (forall i, j | 0 <= i < j < |items| :: items[i].version != items[j].version)
  }

  lemma NextStillCloses(before: Db, after: Db, c: nat, asked: Option<string>, now: Time, items: seq<Item>, n: nat)
    requires c in before.customers && n < |items| && AreClosing(before, c, asked, now, items)
    requires Progress(before, after, c, items, n)
    ensures Closing(after, c, asked, now, items[n].version)
  {
    assert after.states[Key(c, items[n].version)] == before.states[Key(c, items[n].version)];
  }

  lemma ProgressNext(before: Db, db: Db, after: Db, c: nat, items: seq<Item>, n: nat)
    requires n < |items| && Progress(before, db, c, items, n)
    requires var k := Key(c, items[n].version);
      && k in db.states
      && after == db.(states := db.states[k := db.states[k].(state := Accepted)], acceptances := after.acceptances)
    ensures Progress(before, after, c, items, n + 1)
  {
  }

  lemma NoProgress(db: Db, c: nat, items: seq<Item>)
    ensures Progress(db, db, c, items, 0)
  {
  }

  lemma AcceptNext(s: Sys, before: Db, c: nat, asked: Option<string>, items: seq<Item>, n: nat)
    requires Inv(s) && c in before.customers && n < |items| && AreClosing(before, c, asked, s.now, items)
    requires Progress(before, s.db, c, items, n)
    ensures var done := AcceptItem(s.db, c, items[n], s.now);
      done.error.None? && Inv(s.(db := done.db)) && Progress(before, done.db, c, items, n + 1)
  {
    NextStillCloses(before, s.db, c, asked, s.now, items, n);
    AcceptingSucceeds(s, c, asked, items[n].version, items[n].consentText);
    ProgressNext(before, s.db, AcceptItem(s.db, c, items[n], s.now).db, c, items, n);
  }

  lemma {:induction false} AcceptingProgress(s: Sys, c: nat, asked: Option<string>, items: seq<Item>, stores: seq<Db>,
      n: nat)
    requires Inv(s) && c in s.db.customers && n <= |items| && AreClosing(s.db, c, asked, s.now, items)
    requires AreAccepted(s.db, c, items, s.now, stores)
    ensures Inv(s.(db := stores[n]))
    ensures Progress(s.db, stores[n], c, items, n)
    ensures n < |items| ==> AcceptItem(stores[n], c, items[n], s.now).error.None?
  {
    hide Inv, AreClosing, Progress, AcceptItem;
    if n > 0 {
      AcceptingProgress(s, c, asked, items, stores, n - 1);
      assert Follows(stores, c, items, s.now, n - 1);
      AcceptNext(s.(db := stores[n - 1]), s.db, c, asked, items, n - 1);
    } else {
      NoProgress(s.db, c, items);
    }
    if n < |items| { AcceptNext(s.(db := stores[n]), s.db, c, asked, items, n); }
  }

  lemma ListedAreClosing(db: Db, c: nat, asked: Option<string>, now: Time, items: seq<Item>)
    requires c in db.customers && Lists(db, c, now, ClosingSet(db, c, asked, now), items)
    ensures AreClosing(db, c, asked, now, items)
  {
    hide Closing, ItemOf;
  }

  /** Accepting every blocking item in force that the feed shows succeeds each time and opens the gate. */
  lemma AcceptingOpensTheGate(s: Sys, c: nat, asked: Option<string>, items: seq<Item>, stores: seq<Db>)
    requires Inv(s) && c in s.db.customers && s.db.customers[c].deletedAt.None?
    requires Lists(s.db, c, s.now, ClosingSet(s.db, c, asked, s.now), items)
    requires AreAccepted(s.db, c, items, s.now, stores)
    ensures forall i | 0 <= i < |items| :: AcceptItem(stores[i], c, items[i], s.now).error.None?
    ensures c in stores[|items|].customers && GateOpen(stores[|items|], c, asked, s.now)
  {
    ListedAreClosing(s.db, c, asked, s.now, items);
    hide Inv, Lists, Closing, ClosingSet, AreClosing, Follows, AcceptItem;
    forall i | 0 <= i < |items| ensures AcceptItem(stores[i], c, items[i], s.now).error.None? {
      AcceptingProgress(s, c, asked, items, stores, i);
    }
    AcceptingProgress(s, c, asked, items, stores, |items|);
    var after := stores[|items|];
    forall v ensures !Closing(after, c, asked, s.now, v) {
      NothingCloses(s.db, after, c, asked, s.now, items, v);
    }
    ClosedGateIsShown(after, c, asked, s.now);
  }

  lemma NothingCloses(before: Db, after: Db, c: nat, asked: Option<string>, now: Time, items: seq<Item>, v: nat)
    requires c in before.customers && Progress(before, after, c, items, |items|)
    requires Lists(before, c, now, ClosingSet(before, c, asked, now), items)
    ensures !Closing(after, c, asked, now, v)
  {
    hide Current, InScope, Upcoming;
    if v in ClosingSet(before, c, asked, now) {
      var i :| 0 <= i < |items| && items[i].version == v;
      assert Matches(after.states, Key(c, items[i].version), Accepted);
    } else if Key(c, v) in before.states {
      assert after.states[Key(c, v)] == before.states[Key(c, v)];
    }
  }
}
