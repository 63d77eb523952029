/** The tool gate: may the customer enter, and which agreement of which document says so. */
module Gate {
  import opened Types
  import opened StateMachine
  import opened Versions
  import opened Lifecycle
  import opened Customers
  import opened Stores

  // Keys.

  /** `^[a-z0-9-]{2,32}$` */
  predicate IsSlug(s: string) {
    2 <= |s| <= 32 && forall i | 0 <= i < |s| :: 'a' <= s[i] <= 'z' || '0' <= s[i] <= '9' || s[i] == '-'
  }

  /** Upper-casing, for the characters slugs are made of. */
  function Upper(c: char): char {
    if 'a' <= c <= 'z' then c - 'a' + 'A' else c
  }

  function ToUpper(s: string): (r: string)
    ensures |r| == |s| && forall i | 0 <= i < |s| :: r[i] == Upper(s[i])
  {
    if s == "" then "" else [Upper(s[0])] + ToUpper(s[1..])
  }

  function DetailKey(document: Document): string {
    ToUpper(document.docType) + "_" + ToUpper(document.audience)
  }

  predicate HasSlugs(document: Document) {
    IsSlug(document.docType) && IsSlug(document.audience)
  }

  lemma UpperInjective(s: string, t: string)
    requires IsSlug(s) && IsSlug(t) && ToUpper(s) == ToUpper(t)
    ensures s == t
  {
    forall i | 0 <= i < |s| ensures s[i] == t[i] {
      assert ToUpper(s)[i] == Upper(s[i]) && ToUpper(t)[i] == Upper(t[i]);
    }
  }

  /** The separator stands where the type ends, and nowhere before: slugs contain no underscore. */
  lemma Separator(d: Document)
    requires HasSlugs(d)
    ensures DetailKey(d)[|d.docType|] == '_'
    ensures forall i | 0 <= i < |d.docType| :: DetailKey(d)[i] != '_'
  {
    forall i | 0 <= i < |d.docType| ensures DetailKey(d)[i] != '_' {
      assert DetailKey(d)[i] == Upper(d.docType[i]);
    }
  }

  lemma SameTypeLength(d: Document, e: Document)
    requires HasSlugs(d) && HasSlugs(e) && DetailKey(d) == DetailKey(e)
    ensures |d.docType| == |e.docType|
  {
    Separator(d);
    Separator(e);
  }

  /** Documents with valid keys never share a detail key. */
  lemma DetailKeyInjective(d: Document, e: Document)
    requires HasSlugs(d) && HasSlugs(e) && DetailKey(d) == DetailKey(e)
    ensures d == e
  {
    SameTypeLength(d, e);
    var n := |d.docType|;
    assert ToUpper(d.docType) == DetailKey(d)[..n] == DetailKey(e)[..n] == ToUpper(e.docType);
    assert ToUpper(d.audience) == DetailKey(d)[n + 1..] == DetailKey(e)[n + 1..] == ToUpper(e.audience);
    UpperInjective(d.docType, e.docType);
    UpperInjective(d.audience, e.audience);
  }

  /** A detail key has no lower-case letter, and is as long as its two parts and the separator. */
  lemma DetailKeyIsUpperCase(d: Document)
    requires HasSlugs(d)
    ensures |DetailKey(d)| == |d.docType| + 1 + |d.audience|
    ensures forall i | 0 <= i < |DetailKey(d)| :: !('a' <= DetailKey(d)[i] <= 'z')
    ensures forall i | 0 <= i < |d.docType| && !('a' <= d.docType[i] <= 'z') :: DetailKey(d)[i] == d.docType[i]
  {
    forall i | 0 <= i < |DetailKey(d)| ensures !('a' <= DetailKey(d)[i] <= 'z') {
      if i < |d.docType| {
        assert DetailKey(d)[i] == Upper(d.docType[i]);
      } else if i > |d.docType| {
        assert DetailKey(d)[i] == Upper(d.audience[i - |d.docType| - 1]);
      }
    }
    forall i | 0 <= i < |d.docType| && !('a' <= d.docType[i] <= 'z') ensures DetailKey(d)[i] == d.docType[i] {
      assert DetailKey(d)[i] == Upper(d.docType[i]);
    }
  }

  // The gate.

  /** The audiences a query is about: the asked one if the customer has it, or all the customer's roles. */
  predicate InScope(roles: seq<string>, asked: Option<string>, audience: string) {
    audience in roles && (asked.None? || asked.value == "" || asked.value == audience)
  }

  /** A document and its version in force. */
  datatype Entry = Entry(id: nat, document: Document, version: nat, mode: Mode)

  datatype Detail = Detail(
    version: nat,
    state: Option<StateValue>,
    compliant: bool,
    pendingMode: Option<Mode>,
    deadlineAt: Option<Time>)

  datatype Compliance = Compliance(compliant: bool, details: map<string, Detail>)

  predicate Blocked(states: map<Key, Row>, k: Key) {
    k in states && IsBlocking(states[k])
  }

  function DetailOf(states: map<Key, Row>, c: nat, entry: Entry): Detail {
    var k := Key(c, entry.version);
    var row := RowAt(states, k);
    var open := row.Some? && (row.value.state == Notified || row.value.state == ExpiredBlocking);
    Detail(entry.version,
           if row.Some? then Some(row.value.state) else None,
           !Blocked(states, k),
           if open then Some(entry.mode) else None,
           if open then row.value.deadlineAt else None)
  }

  /** Entries with different documents have different detail keys. */
  predicate KeysApart(entries: seq<Entry>) {
    forall i, j | 0 <= i < j < |entries| :: DetailKey(entries[i].document) != DetailKey(entries[j].document)
  }

  /** The answer over the first n entries, for a customer that is not deleted. */
  ghost predicate Computed(customer: Customer, c: nat, entries: seq<Entry>, n: nat, states: map<Key, Row>,
      asked: Option<string>, r: Compliance)
    requires n <= |entries|
  {
    && (r.compliant <==> forall i | 0 <= i < n && InScope(customer.roles, asked, entries[i].document.audience) ::
          !Blocked(states, Key(c, entries[i].version)))
    && (forall key :: key in r.details <==>
          exists i | 0 <= i < n ::
            InScope(customer.roles, asked, entries[i].document.audience) && DetailKey(entries[i].document) == key)
    && (KeysApart(entries) ==>
          forall i | 0 <= i < n && InScope(customer.roles, asked, entries[i].document.audience) ::
            r.details[DetailKey(entries[i].document)] == DetailOf(states, c, entries[i]))
  }

  lemma NothingComputed(customer: Customer, c: nat, entries: seq<Entry>, states: map<Key, Row>, asked: Option<string>)
    ensures Computed(customer, c, entries, 0, states, asked, Compliance(true, map[]))
  {
  }

  lemma DetailSays(states: map<Key, Row>, c: nat, entry: Entry)
    ensures DetailOf(states, c, entry).compliant <==> !Blocked(states, Key(c, entry.version))
  {
  }

  /** What one more entry does to the answer. */
  lemma NextComputed(customer: Customer, c: nat, entries: seq<Entry>, n: nat, states: map<Key, Row>,
      asked: Option<string>, r: Compliance)
    requires n < |entries| && Computed(customer, c, entries, n, states, asked, r)
    ensures var detail := DetailOf(states, c, entries[n]);
      Computed(customer, c, entries, n + 1, states, asked,
               if InScope(customer.roles, asked, entries[n].document.audience)
               then Compliance(r.compliant && detail.compliant, r.details[DetailKey(entries[n].document) := detail])
               else r)
  {
    hide DetailOf, Blocked, InScope, DetailKey;
    DetailSays(states, c, entries[n]);
  }

  method ComputeCompliance(customer: Customer, c: nat, entries: seq<Entry>, states: map<Key, Row>,
      asked: Option<string>)
      returns (r: Compliance)
    ensures customer.deletedAt.Some? ==> r == Compliance(true, map[])
    ensures customer.deletedAt.None? ==> Computed(customer, c, entries, |entries|, states, asked, r)
  {
    if customer.deletedAt.Some? { return Compliance(true, map[]); }
    var compliant := true;
    var details: map<string, Detail> := map[];
    NothingComputed(customer, c, entries, states, asked);
    for n := 0 to |entries|
      invariant Computed(customer, c, entries, n, states, asked, Compliance(compliant, details))
    {
      var entry := entries[n];
      NextComputed(customer, c, entries, n, states, asked, Compliance(compliant, details));
      if InScope(customer.roles, asked, entry.document.audience) {
        var detail := DetailOf(states, c, entry);
        compliant := compliant && detail.compliant;
        details := details[DetailKey(entry.document) := detail];
      }
    }
    r := Compliance(compliant, details);
  }

  /** The customer may enter: no version in force for a document in scope blocks. */
  ghost predicate GateOpen(db: Db, c: nat, asked: Option<string>, now: Time)
    requires c in db.customers
  {
    db.customers[c].deletedAt.Some? || forall d | d in db.documents
      && InScope(db.customers[c].roles, asked, db.documents[d].audience) ::
      DocumentOpen(db, c, d, now)
  }

  ghost predicate DocumentOpen(db: Db, c: nat, d: nat, now: Time) {
    var current := Current(db.versions, d, now);
    current.Some? ==> !Blocked(db.states, Key(c, current.value))
  }

  /**
   * The gate is closed to an active customer exactly if, for some document of an asked role of theirs, the
   * row of the version in force is hard-blocked, or still open with a block carried over.
   */
  lemma GateClosedExactly(db: Db, c: nat, asked: Option<string>, now: Time)
    requires c in db.customers
    ensures !GateOpen(db, c, asked, now) <==>
      && db.customers[c].deletedAt == None
      && exists d | d in db.documents ::
           && db.documents[d].audience in db.customers[c].roles
           && (asked == None || asked == Some("") || asked == Some(db.documents[d].audience))
           && Current(db.versions, d, now).Some?
           && var k := Key(c, Current(db.versions, d, now).value);
           && k in db.states
           && (db.states[k].state == ExpiredBlocking
               || (db.states[k].carryOverBlocking
                   && (db.states[k].state == PendingNotification || db.states[k].state == Notified)))
  {
    hide Current;
  }

  /** The unscoped answer is the conjunction of the answers for each role. */
  lemma GateByRole(db: Db, c: nat, now: Time)
    requires c in db.customers
    ensures GateOpen(db, c, None, now)
      <==> forall role | role in db.customers[c].roles :: GateOpen(db, c, Some(role), now)
  {
    var customer := db.customers[c];
    if customer.deletedAt.None? && forall role | role in customer.roles :: GateOpen(db, c, Some(role), now) {
      forall d | d in db.documents && InScope(customer.roles, None, db.documents[d].audience)
        ensures DocumentOpen(db, c, d, now) {
        var role := db.documents[d].audience;
        assert GateOpen(db, c, Some(role), now);
      }
    }
  }

  /** The entry of a document that has a version in force. */
  ghost predicate IsEntry(db: Db, now: Time, entry: Entry) {
    && entry.id in db.documents && entry.document == db.documents[entry.id]
    && Current(db.versions, entry.id, now) == Some(entry.version)
    && entry.version in db.versions && entry.mode == db.versions[entry.version].mode
  }

  /** One entry for each document of the set that has a version in force. */
  ghost predicate AreEntries(db: Db, now: Time, documents: set<nat>, entries: seq<Entry>) {
    && (forall i | 0 <= i < |entries| :: IsEntry(db, now, entries[i]) && entries[i].id in documents)
    && (forall i, j | 0 <= i < j < |entries| :: entries[i].id != entries[j].id)
    && (forall d | d in documents && Current(db.versions, d, now).Some? :: exists i | 0 <= i < |entries| ::
          entries[i].id == d)
  }

  method LoadCurrentVersions(store: Store, now: Time) returns (entries: seq<Entry>)
    ensures AreEntries(store.Snapshot(), now, store.documents.Keys, entries)
  {
    entries := [];
    var todo := store.documents.Keys;
    while todo != {}
      invariant todo <= store.documents.Keys
      invariant AreEntries(store.Snapshot(), now, store.documents.Keys - todo, entries)
    {
      var d :| d in todo;
      var version := store.FindCurrentPublished(d, now);
      assert store.documents.Keys - (todo - {d}) == (store.documents.Keys - todo) + {d};
      ghost var before := entries;
      if version.Some? {
        entries := entries + [Entry(d, store.documents[d], version.value, store.versions[version.value].mode)];
        assert entries[|before|].id == d;
      }
      forall e | e in (store.documents.Keys - todo) && Current(store.versions, e, now).Some?
        ensures exists i | 0 <= i < |entries| :: entries[i].id == e
      {
        var i :| 0 <= i < |before| && before[i].id == e;
        assert entries[i].id == e;
      }
      todo := todo - {d};
    }
    assert store.documents.Keys - {} == store.documents.Keys;
  }

  predicate SlugsOnly(db: Db) {
    forall d | d in db.documents :: HasSlugs(db.documents[d])
  }

  lemma EntriesApart(db: Db, now: Time, documents: set<nat>, entries: seq<Entry>)
    requires AreEntries(db, now, documents, entries) && DocumentsUnique(db.documents) && SlugsOnly(db)
    ensures KeysApart(entries)
  {
    forall i, j | 0 <= i < j < |entries| ensures DetailKey(entries[i].document) != DetailKey(entries[j].document) {
      assert IsEntry(db, now, entries[i]) && IsEntry(db, now, entries[j]);
      if DetailKey(entries[i].document) == DetailKey(entries[j].document) {
        DetailKeyInjective(entries[i].document, entries[j].document);
      }
    }
  }

  /** The answer has exactly one detail for each document in scope with a version in force, about that version. */
  ghost predicate OneDetailEach(db: Db, c: nat, asked: Option<string>, now: Time, details: map<string, Detail>)
    requires c in db.customers
  {
    && (forall d | d in db.documents && InScope(db.customers[c].roles, asked, db.documents[d].audience) ::
          DetailRight(db, c, d, now, details))
    && (forall key | key in details :: exists d :: KeyOf(db, c, d, asked, now, key))
  }

  ghost predicate DetailRight(db: Db, c: nat, d: nat, now: Time, details: map<string, Detail>)
    requires d in db.documents
  {
    var current, key := Current(db.versions, d, now), DetailKey(db.documents[d]);
    current.Some? ==>
      && key in details && details[key].version == current.value
      && details[key].compliant == DocumentOpen(db, c, d, now)
      && Describes(db, Key(c, current.value), details[key])
  }

  /** The state of the row, and while it asks for an answer the mode and the deadline. */
  predicate Describes(db: Db, k: Key, detail: Detail) {
    if k !in db.states then detail.state == None && detail.pendingMode == None && detail.deadlineAt == None else
      && detail.state == Some(db.states[k].state)
      && (db.states[k].state == Notified || db.states[k].state == ExpiredBlocking ==>
            detail.deadlineAt == db.states[k].deadlineAt
            && (k.version in db.versions ==> detail.pendingMode == Some(db.versions[k.version].mode)))
      && (db.states[k].state != Notified && db.states[k].state != ExpiredBlocking ==>
            detail.pendingMode == None && detail.deadlineAt == None)
  }

  ghost predicate KeyOf(db: Db, c: nat, d: nat, asked: Option<string>, now: Time, key: string)
    requires c in db.customers
  {
    && d in db.documents && InScope(db.customers[c].roles, asked, db.documents[d].audience)
    && Current(db.versions, d, now).Some? && DetailKey(db.documents[d]) == key
  }

  /** The gate's answer and its details agree with each other and with the store. */
  ghost predicate Answers(db: Db, c: nat, asked: Option<string>, now: Time, r: Compliance)
    requires c in db.customers
  {
    && (r.compliant <==> GateOpen(db, c, asked, now))
    && (db.customers[c].deletedAt.Some? ==> r.details == map[])
    && (db.customers[c].deletedAt.None? && DocumentsUnique(db.documents) && SlugsOnly(db) ==>
          && OneDetailEach(db, c, asked, now, r.details)
          && (r.compliant <==> forall key | key in r.details :: r.details[key].compliant))
  }

  method GetCompliance(store: Store, c: nat, asked: Option<string>, now: Time) returns (r: Result<Compliance>)
    ensures var db := store.Snapshot();
      if asked.Some? && asked.value !in db.audiences then r == Err(UnknownAudience)
      else if c !in db.customers then r == Err(CustomerNotFound)
      else r.Ok? && Answers(db, c, asked, now, r.value)
  {
    if asked.Some? && asked.value !in store.audiences { return Err(UnknownAudience); }
    if c !in store.customers { return Err(CustomerNotFound); }
    var entries := LoadCurrentVersions(store, now);
    var answer := ComputeCompliance(store.customers[c], c, entries, store.states, asked);
    AnswerRight(store.Snapshot(), c, asked, now, entries, answer);
    r := Ok(answer);
  }

  lemma EntryOf(db: Db, now: Time, entries: seq<Entry>, d: nat) returns (i: int)
    requires AreEntries(db, now, db.documents.Keys, entries) && d in db.documents && Current(db.versions, d, now).Some?
    ensures 0 <= i < |entries| && entries[i].id == d && IsEntry(db, now, entries[i])
  {
    i :| 0 <= i < |entries| && entries[i].id == d;
  }

  lemma CompliantRight(db: Db, c: nat, asked: Option<string>, now: Time, entries: seq<Entry>, r: Compliance)
    requires c in db.customers && AreEntries(db, now, db.documents.Keys, entries) && db.customers[c].deletedAt.None?
    requires Computed(db.customers[c], c, entries, |entries|, db.states, asked, r)
    ensures r.compliant <==> GateOpen(db, c, asked, now)
  {
    forall d | d in db.documents && InScope(db.customers[c].roles, asked, db.documents[d].audience) && r.compliant
      ensures DocumentOpen(db, c, d, now)
    {
      if Current(db.versions, d, now).Some? { var i := EntryOf(db, now, entries, d); }
    }
    forall i | 0 <= i < |entries| && InScope(db.customers[c].roles, asked, entries[i].document.audience)
      && GateOpen(db, c, asked, now)
      ensures !Blocked(db.states, Key(c, entries[i].version))
    {
      assert IsEntry(db, now, entries[i]) && DocumentOpen(db, c, entries[i].id, now);
    }
  }

  lemma DetailPresent(db: Db, c: nat, asked: Option<string>, now: Time, entries: seq<Entry>, i: int, r: Compliance)
    requires c in db.customers && 0 <= i < |entries| && IsEntry(db, now, entries[i]) && KeysApart(entries)
    requires Computed(db.customers[c], c, entries, |entries|, db.states, asked, r)
    requires InScope(db.customers[c].roles, asked, entries[i].document.audience)
    ensures DetailRight(db, c, entries[i].id, now, r.details)
  {
    var key := DetailKey(entries[i].document);
    assert key in r.details && r.details[key] == DetailOf(db.states, c, entries[i]);
  }

  lemma DetailSourced(db: Db, c: nat, asked: Option<string>, now: Time, entries: seq<Entry>, r: Compliance, key: string)
    requires c in db.customers && AreEntries(db, now, db.documents.Keys, entries)
    requires Computed(db.customers[c], c, entries, |entries|, db.states, asked, r) && key in r.details
    ensures exists d :: KeyOf(db, c, d, asked, now, key)
  {
    var i :| 0 <= i < |entries| && InScope(db.customers[c].roles, asked, entries[i].document.audience)
         && DetailKey(entries[i].document) == key;
    assert IsEntry(db, now, entries[i]);
    assert KeyOf(db, c, entries[i].id, asked, now, key);
  }

  lemma DetailsRight(db: Db, c: nat, asked: Option<string>, now: Time, entries: seq<Entry>, r: Compliance)
    requires c in db.customers && AreEntries(db, now, db.documents.Keys, entries)
    requires Computed(db.customers[c], c, entries, |entries|, db.states, asked, r) && KeysApart(entries)
    ensures OneDetailEach(db, c, asked, now, r.details)
  {
    forall d | d in db.documents && InScope(db.customers[c].roles, asked, db.documents[d].audience)
      ensures DetailRight(db, c, d, now, r.details)
    {
      if Current(db.versions, d, now).Some? {
        var i := EntryOf(db, now, entries, d);
        DetailPresent(db, c, asked, now, entries, i, r);
      }
    }
    forall key | key in r.details ensures exists d :: KeyOf(db, c, d, asked, now, key) {
      DetailSourced(db, c, asked, now, entries, r, key);
    }
  }

  /** Since no entry is overwritten, the aggregate is the conjunction of the details. */
  lemma ConjunctionOfDetails(db: Db, c: nat, asked: Option<string>, now: Time, details: map<string, Detail>)
    requires c in db.customers && db.customers[c].deletedAt.None? && OneDetailEach(db, c, asked, now, details)
    ensures GateOpen(db, c, asked, now) <==> forall key | key in details :: details[key].compliant
  {
    forall key | key in details && GateOpen(db, c, asked, now) ensures details[key].compliant {
      var d :| KeyOf(db, c, d, asked, now, key);
      assert DetailRight(db, c, d, now, details) && DocumentOpen(db, c, d, now);
    }
    forall d | d in db.documents && InScope(db.customers[c].roles, asked, db.documents[d].audience)
               && (forall key | key in details :: details[key].compliant)
      ensures DocumentOpen(db, c, d, now)
    {
      assert DetailRight(db, c, d, now, details);
    }
  }

  lemma AnswerRight(db: Db, c: nat, asked: Option<string>, now: Time, entries: seq<Entry>, r: Compliance)
    requires c in db.customers && AreEntries(db, now, db.documents.Keys, entries)
    requires db.customers[c].deletedAt.Some? ==> r == Compliance(true, map[])
    requires db.customers[c].deletedAt.None? ==> Computed(db.customers[c], c, entries, |entries|, db.states, asked, r)
    ensures Answers(db, c, asked, now, r)
  {
    if db.customers[c].deletedAt.None? {
      CompliantRight(db, c, asked, now, entries, r);
      if DocumentsUnique(db.documents) && SlugsOnly(db) {
        EntriesApart(db, now, db.documents.Keys, entries);
        DetailsRight(db, c, asked, now, entries, r);
        ConjunctionOfDetails(db, c, asked, now, r.details);
      }
    }
  }
}
