/**
 * The per-version acceptance dashboard: every customer is in one bucket, every acceptance in one
 * channel and method.
 */
module Dashboard {
  import opened Types
  import opened Runs
  import opened Invariants
  import opened Stores

  datatype ChannelCounts = ChannelCounts(portal: nat, admin: nat, system: nat, link: nat) {
    function Of(channel: Channel): nat {
      match channel
      case Portal => portal
      case Admin => admin
      case System => system
      case Link => link
    }

    function Bump(channel: Channel): ChannelCounts {
      match channel
      case Portal => this.(portal := portal + 1)
      case Admin => this.(admin := admin + 1)
      case System => this.(system := system + 1)
      case Link => this.(link := link + 1)
    }
  }

  datatype MethodCounts = MethodCounts(activeConsent: nat, tacit: nat, imported: nat) {
    function Of(how: Method): nat {
      match how
      case ActiveConsent => activeConsent
      case Tacit => tacit
      case Import => imported
    }

    function Bump(how: Method): MethodCounts {
      match how
      case ActiveConsent => this.(activeConsent := activeConsent + 1)
      case Tacit => this.(tacit := tacit + 1)
      case Import => this.(imported := imported + 1)
    }
  }

  datatype Stats = Stats(
    totalCustomers: nat,
    accepted: nat,
    acceptedByChannel: ChannelCounts,
    acceptedByMethod: MethodCounts,
    pending: nat,
    blocked: nat,
    objected: nat,
    acceptanceRate: real)

  function DeletedCustomers(db: Db): set<nat> {
    set c | c in db.customers && db.customers[c].deletedAt.Some?
  }

  /** The rows that count: not superseded, and of a customer that is not deleted. */
  function Relevant(db: Db, v: nat): set<Key> {
    set k | k in db.states && k.version == v && db.states[k].state != Superseded && k.customer !in DeletedCustomers(db)
  }

  function InState(states: map<Key, Row>, rows: set<Key>, wanted: set<StateValue>): set<Key> {
    set k | k in rows && k in states && states[k].state in wanted
  }

  /** The rows that count and are still ACCEPTED. */
  function AcceptedRows(db: Db, v: nat): set<Key> {
    InState(db.states, Relevant(db, v), {Accepted})
  }

  function ByChannel(acceptances: map<Key, Acceptance>, rows: set<Key>, channel: Channel): set<Key> {
    set k | k in rows && k in acceptances && acceptances[k].channel == channel
  }

  function ByMethod(acceptances: map<Key, Acceptance>, rows: set<Key>, how: Method): set<Key> {
    set k | k in rows && k in acceptances && acceptances[k].how == how
  }

  /** The counters say how many of the rows' acceptances came through each channel and by each method. */
  predicate AreCounters(acceptances: map<Key, Acceptance>, rows: set<Key>, byChannel: ChannelCounts,
      byMethod: MethodCounts) {
    && (forall channel :: byChannel.Of(channel) == |ByChannel(acceptances, rows, channel)|)
    && (forall how :: byMethod.Of(how) == |ByMethod(acceptances, rows, how)|)
  }

  predicate AreBuckets(states: map<Key, Row>, rows: set<Key>, stats: Stats) {
    && stats.totalCustomers == |rows|
    && stats.accepted == |InState(states, rows, {Accepted})|
    && stats.pending == |InState(states, rows, {PendingNotification, Notified})|
    && stats.blocked == |InState(states, rows, {ExpiredBlocking})|
    && stats.objected == |InState(states, rows, {Objected})|
  }

  predicate AreStats(db: Db, v: nat, stats: Stats) {
    && AreBuckets(db.states, Relevant(db, v), stats)
    && AreCounters(db.acceptances, AcceptedRows(db, v), stats.acceptedByChannel, stats.acceptedByMethod)
    && stats.acceptanceRate
       == if stats.totalCustomers == 0 then 0.0 else stats.accepted as real / stats.totalCustomers as real
  }

  /** The customer is still there as far as the dashboard is concerned: not soft-deleted. */
  predicate IsActive(db: Db, c: nat) {
    c in db.customers ==> db.customers[c].deletedAt == None
  }

  /** Each number counts rows of the version of customers not soft-deleted, by state and by how they were accepted. */
  lemma StatsByFields(db: Db, v: nat, stats: Stats)
    requires AreStats(db, v, stats)
    ensures stats.totalCustomers
      == |set k | k in db.states && k.version == v && IsActive(db, k.customer) && db.states[k].state != Superseded|
    ensures stats.accepted
      == |set k | k in db.states && k.version == v && IsActive(db, k.customer) && db.states[k].state == Accepted|
    ensures stats.pending
      == |set k | k in db.states && k.version == v && IsActive(db, k.customer)
                  && (db.states[k].state == PendingNotification || db.states[k].state == Notified)|
    ensures stats.blocked
      == |set k | k in db.states && k.version == v && IsActive(db, k.customer) && db.states[k].state == ExpiredBlocking|
    ensures stats.objected
      == |set k | k in db.states && k.version == v && IsActive(db, k.customer) && db.states[k].state == Objected|
    ensures stats.totalCustomers > 0 ==>
      stats.acceptanceRate * (stats.totalCustomers as real) == stats.accepted as real
    ensures stats.totalCustomers == 0 ==> stats.acceptanceRate == 0.0
  {
    var relevant := Relevant(db, v);
    assert relevant
      == set k | k in db.states && k.version == v && IsActive(db, k.customer) && db.states[k].state != Superseded;
    assert InState(db.states, relevant, {Accepted})
      == set k | k in db.states && k.version == v && IsActive(db, k.customer) && db.states[k].state == Accepted;
    assert InState(db.states, relevant, {PendingNotification, Notified})
      == set k | k in db.states && k.version == v && IsActive(db, k.customer)
                 && (db.states[k].state == PendingNotification || db.states[k].state == Notified);
    assert InState(db.states, relevant, {ExpiredBlocking})
      == set k | k in db.states && k.version == v && IsActive(db, k.customer) && db.states[k].state == ExpiredBlocking;
    assert InState(db.states, relevant, {Objected})
      == set k | k in db.states && k.version == v && IsActive(db, k.customer) && db.states[k].state == Objected;
  }

  /** The breakdown by channel counts the accepted rows by the channel of their evidence. */
  lemma ChannelsByFields(db: Db, v: nat, stats: Stats, channel: Channel)
    requires AreStats(db, v, stats)
    ensures (match channel
             case Portal => stats.acceptedByChannel.portal
             case Admin => stats.acceptedByChannel.admin
             case System => stats.acceptedByChannel.system
             case Link => stats.acceptedByChannel.link)
      == |set k | k in db.states && k.version == v && IsActive(db, k.customer) && db.states[k].state == Accepted
                  && k in db.acceptances && db.acceptances[k].channel == channel|
  {
    var rows := AcceptedRows(db, v);
    assert stats.acceptedByChannel.Of(channel) == |ByChannel(db.acceptances, rows, channel)|;
    assert ByChannel(db.acceptances, rows, channel)
      == set k | k in db.states && k.version == v && IsActive(db, k.customer) && db.states[k].state == Accepted
                 && k in db.acceptances && db.acceptances[k].channel == channel;
  }

  lemma MethodsByFields(db: Db, v: nat, stats: Stats, how: Method)
    requires AreStats(db, v, stats)
    ensures (match how
             case ActiveConsent => stats.acceptedByMethod.activeConsent
             case Tacit => stats.acceptedByMethod.tacit
             case Import => stats.acceptedByMethod.imported)
      == |set k | k in db.states && k.version == v && IsActive(db, k.customer) && db.states[k].state == Accepted
                  && k in db.acceptances && db.acceptances[k].how == how|
  {
    var rows := AcceptedRows(db, v);
    assert stats.acceptedByMethod.Of(how) == |ByMethod(db.acceptances, rows, how)|;
    assert ByMethod(db.acceptances, rows, how)
      == set k | k in db.states && k.version == v && IsActive(db, k.customer) && db.states[k].state == Accepted
                 && k in db.acceptances && db.acceptances[k].how == how;
  }

  lemma ChannelGrows(acceptances: map<Key, Acceptance>, rows: set<Key>, k: Key, channel: Channel)
    requires k !in rows && k in acceptances
    ensures |ByChannel(acceptances, rows + {k}, channel)|
         == |ByChannel(acceptances, rows, channel)| + if acceptances[k].channel == channel then 1 else 0
  {
    var before := ByChannel(acceptances, rows, channel);
    assert ByChannel(acceptances, rows + {k}, channel)
      == if acceptances[k].channel == channel then before + {k} else before;
  }

  lemma MethodGrows(acceptances: map<Key, Acceptance>, rows: set<Key>, k: Key, how: Method)
    requires k !in rows && k in acceptances
    ensures |ByMethod(acceptances, rows + {k}, how)|
         == |ByMethod(acceptances, rows, how)| + if acceptances[k].how == how then 1 else 0
  {
    var before := ByMethod(acceptances, rows, how);
    assert ByMethod(acceptances, rows + {k}, how) == if acceptances[k].how == how then before + {k} else before;
  }

  /** One more acceptance bumps the counter of its channel and of its method. */
  lemma CountersGrow(acceptances: map<Key, Acceptance>, rows: set<Key>, byChannel: ChannelCounts,
      byMethod: MethodCounts, k: Key)
    requires AreCounters(acceptances, rows, byChannel, byMethod) && k !in rows && k in acceptances
    ensures AreCounters(acceptances, rows + {k}, byChannel.Bump(acceptances[k].channel),
        byMethod.Bump(acceptances[k].how))
  {
    forall channel
      ensures |ByChannel(acceptances, rows + {k}, channel)|
           == |ByChannel(acceptances, rows, channel)| + if acceptances[k].channel == channel then 1 else 0
    {
      ChannelGrows(acceptances, rows, k, channel);
    }
    forall how
      ensures |ByMethod(acceptances, rows + {k}, how)|
           == |ByMethod(acceptances, rows, how)| + if acceptances[k].how == how then 1 else 0
    {
      MethodGrows(acceptances, rows, k, how);
    }
  }

  method CountAcceptances(acceptances: map<Key, Acceptance>, acceptedRows: set<Key>)
      returns (byChannel: ChannelCounts, byMethod: MethodCounts)
    ensures AreCounters(acceptances, acceptedRows, byChannel, byMethod)
  {
    byChannel, byMethod := ChannelCounts(0, 0, 0, 0), MethodCounts(0, 0, 0);
    var todo := acceptances.Keys;
    ghost var counted: set<Key> := {};
    while todo != {}
      invariant todo <= acceptances.Keys && counted == (acceptances.Keys - todo) * acceptedRows
      invariant AreCounters(acceptances, counted, byChannel, byMethod)
    {
      var k :| k in todo;
      if k in acceptedRows {
        CountersGrow(acceptances, counted, byChannel, byMethod, k);
        byChannel, byMethod := byChannel.Bump(acceptances[k].channel), byMethod.Bump(acceptances[k].how);
        counted := counted + {k};
      }
      todo := todo - {k};
    }
    SameCounters(acceptances, acceptedRows, counted);
  }

  lemma SameCounters(acceptances: map<Key, Acceptance>, rows: set<Key>, counted: set<Key>)
    requires counted == acceptances.Keys * rows
    ensures forall channel :: ByChannel(acceptances, counted, channel) == ByChannel(acceptances, rows, channel)
    ensures forall how :: ByMethod(acceptances, counted, how) == ByMethod(acceptances, rows, how)
  {
  }

  method ComputeStats(store: Store, v: nat) returns (stats: Stats)
    ensures AreStats(store.Snapshot(), v, stats)
  {
    var relevant := Relevant(store.Snapshot(), v);
    var acceptedRows := InState(store.states, relevant, {Accepted});
    var byChannel, byMethod := CountAcceptances(store.acceptances, acceptedRows);
    stats := Stats(
      |relevant|,
      |acceptedRows|,
      byChannel,
      byMethod,
      |InState(store.states, relevant, {PendingNotification, Notified})|,
      |InState(store.states, relevant, {ExpiredBlocking})|,
      |InState(store.states, relevant, {Objected})|,
      if |relevant| == 0 then 0.0 else |acceptedRows| as real / |relevant| as real);
  }

  // Conservation.

  /** Sets that split another into disjoint parts have sizes that add up. */
  lemma FourParts(all: set<Key>, a: set<Key>, b: set<Key>, c: set<Key>, d: set<Key>)
    requires all == a + b + c + d && a !! b !! c !! d
    ensures |all| == |a| + |b| + |c| + |d|
  {
    assert all == ((a + b) + c) + d;
  }

  lemma BucketsCover(states: map<Key, Row>, rows: set<Key>)
    requires forall k | k in rows :: k in states && states[k].state != Superseded
    ensures rows == InState(states, rows, {Accepted}) + InState(states, rows, {PendingNotification, Notified})
                    + InState(states, rows, {ExpiredBlocking}) + InState(states, rows, {Objected})
  {
  }

  /** Every customer that counts is in exactly one bucket. */
  lemma BucketsAddUp(states: map<Key, Row>, rows: set<Key>, stats: Stats)
    requires AreBuckets(states, rows, stats)
    requires forall k | k in rows :: k in states && states[k].state != Superseded
    ensures stats.totalCustomers == stats.accepted + stats.pending + stats.blocked + stats.objected
  {
    BucketsCover(states, rows);
    FourParts(rows, InState(states, rows, {Accepted}), InState(states, rows, {PendingNotification, Notified}),
              InState(states, rows, {ExpiredBlocking}), InState(states, rows, {Objected}));
  }

  /** When all the rows have evidence, each breakdown adds up to them. */
  lemma BreakdownsAddUp(acceptances: map<Key, Acceptance>, rows: set<Key>, byChannel: ChannelCounts,
      byMethod: MethodCounts)
    requires AreCounters(acceptances, rows, byChannel, byMethod) && rows <= acceptances.Keys
    ensures |rows| == byChannel.portal + byChannel.admin + byChannel.system + byChannel.link
    ensures |rows| == byMethod.activeConsent + byMethod.tacit + byMethod.imported
  {
    ChannelsAddUp(acceptances, rows);
    MethodsAddUp(acceptances, rows);
    assert forall channel :: byChannel.Of(channel) == |ByChannel(acceptances, rows, channel)|;
    assert byChannel.Of(Portal) + byChannel.Of(Admin) + byChannel.Of(System) + byChannel.Of(Link) == |rows|;
    assert byMethod.Of(ActiveConsent) + byMethod.Of(Tacit) + byMethod.Of(Import) == |rows|;
  }

  lemma ChannelsAddUp(acceptances: map<Key, Acceptance>, rows: set<Key>)
    requires rows <= acceptances.Keys
    ensures |rows| == |ByChannel(acceptances, rows, Portal)| + |ByChannel(acceptances, rows, Admin)|
                    + |ByChannel(acceptances, rows, System)| + |ByChannel(acceptances, rows, Link)|
  {
    FourParts(rows, ByChannel(acceptances, rows, Portal), ByChannel(acceptances, rows, Admin),
              ByChannel(acceptances, rows, System), ByChannel(acceptances, rows, Link));
  }

  lemma MethodsAddUp(acceptances: map<Key, Acceptance>, rows: set<Key>)
    requires rows <= acceptances.Keys
    ensures |rows|
      == |ByMethod(acceptances, rows, ActiveConsent)| + |ByMethod(acceptances, rows, Tacit)|
        + |ByMethod(acceptances, rows, Import)|
  {
    FourParts(rows, ByMethod(acceptances, rows, ActiveConsent), ByMethod(acceptances, rows, Tacit),
        ByMethod(acceptances, rows, Import), {});
  }

  /** In every reachable state the dashboard of every version conserves its numbers. */
  lemma DashboardConserves(events: seq<Timed>, v: nat, stats: Stats)
    requires IsRun(START, events) && AreStats(Run(START, events).db, v, stats)
    ensures stats.totalCustomers == stats.accepted + stats.pending + stats.blocked + stats.objected
    ensures var c := stats.acceptedByChannel; stats.accepted == c.portal + c.admin + c.system + c.link
    ensures var m := stats.acceptedByMethod; stats.accepted == m.activeConsent + m.tacit + m.imported
  {
    hide Run, IsRun, VersionsOk, RowOk, EvidenceOk;
    StartKeeps();
    RunKeeps(START, events);
    var s := Run(START, events);
    BucketsAddUp(s.db.states, Relevant(s.db, v), stats);
    forall k | k in AcceptedRows(s.db, v) ensures k in s.db.acceptances { assert EvidenceAtOk(s, k); }
    BreakdownsAddUp(s.db.acceptances, AcceptedRows(s.db, v), stats.acceptedByChannel, stats.acceptedByMethod);
  }
}
