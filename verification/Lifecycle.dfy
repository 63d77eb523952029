/**
 * What each operation does to the store, as a function on its contents. The service methods are
 * proved to compute exactly these; everything else in the project is proved about them.
 */
module Lifecycle {
  import opened Types
  import opened StateMachine
  import opened Versions

  // Publishing.

  function Siblings(versions: map<nat, Version>, v: nat): set<nat>
    requires v in versions
  {
    set w | w in versions && w != v && versions[w].document == versions[v].document && versions[w].status == Published
  }

  /** The contract of `findOpenByVersion`, for a set of versions at once. */
  function OpenRows(states: map<Key, Row>, retired: set<nat>): set<Key> {
    set k | k in states && k.version in retired && IsOpen(states[k].state)
  }

  function RetireAll(versions: map<nat, Version>, retired: set<nat>): map<nat, Version> {
    map w | w in versions :: if w in retired then versions[w].(status := Retired) else versions[w]
  }

  function SupersedeAll(states: map<Key, Row>, rows: set<Key>): map<Key, Row> {
    map k | k in states :: if k in rows then states[k].(state := Superseded) else states[k]
  }

  function BlockedCustomers(states: map<Key, Row>, rows: set<Key>): set<nat> {
    set k | k in rows && k in states && states[k].state == ExpiredBlocking :: k.customer
  }

  /** The contract of `findByRole`. */
  function Targets(customers: map<nat, Customer>, audience: string): set<nat> {
    set c | c in customers && audience in customers[c].roles
  }

  function KeysOf(customers: set<nat>, v: nat): set<Key> {
    set c | c in customers :: Key(c, v)
  }

  function Rollout(targets: set<nat>, v: nat, version: Version, blocked: set<nat>, now: Time): map<Key, Row> {
    map k | k in KeysOf(targets, v) :: RolloutRow(version, k.customer in blocked, Some(now))
  }

  function PublishError(db: Db, v: nat): Option<Error> {
    if v !in db.versions then Some(VersionNotFound)
    else if ValidateForPublish(db.versions[v]).Some? then ValidateForPublish(db.versions[v])
    else if db.versions[v].document !in db.documents then Some(InvalidState)
    else None
  }

  function Stamp(version: Version, now: Time): Version {
    version.(status := Published, publishedAt := Some(now))
  }

  /** The versions a publish of v retires: every published sibling, unless v is scheduled. */
  function RetiredByPublish(db: Db, v: nat, now: Time): set<nat>
    requires v in db.versions
  {
    if db.versions[v].validFrom <= now then Siblings(db.versions, v) else {}
  }

  function PublishTo(db: Db, v: nat, now: Time): Db
    requires PublishError(db, v).None?
  {
    var version := Stamp(db.versions[v], now);
    var retired := RetiredByPublish(db, v, now);
    var open := OpenRows(db.states, retired);
    var targets := Targets(db.customers, db.documents[version.document].audience);
    db.(versions := RetireAll(db.versions[v := version], retired),
        states := SupersedeAll(db.states, open)
                  + Rollout(targets, v, version, BlockedCustomers(db.states, open), now))
  }

  function Publish(db: Db, v: nat, now: Time): Done {
    if PublishError(db, v).Some? then Done(db, PublishError(db, v)) else Done(PublishTo(db, v, now), None)
  }

  // The scheduled flip.

  /** Versions of the given documents that are in force but no longer the current one. */
  ghost function Outdated(versions: map<nat, Version>, documents: set<nat>, now: Time): set<nat> {
    set v | v in versions && versions[v].document in documents && InForce(versions[v], now)
            && Current(versions, versions[v].document, now) != Some(v)
  }

  /** The version in force for v's document, which inherits a block from v. */
  ghost function Heir(versions: map<nat, Version>, v: nat, now: Time): nat {
    if v in versions && Current(versions, versions[v].document, now).Some?
    then Current(versions, versions[v].document, now).value
    else v
  }

  /** The keys that inherit the block of one of the given rows. */
  ghost function Heirs(db: Db, rows: set<Key>, now: Time): set<Key> {
    set k | k in rows && k in db.states && db.states[k].state == ExpiredBlocking
      :: Key(k.customer, Heir(db.versions, k.version, now))
  }

  /** Carry-over onto the row of a key: created if missing, flagged if still pending. */
  function Carried(states: map<Key, Row>, version: Version, k: Key): Row {
    if k !in states then
      RolloutRow(version, true, None)
    else if states[k].state == PendingNotification || states[k].state == Notified then
      states[k].(carryOverBlocking := true)
    else
      states[k]
  }

  function CarryOver(db: Db, k: Key): Row {
    Carried(db.states, if k.version in db.versions then db.versions[k.version] else NO_VERSION, k)
  }

  ghost function FlippedStates(db: Db, rows: set<Key>, now: Time): map<Key, Row> {
    SupersedeAll(db.states, rows) + map k | k in Heirs(db, rows, now) :: CarryOver(db, k)
  }

  /** The store after retiring `retired` and superseding `rows`, blocks carried over. */
  ghost function Flipped(db: Db, retired: set<nat>, rows: set<Key>, now: Time): Db {
    db.(versions := RetireAll(db.versions, retired), states := FlippedStates(db, rows, now))
  }

  ghost function Flip(db: Db, documents: set<nat>, now: Time): Db {
    var retired := Outdated(db.versions, documents, now);
    Flipped(db, retired, OpenRows(db.states, retired), now)
  }

  /** An outdated version has an heir: the current version of its document, itself not outdated. */
  lemma HeirIsCurrent(versions: map<nat, Version>, documents: set<nat>, v: nat, now: Time)
    requires v in Outdated(versions, documents, now)
    ensures var heir := Heir(versions, v, now);
      && heir in versions && versions[heir].document == versions[v].document
      && InForce(versions[heir], now) && Newer(versions, heir, v)
      && Current(versions, versions[v].document, now) == Some(heir)
      && heir !in Outdated(versions, documents, now)
  {
    assert v in InForceOf(versions, versions[v].document, now);
  }

  /** A key in Heirs stands for a superseded blocking row of the same customer. */
  lemma HeirSource(db: Db, documents: set<nat>, now: Time, k: Key) returns (j: Key)
    requires k in Heirs(db, OpenRows(db.states, Outdated(db.versions, documents, now)), now)
    ensures j in OpenRows(db.states, Outdated(db.versions, documents, now)) && j.customer == k.customer
    ensures db.states[j].state == ExpiredBlocking && k.version == Heir(db.versions, j.version, now)
  {
    j :| j in OpenRows(db.states, Outdated(db.versions, documents, now)) && db.states[j].state == ExpiredBlocking
         && k == Key(j.customer, Heir(db.versions, j.version, now));
  }

  function RowAt(states: map<Key, Row>, k: Key): Option<Row> {
    if k in states then Some(states[k]) else None
  }

  lemma SameRows(a: map<Key, Row>, b: map<Key, Row>)
    requires forall k :: RowAt(a, k) == RowAt(b, k)
    ensures a == b
  {
    forall k ensures (k in a <==> k in b) && (k in a ==> a[k] == b[k]) {
      assert RowAt(a, k) == RowAt(b, k);
    }
  }

  /** What a flip makes of one row. */
  lemma FlippedRow(db: Db, documents: set<nat>, now: Time, k: Key)
    ensures var outdated := Outdated(db.versions, documents, now);
      var db' := Flip(db, documents, now);
      && (k in Heirs(db, OpenRows(db.states, outdated), now) ==>
            k in db'.states && db'.states[k] == CarryOver(db, k) && k.version !in outdated)
      && (k !in Heirs(db, OpenRows(db.states, outdated), now) ==>
            && (k in db'.states <==> k in db.states)
            && (k in db.states && k.version in outdated && IsOpen(db.states[k].state) ==>
                  db'.states[k] == db.states[k].(state := Superseded))
            && (k in db.states && !(k.version in outdated && IsOpen(db.states[k].state)) ==>
                  db'.states[k] == db.states[k]))
  {
    if k in Heirs(db, OpenRows(db.states, Outdated(db.versions, documents, now)), now) {
      var j := HeirSource(db, documents, now, k);
      HeirIsCurrent(db.versions, documents, j.version, now);
    }
  }

  lemma SettledStays(db: Db, documents: set<nat>, now: Time)
    requires Outdated(db.versions, documents, now) == {}
    ensures Flip(db, documents, now) == db
  {
    assert OpenRows(db.states, {}) == {};
    assert Heirs(db, {}, now) == {};
    assert SupersedeAll(db.states, {}) == db.states;
    assert RetireAll(db.versions, {}) == db.versions;
  }

  /** One activation run over every document. */
  ghost function Activate(db: Db, now: Time): Db {
    Flip(db, db.documents.Keys, now)
  }

  // The deadline pass.

  /** The contract of `findDueForSweep`. */
  predicate Due(row: Row, now: Time) {
    (row.state == PendingNotification || row.state == Notified) && row.deadlineAt.Some? && row.deadlineAt.value <= now
  }

  function SweptRow(db: Db, k: Key, now: Time): SweepResult
    requires k in db.states
  {
    if Due(db.states[k], now) && k.version in db.versions
    then Sweep(db.states[k], db.versions[k.version], now)
    else SweepResult(db.states[k], Noop)
  }

  function TacitAcceptance(version: Version, now: Time): Acceptance {
    Acceptance(Tacit, System, now, version.consentText)
  }

  /** The store after sweeping the given due rows; an existing acceptance is never replaced. */
  function SweepRows(db: Db, rows: set<Key>, now: Time): Db {
    db.(states := map k | k in db.states :: if k in rows then SweptRow(db, k, now).row else db.states[k],
        acceptances := (map k | k in rows && k in db.states && SweptRow(db, k, now).outcome == TacitAccepted ::
                          TacitAcceptance(if k.version in db.versions then db.versions[k.version] else NO_VERSION, now))
                       + db.acceptances)
  }

  /** The sweep decides on the row that was observed; of the stored one only the state must still be the same. */
  predicate SweepApplies(db: Db, k: Key, observed: Row, now: Time) {
    && k.version in db.versions && Sweep(observed, db.versions[k.version], now).outcome != Noop
    && k in db.states && db.states[k].state == observed.state
  }

  /** The store after one row has been swept: its new state, and evidence if it was tacitly accepted. */
  function SweptOnto(db: Db, k: Key, observed: Row, now: Time): Db {
    if !SweepApplies(db, k, observed, now) then db else
      var version := db.versions[k.version];
      var result := Sweep(observed, version, now);
      var moved := db.(states := db.states[k := db.states[k].(state := result.row.state)]);
      if result.outcome == TacitAccepted then Append(moved, k, TacitAcceptance(version, now)).db else moved
  }

  /** Sweeping one due row as the pass specifies it. */
  lemma SweptEvidence(db: Db, k: Key, now: Time)
    requires k in db.states && Due(db.states[k], now)
    ensures SweepRows(db, {k}, now).acceptances
      == if k.version in db.versions && SweptRow(db, k, now).outcome == TacitAccepted && k !in db.acceptances
         then db.acceptances[k := TacitAcceptance(db.versions[k.version], now)] else db.acceptances
  {
    hide Sweep;
  }

  /** A due row that is stored as it was observed is swept as the pass specifies. */
  lemma SweptAsObserved(db: Db, k: Key, now: Time)
    requires k in db.states && Due(db.states[k], now)
    ensures SweptOnto(db, k, db.states[k], now) == SweepRows(db, {k}, now)
  {
    SweptEvidence(db, k, now);
    SweepOnlyMovesState(db, k, now);
    SweptStates(db, k, now);
    hide Sweep, Due, SweepRows;
    SweepWrites(db, {k}, now);
  }

  lemma SweptStates(db: Db, k: Key, now: Time)
    requires k in db.states
    ensures SweepRows(db, {k}, now).states == db.states[k := SweptRow(db, k, now).row]
  {
    hide SweptRow;
  }

  lemma SweepWrites(db: Db, rows: set<Key>, now: Time)
    ensures var after := SweepRows(db, rows, now);
      after == db.(states := after.states, acceptances := after.acceptances)
  {
    hide SweptRow;
  }

  lemma SweepOnlyMovesState(db: Db, k: Key, now: Time)
    requires k in db.states
    ensures var result := SweptRow(db, k, now);
      && result.row == db.states[k].(state := result.row.state)
      && (result.outcome == Noop ==> result.row == db.states[k])
  {
  }

  function DueRows(states: map<Key, Row>, now: Time): set<Key> {
    set k | k in states && Due(states[k], now)
  }

  function DeadlinePass(db: Db, now: Time): Db {
    SweepRows(db, DueRows(db.states, now), now)
  }

  /** The hourly job: activation first, then the deadline pass. */
  ghost function Tick(db: Db, now: Time): Db {
    DeadlinePass(Activate(db, now), now)
  }

  // Single-row operations.

  /** The row consent and manual recording start from when none exists. */
  const FRESH_ROW := Row(PendingNotification, None, None, 0, false, None)

  /** Stands for a version that does not exist; never reached under the foreign keys. */
  const NO_VERSION := Version(0, Draft, Passive, None, None, "", None, 0, None)

  function RowOrFresh(db: Db, k: Key): Row {
    if k in db.states then db.states[k] else FRESH_ROW
  }

  /** Append-only evidence: a second effective acceptance of a pair is refused. */
  function Append(db: Db, k: Key, acceptance: Acceptance): Done {
    if k in db.acceptances
    then Done(db, Some(AlreadyAccepted))
    else Done(db.(acceptances := db.acceptances[k := acceptance]), None)
  }

  /** State first, evidence second. */
  function Book(db: Db, k: Key, row: Row, acceptance: Acceptance): Done {
    Append(db.(states := db.states[k := row.(state := Accepted)]), k, acceptance)
  }

  /** Why a consent is refused before its row is looked at. */
  ghost function ConsentRefused(db: Db, k: Key, displayed: Option<string>, channel: Channel, now: Time): Option<Error> {
    if k.version !in db.versions || db.versions[k.version].document !in db.documents then Some(VersionNotFound)
    else
      var version := db.versions[k.version];
      if Current(db.versions, version.document, now) != Some(k.version) && !Upcoming(version, now)
      then Some(VersionNotCurrent)
      else if k.customer !in db.customers then Some(CustomerNotFound)
      else if db.documents[version.document].audience !in db.customers[k.customer].roles then Some(RoleMismatch)
      else if version.mode == Active && (displayed.None? || version.consentText.None?) then Some(ConsentTextRequired)
      else if version.mode == Active && displayed != version.consentText then Some(ConsentTextMismatch)
      else if !MethodChannelAllowed(ActiveConsent, channel) then Some(InvalidState)
      else None
  }

  function AcceptError(row: Row, how: Method): Option<Error> {
    match Accept(row, how)
    case Err(e) => Some(e)
    case Ok(_) => None
  }

  ghost function ConsentError(db: Db, k: Key, displayed: Option<string>, channel: Channel, now: Time): Option<Error> {
    var refused := ConsentRefused(db, k, displayed, channel, now);
    if refused.Some? then refused else AcceptError(RowOrFresh(db, k), ActiveConsent)
  }

  function ConsentEvidence(version: Version, channel: Channel, now: Time): Acceptance {
    Acceptance(ActiveConsent, channel, now, if version.mode == Active then version.consentText else None)
  }

  ghost function Consent(db: Db, k: Key, displayed: Option<string>, channel: Channel, now: Time): Done {
    var error := ConsentError(db, k, displayed, channel, now);
    if error.Some? then Done(db, error)
    else Book(db, k, RowOrFresh(db, k), ConsentEvidence(db.versions[k.version], channel, now))
  }

  datatype Recording = Recording(how: Method, reason: string, evidenceBytes: nat)

  /** Why a manual recording is refused before its row is looked at. */
  function ManualRefused(db: Db, k: Key, input: Recording): Option<Error> {
    if Blank(input.reason) || input.evidenceBytes == 0 || !MethodChannelAllowed(input.how, Admin)
    then Some(InvalidState)
    else if k.customer !in db.customers then Some(CustomerNotFound)
    else if k.version !in db.versions then Some(VersionNotFound)
    else if db.versions[k.version].document !in db.documents then Some(InvalidState)
    else if db.documents[db.versions[k.version].document].audience !in db.customers[k.customer].roles
      then Some(RoleMismatch)
    else None
  }

  function ManualError(db: Db, k: Key, input: Recording): Option<Error> {
    var refused := ManualRefused(db, k, input);
    if refused.Some? then refused else AcceptError(RowOrFresh(db, k), input.how)
  }

  function ManualEvidence(version: Version, input: Recording, now: Time): Acceptance {
    Acceptance(input.how, Admin, now, if input.how == ActiveConsent then version.consentText else None)
  }

  function Manual(db: Db, k: Key, input: Recording, now: Time): Done {
    var error := ManualError(db, k, input);
    if error.Some? then Done(db, error)
    else Book(db, k, RowOrFresh(db, k), ManualEvidence(db.versions[k.version], input, now))
  }

  function Notify(db: Db, k: Key, now: Time): Done {
    if k.version !in db.versions then Done(db, Some(VersionNotFound))
    else if k !in db.states then Done(db, Some(InvalidState))
    else
      match RecordAccess(db.states[k], now, db.versions[k.version], db.states[k].carryOverBlocking)
      case Err(e) => Done(db, Some(e))
      case Ok(row) => Done(db.(states := db.states[k := row]), None)
  }

  function RaiseObjection(db: Db, k: Key, now: Time): Done {
    if k.version !in db.versions then Done(db, Some(VersionNotFound))
    else if k !in db.states then Done(db, Some(InvalidState))
    else
      match Object(db.states[k], db.versions[k.version], now)
      case Err(e) => Done(db, Some(e))
      case Ok(row) =>
        Done(db.(states := db.states[k := row], objections := db.objections + [Objection(k, now)]), None)
  }

  datatype PatchInput = PatchInput(deadlineAt: Option<Time>, suspendBlock: bool, reopenObjection: bool, reason: string)

  function PatchedRow(row: Row, input: PatchInput): Result<Row> {
    if Blank(input.reason) then Err(InvalidState)
    else if input.reopenObjection then
      if row.state != Objected then Err(InvalidState) else Ok(row.(state := Notified))
    else if input.suspendBlock then
      if row.state != ExpiredBlocking || input.deadlineAt.None? then Err(InvalidState)
      else Ok(row.(state := Notified, deadlineAt := input.deadlineAt))
    else if input.deadlineAt.Some? then Ok(row.(deadlineAt := input.deadlineAt))
    else Err(InvalidState)
  }

  /** True when a successful patch sets the deadline rather than reopening an objection. */
  predicate EditsDeadline(input: PatchInput) {
    !input.reopenObjection && input.deadlineAt.Some?
  }

  function Patch(db: Db, k: Key, input: PatchInput): Done {
    if k !in db.states then Done(db, Some(InvalidState))
    else
      match PatchedRow(db.states[k], input)
      case Err(e) => Done(db, Some(e))
      case Ok(row) => Done(db.(states := db.states[k := row]), None)
  }
}
