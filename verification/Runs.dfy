/** Whole runs of the system: events with a non-decreasing clock, and what every run keeps. */
module Runs {
  import opened Types
  import opened StateMachine
  import opened Lifecycle
  import opened Customers

  datatype Event =
    | AddAudience(audience: string)
    | AddDocument(id: nat, document: Document)
    | SaveDraft(v: nat, draft: Version)
    | DeleteDraft(v: nat)
    | PublishVersion(v: nat)
    | ActivationRun
    | HourlyTick
    | Access(k: Key)
    | GiveConsent(k: Key, displayed: Option<string>, channel: Channel)
    | RecordManually(k: Key, recording: Recording)
    | ObjectTo(k: Key)
    | PatchState(k: Key, patch: PatchInput)
    | CreateCustomer(c: nat, input: CustomerInput)
    | UpdateCustomer(c: nat, changes: Changes)
    | UpsertCustomer(c: nat, input: CustomerInput)
    | DeactivateCustomer(ref: string, audience: string)
    | ClearNotificationDue(k: Key)
    | SendReminders(k: Key)

  /** One document per pair of type and audience. */
  function AddDocumentTo(db: Db, id: nat, document: Document): Db {
    if id in db.documents || (exists d | d in db.documents :: db.documents[d] == document)
    then db else db.(documents := db.documents[id := document])
  }

  /** Creates a draft, or edits one without moving it to another document. */
  function SaveDraftTo(db: Db, v: nat, draft: Version): Db {
    if draft.document in db.documents
       && (v in db.versions ==> db.versions[v].status == Draft && db.versions[v].document == draft.document)
    then db.(versions := db.versions[v := draft.(status := Draft, publishedAt := None)])
    else db
  }

  function DeleteDraftFrom(db: Db, v: nat): Db {
    if v in db.versions && db.versions[v].status == Draft then db.(versions := db.versions - {v}) else db
  }

  function UpdateRow(db: Db, k: Key, row: Row): Db {
    db.(states := db.states[k := row])
  }

  /** The store after one event; an operation that fails leaves what its function says. */
  ghost function Apply(db: Db, e: Event, now: Time): Db {
    match e
    case AddAudience(audience) => db.(audiences := db.audiences + {audience})
    case AddDocument(id, document) => AddDocumentTo(db, id, document)
    case SaveDraft(v, draft) => SaveDraftTo(db, v, draft)
    case DeleteDraft(v) => DeleteDraftFrom(db, v)
    case PublishVersion(v) => Publish(db, v, now).db
    case ActivationRun => Activate(db, now)
    case HourlyTick => Tick(db, now)
    case Access(k) => Notify(db, k, now).db
    case GiveConsent(k, displayed, channel) => Consent(db, k, displayed, channel, now).db
    case RecordManually(k, recording) => Manual(db, k, recording, now).db
    case ObjectTo(k) => RaiseObjection(db, k, now).db
    case PatchState(k, patch) => Patch(db, k, patch).db
    case CreateCustomer(c, input) => if c in db.customers then db else Create(db, c, input, now).db
    case UpdateCustomer(c, changes) => Update(db, c, changes, now).db
    case UpsertCustomer(c, input) => if c in db.customers then db else Upsert(db, c, input, now).done.db
    case DeactivateCustomer(ref, audience) => Deactivate(db, ref, audience, now)
    case ClearNotificationDue(k) =>
      if k in db.states then UpdateRow(db, k, db.states[k].(notificationDueAt := None)) else db
    case SendReminders(k) =>
      if k in db.states && k.version in db.versions
         && (db.states[k].state == PendingNotification || db.states[k].state == Notified)
      then UpdateRow(db, k, Reminded(db.states[k], db.versions[k.version], now)) else db
  }

  /**
   * The store with some facts about its past: whose deadline an admin has edited, whose was ever set
   * to before its version's validFrom, and who was carry-over blocking at first access.
   */
  datatype Sys = Sys(db: Db, edited: set<Key>, early: set<Key>, blockedAccess: set<Key>, now: Time)

  /** A deadline edit to an instant before the version applies. */
  predicate IsEarlyEdit(db: Db, k: Key, patch: PatchInput) {
    EditsDeadline(patch) && k.version in db.versions && patch.deadlineAt.value < db.versions[k.version].validFrom
  }

  function EarlyAfterPatch(s: Sys, k: Key, patch: PatchInput): set<Key> {
    if IsEarlyEdit(s.db, k, patch) && Patch(s.db, k, patch).error.None? then s.early + {k} else s.early
  }

  function EditedAfterPatch(s: Sys, k: Key, patch: PatchInput): set<Key> {
    if EditsDeadline(patch) && Patch(s.db, k, patch).error.None? then s.edited + {k} else s.edited
  }

  function BlockedAfterAccess(s: Sys, k: Key): set<Key> {
    if k in s.db.states && s.db.states[k].state == PendingNotification
    then (if s.db.states[k].carryOverBlocking then s.blockedAccess + {k} else s.blockedAccess - {k})
    else s.blockedAccess
  }

  /** One event at the current instant. */
  ghost function Effect(s: Sys, e: Event): Sys {
    Sys(Apply(s.db, e, s.now),
        if e.PatchState? then EditedAfterPatch(s, e.k, e.patch) else s.edited,
        if e.PatchState? then EarlyAfterPatch(s, e.k, e.patch) else s.early,
        if e.Access? then BlockedAfterAccess(s, e.k) else s.blockedAccess,
        s.now)
  }

  ghost function Next(s: Sys, e: Event, now: Time): Sys {
    Effect(s.(now := now), e)
  }

  /** Manual recording does not look at the version's status; runs never use it on a draft. */
  predicate Legal(db: Db, e: Event) {
    e.RecordManually? && e.k.version in db.versions ==> db.versions[e.k.version].status != Draft
  }

  datatype Timed = Timed(at: Time, event: Event)

  /** The system after the events, starting from s. */
  ghost function Run(s: Sys, events: seq<Timed>): Sys {
    if events == [] then s else
      var last := events[|events| - 1];
      Next(Run(s, events[..|events| - 1]), last.event, last.at)
  }

  ghost predicate IsRun(s: Sys, events: seq<Timed>) {
    events == [] ||
    var before, last := Run(s, events[..|events| - 1]), events[|events| - 1];
    IsRun(s, events[..|events| - 1]) && before.now <= last.at && Legal(before.db, last.event)
  }

  /** A run may go on with any legal event at any later time. */
  lemma RunGoesOn(s: Sys, events: seq<Timed>, e: Event, at: Time)
    requires IsRun(s, events) && Run(s, events).now <= at && Legal(Run(s, events).db, e)
    ensures IsRun(s, events + [Timed(at, e)]) && Run(s, events + [Timed(at, e)]) == Next(Run(s, events), e, at)
  {
    hide Next, Legal;
    assert (events + [Timed(at, e)])[..|events|] == events;
  }

  const EMPTY := Db({}, map[], map[], map[], map[], map[], [])

  const START := Sys(EMPTY, {}, {}, {}, 0)

  // What holds in every reachable state.

  predicate VersionOk(version: Version, now: Time) {
    if version.status == Draft then version.publishedAt.None?
    else ContentError(version).None? && version.publishedAt.Some? && version.publishedAt.value <= now
  }

  /** The earliest instant a PASSIVE version may be tacitly accepted after access at `notifiedAt`. */
  function TacitFrom(version: Version, notifiedAt: Time, blocked: bool): Time
    requires version.objectionPeriodDays.Some?
  {
    LaterOf(if blocked then notifiedAt else notifiedAt + version.objectionPeriodDays.value * MS_PER_DAY,
        version.validFrom)
  }

  /** The deadline of an open row nobody has edited. */
  predicate DeadlineOk(version: Version, row: Row, blocked: bool) {
    if version.mode == Active then row.deadlineAt == version.hardDeadlineAt
    else if row.state == PendingNotification then row.deadlineAt == None
    else
      && version.objectionPeriodDays.Some?
      && row.notifiedAt.Some?
      && row.deadlineAt == Some(TacitFrom(version, row.notifiedAt.value, blocked))
  }

  /** A tacit acceptance rests on an earlier provable access, and respects the full period. */
  predicate TacitOk(version: Version, row: Row, a: Acceptance, edited: bool, blocked: bool) {
    && version.mode == Passive
    && row.notifiedAt.Some?
    && row.notifiedAt.value <= a.acceptedAt
    && version.objectionPeriodDays.Some?
    && (!edited ==> a.acceptedAt >= TacitFrom(version, row.notifiedAt.value, blocked))
  }

  predicate EvidenceOk(version: Version, row: Row, a: Acceptance, edited: bool, blocked: bool) {
    && MethodChannelAllowed(a.how, a.channel)
    && (a.how == Tacit ==> TacitOk(version, row, a, edited, blocked))
    && (a.how == ActiveConsent && version.mode == Active ==> a.consentText == version.consentText)
  }

  predicate RowOk(version: Version, row: Row, edited: bool, early: bool, blocked: bool, now: Time) {
    && version.status != Draft
    && (IsOpen(row.state) ==> version.status == Published)
    && (row.state == ExpiredBlocking ==> version.mode == Active)
    && (row.state == Objected ==> version.mode == Passive)
    && (row.notifiedAt.Some? ==> row.notifiedAt.value <= now)
    && (row.state == PendingNotification ==> row.notifiedAt.None?)
    && (version.mode == Passive && (row.state == Notified || row.state == Objected) ==> row.notifiedAt.Some?)
    && (IsOpen(row.state) && !edited ==> DeadlineOk(version, row, blocked))
    && (edited && !early && row.deadlineAt.Some? ==> row.deadlineAt.value >= version.validFrom)
  }

  predicate RowAtOk(s: Sys, k: Key)
    requires k in s.db.states
  {
    && k.version in s.db.versions
    && k.customer in s.db.customers
    && RowOk(s.db.versions[k.version], s.db.states[k], k in s.edited, k in s.early, k in s.blockedAccess, s.now)
  }

  /** Exactly the ACCEPTED rows have an effective acceptance, and its contents are in order. */
  predicate EvidenceAtOk(s: Sys, k: Key)
    requires k in s.db.states && k.version in s.db.versions
  {
    && (s.db.states[k].state == Accepted <==> k in s.db.acceptances)
    && (k in s.db.acceptances ==>
          EvidenceOk(s.db.versions[k.version], s.db.states[k], s.db.acceptances[k], k in s.edited,
              k in s.blockedAccess))
  }

  predicate VersionsOk(s: Sys) {
    forall v | v in s.db.versions :: s.db.versions[v].document in s.db.documents && VersionOk(s.db.versions[v], s.now)
  }

  predicate Inv(s: Sys) {
    && VersionsOk(s)
    && (forall k | k in s.db.states :: RowAtOk(s, k) && EvidenceAtOk(s, k))
    && s.db.acceptances.Keys <= s.db.states.Keys
  }
}
