/** The pure transition functions of a CustomerVersionState and the publish rules. */
module StateMachine {
  import opened Types

  const MS_PER_DAY := 24 * 60 * 60 * 1000

  function LaterOf(a: Time, b: Time): Time {
    if a >= b then a else b
  }

  function RolloutDeadlineFor(version: Version): Option<Time> {
    if version.mode == Active then version.hardDeadlineAt else None
  }

  /** A state as publish, onboarding and activation create it. */
  function RolloutRow(version: Version, carryOverBlocking: bool, dueAt: Option<Time>): Row {
    Row(PendingNotification, None, RolloutDeadlineFor(version), 0, carryOverBlocking, dueAt)
  }

  /** First provable access; a state that already had its access is returned unchanged. */
  function RecordAccess(row: Row, now: Time, version: Version, predecessorWasBlocking: bool): Result<Row> {
    if row.state != PendingNotification || row.notifiedAt.Some? then
      Ok(row)
    else if version.mode == Active then
      Ok(row.(state := Notified, notifiedAt := Some(now)))
    else if !predecessorWasBlocking && version.objectionPeriodDays.None? then
      Err(InvalidState)
    else
      var base := if predecessorWasBlocking then now else now + version.objectionPeriodDays.value * MS_PER_DAY;
      Ok(row.(state := Notified, notifiedAt := Some(now), deadlineAt := Some(LaterOf(base, version.validFrom))))
  }

  function Accept(row: Row, how: Method): Result<Row> {
    if how == Tacit then Err(InvalidState)
    else if row.state == Accepted then Err(AlreadyAccepted)
    else if row.state == Superseded then Err(InvalidState)
    else Ok(row.(state := Accepted))
  }

  function Object(row: Row, version: Version, now: Time): Result<Row> {
    if version.mode != Passive then Err(ObjectionNotApplicable)
    else if row.state != Notified then Err(InvalidState)
    else if row.deadlineAt.None? || now >= row.deadlineAt.value then Err(ObjectionPeriodExpired)
    else Ok(row.(state := Objected))
  }

  datatype SweepOutcome = TacitAccepted | BecameBlocking | Noop

  datatype SweepResult = SweepResult(row: Row, outcome: SweepOutcome)

  function Sweep(row: Row, version: Version, now: Time): SweepResult {
    if row.deadlineAt.None? || now < row.deadlineAt.value then
      SweepResult(row, Noop)
    else if version.mode == Active then
      if row.state == PendingNotification || row.state == Notified
      then SweepResult(row.(state := ExpiredBlocking), BecameBlocking)
      else SweepResult(row, Noop)
    else if row.state != Notified then
      SweepResult(row, Noop)
    else
      SweepResult(row.(state := Accepted), TacitAccepted)
  }

  /** The states `findOpenByVersion` returns. */
  predicate IsOpen(state: StateValue) {
    state != Accepted && state != Superseded
  }

  datatype SupersedeResult = SupersedeResult(row: Row, wasBlocking: bool)

  function Supersede(row: Row): Result<SupersedeResult> {
    if row.state == Superseded then Ok(SupersedeResult(row, false))
    else if row.state == Accepted then Err(InvalidState)
    else Ok(SupersedeResult(row.(state := Superseded), row.state == ExpiredBlocking))
  }

  predicate IsBlocking(row: Row) {
    row.state == ExpiredBlocking
    || (row.carryOverBlocking && (row.state == PendingNotification || row.state == Notified))
  }

  // Reminders, at seven and two days before the deadline.

  const REMINDER_THRESHOLDS_DAYS := [7, 2]

  predicate ThresholdDue(deadline: Time, index: nat, now: Time)
    requires index < 2
  {
    now >= deadline - REMINDER_THRESHOLDS_DAYS[index] * MS_PER_DAY
  }

  /** The reminder counter after a run: every threshold that is due and still open is sent. */
  function RemindersAfter(deadline: Time, sent: nat, now: Time): nat
    decreases 2 - sent
  {
    if sent < 2 && ThresholdDue(deadline, sent, now) then RemindersAfter(deadline, sent + 1, now) else sent
  }

  function Reminded(row: Row, version: Version, now: Time): Row {
    if version.mode == Passive || row.deadlineAt.None? then row
    else row.(remindersSent := RemindersAfter(row.deadlineAt.value, row.remindersSent, now))
  }

  // Publish and consent rules.

  predicate MethodChannelAllowed(how: Method, channel: Channel) {
    match how
    case ActiveConsent => channel == Portal || channel == Admin || channel == Link
    case Import => channel == Admin
    case Tacit => channel == System
  }

  /** The content rules a version must meet to be published, whatever its status. */
  function ContentError(version: Version): Option<Error> {
    if Blank(version.changeSummary) then Some(ChangeSummaryRequired)
    else if version.mode == Active then
      if version.consentText.None? || Blank(version.consentText.value) then Some(ConsentTextRequired)
      else if version.hardDeadlineAt.None? then Some(InvalidState)
      else if version.hardDeadlineAt.value < version.validFrom then Some(InvalidState)
      else None
    else if version.objectionPeriodDays.None? then Some(InvalidState)
    else if version.hardDeadlineAt.Some? then Some(InvalidState)
    else None
  }

  function ValidateForPublish(version: Version): Option<Error> {
    if version.status != Draft then Some(VersionImmutable) else ContentError(version)
  }

  // How the transitions fit together.

  /** A notified row of a PASSIVE version can be objected to or is tacitly accepted: at every instant exactly one. */
  lemma ObjectOrTacit(row: Row, version: Version, now: Time)
    requires version.mode == Passive && row.state == Notified && row.deadlineAt.Some?
    ensures Object(row, version, now).Ok? <==> now < row.deadlineAt.value
    ensures Sweep(row, version, now).outcome == TacitAccepted <==> !Object(row, version, now).Ok?
  {
  }

  /** The first access counts, whatever comes later; it never lets a period end before validFrom. */
  lemma FirstAccessCounts(row: Row, now: Time, version: Version, blocked: bool, later: Time, blockedLater: bool)
    requires RecordAccess(row, now, version, blocked).Ok?
    ensures var accessed := RecordAccess(row, now, version, blocked).value;
      && RecordAccess(accessed, later, version, blockedLater) == Ok(accessed)
      && (accessed != row && version.mode == Passive ==>
            accessed.deadlineAt.Some? && accessed.deadlineAt.value >= version.validFrom
              && accessed.notifiedAt == Some(now))
  {
  }

  /** What a sweep did it never does again, and nothing leaves ACCEPTED or SUPERSEDED. */
  lemma TransitionsSettle(row: Row, version: Version, how: Method, now: Time, later: Time)
    ensures Sweep(row, version, now).outcome != Noop
      ==> Sweep(Sweep(row, version, now).row, version, later).outcome == Noop
    ensures !IsOpen(row.state) ==>
      && Accept(row, how).Err? && Object(row, version, now).Err? && Sweep(row, version, now).outcome == Noop
      && RecordAccess(row, now, version, true) == Ok(row) == RecordAccess(row, now, version, false)
      && (Supersede(row).Err? || Supersede(row).value == SupersedeResult(row, false))
  {
  }

  /** Superseding reports a block exactly if it is not held by carry-over alone; such a block goes no further. */
  lemma CarriedBlockEnds(row: Row)
    requires IsBlocking(row)
    ensures Supersede(row).Ok?
    ensures Supersede(row).value.wasBlocking <==> row.state != PendingNotification && row.state != Notified
  {
  }
}
