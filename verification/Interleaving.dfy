/**
 * Requests and jobs running side by side on existing rows. Each one reads its row, decides, writes
 * the new state only if the stored one is still the one it read, and appends its evidence last; any
 * other step may come in between. Publishing, activation, repair and administration are single steps.
 */
module Interleaving {
  import opened Actors
  import opened EvidenceFrame
  import opened Types
  import opened StateMachine
  import opened Lifecycle
  import opened Runs

  /** `owed` and `reopened` are bookkeeping: evidence not appended yet, and objections reopened. */
  datatype Machine = Machine(s: Sys, actors: map<nat, Actor>, owed: map<Key, Acceptance>, reopened: multiset<Key>)

  datatype Step =
    | Whole(event: Event)
    | StartConsent(i: nat, k: Key, displayed: Option<string>, channel: Channel)
    | StartManual(i: nat, k: Key, recording: Recording)
    | StartSweep(i: nat, k: Key)
    | StartObjection(i: nat, k: Key)
    | StartReminder(i: nat, k: Key)
    | StartAccess(i: nat, k: Key)
    | Advance(i: nat)

  /** The contract of `transition`: the stored state is still the expected one. */
  predicate Matches(states: map<Key, Row>, k: Key, expected: StateValue) {
    k in states && states[k].state == expected
  }

  function Moved(s: Sys, k: Key, state: StateValue): Sys
    requires k in s.db.states
  {
    s.(db := UpdateRow(s.db, k, s.db.states[k].(state := state)))
  }

  function Stop(m: Machine, i: nat): Machine {
    m.(actors := m.actors - {i})
  }

  function Win(m: Machine, i: nat, k: Key, evidence: Acceptance): Machine
    requires k in m.s.db.states
  {
    m.(s := Moved(m.s, k, Accepted), actors := m.actors[i := Appending(k, evidence)], owed := m.owed[k := evidence])
  }

  function AppendStep(m: Machine, i: nat, k: Key, evidence: Acceptance): Machine {
    Stop(m, i).(s := m.s.(db := Append(m.s.db, k, evidence.(acceptedAt := m.s.now)).db), owed := m.owed - {k})
  }

  function NoteStep(m: Machine, i: nat, k: Key): Machine {
    Stop(m, i).(s := m.s.(db := m.s.db.(objections := m.s.db.objections + [Objection(k, m.s.now)])))
  }

  function SweepStep(m: Machine, i: nat, k: Key, seen: Row): Machine {
    if k.version !in m.s.db.versions then Stop(m, i) else
      var result := Sweep(seen, m.s.db.versions[k.version], m.s.now);
      if result.outcome == Noop || !Matches(m.s.db.states, k, seen.state) then Stop(m, i)
      else if result.outcome == TacitAccepted then Win(m, i, k, TacitAcceptance(m.s.db.versions[k.version], m.s.now))
      else Stop(m, i).(s := Moved(m.s, k, result.row.state))
  }

  /** The contract of `setNotifiedAtomically`: a first access is written only onto a pending row without one. */
  function AccessStep(m: Machine, i: nat, k: Key, update: Row, carried: bool): Machine {
    if !Matches(m.s.db.states, k, PendingNotification) || m.s.db.states[k].notifiedAt.Some? then Stop(m, i) else
      var row := m.s.db.states[k].(state := update.state, notifiedAt := update.notifiedAt,
          deadlineAt := update.deadlineAt);
      Stop(m, i).(s := Accessed(m.s, k, row, carried))
  }

  /** The first access, with the trail of who was carry-over blocking when it was decided. */
  function Accessed(s: Sys, k: Key, row: Row, carried: bool): Sys {
    s.(db := UpdateRow(s.db, k, row), blockedAccess := if carried then s.blockedAccess + {k} else s.blockedAccess - {k})
  }

  /** The next step of one request or job. */
  function Advanced(m: Machine, i: nat): Machine
    requires i in m.actors
  {
    var states := m.s.db.states;
    match m.actors[i]
    case Checked(k, evidence) =>
      if k !in states || Accept(states[k], evidence.how).Err? then Stop(m, i)
      else m.(actors := m.actors[i := Accepting(k, evidence, states[k])])
    case Accepting(k, evidence, seen) =>
      if Matches(states, k, seen.state) then Win(m, i, k, evidence) else Stop(m, i)
    case Appending(k, evidence) => AppendStep(m, i, k, evidence)
    case Sweeping(k, seen) => SweepStep(m, i, k, seen)
    case Objecting(k, _) =>
      if Matches(states, k, Notified) then m.(s := Moved(m.s, k, Objected), actors := m.actors[i := Noting(k)])
      else Stop(m, i)
    case Noting(k) => NoteStep(m, i, k)
    case Reminding(k, seen, sent) =>
      if sent != seen.remindersSent && Matches(states, k, seen.state)
      then Stop(m, i).(s := m.s.(db := UpdateRow(m.s.db, k, states[k].(remindersSent := sent))))
      else Stop(m, i)
    case Accessing(k, update, carried) => AccessStep(m, i, k, update, carried)
  }

  predicate Reopens(db: Db, e: Event) {
    e.PatchState? && e.patch.reopenObjection && Patch(db, e.k, e.patch).error.None?
  }

  ghost function WholeStep(m: Machine, e: Event): Machine {
    m.(s := Effect(m.s, e), reopened := if Reopens(m.s.db, e) then m.reopened + multiset{e.k} else m.reopened)
  }

  /** The actor a request or job starts as, if it gets past its checks. */
  ghost function Started(s: Sys, step: Step): Option<Actor> {
    match step
    case Whole(_) => None
    case Advance(_) => None
    case StartConsent(_, k, displayed, channel) =>
      if ConsentRefused(s.db, k, displayed, channel, s.now).Some? then None
      else Some(Checked(k, ConsentEvidence(s.db.versions[k.version], channel, s.now)))
    case StartManual(_, k, recording) =>
      if ManualRefused(s.db, k, recording).Some? then None
      else Some(Checked(k, ManualEvidence(s.db.versions[k.version], recording, s.now)))
    case StartSweep(_, k) =>
      if k in s.db.states && Due(s.db.states[k], s.now) then Some(Sweeping(k, s.db.states[k])) else None
    case StartObjection(_, k) =>
      if k.version in s.db.versions && k in s.db.states && Object(s.db.states[k], s.db.versions[k.version], s.now).Ok?
      then Some(Objecting(k, s.db.states[k])) else None
    case StartReminder(_, k) =>
      if k.version in s.db.versions && k in s.db.states
         && (s.db.states[k].state == PendingNotification || s.db.states[k].state == Notified)
      then Some(Reminding(k, s.db.states[k], Reminded(s.db.states[k], s.db.versions[k.version], s.now).remindersSent))
      else None
    case StartAccess(_, k) =>
      if k.version !in s.db.versions || k !in s.db.states then None else
        var carried := s.db.states[k].carryOverBlocking;
        match RecordAccess(s.db.states[k], s.now, s.db.versions[k.version], carried)
        case Err(_) => None
        case Ok(update) => Some(Accessing(k, update, carried))
  }

  ghost function After(m: Machine, step: Step): Machine {
    match step
    case Whole(e) => WholeStep(m, e)
    case Advance(i) => if i in m.actors then Advanced(m, i) else m
    case _ =>
      var actor := Started(m.s, step);
      if step.i in m.actors || actor.None? then m else m.(actors := m.actors[step.i := actor.value])
  }

  /** Only the single-step operations are whole steps, and nothing is recorded manually on a draft. */
  predicate Permitted(m: Machine, step: Step) {
    && (step.Whole? ==> IsWhole(step.event))
    && (step.StartManual? ==> Legal(m.s.db, RecordManually(step.k, step.recording)))
  }

  datatype Moment = Moment(at: Time, step: Step)

  ghost function Interleave(m: Machine, steps: seq<Moment>): Machine {
    if steps == [] then m else
      var before, last := Interleave(m, steps[..|steps| - 1]), steps[|steps| - 1];
      After(before.(s := before.s.(now := last.at)), last.step)
  }

  ghost predicate IsInterleaving(m: Machine, steps: seq<Moment>) {
    steps == [] ||
    var before, last := Interleave(m, steps[..|steps| - 1]), steps[|steps| - 1];
    IsInterleaving(m, steps[..|steps| - 1]) && before.s.now <= last.at && Permitted(before, last.step)
  }

  // What holds in every reachable state.

  function Raised(objections: seq<Objection>, k: Key): set<nat> {
    set j | 0 <= j < |objections| && objections[j].key == k
  }

  /** The system as it will be once everything owed is appended. */
  function Completed(m: Machine): Sys {
    m.s.(db := m.s.db.(acceptances := m.s.db.acceptances + m.owed))
  }

  predicate CheckedOk(s: Sys, k: Key, evidence: Acceptance) {
    && k.version in s.db.versions && s.db.versions[k.version].status != Draft && k.customer in s.db.customers
    && MethodChannelAllowed(evidence.how, evidence.channel) && evidence.how != Tacit && evidence.acceptedAt <= s.now
    && (evidence.how == ActiveConsent && s.db.versions[k.version].mode == Active
        ==> evidence.consentText == s.db.versions[k.version].consentText)
  }

  predicate SweepingOk(s: Sys, k: Key, seen: Row) {
    && k in s.db.states && k.version in s.db.versions
    && var version := s.db.versions[k.version];
    && version.status != Draft
    && (version.mode == Passive && seen.state == Notified ==>
          && version.objectionPeriodDays.Some?
          && seen.notifiedAt.Some?
          && s.db.states[k].notifiedAt == seen.notifiedAt
          && (k !in s.edited ==>
                seen.deadlineAt == Some(TacitFrom(version, seen.notifiedAt.value, k in s.blockedAccess))))
  }

  /** If the row is still pending, what was decided about its first access is in order for it. */
  predicate AccessingOk(s: Sys, k: Key, update: Row, carried: bool) {
    && k in s.db.states && k.version in s.db.versions
    && var version := s.db.versions[k.version];
    && version.status != Draft
    && (s.db.states[k].state == PendingNotification ==>
          && update.state == Notified && update.notifiedAt.Some? && update.notifiedAt.value <= s.now
          && (version.mode == Passive ==>
                && version.objectionPeriodDays.Some?
                && update.deadlineAt == Some(TacitFrom(version, update.notifiedAt.value, carried)))
          && (version.mode == Active ==>
                && (k !in s.edited ==> update.deadlineAt == version.hardDeadlineAt)
                && (k !in s.early && update.deadlineAt.Some? ==> update.deadlineAt.value >= version.validFrom)))
  }

  predicate ActorOk(s: Sys, a: Actor) {
    match a
    case Checked(k, evidence) => CheckedOk(s, k, evidence)
    case Accepting(k, evidence, seen) => CheckedOk(s, k, evidence) && k in s.db.states && IsOpen(seen.state)
    case Appending(k, evidence) => true
    case Sweeping(k, seen) => SweepingOk(s, k, seen)
    case Objecting(k, _) => k in s.db.states && k.version in s.db.versions && s.db.versions[k.version].mode == Passive
                            && s.db.versions[k.version].status != Draft
    case Noting(k) => k in s.db.states
    case Reminding(k, seen, _) => k in s.db.states && IsOpen(seen.state) && seen.state != Objected
    case Accessing(k, update, carried) => AccessingOk(s, k, update, carried)
  }

  /** Every evidence owed is owed by exactly one request, and each objection is reopened at most as often as raised. */
  predicate Balanced(m: Machine, k: Key) {
    && |Holders(m.actors, k, false)| == (if k in m.owed then 1 else 0)
    && ObjectionsBalanced(m, k)
  }

  predicate ObjectionsBalanced(m: Machine, k: Key) {
    var n, r := |Raised(m.s.db.objections, k)| + |Holders(m.actors, k, true)|, m.reopened[k];
    if k !in m.s.db.states then n == 0 && r == 0
    else if m.s.db.states[k].state == Objected then n == r + 1
    else if IsOpen(m.s.db.states[k].state) then n == r
    else r <= n <= r + 1
  }

  predicate OwedOk(m: Machine) {
    && m.owed.Keys !! m.s.db.acceptances.Keys
    && (forall k | k in m.owed :: m.owed[k].acceptedAt <= m.s.now)
    && (forall i | i in m.actors && m.actors[i].Appending? ::
          m.actors[i].k in m.owed && m.owed[m.actors[i].k] == m.actors[i].evidence)
  }

  predicate ActorsOk(m: Machine) {
    forall i | i in m.actors :: ActorOk(Completed(m), m.actors[i])
  }

  ghost predicate Sound(m: Machine) {
    && Inv(Completed(m))
    && OwedOk(m)
    && ActorsOk(m)
    && (forall k :: Balanced(m, k))
  }
}
