/** What the evidence says and where it comes from: how somebody agreed, through which channel, when, and to what. */
module Evidence {
  import opened Types
  import opened StateMachine
  import opened Versions
  import opened Lifecycle
  import opened Customers
  import opened Runs
  import opened Invariants
  import opened Permanence

  // Silence.

  /** An acceptance the deadline pass adds is booked as silence at that instant, on a period that has run out. */
  lemma PassBooksSilence(db: Db, now: Time, k: Key)
    requires k in DeadlinePass(db, now).acceptances && k !in db.acceptances
    ensures k in db.states && k.version in db.versions
    ensures var done, row, version := DeadlinePass(db, now), db.states[k], db.versions[k.version];
      && done.acceptances[k].how == Tacit && done.acceptances[k].channel == System
      && done.acceptances[k].acceptedAt == now && done.acceptances[k].consentText == version.consentText
      && version.mode == Passive && row.state == Notified && row.deadlineAt.Some? && row.deadlineAt.value <= now
      && k in done.states && done.states[k] == row.(state := Accepted)
  {
  }

  /** The pass moves states and adds evidence; everything else, the evidence already there included, stays. */
  lemma PassOnlyAdds(db: Db, now: Time)
    ensures var done := DeadlinePass(db, now);
      && done == db.(states := done.states, acceptances := done.acceptances)
      && (forall k | k in db.acceptances :: k in done.acceptances && done.acceptances[k] == db.acceptances[k])
      && done.states.Keys == db.states.Keys
      && (forall k | k in db.states :: done.states[k] == db.states[k].(state := done.states[k].state))
  {
    forall k | k in db.states
      ensures DeadlinePass(db, now).states[k] == db.states[k].(state := DeadlinePass(db, now).states[k].state) {
      SweepOnlyMovesState(db, k, now);
    }
  }

  /** Sweeping one row that may have changed since it was observed books nothing but silence either. */
  lemma SweepBooksSilence(db: Db, k: Key, observed: Row, now: Time, j: Key)
    requires j in SweptOnto(db, k, observed, now).acceptances && j !in db.acceptances
    ensures j == k && k in db.states && k.version in db.versions
    ensures var done, version := SweptOnto(db, k, observed, now), db.versions[k.version];
      && done.acceptances[k].how == Tacit && done.acceptances[k].channel == System
      && done.acceptances[k].acceptedAt == now && done.acceptances[k].consentText == version.consentText
      && version.mode == Passive && db.states[k].state == Notified
      && observed.deadlineAt.Some? && observed.deadlineAt.value <= now
      && done.states == db.states[k := db.states[k].(state := Accepted)]
  {
  }

  // Consent.

  /** The customer may consent to the version at that instant, whatever the row says. */
  ghost predicate MayConsent(db: Db, k: Key, now: Time) {
    && k.version in db.versions && db.versions[k.version].document in db.documents
    && (Current(db.versions, db.versions[k.version].document, now) == Some(k.version)
        || (db.versions[k.version].status == Published && db.versions[k.version].validFrom > now))
    && k.customer in db.customers
    && db.documents[db.versions[k.version].document].audience in db.customers[k.customer].roles
  }

  /**
   * A consent succeeds exactly for a version on offer, with the displayed text the version's own, on a
   * row still open.
   */
  lemma ConsentSucceedsExactly(db: Db, k: Key, displayed: Option<string>, channel: Channel, now: Time)
    ensures Consent(db, k, displayed, channel, now).error.None? <==>
      && MayConsent(db, k, now)
      && (db.versions[k.version].mode == Active ==> displayed.Some? && displayed == db.versions[k.version].consentText)
      && (channel == Portal || channel == Admin || channel == Link)
      && (k in db.states ==> db.states[k].state != Accepted && db.states[k].state != Superseded)
      && k !in db.acceptances
  {
    hide Current;
  }

  /** In a reachable store the row alone decides: no evidence stands in the way of an open one. */
  lemma ConsentSucceedsInRuns(events: seq<Timed>, k: Key, displayed: Option<string>, channel: Channel, now: Time)
    requires IsRun(START, events)
    ensures var db := Run(START, events).db;
      Consent(db, k, displayed, channel, now).error.None? <==>
      && MayConsent(db, k, now)
      && (db.versions[k.version].mode == Active ==> displayed.Some? && displayed == db.versions[k.version].consentText)
      && (channel == Portal || channel == Admin || channel == Link)
      && (k in db.states ==> db.states[k].state != Accepted && db.states[k].state != Superseded)
  {
    hide Run, IsRun, Consent, MayConsent, VersionsOk, RowOk, EvidenceOk;
    StartKeeps();
    RunKeeps(START, events);
    var s := Run(START, events);
    ConsentSucceedsExactly(s.db, k, displayed, channel, now);
    if k in s.db.states { assert RowAtOk(s, k) && EvidenceAtOk(s, k); }
  }

  /** What a successful consent leaves: the row ACCEPTED and otherwise as it was, and evidence of what was shown. */
  lemma ConsentBooks(db: Db, k: Key, displayed: Option<string>, channel: Channel, now: Time)
    requires Consent(db, k, displayed, channel, now).error.None?
    ensures var done := Consent(db, k, displayed, channel, now).db;
      && k in done.states && k in done.acceptances && k.version in db.versions
      && done == db.(states := db.states[k := done.states[k]], acceptances := db.acceptances[k := done.acceptances[k]])
      && done.states[k] == (if k in db.states then db.states[k].(state := Accepted)
                            else Row(Accepted, None, None, 0, false, None))
      && done.acceptances[k].how == ActiveConsent && done.acceptances[k].channel == channel
      && done.acceptances[k].acceptedAt == now
      && done.acceptances[k].consentText == (if db.versions[k.version].mode == Active then displayed else None)
  {
    hide Current;
  }

  /** Each refusal names a cause that is there. */
  lemma RefusalNamesCause(db: Db, k: Key, displayed: Option<string>, channel: Channel, now: Time)
    requires Consent(db, k, displayed, channel, now).error.Some?
    ensures var error := Consent(db, k, displayed, channel, now).error.value;
      if k.version !in db.versions
        || db.versions[k.version].document !in db.documents then error == VersionNotFound else
      var version := db.versions[k.version];
      match error
      case VersionNotCurrent =>
        Current(db.versions, version.document, now) != Some(k.version)
        && (version.status != Published || version.validFrom <= now)
      case CustomerNotFound => k.customer !in db.customers
      case RoleMismatch =>
        k.customer in db.customers && db.documents[version.document].audience !in db.customers[k.customer].roles
      case ConsentTextRequired => version.mode == Active && (displayed.None? || version.consentText.None?)
      case ConsentTextMismatch => version.mode == Active && displayed.Some? && displayed != version.consentText
      case AlreadyAccepted => k in db.acceptances || (k in db.states && db.states[k].state == Accepted)
      case InvalidState => channel == System || (k in db.states && db.states[k].state == Superseded)
      case _ => false
  {
    hide Current;
  }

  // Manual recording.

  /** A recording succeeds exactly with a reason and a document, by consent or import, on a row still open. */
  lemma RecordingSucceedsExactly(db: Db, k: Key, input: Recording, now: Time)
    ensures Manual(db, k, input, now).error.None? <==>
      && (exists i | 0 <= i < |input.reason| :: !IsSpace(input.reason[i]))
      && input.evidenceBytes > 0 && (input.how == ActiveConsent || input.how == Import)
      && k.customer in db.customers
      && k.version in db.versions && db.versions[k.version].document in db.documents
      && db.documents[db.versions[k.version].document].audience in db.customers[k.customer].roles
      && (k in db.states ==> db.states[k].state != Accepted && db.states[k].state != Superseded)
      && k !in db.acceptances
  {
  }

  lemma RecordingRefusalNamesCause(db: Db, k: Key, input: Recording, now: Time)
    requires Manual(db, k, input, now).error.Some?
    ensures match Manual(db, k, input, now).error.value
      case CustomerNotFound => k.customer !in db.customers
      case VersionNotFound => k.version !in db.versions
      case RoleMismatch =>
        && k.customer in db.customers && k.version in db.versions && db.versions[k.version].document in db.documents
        && db.documents[db.versions[k.version].document].audience !in db.customers[k.customer].roles
      case AlreadyAccepted => k in db.acceptances || (k in db.states && db.states[k].state == Accepted)
      case InvalidState =>
        || (forall i | 0 <= i < |input.reason| :: IsSpace(input.reason[i]))
        || input.evidenceBytes == 0 || input.how == Tacit
        || (k.version in db.versions && db.versions[k.version].document !in db.documents)
        || (k in db.states && db.states[k].state == Superseded)
      case _ => false
  {
  }

  lemma RecordingBooks(db: Db, k: Key, input: Recording, now: Time)
    requires Manual(db, k, input, now).error.None?
    ensures var done := Manual(db, k, input, now).db;
      && k in done.states && k in done.acceptances && k.version in db.versions
      && done == db.(states := db.states[k := done.states[k]], acceptances := db.acceptances[k := done.acceptances[k]])
      && done.states[k] == (if k in db.states then db.states[k].(state := Accepted)
                            else Row(Accepted, None, None, 0, false, None))
      && done.acceptances[k].how == input.how && done.acceptances[k].channel == Admin
      && done.acceptances[k].acceptedAt == now
      && done.acceptances[k].consentText
         == (if input.how == ActiveConsent then db.versions[k.version].consentText else None)
  {
  }

  // Objection.

  /** An objection succeeds exactly to a notified row of a PASSIVE version while the period runs. */
  lemma ObjectionSucceedsExactly(db: Db, k: Key, now: Time)
    ensures var done := RaiseObjection(db, k, now);
      && (done.error.None? <==>
            && k.version in db.versions && k in db.states
            && db.versions[k.version].mode == Passive && db.states[k].state == Notified
            && db.states[k].deadlineAt.Some? && now < db.states[k].deadlineAt.value)
      && (done.error.Some? ==>
            && done.db == db
            && match done.error.value
               case VersionNotFound => k.version !in db.versions
               case ObjectionNotApplicable => k.version in db.versions && db.versions[k.version].mode == Active
               case ObjectionPeriodExpired =>
                 k in db.states && (db.states[k].deadlineAt.None? || db.states[k].deadlineAt.value <= now)
               case InvalidState => k in db.states ==> db.states[k].state != Notified
               case _ => false)
      && (done.error.None? ==>
            done.db == db.(states := db.states[k := db.states[k].(state := Objected)],
                           objections := db.objections + [Objection(k, now)]))
  {
  }

  // Where evidence comes from.

  /** The acceptance of k is what the event says was agreed, at the instant of the event. */
  predicate BookedBy(version: Version, k: Key, e: Timed, a: Acceptance) {
    match e.event
    case GiveConsent(j, displayed, channel) =>
      && j == k && a.how == ActiveConsent && a.channel == channel && channel != System && a.acceptedAt == e.at
      && a.consentText == (if version.mode == Active then displayed else None)
    case RecordManually(j, recording) =>
      && j == k && a.how == recording.how && a.how != Tacit && a.channel == Admin && a.acceptedAt == e.at
      && a.consentText == (if recording.how == ActiveConsent then version.consentText else None)
    case HourlyTick =>
      && a.how == Tacit && a.channel == System && a.acceptedAt == e.at
      && a.consentText == version.consentText && version.mode == Passive
    case CreateCustomer(c, input) =>
      && k.customer == c && a.how == Import && a.channel == Admin && a.consentText == None
      && ImportDated(input, k.version, e.at, a.acceptedAt)
    case _ => false
  }

  /** The date an import gives a version: its own entry's, else that of the signed documents. */
  predicate ImportDated(input: CustomerInput, v: nat, now: Time, date: Time) {
    if exists i | 0 <= i < |input.acceptedVersions| :: input.acceptedVersions[i].version == v then
      exists i | 0 <= i < |input.acceptedVersions| ::
        && input.acceptedVersions[i].version == v
        && date == (if input.acceptedVersions[i].acceptedAt.Some? then input.acceptedVersions[i].acceptedAt.value
             else now)
    else input.signed.Some? && date == input.signed.value.effectiveDate
  }

  lemma {:induction false} ExplicitDated(db: Db, entries: seq<ImportRequest>, n: nat, roles: seq<string>, now: Time,
      v: nat)
    requires n <= |entries| && ValidateImports(db, entries, n, roles, now).Ok?
    ensures var dates := ValidateImports(db, entries, n, roles, now).value;
      && (v in dates <==> exists i | 0 <= i < n :: entries[i].version == v)
      && (v in dates ==> exists i | 0 <= i < n ::
            && entries[i].version == v
            && dates[v] == (if entries[i].acceptedAt.Some? then entries[i].acceptedAt.value else now))
  {
    hide ImportError;
    if n > 0 {
      ExplicitDated(db, entries, n - 1, roles, now, v);
      if v == entries[n - 1].version { assert entries[n - 1].version == v; }
    }
  }

  lemma ImportsDated(db: Db, input: CustomerInput, now: Time, v: nat)
    requires Imports(db, input, now).Ok? && v in Imports(db, input, now).value
    ensures ImportDated(input, v, now, Imports(db, input, now).value[v])
  {
    hide ValidateImports, ResolveSigned;
    ExplicitDated(db, input.acceptedVersions, |input.acceptedVersions|, input.roles, now, v);
  }

  lemma CreationBooks(db: Db, c: nat, input: CustomerInput, now: Time, k: Key)
    requires k in Create(db, c, input, now).db.acceptances && k !in db.acceptances
    ensures var a := Create(db, c, input, now).db.acceptances[k];
      && k.customer == c && a.how == Import && a.channel == Admin && a.consentText == None
      && ImportDated(input, k.version, now, a.acceptedAt)
  {
    hide RolloutVersions, OnboardRows, NewCustomer, Imports, ImportDated;
    ImportsDated(db, input, now, k.version);
  }

  lemma PushBooksNothing(db: Db, c: nat, input: CustomerInput, now: Time, k: Key)
    requires k in Upsert(db, c, input, now).done.db.acceptances
    ensures k in db.acceptances
  {
    hide Create, Update, Upsert, Reactivated, Resolve;
    var t, changes := UpsertCases(db, c, input, now);
    if Upsert(db, c, input, now).done.db == Create(db, c, Plain(input), now).db && k !in db.acceptances {
      CreationBooks(db, c, Plain(input), now, k);
    }
    UpdateBooksNothing(db, t, changes, now);
  }

  lemma UpdateBooksNothing(db: Db, c: nat, changes: Changes, now: Time)
    ensures Update(db, c, changes, now).db.acceptances == db.acceptances
  {
    hide Changed, RolloutVersions, OnboardRows;
  }

  lemma AdministrationBooks(s: Sys, e: Event, k: Key)
    requires IsAdministration(e) && k in Effect(s, e).db.acceptances && k !in s.db.acceptances
    ensures e.CreateCustomer? && e.c !in s.db.customers && k in Create(s.db, e.c, e.input, s.now).db.acceptances
    ensures Effect(s, e).db.acceptances[k] == Create(s.db, e.c, e.input, s.now).db.acceptances[k]
  {
    hide Create, Update, Upsert;
    match e
    case UpdateCustomer(c, changes) => UpdateBooksNothing(s.db, c, changes, s.now);
    case UpsertCustomer(c, input) => if c !in s.db.customers { PushBooksNothing(s.db, c, input, s.now, k); }
    case _ =>
  }

  lemma TickBooks(s: Sys, k: Key)
    requires k in Effect(s, HourlyTick).db.acceptances && k !in s.db.acceptances
    ensures k.version in s.db.versions
    ensures BookedBy(s.db.versions[k.version], k, Timed(s.now, HourlyTick), Effect(s, HourlyTick).db.acceptances[k])
  {
    hide FlippedStates, OpenRows, Outdated, DeadlinePass;
    PassBooksSilence(Activate(s.db, s.now), s.now, k);
  }

  lemma RequestBooks(s: Sys, e: Event, k: Key)
    requires e.GiveConsent? || e.RecordManually?
    requires k in Effect(s, e).db.acceptances && k !in s.db.acceptances
    ensures k.version in s.db.versions
    ensures BookedBy(s.db.versions[k.version], k, Timed(s.now, e), Effect(s, e).db.acceptances[k])
  {
    hide ConsentError, ManualError;
    match e
    case GiveConsent(j, displayed, channel) =>
      if Consent(s.db, j, displayed, channel, s.now).error.None? {
        ConsentBooks(s.db, j, displayed, channel, s.now);
        ConsentSucceedsExactly(s.db, j, displayed, channel, s.now);
      }
    case RecordManually(j, recording) =>
      if Manual(s.db, j, recording, s.now).error.None? {
        RecordingBooks(s.db, j, recording, s.now);
        RecordingSucceedsExactly(s.db, j, recording, s.now);
      }
  }

  lemma CreateBooks(s: Sys, c: nat, input: CustomerInput, k: Key)
    requires c !in s.db.customers
    requires k in Create(s.db, c, input, s.now).db.acceptances && k !in s.db.acceptances
    ensures k.version in s.db.versions
    ensures BookedBy(s.db.versions[k.version], k, Timed(s.now, CreateCustomer(c, input)),
                     Create(s.db, c, input, s.now).db.acceptances[k])
  {
    hide ImportDated, Create;
    CreationBooks(s.db, c, input, s.now, k);
    ImportedVersionExists(s.db, c, input, s.now, k);
  }

  lemma ImportedVersionExists(db: Db, c: nat, input: CustomerInput, now: Time, k: Key)
    requires k in Create(db, c, input, now).db.acceptances && k !in db.acceptances
    ensures k.version in db.versions
  {
    hide Imports, RolloutVersions, OnboardRows, NewCustomer;
    ImportsPublished(db, input, now);
  }

  lemma QuietOperations(s: Sys, e: Event)
    requires !IsAdministration(e) && !e.GiveConsent? && !e.RecordManually? && !e.HourlyTick?
    ensures Effect(s, e).db.acceptances == s.db.acceptances
  {
    hide PatchedRow, RecordAccess, Object, Reminded, FlippedStates, OpenRows, Outdated, PublishError;
    match e
    case PublishVersion(_) =>
    case ActivationRun =>
    case Access(_) =>
    case ObjectTo(_) =>
    case PatchState(_, _) =>
    case ClearNotificationDue(_) =>
    case SendReminders(_) =>
  }

  /** One event adds evidence only of the kind the event stands for. */
  lemma StepBooks(s: Sys, e: Event, k: Key)
    requires k in Effect(s, e).db.acceptances && k !in s.db.acceptances
    ensures k.version in s.db.versions && Books(e)
    ensures BookedBy(s.db.versions[k.version], k, Timed(s.now, e), Effect(s, e).db.acceptances[k])
  {
    hide Effect, BookedBy;
    if IsAdministration(e) {
      AdministrationBooks(s, e, k);
      CreateBooks(s, e.c, e.input, k);
    } else if e.GiveConsent? || e.RecordManually? {
      RequestBooks(s, e, k);
    } else if e.HourlyTick? {
      TickBooks(s, k);
    } else {
      QuietOperations(s, e);
    }
  }

  /** The acceptance of k was booked by the event at position i, and by none before. */
  ghost predicate BookedAt(events: seq<Timed>, i: nat, k: Key)
    requires i < |events|
  {
    var s := Run(START, events);
    && k !in Run(START, events[..i]).db.acceptances
    && k in s.db.acceptances && k.version in s.db.versions
    && BookedBy(s.db.versions[k.version], k, events[i], s.db.acceptances[k])
  }

  /** What an event says of the text and the mode outlives the retirement of the version. */
  lemma BookedByStays(before: Version, after: Version, k: Key, e: Timed, a: Acceptance)
    requires BookedBy(before, k, e, a) && (after == before || after == before.(status := Retired))
    ensures BookedBy(after, k, e, a)
  {
  }

  /** Only these four events book anything. */
  predicate Books(e: Event) {
    e.GiveConsent? || e.RecordManually? || e.HourlyTick? || e.CreateCustomer?
  }

  lemma BookingKeepsContent(s: Sys, e: Event, v: nat)
    requires Books(e) && v in s.db.versions
    ensures v in Effect(s, e).db.versions
    ensures var before, after := s.db.versions[v], Effect(s, e).db.versions[v];
      after == before || after == before.(status := Retired)
  {
    hide Create, ConsentError, ManualError, FlippedStates, OpenRows, Outdated;
    match e
    case GiveConsent(_, _, _) =>
    case RecordManually(_, _) =>
    case HourlyTick =>
    case CreateCustomer(c, input) => CreateWrites(s.db, c, input, s.now);
  }

  lemma AcceptedIsPublished(s: Sys, k: Key)
    requires Inv(s) && k in s.db.acceptances
    ensures k.version in s.db.versions && s.db.versions[k.version].status != Draft
  {
    hide VersionsOk, EvidenceOk;
    assert RowAtOk(s, k);
  }

  /**
   * Every acceptance in a reachable store goes back to one event, which says how, through what, when
   * and to which text.
   */
  lemma {:induction false} EvidenceHasItsEvent(events: seq<Timed>, k: Key) returns (i: nat)
    requires IsRun(START, events) && k in Run(START, events).db.acceptances
    ensures i < |events| && BookedAt(events, i, k)
  {
    hide Effect, BookedBy, Legal, RowOk, VersionsOk, EvidenceOk;
    var rest, last := events[..|events| - 1], events[|events| - 1];
    var before := Run(START, rest).(now := last.at);
    StartKeeps();
    RunKeeps(START, rest);
    Later(Run(START, rest), last.at);
    StepPersists(before, last.event);
    if k in before.db.acceptances {
      i := EvidenceHasItsEvent(rest, k);
      assert rest[..i] == events[..i];
      AcceptedIsPublished(before, k);
      BookedByStays(before.db.versions[k.version], Run(START, events).db.versions[k.version], k, events[i],
                    before.db.acceptances[k]);
    } else {
      i := |events| - 1;
      StepBooks(before, last.event, k);
      BookingKeepsContent(before, last.event, k.version);
      BookedByStays(before.db.versions[k.version], Run(START, events).db.versions[k.version], k, last,
                    Run(START, events).db.acceptances[k]);
    }
  }

  /** Nobody consents by silence: behind each kind of evidence stands an event of that kind, for that very row. */
  lemma WhoAgreed(events: seq<Timed>, k: Key) returns (i: nat)
    requires IsRun(START, events) && k in Run(START, events).db.acceptances
    ensures i < |events| && k !in Run(START, events[..i]).db.acceptances
    ensures var a, e := Run(START, events).db.acceptances[k], events[i].event;
      && (a.how == ActiveConsent ==> (e.GiveConsent? || e.RecordManually?) && e.k == k)
      && (a.how == Import ==> (e.RecordManually? && e.k == k) || (e.CreateCustomer? && e.c == k.customer))
      && (a.how == Tacit <==> e.HourlyTick?) && (a.channel == System <==> e.HourlyTick?)
  {
    hide Run, IsRun;
    i := EvidenceHasItsEvent(events, k);
  }

  lemma {:induction false} EvidenceStays(events: seq<Timed>, i: nat, k: Key)
    requires IsRun(START, events) && i <= |events| && k in Run(START, events[..i]).db.acceptances
    ensures k in Run(START, events).db.acceptances
    ensures Run(START, events).db.acceptances[k] == Run(START, events[..i]).db.acceptances[k]
    ensures k.version in Run(START, events[..i]).db.versions && k.version in Run(START, events).db.versions
  {
    hide Effect, Legal, RowOk, VersionsOk, EvidenceOk;
    StartKeeps();
    RunKeeps(START, events);
    if i == |events| {
      assert events[..i] == events;
      assert RowAtOk(Run(START, events), k);
    } else {
      var rest, last := events[..|events| - 1], events[|events| - 1];
      assert rest[..i] == events[..i];
      EvidenceStays(rest, i, k);
      RunKeeps(START, rest);
      Later(Run(START, rest), last.at);
      StepPersists(Run(START, rest).(now := last.at), last.event);
      assert RowAtOk(Run(START, events), k);
    }
  }

  /** What a customer consented to stays on record for good: the text displayed, the channel and the instant. */
  lemma ConsentStaysOnRecord(events: seq<Timed>, i: nat)
    requires IsRun(START, events) && i < |events| && events[i].event.GiveConsent?
    requires var before, e := Run(START, events[..i]).db, events[i].event;
      Consent(before, e.k, e.displayed, e.channel, events[i].at).error.None?
    ensures var before, e := Run(START, events[..i]).db, events[i].event;
      && e.k.version in before.versions && e.k in Run(START, events).db.acceptances
      && Run(START, events).db.acceptances[e.k]
         == Acceptance(ActiveConsent, e.channel, events[i].at,
                       if before.versions[e.k.version].mode == Active then e.displayed else None)
  {
    hide Consent, IsRun, Run, Next;
    var e, before := events[i].event, Run(START, events[..i]);
    ConsentRecorded(before, e.k, e.displayed, e.channel, events[i].at);
    RunTakesStep(events, i);
    EvidenceStays(events, i + 1, e.k);
  }

  lemma ConsentRecorded(s: Sys, k: Key, displayed: Option<string>, channel: Channel, at: Time)
    requires Consent(s.db, k, displayed, channel, at).error.None?
    ensures k.version in s.db.versions
    ensures var after := Next(s, GiveConsent(k, displayed, channel), at).db.acceptances;
      && k in after
      && after[k] == Acceptance(ActiveConsent, channel, at,
                                if s.db.versions[k.version].mode == Active then displayed else None)
  {
    hide Consent;
    ConsentBooks(s.db, k, displayed, channel, at);
  }

  lemma RunTakesStep(events: seq<Timed>, i: nat)
    requires i < |events|
    ensures Run(START, events[..i + 1]) == Next(Run(START, events[..i]), events[i].event, events[i].at)
  {
    hide Next;
    assert events[..i + 1][..i] == events[..i];
  }
}
