/** The services that move one row: provable access, consent, manual recording, objection, repair, reminders. */
module ConsentServices {
  import opened Types
  import opened StateMachine
  import opened Versions
  import opened Lifecycle
  import opened Stores

  method NotifyAccess(store: Store, k: Key, now: Time) returns (error: Option<Error>)
    modifies store`states
    ensures Done(store.Snapshot(), error) == Notify(old(store.Snapshot()), k, now)
  {
    if k.version !in store.versions { return Some(VersionNotFound); }
    if k !in store.states { return Some(InvalidState); }
    var state := store.states[k];
    var updated := RecordAccess(state, now, store.versions[k.version], state.carryOverBlocking);
    if updated.Err? { return Some(updated.error); }
    store.SetNotifiedAtomically(k, updated.value);
    error := None;
  }

  /** The part of a consent between reserving and storing the idempotency key. */
  method ProcessConsent(store: Store, k: Key, displayed: Option<string>, channel: Channel, now: Time)
      returns (error: Option<Error>)
    modifies store`states, store`acceptances
    ensures Done(store.Snapshot(), error) == Consent(old(store.Snapshot()), k, displayed, channel, now)
  {
    if k.version !in store.versions { return Some(VersionNotFound); }
    var version := store.versions[k.version];
    if version.document !in store.documents { return Some(VersionNotFound); }
    var current := store.FindCurrentPublished(version.document, now);
    if current != Some(k.version) && !Upcoming(version, now) { return Some(VersionNotCurrent); }
    if k.customer !in store.customers { return Some(CustomerNotFound); }
    if store.documents[version.document].audience !in store.customers[k.customer].roles { return Some(RoleMismatch); }
    var requiresConsentText := version.mode == Active;
    if requiresConsentText {
      if displayed.None? || version.consentText.None? { return Some(ConsentTextRequired); }
      if displayed != version.consentText { return Some(ConsentTextMismatch); }
    }
    if !MethodChannelAllowed(ActiveConsent, channel) { return Some(InvalidState); }
    error := AcceptAndBook(store, k, ConsentEvidence(version, channel, now));
  }

  method RecordAcceptance(store: Store, k: Key, input: Recording, now: Time) returns (error: Option<Error>)
    modifies store`states, store`acceptances
    ensures Done(store.Snapshot(), error) == Manual(old(store.Snapshot()), k, input, now)
  {
    if Blank(input.reason) || input.evidenceBytes == 0 { return Some(InvalidState); }
    if !MethodChannelAllowed(input.how, Admin) { return Some(InvalidState); }
    if k.customer !in store.customers { return Some(CustomerNotFound); }
    if k.version !in store.versions { return Some(VersionNotFound); }
    var version := store.versions[k.version];
    if version.document !in store.documents { return Some(InvalidState); }
    if store.documents[version.document].audience !in store.customers[k.customer].roles { return Some(RoleMismatch); }
    error := AcceptAndBook(store, k, ManualEvidence(version, input, now));
  }

  /** Validate the transition, apply it conditionally on the state that was read, then append the evidence. */
  method AcceptAndBook(store: Store, k: Key, a: Acceptance) returns (error: Option<Error>)
    modifies store`states, store`acceptances
    ensures var db := old(store.Snapshot());
      match Accept(RowOrFresh(db, k), a.how)
      case Err(e) => store.Snapshot() == db && error == Some(e)
      case Ok(_) => Done(store.Snapshot(), error) == Book(db, k, RowOrFresh(db, k), a)
  {
    var state := if k in store.states then store.states[k] else FRESH_ROW;
    var accepted := Accept(state, a.how);
    if accepted.Err? { return Some(accepted.error); }
    if k in store.states {
      var transitioned := store.Transition(k, state.state, Accepted, None);
    } else {
      store.states := store.states[k := accepted.value];
    }
    error := store.AppendAcceptance(k, a);
  }

  method RecordObjection(store: Store, k: Key, now: Time) returns (error: Option<Error>)
    modifies store`states, store`objections
    ensures Done(store.Snapshot(), error) == RaiseObjection(old(store.Snapshot()), k, now)
  {
    if k.version !in store.versions { return Some(VersionNotFound); }
    if k !in store.states { return Some(InvalidState); }
    var objected := Object(store.states[k], store.versions[k.version], now);
    if objected.Err? { return Some(objected.error); }
    var transitioned := store.Transition(k, Notified, objected.value.state, None);
    if transitioned.None? { return Some(InvalidState); }
    store.objections := store.objections + [Objection(k, now)];
    error := None;
  }

  /**
   * What an admin repair may do to a row: nothing but move it to NOTIFIED, out of an objection or a
   * hard block, or give it another deadline. First access, reminders, carry-over and marker stay.
   */
  predicate IsRepair(before: Row, after: Row) {
    && after == before.(state := after.state, deadlineAt := after.deadlineAt)
    && (before.deadlineAt.Some? ==> after.deadlineAt.Some?)
    && (after.state != before.state ==>
          after.state == Notified && (before.state == Objected || before.state == ExpiredBlocking))
    && (after.state != before.state && before.state == Objected ==> after.deadlineAt == before.deadlineAt)
    && (after.state != before.state && before.state == ExpiredBlocking ==> after.deadlineAt.Some?)
  }

  method PatchState(store: Store, k: Key, input: PatchInput) returns (error: Option<Error>)
    modifies store`states
    ensures error.Some? ==> store.states == old(store.states)
    ensures error.None? ==>
      && k in old(store.states) && k in store.states && IsRepair(old(store.states)[k], store.states[k])
      && store.states == old(store.states)[k := store.states[k]]
    ensures Done(store.Snapshot(), error) == Patch(old(store.Snapshot()), k, input)
  {
    if Blank(input.reason) { return Some(InvalidState); }
    if k !in store.states { return Some(InvalidState); }
    var state := store.states[k];
    var updated := state;
    if input.reopenObjection {
      if state.state != Objected { return Some(InvalidState); }
      updated := state.(state := Notified);
    } else if input.suspendBlock {
      if state.state != ExpiredBlocking || input.deadlineAt.None? { return Some(InvalidState); }
      updated := state.(state := Notified, deadlineAt := input.deadlineAt);
    } else if input.deadlineAt.Some? {
      updated := state.(deadlineAt := input.deadlineAt);
    } else {
      return Some(InvalidState);
    }
    store.states := store.states[k := updated];
    error := None;
  }

  /** Reopening is taken back by objecting again, which is possible exactly while the period runs. */
  lemma ReopenedMayObjectAgain(db: Db, k: Key, input: PatchInput, now: Time)
    requires k in db.states && db.states[k].state == Objected && input.reopenObjection && !Blank(input.reason)
    requires k.version in db.versions && db.versions[k.version].mode == Passive
    ensures var reopened := Patch(db, k, input);
      var again := RaiseObjection(reopened.db, k, now);
      && reopened.error.None?
      && (again.error.None? <==> db.states[k].deadlineAt.Some? && now < db.states[k].deadlineAt.value)
      && (again.error.None? ==> again.db == db.(objections := db.objections + [Objection(k, now)]))
  {
    var reopened := Patch(db, k, input).db;
    assert reopened.states[k := reopened.states[k].(state := Objected)] == db.states;
  }

  /** A suspended block returns, with the new deadline, at the first sweep from that deadline on and not before. */
  lemma SuspendedBlocksAgain(db: Db, k: Key, input: PatchInput, now: Time)
    requires k in db.states && db.states[k].state == ExpiredBlocking && input.suspendBlock && !input.reopenObjection
    requires !Blank(input.reason) && k.version in db.versions && db.versions[k.version].mode == Active
    ensures var suspended := Patch(db, k, input);
      && (suspended.error.None? <==> input.deadlineAt.Some?)
      && (suspended.error.None? ==>
            var row := suspended.db.states[k];
            && (IsBlocking(row) <==> row.carryOverBlocking)
            && SweptOnto(suspended.db, k, row, now).states
               == if now < input.deadlineAt.value then suspended.db.states
                  else db.states[k := db.states[k].(deadlineAt := input.deadlineAt)])
  {
  }

  /** Sends every reminder that is due and still open, then advances the counter on the observed state. */
  method RemindOne(store: Store, k: Key, now: Time) returns (mails: nat)
    requires k in store.states && k.version in store.versions
    modifies store`states
    ensures store.states == old(store.states)[k := Reminded(old(store.states)[k], store.versions[k.version], now)]
    ensures mails == store.states[k].remindersSent - old(store.states)[k].remindersSent
  {
    mails := 0;
    var state := store.states[k];
    if store.versions[k.version].mode == Passive || state.deadlineAt.None? { return; }
    var sent := state.remindersSent;
    while sent < 2 && ThresholdDue(state.deadlineAt.value, sent, now)
      invariant mails == sent - state.remindersSent
      invariant RemindersAfter(state.deadlineAt.value, sent, now)
        == RemindersAfter(state.deadlineAt.value, state.remindersSent, now)
      decreases 2 - sent
    {
      mails, sent := mails + 1, sent + 1;
    }
    if sent != state.remindersSent {
      var updated := store.Transition(k, state.state, state.state, Some(sent));
    }
  }

  /** A reminder run never sends one threshold twice: repeating it at the same instant sends nothing. */
  lemma {:induction false} RemindersSettle(deadline: Time, sent: nat, now: Time)
    ensures RemindersAfter(deadline, sent, now) >= sent
    ensures RemindersAfter(deadline, RemindersAfter(deadline, sent, now), now) == RemindersAfter(deadline, sent, now)
    decreases 2 - sent
  {
    if sent < 2 && ThresholdDue(deadline, sent, now) { RemindersSettle(deadline, sent + 1, now); }
  }
}
