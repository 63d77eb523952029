/**
 * Runs that reach the stores in which a conditional promise fails, one for each condition that is
 * proved exact elsewhere.
 */
module Scenarios {
  import opened Types
  import opened StateMachine
  import opened Versions
  import opened Lifecycle
  import opened Customers
  import opened Runs
  import opened Invariants
  import opened Ticks
  import opened Schedule
  import opened Backdated
  import opened Coverage
  import opened References

  // One event after another.

  /** The events are a run from the empty store that ends in s. */
  ghost predicate Reaches(events: seq<Timed>, s: Sys) {
    IsRun(START, events) && Run(START, events) == s
  }

  lemma Onwards(events: seq<Timed>, s: Sys, e: Event, at: Time) returns (more: seq<Timed>, s': Sys)
    requires Reaches(events, s) && s.now <= at && Legal(s.db, e)
    ensures Reaches(more, s') && s' == Next(s, e, at) && s'.now == at && s'.db == Apply(s.db, e, at)
  {
    hide Apply;
    more, s' := events + [Timed(at, e)], Next(s, e, at);
    assert more[..|more| - 1] == events;
  }

  lemma Start() returns (events: seq<Timed>, s: Sys)
    ensures Reaches(events, s) && s == START
  {
    events, s := [], START;
  }

  lemma WithAudience(events: seq<Timed>, s: Sys, audience: string, at: Time) returns (more: seq<Timed>, s': Sys)
    requires Reaches(events, s) && s.now <= at
    ensures Reaches(more, s') && s'.now == at && s'.db == s.db.(audiences := s.db.audiences + {audience})
  {
    hide Reaches, Next;
    more, s' := Onwards(events, s, AddAudience(audience), at);
  }

  lemma WithDocument(events: seq<Timed>, s: Sys, d: nat, document: Document, at: Time)
      returns (more: seq<Timed>, s': Sys)
    requires Reaches(events, s) && s.now <= at && d !in s.db.documents
    requires forall e | e in s.db.documents :: s.db.documents[e] != document
    ensures Reaches(more, s') && s'.now == at && s'.db == s.db.(documents := s.db.documents[d := document])
  {
    hide Reaches, Next;
    more, s' := Onwards(events, s, AddDocument(d, document), at);
  }

  lemma WithDraft(events: seq<Timed>, s: Sys, v: nat, draft: Version, at: Time) returns (more: seq<Timed>, s': Sys)
    requires Reaches(events, s) && s.now <= at && v !in s.db.versions && draft.document in s.db.documents
    requires draft.status == Draft && draft.publishedAt.None?
    ensures Reaches(more, s') && s'.now == at && s'.db == s.db.(versions := s.db.versions[v := draft])
  {
    hide Reaches, Next;
    more, s' := Onwards(events, s, SaveDraft(v, draft), at);
  }

  function Named(ref: string, roles: seq<string>): CustomerInput {
    CustomerInput(ref, None, None, None, roles, [], [], None)
  }

  lemma CreationOnlyAdds(db: Db, c: nat, input: CustomerInput, now: Time)
    requires CreateError(db, input, now).None? && c !in db.customers
    ensures var after := CreateTo(db, c, input, now);
      after == db.(customers := db.customers[c := NewCustomer(input)], states := after.states,
          acceptances := after.acceptances)
  {
  }

  lemma WithCustomer(events: seq<Timed>, s: Sys, c: nat, ref: string, roles: seq<string>, at: Time)
      returns (more: seq<Timed>, s': Sys)
    requires Reaches(events, s) && s.now <= at && c !in s.db.customers && !Blank(ref) && RolesKnown(s.db, roles)
    requires !RefConflict(s.db.customers, ref, roles, None)
    ensures Reaches(more, s') && s'.now == at
    ensures s'.db == s.db.(customers := s.db.customers[c := NewCustomer(Named(ref, roles))], states := s'.db.states,
                           acceptances := s'.db.acceptances)
  {
    hide Reaches, Next;
    var input := Named(ref, roles);
    assert Imports(s.db, input, at).Ok?;
    CreationOnlyAdds(s.db, c, input, at);
    more, s' := Onwards(events, s, CreateCustomer(c, input), at);
  }

  lemma WithPublish(events: seq<Timed>, s: Sys, v: nat, at: Time) returns (more: seq<Timed>, s': Sys)
    requires Reaches(events, s) && s.now <= at && PublishError(s.db, v).None?
    ensures Reaches(more, s') && s'.now == at && s'.db == PublishTo(s.db, v, at)
  {
    hide Reaches, Next;
    more, s' := Onwards(events, s, PublishVersion(v), at);
  }

  lemma ReachableIsInvariant(events: seq<Timed>, s: Sys)
    requires Reaches(events, s)
    ensures Inv(s)
  {
    RunKeeps(START, events);
  }

  // A push that reaches two records.

  lemma TwoRecordsReached() returns (events: seq<Timed>, s: Sys)
    ensures Reaches(events, s) && UpsertRefused(s.db, Named("x", ["aa", "bb"])).None?
    ensures ReachesTwo(s.db.customers, "x", ["aa", "bb"])
  {
    hide Reaches, Next, Effect, Apply, Inv;
    events, s := Start();
    events, s := WithAudience(events, s, "aa", 0);
    events, s := WithAudience(events, s, "bb", 0);
    assert !IsSpace("x"[0]);
    events, s := WithCustomer(events, s, 0, "x", ["aa"], 0);
    assert !Overlap(["aa"], ["bb"]);
    events, s := WithCustomer(events, s, 1, "x", ["bb"], 0);
    assert ["aa"][0] in ["aa", "bb"] && ["bb"][0] in ["aa", "bb"];
    assert IsMatch(s.db.customers, "x", ["aa", "bb"], 0) && IsMatch(s.db.customers, "x", ["aa", "bb"], 1);
  }

  // A scheduled version that an earlier one is published past.

  function PassiveDraft(document: nat, validFrom: Time): Version {
    Version(document, Draft, Passive, Some(14), None, "new terms", None, validFrom, None)
  }

  lemma PassiveIsPublishable(document: nat, validFrom: Time)
    ensures ValidateForPublish(PassiveDraft(document, validFrom)).None?
  {
    assert !IsSpace("new terms"[0]);
  }

  /** A publish ahead of time writes the version, and otherwise only rows. */
  lemma SchedulingOnlyStamps(db: Db, v: nat, now: Time)
    requires PublishError(db, v).None? && now < db.versions[v].validFrom
    ensures var after := PublishTo(db, v, now);
      after == db.(versions := db.versions[v := Stamp(db.versions[v], now)], states := after.states)
  {
  }

  /** Version 0 is scheduled for 100 when the draft of version 1, valid from 2, is saved. */
  lemma LaterOneScheduled() returns (events: seq<Timed>, s: Sys)
    ensures Reaches(events, s) && s.now == 1 && PublishError(s.db, 1).None?
    ensures s.db.versions == map[0 := Stamp(PassiveDraft(0, 100), 1), 1 := PassiveDraft(0, 2)]
  {
    hide Reaches, Next, Effect, Apply, Inv;
    events, s := Start();
    events, s := WithDocument(events, s, 0, Document("terms", "aa"), 0);
    events, s := WithDraft(events, s, 0, PassiveDraft(0, 100), 0);
    PassiveIsPublishable(0, 100);
    SchedulingOnlyStamps(s.db, 0, 1);
    events, s := WithPublish(events, s, 0, 1);
    events, s := WithDraft(events, s, 1, PassiveDraft(0, 2), 1);
    PassiveIsPublishable(0, 2);
  }

  /** Publishing version 1 at 2 and scheduling it at 1 end in different stores. */
  lemma NewerSiblingReached() returns (events: seq<Timed>, s: Sys)
    ensures Reaches(events, s) && s.now <= 1 < 2 && PublishError(s.db, 1).None? && s.db.versions[1].validFrom == 2
    ensures !NewestOfAll(s.db, 1, 1) && Scheduled(s.db, 1, 1, 2) != Restamped(Immediately(s.db, 1, 2), 1, 1)
  {
    hide Reaches, Next, Effect, Apply, Inv;
    events, s := LaterOneScheduled();
    assert 0 in Siblings(s.db.versions, 1) && !Newer(s.db.versions[1 := Stamp(s.db.versions[1], 1)], 1, 0);
    ReachableIsInvariant(events, s);
    NoDraftRow(s, 1);
    PublishNowEqualsScheduled(s.db, 1, 1, 2);
  }

  /** Publishing version 1 at 2 makes the backdated lookup wrong for some date. */
  lemma PublishOutOfOrderReached() returns (events: seq<Timed>, s: Sys, date: Time)
    ensures Reaches(events, s) && s.now <= 2 <= date && PublishError(s.db, 1).None? && !PublishInOrder(s.db, 1, 2)
    ensures var after := PublishTo(s.db, 1, 2).versions; EffectiveAt(after, 0, date) != Current(after, 0, date)
  {
    hide Reaches, Next, Effect, Apply, Inv;
    events, s := LaterOneScheduled();
    ReachableIsInvariant(events, s);
    Later(s, 2);
    assert 0 in RetiredByPublish(s.db, 1, 2) && !Newer(s.db.versions[1 := Stamp(s.db.versions[1], 2)], 1, 0);
    OrderIsNecessary(s.(now := 2), 1);
    var after := PublishTo(s.db, 1, 2).versions;
    date :| 2 <= date && EffectiveAt(after, 0, date) != Current(after, 0, date);
  }

  // A hard-blocked customer who has lost the role.

  function ActiveDraft(document: nat, validFrom: Time, hardDeadlineAt: Time): Version {
    Version(document, Draft, Active, None, Some(hardDeadlineAt), "new terms", Some("I agree"), validFrom, None)
  }

  lemma ActiveIsPublishable(document: nat, validFrom: Time, hardDeadlineAt: Time)
    requires validFrom <= hardDeadlineAt
    ensures ValidateForPublish(ActiveDraft(document, validFrom, hardDeadlineAt)).None?
  {
    assert !IsSpace("new terms"[0]) && !IsSpace("I agree"[0]);
  }

  /** A publish of the only version of the store gives each customer of the role a pending row, and nobody else one. */
  lemma OnlyVersionPublished(db: Db, v: nat, now: Time, c: nat)
    requires PublishError(db, v).None? && db.versions.Keys == {v} && NoRowOf(db, v) && c in db.customers
    ensures var after, k := PublishTo(db, v, now), Key(c, v);
      && after == db.(versions := map[v := Stamp(db.versions[v], now)], states := after.states)
      && (k in after.states <==> db.documents[db.versions[v].document].audience in db.customers[c].roles)
      && (k in after.states ==>
            after.states[k].state == PendingNotification
            && after.states[k].deadlineAt == RolloutDeadlineFor(db.versions[v]))
  {
    assert Siblings(db.versions, v) == {};
    hide Siblings, BlockedCustomers, PublishError;
  }

  /** A tick over a store with one version in force only sweeps. */
  lemma OnlyVersionStays(db: Db, v: nat, now: Time)
    requires db.versions.Keys == {v} && InForce(db.versions[v], now)
    ensures Activate(db, now) == db
  {
    assert v in InForceOf(db.versions, db.versions[v].document, now);
    assert Outdated(db.versions, db.documents.Keys, now) == {};
    SettledStays(db, db.documents.Keys, now);
  }

  lemma WithTick(events: seq<Timed>, s: Sys, v: nat, at: Time) returns (more: seq<Timed>, s': Sys)
    requires Reaches(events, s) && s.now <= at && s.db.versions.Keys == {v} && InForce(s.db.versions[v], at)
    ensures Reaches(more, s') && s'.now == at && s'.db == DeadlinePass(s.db, at)
  {
    hide Reaches, Next;
    OnlyVersionStays(s.db, v, at);
    more, s' := Onwards(events, s, HourlyTick, at);
  }

  const LOSES_ROLES := Changes(None, None, None, Some([]), None)

  lemma LosingRolesKeepsRows(db: Db, c: nat, now: Time)
    requires UpdateError(db, c, LOSES_ROLES).None?
    ensures var after := UpdateTo(db, c, LOSES_ROLES, now);
      && after == db.(customers := db.customers[c := db.customers[c].(roles := [])], states := after.states)
      && forall k | k in db.states :: k in after.states && after.states[k] == db.states[k]
  {
  }

  lemma WithoutRoles(events: seq<Timed>, s: Sys, c: nat, at: Time) returns (more: seq<Timed>, s': Sys)
    requires Reaches(events, s) && s.now <= at && c in s.db.customers && s.db.customers[c].deletedAt.None?
    ensures Reaches(more, s') && s'.now == at
    ensures s'.db == s.db.(customers := s.db.customers[c := s.db.customers[c].(roles := [])], states := s'.db.states)
    ensures forall k | k in s.db.states :: k in s'.db.states && s'.db.states[k] == s.db.states[k]
  {
    hide Reaches, Next;
    LosingRolesKeepsRows(s.db, c, at);
    more, s' := Onwards(events, s, UpdateCustomer(c, LOSES_ROLES), at);
  }

  /** Customer 0 has the role when version 0, an ACTIVE one with the deadline 2, is published. */
  lemma PendingUntilTwo() returns (events: seq<Timed>, s: Sys)
    ensures Reaches(events, s) && s.now == 1 && s.db.documents == map[0 := Document("terms", "aa")]
    ensures s.db.versions == map[0 := Stamp(ActiveDraft(0, 1, 2), 1)]
    ensures 0 in s.db.customers && s.db.customers[0].deletedAt.None?
    ensures Key(0, 0) in s.db.states && s.db.states[Key(0, 0)].state == PendingNotification
    ensures s.db.states[Key(0, 0)].deadlineAt == Some(2)
  {
    hide Reaches, Next, Effect, Apply, Inv;
    events, s := Start();
    events, s := WithAudience(events, s, "aa", 0);
    events, s := WithDocument(events, s, 0, Document("terms", "aa"), 0);
    assert !IsSpace("x"[0]);
    events, s := WithCustomer(events, s, 0, "x", ["aa"], 0);
    events, s := WithDraft(events, s, 0, ActiveDraft(0, 1, 2), 0);
    ActiveIsPublishable(0, 1, 2);
    ReachableIsInvariant(events, s);
    NoDraftRow(s, 0);
    OnlyVersionPublished(s.db, 0, 1, 0);
    events, s := WithPublish(events, s, 0, 1);
  }

  /** The tick at the deadline blocks the customer. */
  lemma HardBlocked() returns (events: seq<Timed>, s: Sys)
    ensures Reaches(events, s) && s.now == 2 && s.db.documents == map[0 := Document("terms", "aa")]
    ensures s.db.versions == map[0 := Stamp(ActiveDraft(0, 1, 2), 1)]
    ensures 0 in s.db.customers && s.db.customers[0].deletedAt.None?
    ensures Key(0, 0) in s.db.states && s.db.states[Key(0, 0)].state == ExpiredBlocking
  {
    hide Reaches, Next, Effect, Apply, Inv;
    events, s := PendingUntilTwo();
    ReachableIsInvariant(events, s);
    Later(s, 2);
    PassOutcome(s.(now := 2), Key(0, 0));
    events, s := WithTick(events, s, 0, 2);
  }

  lemma RolelessAndDraft() returns (events: seq<Timed>, s: Sys)
    ensures Reaches(events, s) && s.now == 3 && s.db.documents == map[0 := Document("terms", "aa")]
    ensures s.db.versions == map[0 := Stamp(ActiveDraft(0, 1, 2), 1), 1 := ActiveDraft(0, 10, 20)]
    ensures 0 in s.db.customers && s.db.customers[0].roles == []
    ensures Key(0, 0) in s.db.states && s.db.states[Key(0, 0)].state == ExpiredBlocking
  {
    hide Reaches, Next, Effect, Apply, Inv;
    events, s := HardBlocked();
    events, s := WithoutRoles(events, s, 0, 3);
    events, s := WithDraft(events, s, 1, ActiveDraft(0, 10, 20), 3);
  }

  /** The flip gives the blocked customer a row of version 1, the immediate publish does not. */
  lemma RolelessBlockReached() returns (events: seq<Timed>, s: Sys)
    ensures Reaches(events, s) && s.now <= 3 < 10 && PublishError(s.db, 1).None? && s.db.versions[1].validFrom == 10
    ensures NewestOfAll(s.db, 1, 3) && !BlockedHoldRole(s.db, 1)
    ensures Scheduled(s.db, 1, 3, 10) != Restamped(Immediately(s.db, 1, 10), 1, 3)
  {
    hide Reaches, Next, Effect, Apply, Inv, Scheduled, Restamped, Immediately;
    events, s := RolelessAndDraft();
    ActiveIsPublishable(0, 10, 20);
    assert Key(0, 0) in s.db.states && 0 in Siblings(s.db.versions, 1);
    ReachableIsInvariant(events, s);
    NoDraftRow(s, 1);
    PublishNowEqualsScheduled(s.db, 1, 3, 10);
  }

  // A reactivation that adds a role.

  lemma OnlyCustomerDeactivated(db: Db, c: nat, audience: string, now: Time)
    requires db.customers.Keys == {c} && db.customers[c].deletedAt.None? && audience in db.customers[c].roles
    ensures Deactivate(db, db.customers[c].externalRef, audience, now)
         == db.(customers := map[c := db.customers[c].(deletedAt := Some(now))])
  {
    var ref := db.customers[c].externalRef;
    var matches := set d | d in db.customers && IsActiveMatch(db.customers, ref, audience, d);
    assert IsActiveMatch(db.customers, ref, audience, c) && matches == {c};
  }

  lemma WithDeactivation(events: seq<Timed>, s: Sys, c: nat, audience: string, at: Time)
      returns (more: seq<Timed>, s': Sys)
    requires Reaches(events, s) && s.now <= at && s.db.customers.Keys == {c}
    requires s.db.customers[c].deletedAt.None? && audience in s.db.customers[c].roles
    ensures Reaches(more, s') && s'.now == at
    ensures s'.db == s.db.(customers := map[c := s.db.customers[c].(deletedAt := Some(at))])
  {
    hide Reaches, Next, Deactivate;
    var ref := s.db.customers[c].externalRef;
    OnlyCustomerDeactivated(s.db, c, audience, at);
    more, s' := Onwards(events, s, DeactivateCustomer(ref, audience), at);
  }

  /** Customer 0 has role aa and is deleted; version 0, for the role bb, is in force. */
  lemma DeletedBesideOtherRole() returns (events: seq<Timed>, s: Sys)
    ensures Reaches(events, s) && s.now == 2 && s.db.audiences == {"aa", "bb"}
    ensures s.db.documents == map[0 := Document("terms", "bb")]
    ensures s.db.versions == map[0 := Stamp(PassiveDraft(0, 1), 1)]
    ensures s.db.customers == map[0 := NewCustomer(Named("x", ["aa"])).(deletedAt := Some(2))]
    ensures Key(0, 0) !in s.db.states
  {
    hide Reaches, Next, Effect, Apply, Inv;
    events, s := Start();
    events, s := WithAudience(events, s, "aa", 0);
    events, s := WithAudience(events, s, "bb", 0);
    events, s := WithDocument(events, s, 0, Document("terms", "bb"), 0);
    assert !IsSpace("x"[0]);
    events, s := WithCustomer(events, s, 0, "x", ["aa"], 0);
    events, s := WithDraft(events, s, 0, PassiveDraft(0, 1), 0);
    PassiveIsPublishable(0, 1);
    ReachableIsInvariant(events, s);
    NoDraftRow(s, 0);
    OnlyVersionPublished(s.db, 0, 1, 0);
    events, s := WithPublish(events, s, 0, 1);
    events, s := WithDeactivation(events, s, 0, "aa", 2);
  }

  lemma PushRevives(db: Db, c: nat, input: CustomerInput, t: nat, now: Time)
    requires UpsertRefused(db, input).None? && IsMatch(db.customers, input.externalRef, input.roles, t)
    requires db.customers[t].deletedAt.Some? && !RefConflict(db.customers, input.externalRef, input.roles, Some(t))
    ensures Upsert(db, c, input, now) == Upserted(Reactivate(db, t, input), Revived)
    ensures Reactivate(db, t, input).error.None?
  {
    ResolvesTo(db.customers, input.externalRef, input.roles, t);
  }

  /** The role bb has a version in force, of which customer 0 has no row. */
  lemma OtherRoleUncovered(db: Db, now: Time)
    requires db.documents == map[0 := Document("terms", "bb")] && db.versions == map[0 := Stamp(PassiveDraft(0, 1), 1)]
    requires now >= 1 && Key(0, 0) !in db.states
    ensures CoveredCustomer(db, 0, ["aa"], now) && !CoveredCustomer(db, 0, ["bb"], now)
  {
    assert RolloutVersions(db, ["aa"], now) == {};
    assert ["bb"][0] == "bb" && 0 in InForceOf(db.versions, 0, now);
    assert 0 in RolloutVersions(db, ["bb"], now);
  }

  /** Nobody lacks a row; pushing the deleted record with both roles revives it without one. */
  lemma UncoveredReactivationReached() returns (events: seq<Timed>, s: Sys)
    ensures Reaches(events, s) && s.now == 2 && Covered(s.db, 2)
    ensures var pushed := Upsert(s.db, 1, Named("x", ["aa", "bb"]), 2);
      pushed.kind == Revived && !Covered(pushed.done.db, 2)
  {
    hide Reaches, Next, Effect, Apply, Inv, Upsert, Reactivate, CoveredCustomer;
    events, s := DeletedBesideOtherRole();
    var input := Named("x", ["aa", "bb"]);
    assert !IsSpace("x"[0]) && ["aa"][0] in input.roles;
    PushRevives(s.db, 1, input, 0, 2);
    OtherRoleUncovered(s.db, 2);
    ReactivationCovers(s.db, 0, input, 2);
    assert Added(["aa", "bb"], ["aa"]) == ["bb"];
  }

  // A recording on a draft.

  const LETTER := Recording(ActiveConsent, "by letter", 1)

  /** Customer 0 has the role of the draft of version 0. */
  lemma DraftForCustomer() returns (events: seq<Timed>, s: Sys)
    ensures Reaches(events, s) && s.db.documents == map[0 := Document("terms", "aa")]
    ensures s.db.versions == map[0 := PassiveDraft(0, 1)]
    ensures 0 in s.db.customers && s.db.customers[0].roles == ["aa"]
    ensures Key(0, 0) !in s.db.states
  {
    hide Reaches, Next, Effect, Apply, Inv;
    events, s := Start();
    events, s := WithAudience(events, s, "aa", 0);
    events, s := WithDocument(events, s, 0, Document("terms", "aa"), 0);
    assert !IsSpace("x"[0]);
    events, s := WithCustomer(events, s, 0, "x", ["aa"], 0);
    events, s := WithDraft(events, s, 0, PassiveDraft(0, 1), 0);
    ReachableIsInvariant(events, s);
    NoDraftRow(s, 0);
  }

  /** A recording on the draft of version 0 goes through, and the publish of that draft meets its row. */
  lemma RecordingOnDraftReached() returns (events: seq<Timed>, s: Sys)
    ensures Reaches(events, s) && s.db.versions.Keys == {0} && s.db.versions[0].status == Draft
    ensures ManualError(s.db, Key(0, 0), LETTER).None?
    ensures var after := Manual(s.db, Key(0, 0), LETTER, s.now).db;
      && PublishError(after, 0).None?
      && Key(0, 0) in after.states
      && Key(0, 0) in KeysOf(Targets(after.customers, after.documents[after.versions[0].document].audience), 0)
  {
    hide Reaches, Next, Effect, Apply, Inv;
    events, s := DraftForCustomer();
    assert !IsSpace("by letter"[0]);
    PassiveIsPublishable(0, 1);
    ReachableIsInvariant(events, s);
    hide Targets, KeysOf, ContentError;
    RecordingOnDraftCollides(s, Key(0, 0), LETTER);
  }
}
