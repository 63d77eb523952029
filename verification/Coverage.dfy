/**
 * Every customer has exactly one rollout row for each current or upcoming version of its roles:
 * rows are never missing, and no insert ever meets an existing row of the same pair.
 */
module Coverage {
  import opened Types
  import opened Versions
  import opened Lifecycle
  import opened Customers
  import opened Runs
  import opened Invariants
  import opened Permanence
  import opened Ticks

  ghost predicate CoveredCustomer(db: Db, c: nat, roles: seq<string>, now: Time) {
    forall v | v in RolloutVersions(db, roles, now) :: Key(c, v) in db.states
  }

  ghost predicate Covered(db: Db, now: Time) {
    forall c | c in db.customers :: CoveredCustomer(db, c, db.customers[c].roles, now)
  }

  // Current and upcoming versions over time and events.

  /** As time passes versions become current, but none enters the rollout set that was not in it. */
  lemma RolloutShrinks(db: Db, roles: seq<string>, before: Time, now: Time)
    requires before <= now
    ensures RolloutVersions(db, roles, now) <= RolloutVersions(db, roles, before)
  {
    forall v | v in RolloutVersions(db, roles, now) ensures v in RolloutVersions(db, roles, before) {
      var d := db.versions[v].document;
      if db.versions[v].validFrom <= before {
        assert InForceOf(db.versions, d, before) <= InForceOf(db.versions, d, now);
        assert v in InForceOf(db.versions, d, before);
      }
    }
  }

  /** Stores that agree on the published versions of a document agree on its current version. */
  lemma SameCurrent(a: map<nat, Version>, b: map<nat, Version>, d: nat, now: Time)
    requires forall v | v in a && a[v].document == d && InForce(a[v], now) :: v in b && b[v] == a[v]
    requires forall v | v in b && b[v].document == d && InForce(b[v], now) :: v in a && b[v] == a[v]
    ensures Current(a, d, now) == Current(b, d, now)
  {
    assert InForceOf(a, d, now) == InForceOf(b, d, now);
  }

  /** Coverage is inherited when rows persist and no customer gets a new obligation. */
  lemma CoverageInherited(before: Db, after: Db, now: Time)
    requires Covered(before, now) && RowsPersist(before, after) && after.customers.Keys == before.customers.Keys
    requires forall c, v | c in after.customers && v in RolloutVersions(after, after.customers[c].roles, now) ::
      v in RolloutVersions(before, before.customers[c].roles, now) || Key(c, v) in after.states
    ensures Covered(after, now)
  {
    forall c, v | c in after.customers && v in RolloutVersions(after, after.customers[c].roles, now)
      ensures Key(c, v) in after.states
    {
      assert CoveredCustomer(before, c, before.customers[c].roles, now);
    }
  }

  // Events.

  lemma DraftsCover(s: Sys, after: Db)
    requires Inv(s) && Covered(s.db, s.now) && after == s.db.(versions := after.versions)
    requires forall v | v in s.db.versions && s.db.versions[v].status != Draft ::
      v in after.versions && after.versions[v] == s.db.versions[v]
    requires forall v | v in after.versions && after.versions[v].status != Draft ::
      v in s.db.versions && after.versions[v] == s.db.versions[v]
    ensures Covered(after, s.now)
  {
    forall c, v | c in after.customers && v in RolloutVersions(after, after.customers[c].roles, s.now)
      ensures v in RolloutVersions(s.db, s.db.customers[c].roles, s.now)
    {
      var d := after.versions[v].document;
      SameCurrent(after.versions, s.db.versions, d, s.now);
      if Current(after.versions, d, s.now) == Some(v) { assert v in InForceOf(after.versions, d, s.now); }
    }
    CoverageInherited(s.db, after, s.now);
  }

  lemma DocumentsCover(s: Sys, id: nat, document: Document)
    requires Inv(s) && Covered(s.db, s.now)
    ensures Covered(AddDocumentTo(s.db, id, document), s.now)
  {
    CoverageInherited(s.db, AddDocumentTo(s.db, id, document), s.now);
  }

  lemma PublishedIsOnlyRollout(db: Db, v: nat, now: Time, w: nat, roles: seq<string>)
    requires PublishError(db, v).None? && w in RolloutVersions(PublishTo(db, v, now), roles, now)
    ensures w == v || w in RolloutVersions(db, roles, now)
  {
    var after := PublishTo(db, v, now).versions;
    var d := after[w].document;
    if w != v && !(db.versions[v].validFrom <= now && d == db.versions[v].document) {
      SameCurrent(after, db.versions, d, now);
    }
  }

  lemma PublishCovers(s: Sys, v: nat)
    requires Inv(s) && Covered(s.db, s.now)
    ensures Covered(Publish(s.db, v, s.now).db, s.now)
  {
    if PublishError(s.db, v).None? {
      var after := PublishTo(s.db, v, s.now);
      PublishPersists(s, v);
      forall c, w | c in after.customers && w in RolloutVersions(after, after.customers[c].roles, s.now)
        ensures w in RolloutVersions(s.db, s.db.customers[c].roles, s.now) || Key(c, w) in after.states
      {
        PublishedIsOnlyRollout(s.db, v, s.now, w, after.customers[c].roles);
        if w == v {
          assert c in Targets(s.db.customers, s.db.documents[s.db.versions[v].document].audience);
          assert Key(c, v) in KeysOf(Targets(s.db.customers, s.db.documents[s.db.versions[v].document].audience), v);
        }
      }
      CoverageInherited(s.db, after, s.now);
    }
  }

  lemma ActivationCovers(db: Db, now: Time)
    requires Covered(db, now)
    ensures Covered(Activate(db, now), now)
  {
    var after := Activate(db, now);
    ActivationPersists(db, now);
    forall c, v | c in after.customers && v in RolloutVersions(after, after.customers[c].roles, now)
      ensures v in RolloutVersions(db, db.customers[c].roles, now)
    {
      OneInForce(db, db.documents.Keys, db.versions[v].document, now);
    }
    CoverageInherited(db, after, now);
  }

  lemma OnboardedIsCovered(db: Db, c: nat, roles: seq<string>, now: Time)
    ensures CoveredCustomer(Onboard(db, c, roles, now), c, roles, now)
  {
    var after := Onboard(db, c, roles, now);
    assert RolloutVersions(after, roles, now) == RolloutVersions(db, roles, now);
    forall v | v in RolloutVersions(db, roles, now) ensures Key(c, v) in after.states {
      assert Key(c, v) in KeysFor(c, RolloutVersions(db, roles, now));
    }
  }

  lemma {:induction false} AddedComplete(next: seq<string>, previous: seq<string>, role: string)
    requires role in next
    ensures role in previous || role in Added(next, previous)
  {
    if role != next[0] { AddedComplete(next[1..], previous, role); }
  }

  /** Replacing a customer's roles is safe when the new ones are covered. */
  lemma CustomerCovers(db: Db, c: nat, customer: Customer, after: Db, now: Time)
    requires Covered(db, now) && RowsPersist(db, after)
    requires after
      == db.(customers := db.customers[c := customer], states := after.states, acceptances := after.acceptances)
    requires CoveredCustomer(after, c, customer.roles, now)
    ensures Covered(after, now)
  {
    forall b | b in after.customers ensures CoveredCustomer(after, b, after.customers[b].roles, now) {
      if b != c {
        assert CoveredCustomer(db, b, db.customers[b].roles, now);
        assert RolloutVersions(after, db.customers[b].roles, now) == RolloutVersions(db, db.customers[b].roles, now);
      }
    }
  }

  lemma UpdateCovers(db: Db, c: nat, changes: Changes, now: Time)
    requires Covered(db, now)
    ensures Covered(Update(db, c, changes, now).db, now)
  {
    if UpdateError(db, c, changes).None? {
      var customer := Changed(db.customers[c], changes);
      var after := UpdateTo(db, c, changes, now);
      var added := if changes.roles.Some? then Added(changes.roles.value, db.customers[c].roles) else [];
      var saved := db.(customers := db.customers[c := customer]);
      OnboardPersists(saved, c, added, now);
      OnboardedIsCovered(saved, c, added, now);
      assert CoveredCustomer(db, c, db.customers[c].roles, now);
      forall v | v in RolloutVersions(after, customer.roles, now) ensures Key(c, v) in after.states {
        var role := db.documents[db.versions[v].document].audience;
        if changes.roles.Some? { AddedComplete(customer.roles, db.customers[c].roles, role); }
        assert v in RolloutVersions(db, db.customers[c].roles, now) || v in RolloutVersions(after, added, now);
      }
      CustomerCovers(db, c, customer, after, now);
    }
  }

  lemma CreateCovers(s: Sys, c: nat, input: CustomerInput)
    requires Inv(s) && Covered(s.db, s.now) && c !in s.db.customers
    ensures Covered(Create(s.db, c, input, s.now).db, s.now)
  {
    if CreateError(s.db, input, s.now).None? {
      var after := CreateTo(s.db, c, input, s.now);
      var imported :=
        ImportAll(s.db.(customers := s.db.customers[c := NewCustomer(input)]), c, Imports(s.db, input, s.now).value);
      CreatePersists(s, c, input);
      OnboardedIsCovered(imported, c, input.roles, s.now);
      CustomerCovers(s.db, c, NewCustomer(input), after, s.now);
    }
  }

  lemma {:induction false} AddedOnly(next: seq<string>, previous: seq<string>, role: string)
    requires role in Added(next, previous)
    ensures role in next && role !in previous
  {
    if next[0] in previous || role != next[0] { AddedOnly(next[1..], previous, role); }
  }

  /** Only the roles a customer did not have yet can lack rows. */
  lemma AddedRolesDecide(db: Db, c: nat, roles: seq<string>, now: Time)
    requires Covered(db, now) && c in db.customers
    ensures CoveredCustomer(db, c, roles, now) <==> CoveredCustomer(db, c, Added(roles, db.customers[c].roles), now)
  {
    var had := db.customers[c].roles;
    assert CoveredCustomer(db, c, had, now);
    forall v | v in RolloutVersions(db, Added(roles, had), now) ensures v in RolloutVersions(db, roles, now) {
      AddedOnly(roles, had, db.documents[db.versions[v].document].audience);
    }
    forall v | v in RolloutVersions(db, roles, now)
      ensures v in RolloutVersions(db, had, now) || v in RolloutVersions(db, Added(roles, had), now)
    {
      AddedComplete(roles, had, db.documents[db.versions[v].document].audience);
    }
  }

  /**
   * Reactivation does not roll out: it keeps coverage exactly when the roles it adds have no current
   * or upcoming version without a row. A push that adds no role always does.
   */
  lemma ReactivationCovers(db: Db, c: nat, input: CustomerInput, now: Time)
    requires Covered(db, now) && c in db.customers && Reactivate(db, c, input).error.None?
    ensures Covered(Reactivate(db, c, input).db, now)
      <==> CoveredCustomer(db, c, Added(input.roles, db.customers[c].roles), now)
  {
    AddedRolesDecide(db, c, input.roles, now);
    var after := Reactivate(db, c, input).db;
    assert RolloutVersions(after, input.roles, now) == RolloutVersions(db, input.roles, now);
    if CoveredCustomer(db, c, input.roles, now) {
      CustomerCovers(db, c, Reactivated(db.customers[c], input), after, now);
    }
    if Covered(after, now) { assert CoveredCustomer(after, c, after.customers[c].roles, now); }
  }

  /** A reactivation, if this upsert is one, gives the customer no uncovered role. */
  ghost predicate RevivesCovered(db: Db, c: nat, input: CustomerInput, now: Time) {
    Upsert(db, c, input, now).kind == Revived ==>
      var target := Resolve(db.customers, input.externalRef, input.roles);
      target.Some? && CoveredCustomer(db, target.value, Added(input.roles, db.customers[target.value].roles), now)
  }

  lemma UpsertCovers(s: Sys, c: nat, input: CustomerInput)
    requires Inv(s) && Covered(s.db, s.now) && c !in s.db.customers && RevivesCovered(s.db, c, input, s.now)
    ensures Covered(Upsert(s.db, c, input, s.now).done.db, s.now)
  {
    var target := Resolve(s.db.customers, input.externalRef, input.roles);
    var after := Upsert(s.db, c, input, s.now).done.db;
    if target.None? {
      CreateCovers(s, c, input.(acceptedVersions := [], signed := None));
    } else if s.db.customers[target.value].deletedAt.Some? {
      if after != s.db { ReactivationCovers(s.db, target.value, input, s.now); }
    } else {
      UpdateCovers(s.db, target.value, Diff(s.db.customers[target.value], input), s.now);
    }
  }

  lemma SameCatalogueCovers(db: Db, after: Db, now: Time)
    requires Covered(db, now) && SameCatalogue(db, after) && Persists(db, after)
    ensures Covered(after, now)
  {
    hide Current, EvidencePersists, ContentPersists;
    forall c | c in after.customers
      ensures RolloutVersions(after, after.customers[c].roles, now) == RolloutVersions(db, db.customers[c].roles, now)
    {
    }
    CoverageInherited(db, after, now);
  }

  lemma OtherOperationsCover(s: Sys, e: Event)
    requires Inv(s) && Covered(s.db, s.now) && !IsAdministration(e)
    requires !e.PublishVersion? && !e.ActivationRun? && !e.HourlyTick?
    ensures Covered(Effect(s, e).db, s.now)
  {
    hide Inv, Effect, Covered, Persists, SameCatalogue;
    RowOperationsKeepCatalogue(s, e);
    StepPersists(s, e);
    SameCatalogueCovers(s.db, Effect(s, e).db, s.now);
  }

  lemma DraftSaveCovers(s: Sys, v: nat, draft: Version)
    requires Inv(s) && Covered(s.db, s.now)
    ensures Covered(SaveDraftTo(s.db, v, draft), s.now)
  {
    hide Inv, Covered;
    DraftsCover(s, SaveDraftTo(s.db, v, draft));
  }

  lemma DraftDeletionCovers(s: Sys, v: nat)
    requires Inv(s) && Covered(s.db, s.now)
    ensures Covered(DeleteDraftFrom(s.db, v), s.now)
  {
    hide Inv, Covered;
    DraftsCover(s, DeleteDraftFrom(s.db, v));
  }

  lemma DeactivationCovers(db: Db, ref: string, audience: string, now: Time)
    requires Covered(db, now)
    ensures Covered(Deactivate(db, ref, audience, now), now)
  {
    hide Current;
    CoverageInherited(db, Deactivate(db, ref, audience, now), now);
  }

  lemma AudienceCovers(db: Db, audience: string, now: Time)
    requires Covered(db, now)
    ensures Covered(db.(audiences := db.audiences + {audience}), now)
  {
    hide Current;
    CoverageInherited(db, db.(audiences := db.audiences + {audience}), now);
  }

  lemma AdministrationCovers(s: Sys, e: Event)
    requires Inv(s) && Covered(s.db, s.now) && IsAdministration(e)
    requires e.UpsertCustomer? && e.c !in s.db.customers ==> RevivesCovered(s.db, e.c, e.input, s.now)
    ensures Covered(Effect(s, e).db, s.now)
  {
    hide Inv, Covered, RevivesCovered, SaveDraftTo, DeleteDraftFrom, AddDocumentTo, Deactivate, Create, Update, Upsert;
    match e
    case AddAudience(audience) => AudienceCovers(s.db, audience, s.now);
    case AddDocument(id, document) => DocumentsCover(s, id, document);
    case SaveDraft(v, draft) => DraftSaveCovers(s, v, draft);
    case DeleteDraft(v) => DraftDeletionCovers(s, v);
    case CreateCustomer(c, input) => if c !in s.db.customers { CreateCovers(s, c, input); }
    case UpdateCustomer(c, changes) => UpdateCovers(s.db, c, changes, s.now);
    case UpsertCustomer(c, input) => if c !in s.db.customers { UpsertCovers(s, c, input); }
    case DeactivateCustomer(ref, audience) => DeactivationCovers(s.db, ref, audience, s.now);
  }

  lemma PassCovers(db: Db, now: Time)
    requires Covered(db, now)
    ensures Covered(DeadlinePass(db, now), now)
  {
    DeadlinePassPersists(db, now);
    CoverageInherited(db, DeadlinePass(db, now), now);
  }

  lemma StepCovers(s: Sys, e: Event)
    requires Inv(s) && Covered(s.db, s.now)
    requires e.UpsertCustomer? && e.c !in s.db.customers ==> RevivesCovered(s.db, e.c, e.input, s.now)
    ensures Covered(Effect(s, e).db, s.now)
  {
    hide Inv, Covered, RevivesCovered, Publish, Activate, DeadlinePass;
    if IsAdministration(e) {
      hide Effect;
      AdministrationCovers(s, e);
    } else {
      match e
      case PublishVersion(v) => PublishCovers(s, v);
      case ActivationRun => ActivationCovers(s.db, s.now);
      case HourlyTick => ActivationCovers(s.db, s.now); PassCovers(Activate(s.db, s.now), s.now);
      case _ => OtherOperationsCover(s, e);
    }
  }

  lemma CoveredLater(db: Db, before: Time, now: Time)
    requires Covered(db, before) && before <= now
    ensures Covered(db, now)
  {
    forall c | c in db.customers ensures CoveredCustomer(db, c, db.customers[c].roles, now) {
      assert CoveredCustomer(db, c, db.customers[c].roles, before);
      RolloutShrinks(db, db.customers[c].roles, before, now);
    }
  }

  /** No reactivation in the run opens an uncovered role; a run without reactivations qualifies. */
  ghost predicate ReactivationsCovered(s: Sys, events: seq<Timed>) {
    events == [] ||
    var before, last := Run(s, events[..|events| - 1]), events[|events| - 1];
    && ReactivationsCovered(s, events[..|events| - 1])
    && (last.event.UpsertCustomer? && last.event.c !in before.db.customers ==>
          RevivesCovered(before.db, last.event.c, last.event.input, last.at))
  }

  /** At every instant after any run, each customer has a row for each version it is obliged to. */
  lemma {:induction false} EveryObligationHasItsRow(events: seq<Timed>, now: Time)
    requires IsRun(START, events) && ReactivationsCovered(START, events) && Run(START, events).now <= now
    ensures Covered(Run(START, events).db, now)
  {
    if events == [] {
      assert Covered(START.db, START.now);
    } else {
      var last, before := events[|events| - 1], Run(START, events[..|events| - 1]);
      RunKeeps(START, events[..|events| - 1]);
      Later(before, last.at);
      EveryObligationHasItsRow(events[..|events| - 1], last.at);
      StepCovers(before.(now := last.at), last.event);
      CoveredLater(Run(START, events).db, last.at, now);
    }
  }

  // Uniqueness: inserts never collide.

  /** In a run, the rows a publish or a creation inserts are all new. */
  lemma InsertsNeverCollide(events: seq<Timed>, v: nat, c: nat, versions: set<nat>)
    requires IsRun(START, events)
    ensures var db := Run(START, events).db;
      && (PublishError(db, v).None? ==>
            KeysOf(Targets(db.customers, db.documents[db.versions[v].document].audience), v) !! db.states.Keys)
      && (c !in db.customers ==> KeysFor(c, versions) !! db.states.Keys)
  {
    RunKeeps(START, events);
    var s := Run(START, events);
    forall k | k in s.db.states ensures k.customer in s.db.customers { assert RowAtOk(s, k); }
    if PublishError(s.db, v).None? { NoDraftRow(s, v); }
  }

  /**
   * Manual recording does not look at the status. It leaves every draft without rows exactly when the
   * version is not a draft; the later publish of a draft recorded on inserts a second row for the pair.
   */
  lemma RecordingOnDraftCollides(s: Sys, k: Key, recording: Recording)
    requires Inv(s) && ManualError(s.db, k, recording).None?
    ensures var after := Manual(s.db, k, recording, s.now);
      && after.error.None?
      && ((forall j | j in after.db.states :: after.db.versions[j.version].status != Draft)
          <==> s.db.versions[k.version].status != Draft)
      && (PublishError(after.db, k.version).None? ==>
            var document := after.db.documents[after.db.versions[k.version].document];
            k in after.db.states && k in KeysOf(Targets(after.db.customers, document.audience), k.version))
  {
    forall j | j in s.db.states ensures s.db.versions[j.version].status != Draft { assert RowAtOk(s, j); }
    if k in s.db.states { assert EvidenceAtOk(s, k); }
    assert k == Key(k.customer, k.version);
  }
}
