/** Which version of a document is in force, told by the dates of the versions alone. */
module InForce {
  import opened Types
  import opened Versions
  import opened Lifecycle
  import opened Runs
  import opened Invariants
  import opened Ticks

  /** When the version was published; a version without a stamp counts as published first of all. */
  function PublicationOf(version: Version): Time {
    match version.publishedAt
    case Some(at) => at
    case None => 0
  }

  /** In force, but another version in force takes effect later, or was published later for the same instant. */
  predicate Overtaken(versions: map<nat, Version>, v: nat, now: Time) {
    && v in versions && versions[v].status == Published && versions[v].validFrom <= now
    && exists w | w in versions ::
         && versions[w].document == versions[v].document && versions[w].status == Published
         && versions[w].validFrom <= now
         && (versions[w].validFrom > versions[v].validFrom
             || (versions[w].validFrom == versions[v].validFrom
                 && (PublicationOf(versions[w]) > PublicationOf(versions[v])
                     || (PublicationOf(versions[w]) == PublicationOf(versions[v]) && w < v))))
  }

  /** The current version is the published one that has begun and that no other has overtaken. */
  lemma CurrentIsNotOvertaken(versions: map<nat, Version>, d: nat, now: Time, v: nat)
    ensures Current(versions, d, now) == Some(v) <==>
      && v in versions && versions[v].document == d && versions[v].status == Published && versions[v].validFrom <= now
      && !Overtaken(versions, v, now)
    ensures Current(versions, d, now).None? <==>
      forall w | w in versions && versions[w].document == d && versions[w].status == Published ::
        versions[w].validFrom > now
  {
    var current := Current(versions, d, now);
    if v in InForceOf(versions, d, now) {
      if current != Some(v) { assert Newer(versions, current.value, v); }
      if Overtaken(versions, v, now) {
        var w :| w in versions && versions[w].document == d && InForce(versions[w], now) && Newer(versions, w, v);
        assert w in InForceOf(versions, d, now) && Newer(versions, w, v) && !Newer(versions, v, w);
      }
    }
    if current.None? {
      forall w | w in versions && versions[w].document == d && versions[w].status == Published
        ensures versions[w].validFrom > now
      {
        assert w !in InForceOf(versions, d, now);
      }
    } else {
      assert current.value in InForceOf(versions, d, now);
    }
  }

  lemma OutdatedIsOvertaken(versions: map<nat, Version>, documents: set<nat>, v: nat, now: Time)
    ensures v in Outdated(versions, documents, now)
      <==> Overtaken(versions, v, now) && versions[v].document in documents
  {
    if v in versions { CurrentIsNotOvertaken(versions, versions[v].document, now, v); }
    hide Overtaken, Current;
  }

  /**
   * Every other published version of the document that has begun did so earlier, or then but was
   * published no later.
   */
  lemma CurrentLeads(versions: map<nat, Version>, d: nat, now: Time, v: nat, w: nat)
    requires Current(versions, d, now) == Some(v)
    requires w in versions && w != v && versions[w].document == d && versions[w].status == Published
    requires versions[w].validFrom <= now && versions[v].publishedAt.Some? && versions[w].publishedAt.Some?
    ensures var begun, other := versions[v], versions[w];
      || other.validFrom < begun.validFrom
      || (other.validFrom == begun.validFrom && other.publishedAt.value < begun.publishedAt.value)
      || (other.validFrom == begun.validFrom && other.publishedAt.value == begun.publishedAt.value && v < w)
  {
    assert w in InForceOf(versions, d, now);
  }

  /** The upcoming list holds each published version still to begin, the next one first, ties by later publication. */
  lemma UpcomingByDates(versions: map<nat, Version>, d: nat, now: Time, list: seq<nat>)
    requires IsUpcomingList(versions, d, now, list)
    ensures forall v :: v in list <==>
      v in versions && versions[v].document == d && versions[v].status == Published && versions[v].validFrom > now
    ensures forall i, j | 0 <= i < j < |list| ::
      && list[i] != list[j]
      && (versions[list[i]].validFrom < versions[list[j]].validFrom
          || (versions[list[i]].validFrom == versions[list[j]].validFrom
              && PublicationOf(versions[list[i]]) >= PublicationOf(versions[list[j]])))
  {
    forall i, j | 0 <= i < j < |list|
      ensures list[i] != list[j]
      ensures versions[list[i]].validFrom < versions[list[j]].validFrom
              || (versions[list[i]].validFrom == versions[list[j]].validFrom
                  && PublicationOf(versions[list[i]]) >= PublicationOf(versions[list[j]]))
    {
      assert Sooner(versions, list[i], list[j]);
    }
  }

  // A correction scheduled for the same instant.

  /** Published at t for the instant at which every other version due then was published before. */
  predicate ReplacesScheduled(db: Db, w: nat, t: Time, at: Time) {
    && PublishError(db, w).None? && db.versions[w].validFrom == at && t < at
    && forall u | u in db.versions && db.versions[u].document == db.versions[w].document
                  && db.versions[u].status == Published && db.versions[u].validFrom == at ::
         db.versions[u].publishedAt.Some? && db.versions[u].publishedAt.value < t
  }

  lemma ReplacementLeads(s: Sys, w: nat, t: Time, at: Time)
    requires Inv(s) && ReplacesScheduled(s.db, w, t, at)
    ensures Current(PublishTo(s.db, w, t).versions, s.db.versions[w].document, at) == Some(w)
  {
    var after := PublishTo(s.db, w, t).versions;
    CurrentIsNotOvertaken(after, s.db.versions[w].document, at, w);
  }

  /**
   * Of two versions scheduled for one instant the one published later is in force from then on: the
   * activation at that instant retires the other, and everything else of the document that has begun.
   */
  lemma LaterPublishedWins(events: seq<Timed>, w: nat, t: Time, at: Time)
    requires IsRun(START, events) && Run(START, events).now <= t
    requires ReplacesScheduled(Run(START, events).db, w, t, at)
    ensures var before := Run(START, events).db.versions;
      var more := events + [Timed(t, PublishVersion(w)), Timed(at, ActivationRun)];
      var after := Run(START, more).db.versions;
      && IsRun(START, more) && w in after && after[w].status == Published
      && Current(after, before[w].document, at) == Some(w)
      && forall v | v in before && v != w && before[v].document == before[w].document
                    && before[v].status == Published && before[v].validFrom <= at ::
           v in after && after[v].status == Retired
  {
    hide Inv, PublishTo, Activate, Run, IsRun, Current;
    var s := Run(START, events);
    StartKeeps();
    RunKeeps(START, events);
    ReplacementLeads(s, w, t, at);
    PublishThenActivate(events, w, t, at);
    ActivatedAlone(s.db, w, t, at);
  }

  lemma PublishThenActivate(events: seq<Timed>, w: nat, t: Time, at: Time)
    requires IsRun(START, events) && Run(START, events).now <= t < at && PublishError(Run(START, events).db, w).None?
    ensures var more := events + [Timed(t, PublishVersion(w)), Timed(at, ActivationRun)];
      IsRun(START, more) && Run(START, more).db == Activate(PublishTo(Run(START, events).db, w, t), at)
  {
    hide PublishTo, PublishError, Activate, Run, IsRun;
    var s := Run(START, events);
    var publish, activate := PublishVersion(w), ActivationRun;
    RunGoesOn(START, events, publish, t);
    assert Next(s, publish, t).db == PublishTo(s.db, w, t) && Next(s, publish, t).now == t;
    RunGoesOn(START, events + [Timed(t, publish)], activate, at);
    assert events + [Timed(t, publish)] + [Timed(at, activate)] == events + [Timed(t, publish), Timed(at, activate)];
  }

  lemma ActivatedAlone(db: Db, w: nat, t: Time, at: Time)
    requires PublishError(db, w).None? && db.versions[w].validFrom == at && t < at
    requires Current(PublishTo(db, w, t).versions, db.versions[w].document, at) == Some(w)
    ensures var before, after := db.versions, Activate(PublishTo(db, w, t), at).versions;
      && w in after && after[w].status == Published && Current(after, before[w].document, at) == Some(w)
      && forall v | v in before && v != w && before[v].document == before[w].document
                    && before[v].status == Published && before[v].validFrom <= at ::
           v in after && after[v].status == Retired
  {
    var published := PublishTo(db, w, t);
    OneInForce(published, published.documents.Keys, db.versions[w].document, at);
    forall v | v in db.versions && v != w && db.versions[v].document == db.versions[w].document
               && db.versions[v].status == Published && db.versions[v].validFrom <= at
      ensures v in Outdated(published.versions, published.documents.Keys, at)
    {
    }
    hide FlippedStates, OpenRows, Current;
  }
}
