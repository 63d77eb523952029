/** The repositories: mutable tables and the conditional writes the services rely on. */
module Stores {
  import opened Types
  import opened Versions

  class Store {
    var audiences: set<string>
    var documents: map<nat, Document>
    var versions: map<nat, Version>
    var customers: map<nat, Customer>
    var states: map<Key, Row>
    var acceptances: map<Key, Acceptance>
    var objections: seq<Objection>

    constructor ()
      ensures Snapshot() == Db({}, map[], map[], map[], map[], map[], [])
    {
      audiences, documents, versions, customers, states, acceptances, objections :=
        {}, map[], map[], map[], map[], map[], [];
    }

    function Snapshot(): Db
      reads this
    {
      Db(audiences, documents, versions, customers, states, acceptances, objections)
    }

    /** The first of some versions in the sort order. */
    method PickNewest(among: set<nat>) returns (r: Option<nat>)
      requires among <= versions.Keys
      ensures r == Newest(versions, among)
    {
      r := None;
      var todo := among;
      while todo != {}
        invariant todo <= among
        invariant (r.None? ==> among - todo == {}) && (r.Some? ==> IsNewest(versions, among - todo, r.value))
      {
        var v :| v in todo;
        assert among - (todo - {v}) == (among - todo) + {v};
        todo := todo - {v};
        if r.None? || Newer(versions, v, r.value) {
          r := Some(v);
        }
      }
      assert among - {} == among;
    }

    /** The newest published version of the document with validFrom <= now. */
    method FindCurrentPublished(document: nat, now: Time) returns (r: Option<nat>)
      ensures r == Current(versions, document, now)
    {
      r := PickNewest(InForceOf(versions, document, now));
    }

    /** The one of some versions that takes effect first. */
    method PickSoonest(among: set<nat>) returns (r: nat)
      requires among != {} && among <= versions.Keys
      ensures r in among && forall w | w in among && w != r :: Sooner(versions, r, w)
    {
      r :| r in among;
      var todo := among;
      while todo != {}
        invariant todo <= among && r in among
        invariant forall w | w in among - todo && w != r :: Sooner(versions, r, w)
      {
        var v :| v in todo;
        assert among - (todo - {v}) == (among - todo) + {v};
        todo := todo - {v};
        if Sooner(versions, v, r) {
          r := v;
        }
      }
    }

    method FindUpcomingPublishedList(document: nat, now: Time) returns (list: seq<nat>)
      ensures IsUpcomingList(versions, document, now, list)
    {
      list := [];
      var todo := UpcomingOf(versions, document, now);
      while todo != {}
        invariant todo <= UpcomingOf(versions, document, now)
        invariant forall v :: v in list <==> v in UpcomingOf(versions, document, now) && v !in todo
        invariant forall i, j | 0 <= i < j < |list| :: Sooner(versions, list[i], list[j])
        invariant forall i, w | 0 <= i < |list| && w in todo :: Sooner(versions, list[i], w)
      {
        var v := PickSoonest(todo);
        list, todo := list + [v], todo - {v};
      }
    }

    /**
     * Writes the new state, and the reminder counter if one is given, only if the stored state is
     * still the expected one. Returns the new row, or nothing if the precondition failed.
     */
    method Transition(k: Key, expected: StateValue, state: StateValue, remindersSent: Option<nat>)
        returns (r: Option<Row>)
      modifies this`states
      ensures r.Some? <==> k in old(states) && old(states)[k].state == expected
      ensures r.Some? ==>
        var row := old(states)[k];
        r.value == row.(state := state,
            remindersSent := if remindersSent.Some? then remindersSent.value else row.remindersSent)
      ensures states == if r.Some? then old(states)[k := r.value] else old(states)
    {
      if k !in states || states[k].state != expected { return None; }
      var row := states[k].(state := state);
      if remindersSent.Some? {
        row := row.(remindersSent := remindersSent.value);
      }
      states := states[k := row];
      r := Some(row);
    }

    /** Writes the first access only while the row is pending and has none. */
    method SetNotifiedAtomically(k: Key, update: Row)
      requires k in states
      modifies this`states
      ensures var stored := old(states)[k];
        states == if stored.notifiedAt.None? && stored.state == PendingNotification
                  then old(states)[k := stored.(state := update.state, notifiedAt := update.notifiedAt,
                      deadlineAt := update.deadlineAt)]
                  else old(states)
    {
      var stored := states[k];
      if stored.notifiedAt.None? && stored.state == PendingNotification {
        states := states[k := stored.(state := update.state, notifiedAt := update.notifiedAt,
            deadlineAt := update.deadlineAt)];
      }
    }

    /** Append-only: a second effective acceptance of a pair is refused. */
    method AppendAcceptance(k: Key, acceptance: Acceptance) returns (error: Option<Error>)
      modifies this`acceptances
      ensures error == if k in old(acceptances) then Some(AlreadyAccepted) else None
      ensures acceptances == if error.Some? then old(acceptances) else old(acceptances)[k := acceptance]
    {
      if k in acceptances { return Some(AlreadyAccepted); }
      acceptances := acceptances[k := acceptance];
      error := None;
    }
  }
}
