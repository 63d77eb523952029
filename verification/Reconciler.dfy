/** The boot reconciler: the configured entities are made present, the unconfigured ones deleted unless in use. */
module Reconciler {
  import opened Types

  /** What the configuration says about a document type; about an audience it is the name alone. */
  datatype TypeFields = TypeFields(
    name: string,
    isExternal: bool,
    notificationTemplate: Option<string>,
    reminderTemplate: Option<string>,
    confirmationTemplate: Option<string>)

  /** An entity key; here keys are only ever compared for equality. */
  type EntityKey = nat

  datatype Entry<F> = Entry(key: EntityKey, fields: F)

  datatype Entity<F> = Entity(id: nat, fields: F)

  datatype Counts = Counts(created: nat, updated: nat, kept: nat, deleted: nat)

  /** The keys of the first n entries. */
  function KeysOf<F>(configured: seq<Entry<F>>, n: nat): set<EntityKey>
    requires n <= |configured|
  {
    set i | 0 <= i < n :: configured[i].key
  }

  /** Entry i is the last of the first n for its key; the last one counts. */
  ghost predicate IsLast<F>(configured: seq<Entry<F>>, n: nat, i: int)
    requires n <= |configured|
  {
    0 <= i < n && forall j | i < j < n :: configured[j].key != configured[i].key
  }

  /** The entry asks for nothing that is not there already. */
  predicate IsPresent<F(==)>(entities: map<EntityKey, Entity<F>>, entry: Entry<F>) {
    entry.key in entities && entities[entry.key].fields == entry.fields
  }

  ghost predicate AllPresent<F>(entities: map<EntityKey, Entity<F>>, configured: seq<Entry<F>>, n: nat)
    requires n <= |configured|
  {
    forall i | 0 <= i < n :: IsPresent(entities, configured[i])
  }

  /** Nothing to create, update or delete. */
  ghost predicate Settled<F>(entities: map<EntityKey, Entity<F>>, configured: seq<Entry<F>>, used: set<EntityKey>) {
    AllPresent(entities, configured, |configured|) && entities.Keys <= KeysOf(configured, |configured|) + used
  }

  /** Old entities keep their ids, new ones get ids from firstId on. */
  ghost predicate IdsKept<F>(before: map<EntityKey, Entity<F>>, after: map<EntityKey, Entity<F>>, firstId: nat) {
    forall key | key in after :: if key in before then after[key].id == before[key].id else after[key].id >= firstId
  }

  /** The entities have the fields the first n entries give them, and otherwise those they had. */
  ghost predicate FieldsSet<F>(before: map<EntityKey, Entity<F>>, after: map<EntityKey, Entity<F>>,
      configured: seq<Entry<F>>, n: nat)
    requires n <= |configured|
  {
    && (forall i | IsLast(configured, n, i) :: IsPresent(after, configured[i]))
    && (forall key | key in after && key !in KeysOf(configured, n) :: key in before && after[key] == before[key])
  }

  /** The outcome: configured entries present with their fields and old ids, others kept exactly when in use. */
  ghost predicate Reconciled<F>(before: map<EntityKey, Entity<F>>, after: map<EntityKey, Entity<F>>,
      configured: seq<Entry<F>>, used: set<EntityKey>, firstId: nat) {
    && after.Keys == KeysOf(configured, |configured|) + before.Keys * used
    && FieldsSet(before, after, configured, |configured|)
    && IdsKept(before, after, firstId)
  }

  /** After the first n entries: the store, and what has been written so far. */
  ghost predicate Progress<F>(before: map<EntityKey, Entity<F>>, after: map<EntityKey, Entity<F>>,
      configured: seq<Entry<F>>, n: nat, firstId: nat, created: nat, updated: nat)
    requires n <= |configured|
  {
    && after.Keys == before.Keys + KeysOf(configured, n)
    && FieldsSet(before, after, configured, n)
    && IdsKept(before, after, firstId)
    && (created + updated == 0 <==> AllPresent(before, configured, n))
    && (created + updated == 0 ==> after == before)
  }

  class Registry<F(==)> {
    var entities: map<EntityKey, Entity<F>>
    var nextId: nat

    constructor ()
      ensures entities == map[]
    {
      entities, nextId := map[], 0;
    }

    method Upsert(entry: Entry<F>) returns (created: nat, updated: nat)
      modifies this
      ensures nextId >= old(nextId)
      ensures IsUpsert(old(entities), entities, entry, old(nextId))
      ensures created == (if entry.key in old(entities) then 0 else 1)
      ensures created + updated == (if IsPresent(old(entities), entry) then 0 else 1)
      ensures created + updated == 0 ==> entities == old(entities)
    {
      created, updated := 0, 0;
      if entry.key !in entities {
        entities, nextId, created := entities[entry.key := Entity(nextId, entry.fields)], nextId + 1, 1;
      } else if entities[entry.key].fields != entry.fields {
        entities, updated := entities[entry.key := entities[entry.key].(fields := entry.fields)], 1;
      }
    }

    method UpsertAll(configured: seq<Entry<F>>) returns (created: nat, updated: nat)
      modifies this
      ensures Progress(old(entities), entities, configured, |configured|, old(nextId), created, updated)
    {
      ghost var before, firstId := entities, nextId;
      NothingYet(before, configured, firstId);
      created, updated := 0, 0;
      for n := 0 to |configured|
        invariant Progress(before, entities, configured, n, firstId, created, updated) && nextId >= firstId
      {
        ghost var middle, id := entities, nextId;
        var c, u := Upsert(configured[n]);
        NextEntry(before, middle, entities, configured, n, firstId, id, created, updated, c, u);
        created, updated := created + c, updated + u;
      }
    }

    /** The contract of `deleteIfUnused`, for every entity that is not configured. */
    method DeleteUnused(configured: set<EntityKey>, used: set<EntityKey>) returns (kept: nat, deleted: nat)
      modifies this`entities
      ensures entities.Keys == old(entities).Keys - (old(entities).Keys - configured - used)
      ensures forall key | key in entities :: entities[key] == old(entities)[key]
      ensures kept == 0 <==> old(entities).Keys - configured !! used
      ensures deleted == 0 <==> old(entities).Keys - configured <= used
    {
      ghost var before := entities;
      kept, deleted := 0, 0;
      var todo := entities.Keys - configured;
      ghost var done: set<EntityKey> := {};
      while todo != {}
        invariant todo !! done && todo + done == before.Keys - configured
        invariant entities.Keys == before.Keys - (done - used)
        invariant forall key | key in entities :: entities[key] == before[key]
        invariant (kept == 0 <==> done !! used) && (deleted == 0 <==> done <= used)
      {
        var key :| key in todo;
        if key in used {
          kept := kept + 1;
        } else {
          entities, deleted := entities - {key}, deleted + 1;
        }
        todo, done := todo - {key}, done + {key};
      }
      assert done == before.Keys - configured;
    }

    method Reconcile(configured: seq<Entry<F>>, used: set<EntityKey>) returns (counts: Counts)
      modifies this
      ensures Reconciled(old(entities), entities, configured, used, old(nextId))
      ensures counts.created + counts.updated + counts.deleted == 0 <==> Settled(old(entities), configured, used)
      ensures Settled(old(entities), configured, used) ==> entities == old(entities)
    {
      var created, updated := UpsertAll(configured);
      var kept, deleted := DeleteUnused(KeysOf(configured, |configured|), used);
      counts := Counts(created, updated, kept, deleted);
    }
  }

  /** What upserting one entry does to the store. */
  ghost predicate IsUpsert<F>(before: map<EntityKey, Entity<F>>, after: map<EntityKey, Entity<F>>, entry: Entry<F>,
      firstId: nat) {
    && after.Keys == before.Keys + {entry.key} && after[entry.key].fields == entry.fields
    && (entry.key in before ==> after[entry.key].id == before[entry.key].id)
    && (entry.key !in before ==> after[entry.key].id >= firstId)
    && (forall key | key in before && key != entry.key :: after[key] == before[key])
  }

  /** Audiences first, then document types. */
  method ReconcileConfig(audiences: Registry<string>, names: seq<Entry<string>>, audiencesInUse: set<EntityKey>,
                         types: Registry<TypeFields>, typeEntries: seq<Entry<TypeFields>>, typesInUse: set<EntityKey>)
      returns (audienceCounts: Counts, typeCounts: Counts)
    requires audiences as object != types as object
    modifies audiences, types
    ensures Reconciled(old(audiences.entities), audiences.entities, names, audiencesInUse, old(audiences.nextId))
    ensures Reconciled(old(types.entities), types.entities, typeEntries, typesInUse, old(types.nextId))
  {
    audienceCounts := audiences.Reconcile(names, audiencesInUse);
    typeCounts := types.Reconcile(typeEntries, typesInUse);
  }

  lemma OneMoreEntry<F>(configured: seq<Entry<F>>, n: nat)
    requires n < |configured|
    ensures KeysOf(configured, n + 1) == KeysOf(configured, n) + {configured[n].key}
    ensures forall i | IsLast(configured, n + 1, i) ::
      i == n || (IsLast(configured, n, i) && configured[i].key != configured[n].key)
  {
    assert configured[n].key in KeysOf(configured, n + 1);
  }

  lemma FieldsOneMore<F>(before: map<EntityKey, Entity<F>>, middle: map<EntityKey, Entity<F>>,
      after: map<EntityKey, Entity<F>>, configured: seq<Entry<F>>, n: nat, id: nat)
    requires n < |configured| && FieldsSet(before, middle, configured, n) && IsUpsert(middle, after, configured[n], id)
    ensures FieldsSet(before, after, configured, n + 1)
  {
    OneMoreEntry(configured, n);
  }

  lemma IdsOneMore<F>(before: map<EntityKey, Entity<F>>, middle: map<EntityKey, Entity<F>>,
      after: map<EntityKey, Entity<F>>, entry: Entry<F>, firstId: nat, id: nat)
    requires IdsKept(before, middle, firstId) && IsUpsert(middle, after, entry, id) && firstId <= id
    requires before.Keys <= middle.Keys
    ensures IdsKept(before, after, firstId)
  {
  }

  lemma PresentOneMore<F>(entities: map<EntityKey, Entity<F>>, configured: seq<Entry<F>>, n: nat)
    requires n < |configured|
    ensures AllPresent(entities, configured, n + 1)
      <==> AllPresent(entities, configured, n) && IsPresent(entities, configured[n])
  {
  }

  lemma NothingYet<F>(entities: map<EntityKey, Entity<F>>, configured: seq<Entry<F>>, firstId: nat)
    ensures Progress(entities, entities, configured, 0, firstId, 0, 0)
  {
  }

  lemma NextEntry<F>(before: map<EntityKey, Entity<F>>, middle: map<EntityKey, Entity<F>>,
      after: map<EntityKey, Entity<F>>, configured: seq<Entry<F>>, n: nat, firstId: nat, id: nat,
      created: nat, updated: nat, c: nat, u: nat)
    requires n < |configured| && Progress(before, middle, configured, n, firstId, created, updated)
    requires IsUpsert(middle, after, configured[n], id) && firstId <= id
    requires c == (if configured[n].key in middle then 0 else 1)
    requires c + u == (if IsPresent(middle, configured[n]) then 0 else 1)
    requires c + u == 0 ==> after == middle
    ensures Progress(before, after, configured, n + 1, firstId, created + c, updated + u)
  {
    OneMoreEntry(configured, n);
    FieldsOneMore(before, middle, after, configured, n, id);
    IdsOneMore(before, middle, after, configured[n], firstId, id);
    PresentOneMore(before, configured, n);
  }

  // Reconciling again.

  /** Entries of one key agree on its fields; with distinct keys this always holds. */
  ghost predicate Consistent<F>(configured: seq<Entry<F>>) {
    forall i, j | 0 <= i < |configured| && 0 <= j < |configured| && configured[i].key == configured[j].key ::
      configured[i].fields == configured[j].fields
  }

  lemma {:induction false} LastEntry<F>(configured: seq<Entry<F>>, n: nat, i: nat) returns (last: nat)
    requires i < n <= |configured|
    ensures IsLast(configured, n, last) && configured[last].key == configured[i].key
  {
    if configured[n - 1].key == configured[i].key {
      last := n - 1;
    } else {
      last := LastEntry(configured, n - 1, i);
    }
  }

  /** A second reconcile has nothing to write exactly when no two entries contradict each other. */
  lemma SecondReconcileSettles<F>(before: map<EntityKey, Entity<F>>, after: map<EntityKey, Entity<F>>,
      configured: seq<Entry<F>>, used: set<EntityKey>, firstId: nat)
    requires Reconciled(before, after, configured, used, firstId)
    ensures Settled(after, configured, used) <==> Consistent(configured)
  {
    var n := |configured|;
    forall i | 0 <= i < n && Consistent(configured) ensures IsPresent(after, configured[i]) {
      var last := LastEntry(configured, n, i);
    }
    forall i, j | 0 <= i < n && 0 <= j < n && configured[i].key == configured[j].key && Settled(after, configured, used)
      ensures configured[i].fields == configured[j].fields
    {
      assert IsPresent(after, configured[i]) && IsPresent(after, configured[j]);
    }
  }
}
