/**
 * The dynamic prefab asset and the pure specification of what instantiating
 * it does: which entities the loader uses for its records, and what becomes of
 * every serialized component (src/system.rs, the join loop of `run`).
 */
module Prefab {
  import opened TypeUuid
  import opened Serializers
  import opened Loader
  import opened Engine

  datatype Option<T> = None | Some(value: T)

  /** One entity of a prefab: its serialized components, each under the id of its type, in iteration order. */
  type EntityRecord = seq<(Uuid, Serialized)>

  /**
   * The fields of the prefab asset that the loader reads: the tag it assigns, the
   * entity records (record 0 is the root), whether sub-asset loading was started
   * (`loading()`) and the completion its progress tracker reports.
   */
  datatype DynamicPrefab = DynamicPrefab(
    tag: Option<uint64>,
    entities: seq<EntityRecord>,
    loading: bool,
    progress: Completion)

  /**
   * `SerializeDynamic::instantiate`, a foreign operation: whether applying the
   * serialized value to the entity, given the entity list of the prefab being
   * instantiated, returns `Ok`.
   */
  type Instantiate = (Serializer, Serialized, Entity, seq<Entity>) -> bool

  /** `instantiate` as one record sees it: the prefab's entity list is fixed. */
  type ComponentInstantiate = (Serializer, Serialized, Entity) -> bool

  /** The instantiation oracle for the components of the prefab whose entity list is `entities`. */
  function ForPrefab(instantiate: Instantiate, entities: seq<Entity>): (r: ComponentInstantiate)
  {
    (s: Serializer, v: Serialized, e: Entity) => instantiate(s, v, e, entities)
  }

  /** The `error!` messages of the loader. */
  datatype LoadError =
    | SubAssetLoadFailed
    | NoSerializer(uuid: Uuid)
    | InstantiateFailed(uuid: Uuid, entity: Entity)

  /** What became of one serialized component. */
  datatype ComponentOutcome = Instantiated(applied: Applied) | Skipped(error: LoadError)

  /** One component: look its serializer up, then instantiate it on the entity. */
  function Resolve(uuid: Uuid, value: Serialized, entity: Entity, serializers: SerializerMap, instantiate: ComponentInstantiate): (r: ComponentOutcome)
  {
    if uuid !in serializers then Skipped(NoSerializer(uuid))
    else if instantiate(serializers[uuid], value, entity) then Instantiated(Applied(entity, uuid, value))
    else Skipped(InstantiateFailed(uuid, entity))
  }

  /** The outcomes of one record's components, in iteration order, all on the same entity. */
  function RecordOutcomes(record: EntityRecord, entity: Entity, serializers: SerializerMap, instantiate: ComponentInstantiate): (r: seq<ComponentOutcome>)
    ensures |r| == |record|
  {
    if record == [] then []
    else
      var j := |record| - 1;
      RecordOutcomes(record[..j], entity, serializers, instantiate)
        + [Resolve(record[j].0, record[j].1, entity, serializers, instantiate)]
  }

  /** The number of components over all records. */
  function ComponentCount(records: seq<EntityRecord>): (r: nat)
  {
    if records == [] then 0 else ComponentCount(records[..|records| - 1]) + |records[|records| - 1]|
  }

  /** The outcomes of all components: record i on `entities[i]`, records in index order. */
  function Outcomes(records: seq<EntityRecord>, entities: seq<Entity>, serializers: SerializerMap, instantiate: Instantiate): (r: seq<ComponentOutcome>)
    requires |records| <= |entities|
  {
    if records == [] then []
    else
      var i := |records| - 1;
      Outcomes(records[..i], entities, serializers, instantiate)
        + RecordOutcomes(records[i], entities[i], serializers, ForPrefab(instantiate, entities))
  }

  /** The components that were instantiated, in order. */
  function AppliedOf(outcomes: seq<ComponentOutcome>): (r: seq<Applied>)
  {
    if outcomes == [] then []
    else
      var k := |outcomes| - 1;
      AppliedOf(outcomes[..k]) + (if outcomes[k].Instantiated? then [outcomes[k].applied] else [])
  }

  /** The errors that were logged, in order. */
  function ErrorsOf(outcomes: seq<ComponentOutcome>): (r: seq<LoadError>)
  {
    if outcomes == [] then []
    else
      var k := |outcomes| - 1;
      ErrorsOf(outcomes[..k]) + (if outcomes[k].Skipped? then [outcomes[k].error] else [])
  }

  /**
   * The components the loader's loop instantiates for one record, in order, stated
   * directly over the record; `RecordAppliedMatches` shows it agrees with the outcomes.
   */
  function RecordApplied(record: EntityRecord, entity: Entity, serializers: SerializerMap, instantiate: ComponentInstantiate): (r: seq<Applied>)
  {
    if record == [] then []
    else
      var j := |record| - 1;
      var o := Resolve(record[j].0, record[j].1, entity, serializers, instantiate);
      RecordApplied(record[..j], entity, serializers, instantiate) + (if o.Instantiated? then [o.applied] else [])
  }

  /** The errors the loader's loop logs for one record, in order. */
  function RecordErrors(record: EntityRecord, entity: Entity, serializers: SerializerMap, instantiate: ComponentInstantiate): (r: seq<LoadError>)
  {
    if record == [] then []
    else
      var j := |record| - 1;
      var o := Resolve(record[j].0, record[j].1, entity, serializers, instantiate);
      RecordErrors(record[..j], entity, serializers, instantiate) + (if o.Skipped? then [o.error] else [])
  }

  /** The components instantiated for a whole prefab: record i on `entities[i]`, records in index order. */
  function PrefabApplied(records: seq<EntityRecord>, entities: seq<Entity>, serializers: SerializerMap, instantiate: Instantiate): (r: seq<Applied>)
    requires |records| <= |entities|
  {
    if records == [] then []
    else
      var i := |records| - 1;
      PrefabApplied(records[..i], entities, serializers, instantiate) + RecordApplied(records[i], entities[i], serializers, ForPrefab(instantiate, entities))
  }

  /** The errors logged for a whole prefab. */
  function PrefabErrors(records: seq<EntityRecord>, entities: seq<Entity>, serializers: SerializerMap, instantiate: Instantiate): (r: seq<LoadError>)
    requires |records| <= |entities|
  {
    if records == [] then []
    else
      var i := |records| - 1;
      PrefabErrors(records[..i], entities, serializers, instantiate) + RecordErrors(records[i], entities[i], serializers, ForPrefab(instantiate, entities))
  }

  /** How many entities the loader creates for n records: one per record after the root. */
  function Extra(n: nat): (r: nat)
  {
    if n == 0 then 0 else n - 1
  }

  /** The entities the allocator hands out, one after the other, starting at `first`. */
  function FreshRange(first: Entity, count: nat): (r: seq<Entity>)
    ensures |r| == count
  {
    if count == 0 then [] else FreshRange(first, count - 1) + [first + count - 1]
  }

  /** The loader's `entities` list for one prefab: the root, then the created entities. */
  function LoadEntities(root: Entity, first: Entity, n: nat): (r: seq<Entity>)
  {
    [root] + FreshRange(first, Extra(n))
  }

  /** The tag storage `base` after the entities `first`, ..., `first + count - 1` were each given `tag`, in that order. */
  function TagsFrom(base: map<Entity, DynamicPrefabTag>, first: Entity, count: nat, tag: DynamicPrefabTag): (r: map<Entity, DynamicPrefabTag>)
  {
    if count == 0 then base else TagsFrom(base, first, count - 1, tag)[first + count - 1 := tag]
  }

  // ---------------------------------------------------------------------------
  // Properties

  /**
   * The list of entities for a prefab of n records: the root first, a created entity
   * for each of the other records, all distinct when the root was already alive.
   */
  lemma LoadEntitiesShape(root: Entity, first: Entity, n: nat)
    requires root < first
    ensures |LoadEntities(root, first, n)| == if n == 0 then 1 else n
    ensures LoadEntities(root, first, n)[0] == root
    ensures forall k :: 1 <= k < |LoadEntities(root, first, n)| ==> LoadEntities(root, first, n)[k] == first + k - 1
    ensures forall k, l :: 0 <= k < l < |LoadEntities(root, first, n)|
              ==> LoadEntities(root, first, n)[k] != LoadEntities(root, first, n)[l]
  {
    FreshRangeAt(first, Extra(n));
  }

  /** The k-th fresh entity is `first + k`. */
  lemma {:induction false} FreshRangeAt(first: Entity, count: nat)
    ensures forall k :: 0 <= k < count ==> FreshRange(first, count)[k] == first + k
  {
    if count > 0 {
      FreshRangeAt(first, count - 1);
    }
  }

  /**
   * Tagging a range: the entities of the range carry `tag`, all others keep what they
   * had in `base` (a tag or none).
   */
  lemma {:induction false} TagsFromSpec(base: map<Entity, DynamicPrefabTag>, first: Entity, count: nat, tag: DynamicPrefabTag, e: Entity)
    ensures e in TagsFrom(base, first, count, tag) <==> e in base || first <= e < first + count
    ensures first <= e < first + count ==> TagsFrom(base, first, count, tag)[e] == tag
    ensures !(first <= e < first + count) && e in base ==> TagsFrom(base, first, count, tag)[e] == base[e]
  {
    if count > 0 {
      TagsFromSpec(base, first, count - 1, tag, e);
    }
  }

  /** The j-th outcome of a record is the j-th component's. */
  lemma {:induction false} RecordOutcomeAt(record: EntityRecord, entity: Entity, serializers: SerializerMap, instantiate: ComponentInstantiate, j: nat)
    requires j < |record|
    ensures RecordOutcomes(record, entity, serializers, instantiate)[j]
         == Resolve(record[j].0, record[j].1, entity, serializers, instantiate)
  {
    var n := |record| - 1;
    if j < n {
      RecordOutcomeAt(record[..n], entity, serializers, instantiate, j);
    }
  }

  /** Every component is attempted: there is exactly one outcome per component. */
  lemma {:induction false} OutcomesLength(records: seq<EntityRecord>, entities: seq<Entity>, serializers: SerializerMap, instantiate: Instantiate)
    requires |records| <= |entities|
    ensures |Outcomes(records, entities, serializers, instantiate)| == ComponentCount(records)
  {
    if records != [] {
      OutcomesLength(records[..|records| - 1], entities, serializers, instantiate);
    }
  }

  /**
   * Component j of record i has its outcome at position ComponentCount(records[..i]) + j:
   * records in index order, components in iteration order, each decided on its own
   * (the instantiation oracle sees neither the world nor earlier instantiations, so a
   * missing serializer or a failed instantiation affects no other outcome).
   */
  lemma {:induction false} OutcomeAt(records: seq<EntityRecord>, entities: seq<Entity>, serializers: SerializerMap, instantiate: Instantiate, i: nat, j: nat)
    requires |records| <= |entities| && i < |records| && j < |records[i]|
    ensures ComponentCount(records[..i]) + j < |Outcomes(records, entities, serializers, instantiate)|
    ensures Outcomes(records, entities, serializers, instantiate)[ComponentCount(records[..i]) + j]
         == Resolve(records[i][j].0, records[i][j].1, entities[i], serializers, ForPrefab(instantiate, entities))
  {
    var n := |records| - 1;
    var init := records[..n];
    OutcomesLength(init, entities, serializers, instantiate);
    if i == n {
      assert records[..i] == init;
      RecordOutcomeAt(records[i], entities[i], serializers, ForPrefab(instantiate, entities), j);
    } else {
      assert records[..i] == init[..i];
      OutcomeAt(init, entities, serializers, instantiate, i, j);
    }
  }

  lemma {:induction false} AppliedOfAppend(a: seq<ComponentOutcome>, b: seq<ComponentOutcome>)
    ensures AppliedOf(a + b) == AppliedOf(a) + AppliedOf(b)
    decreases |b|
  {
    if b != [] {
      var k := |b| - 1;
      assert (a + b)[..|a| + k] == a + b[..k];
      AppliedOfAppend(a, b[..k]);
    } else {
      assert a + b == a;
    }
  }

  lemma {:induction false} ErrorsOfAppend(a: seq<ComponentOutcome>, b: seq<ComponentOutcome>)
    ensures ErrorsOf(a + b) == ErrorsOf(a) + ErrorsOf(b)
    decreases |b|
  {
    if b != [] {
      var k := |b| - 1;
      assert (a + b)[..|a| + k] == a + b[..k];
      ErrorsOfAppend(a, b[..k]);
    } else {
      assert a + b == a;
    }
  }

  /** Component j of `record` produced exactly the application `a` on `entity`. */
  ghost predicate AppliedFromRecord(record: EntityRecord, entity: Entity, serializers: SerializerMap, instantiate: ComponentInstantiate, a: Applied, j: int)
  {
    && 0 <= j < |record|
    && record[j] == (a.uuid, a.value)
    && a.entity == entity
    && a.uuid in serializers
    && instantiate(serializers[a.uuid], a.value, entity)
  }

  /** Component j of record i produced exactly the application `a` on `entities[i]`. */
  ghost predicate AppliedFrom(records: seq<EntityRecord>, entities: seq<Entity>, serializers: SerializerMap, instantiate: Instantiate, a: Applied, i: int, j: int)
    requires |records| <= |entities|
  {
    0 <= i < |records| && AppliedFromRecord(records[i], entities[i], serializers, ForPrefab(instantiate, entities), a, j)
  }

  /** A component is instantiated from a record exactly when it is one of its components and instantiating it succeeded. */
  lemma {:induction false} RecordAppliedIff(record: EntityRecord, entity: Entity, serializers: SerializerMap, instantiate: ComponentInstantiate, a: Applied)
    ensures a in RecordApplied(record, entity, serializers, instantiate)
        <==> exists j :: AppliedFromRecord(record, entity, serializers, instantiate, a, j)
  {
    if record != [] {
      var n := |record| - 1;
      var init := record[..n];
      var last := Resolve(record[n].0, record[n].1, entity, serializers, instantiate);
      RecordAppliedIff(init, entity, serializers, instantiate, a);
      if exists j :: AppliedFromRecord(record, entity, serializers, instantiate, a, j) {
        var j :| AppliedFromRecord(record, entity, serializers, instantiate, a, j);
        if j < n {
          assert AppliedFromRecord(init, entity, serializers, instantiate, a, j);
        }
      }
      if exists j :: AppliedFromRecord(init, entity, serializers, instantiate, a, j) {
        var j :| AppliedFromRecord(init, entity, serializers, instantiate, a, j);
        assert AppliedFromRecord(record, entity, serializers, instantiate, a, j);
      }
      if last == Instantiated(a) {
        assert AppliedFromRecord(record, entity, serializers, instantiate, a, n);
      }
    }
  }

  /**
   * A component ends up instantiated on an entity exactly when it is component j of
   * record i, that entity is `entities[i]`, its type has a serializer, and
   * instantiating it succeeded.
   */
  lemma {:induction false} PrefabAppliedIff(records: seq<EntityRecord>, entities: seq<Entity>, serializers: SerializerMap, instantiate: Instantiate, a: Applied)
    requires |records| <= |entities|
    ensures a in PrefabApplied(records, entities, serializers, instantiate)
        <==> exists i, j :: AppliedFrom(records, entities, serializers, instantiate, a, i, j)
  {
    if records != [] {
      var n := |records| - 1;
      var init := records[..n];
      PrefabAppliedIff(init, entities, serializers, instantiate, a);
      RecordAppliedIff(records[n], entities[n], serializers, ForPrefab(instantiate, entities), a);
      if exists i, j :: AppliedFrom(records, entities, serializers, instantiate, a, i, j) {
        var i, j :| AppliedFrom(records, entities, serializers, instantiate, a, i, j);
        if i < n {
          assert AppliedFrom(init, entities, serializers, instantiate, a, i, j);
        } else {
          assert AppliedFromRecord(records[n], entities[n], serializers, ForPrefab(instantiate, entities), a, j);
        }
      }
      if exists i, j :: AppliedFrom(init, entities, serializers, instantiate, a, i, j) {
        var i, j :| AppliedFrom(init, entities, serializers, instantiate, a, i, j);
        assert AppliedFrom(records, entities, serializers, instantiate, a, i, j);
      }
      if exists j :: AppliedFromRecord(records[n], entities[n], serializers, ForPrefab(instantiate, entities), a, j) {
        var j :| AppliedFromRecord(records[n], entities[n], serializers, ForPrefab(instantiate, entities), a, j);
        assert AppliedFrom(records, entities, serializers, instantiate, a, n, j);
      }
    }
  }

  /** The loop's record-level summaries are those of the record's outcomes. */
  lemma {:induction false} RecordAppliedMatches(record: EntityRecord, entity: Entity, serializers: SerializerMap, instantiate: ComponentInstantiate)
    ensures RecordApplied(record, entity, serializers, instantiate) == AppliedOf(RecordOutcomes(record, entity, serializers, instantiate))
    ensures RecordErrors(record, entity, serializers, instantiate) == ErrorsOf(RecordOutcomes(record, entity, serializers, instantiate))
  {
    if record != [] {
      var n := |record| - 1;
      var before := RecordOutcomes(record[..n], entity, serializers, instantiate);
      var last := Resolve(record[n].0, record[n].1, entity, serializers, instantiate);
      RecordAppliedMatches(record[..n], entity, serializers, instantiate);
      AppliedOfAppend(before, [last]);
      ErrorsOfAppend(before, [last]);
      assert [last][..0] == [];
    }
  }

  /** The loop's prefab-level summaries are those of the prefab's outcomes. */
  lemma {:induction false} PrefabAppliedMatches(records: seq<EntityRecord>, entities: seq<Entity>, serializers: SerializerMap, instantiate: Instantiate)
    requires |records| <= |entities|
    ensures PrefabApplied(records, entities, serializers, instantiate) == AppliedOf(Outcomes(records, entities, serializers, instantiate))
    ensures PrefabErrors(records, entities, serializers, instantiate) == ErrorsOf(Outcomes(records, entities, serializers, instantiate))
  {
    if records != [] {
      var n := |records| - 1;
      PrefabAppliedMatches(records[..n], entities, serializers, instantiate);
      RecordAppliedMatches(records[n], entities[n], serializers, ForPrefab(instantiate, entities));
      AppliedOfAppend(Outcomes(records[..n], entities, serializers, instantiate), RecordOutcomes(records[n], entities[n], serializers, ForPrefab(instantiate, entities)));
      ErrorsOfAppend(Outcomes(records[..n], entities, serializers, instantiate), RecordOutcomes(records[n], entities[n], serializers, ForPrefab(instantiate, entities)));
    }
  }

  /** The same characterisation for the outcome list: the outcome-based definition agrees. */
  lemma AppliedIff(records: seq<EntityRecord>, entities: seq<Entity>, serializers: SerializerMap, instantiate: Instantiate, a: Applied)
    requires |records| <= |entities|
    ensures a in AppliedOf(Outcomes(records, entities, serializers, instantiate))
        <==> exists i, j :: AppliedFrom(records, entities, serializers, instantiate, a, i, j)
  {
    PrefabAppliedMatches(records, entities, serializers, instantiate);
    PrefabAppliedIff(records, entities, serializers, instantiate, a);
  }
}
