/**
 * `PrefabLoaderSystem` (src/system.rs): the per-tick state machine that
 * processes loaded prefab assets, collects the entities that received a prefab
 * handle, and instantiates every prefab that has finished loading.
 */
module LoaderSystem {
  import opened Serializers
  import opened Loader
  import opened Engine
  import opened Prefab

  // ---------------------------------------------------------------------------
  // The processing closure

  /** The tag counter after k more increments; `u64` arithmetic wraps as in a release build. */
  function TagAt(start: uint64, k: nat): (r: uint64)
  {
    (start + k) % U64_LIMIT
  }

  lemma TagAtNext(start: uint64, k: nat)
    ensures TagAt(TagAt(start, k), 1) == TagAt(start, k + 1)
  {
  }

  /** What the processing closure returns for an asset, given the tag it assigns to it. */
  function Process(d: DynamicPrefab, tag: uint64): (r: Result<ProcessingState<DynamicPrefab>>)
    ensures r.Ok? ==> r.value.asset == d.(tag := Some(tag))
    ensures (r.Ok? && r.value.Loaded?) <==> (!d.loading || d.progress.Complete?)
    ensures (r.Ok? && r.value.Loading?) <==> (d.loading && d.progress.Loading?)
    ensures r.Err? <==> (d.loading && d.progress.Failed?)
  {
    var tagged := d.(tag := Some(tag));
    if !tagged.loading then Ok(Loaded(tagged))
    else
      match tagged.progress
      case Complete => Ok(Loaded(tagged))
      case Failed => Err("Failed loading sub asset")
      case Loading => Ok(ProcessingState.Loading(tagged))
  }

  /** The closure applied to a queue of assets, in order, the k-th with the k-th tag. */
  function ProcessAll(queue: seq<(Handle, DynamicPrefab)>, start: uint64): (r: seq<(Handle, Result<ProcessingState<DynamicPrefab>>)>)
  {
    seq(|queue|, k requires 0 <= k < |queue| => (queue[k].0, Process(queue[k].1, TagAt(start, k))))
  }

  /** The asset storage after the loaded assets were stored under their handles. */
  function StoreLoaded(assets: map<Handle, DynamicPrefab>, results: seq<(Handle, Result<ProcessingState<DynamicPrefab>>)>): (r: map<Handle, DynamicPrefab>)
  {
    if results == [] then assets
    else
      var k := |results| - 1;
      var before := StoreLoaded(assets, results[..k]);
      if results[k].1.Ok? && results[k].1.value.Loaded? then before[results[k].0 := results[k].1.value.asset] else before
  }

  /** The assets that are still loading, in order: they wait for the next tick. */
  function Requeued(results: seq<(Handle, Result<ProcessingState<DynamicPrefab>>)>): (r: seq<(Handle, DynamicPrefab)>)
  {
    if results == [] then []
    else
      var k := |results| - 1;
      Requeued(results[..k]) + (if results[k].1.Ok? && results[k].1.value.Loading? then [(results[k].0, results[k].1.value.asset)] else [])
  }

  /** One logged error per asset whose sub-assets failed. */
  function SubAssetErrors(results: seq<(Handle, Result<ProcessingState<DynamicPrefab>>)>): (r: seq<LoadError>)
  {
    if results == [] then []
    else
      var k := |results| - 1;
      SubAssetErrors(results[..k]) + (if results[k].1.Err? then [SubAssetLoadFailed] else [])
  }

  /** Every stored prefab carries a tag (the `expect` of the join loop relies on it). */
  ghost predicate AllTagged(assets: map<Handle, DynamicPrefab>)
  {
    forall h :: h in assets ==> assets[h].tag.Some?
  }

  /**
   * Tags from distinct invocations of the closure are distinct and increase with the
   * invocation order, as long as the counter does not pass the end of `u64`.
   */
  lemma ProcessedTagsIncrease(queue: seq<(Handle, DynamicPrefab)>, start: uint64, k1: nat, k2: nat)
    requires k1 < k2 < |queue| && start + |queue| <= U64_LIMIT
    requires ProcessAll(queue, start)[k1].1.Ok? && ProcessAll(queue, start)[k2].1.Ok?
    ensures ProcessAll(queue, start)[k1].1.value.asset.tag == Some(start + k1)
    ensures ProcessAll(queue, start)[k2].1.value.asset.tag == Some(start + k2)
    ensures ProcessAll(queue, start)[k1].1.value.asset.tag.value < ProcessAll(queue, start)[k2].1.value.asset.tag.value
  {
    assert TagAt(start, k1) == start + k1;
    assert TagAt(start, k2) == start + k2;
  }

  /** Storing processed assets keeps every stored asset tagged. */
  lemma {:induction false} StoreLoadedTagged(assets: map<Handle, DynamicPrefab>, queue: seq<(Handle, DynamicPrefab)>, start: uint64, n: nat)
    requires AllTagged(assets) && n <= |queue|
    ensures AllTagged(StoreLoaded(assets, ProcessAll(queue, start)[..n]))
  {
    if n > 0 {
      assert ProcessAll(queue, start)[..n][..n - 1] == ProcessAll(queue, start)[..n - 1];
      StoreLoadedTagged(assets, queue, start, n - 1);
    }
  }

  // ---------------------------------------------------------------------------
  // Event intake, the join and the cleanup

  /** The ids named by `Inserted` events; no other event adds anything. */
  function InsertedIds(events: seq<ComponentEvent>): (r: set<Entity>)
  {
    if events == [] then {}
    else
      var k := |events| - 1;
      InsertedIds(events[..k]) + (if events[k].Inserted? then {events[k].id} else {})
  }

  /** An id becomes pending exactly when some event inserted a handle for it. */
  lemma {:induction false} InsertedIdsSpec(events: seq<ComponentEvent>)
    ensures forall id :: id in InsertedIds(events) <==> exists k :: 0 <= k < |events| && events[k] == Inserted(id)
  {
    if events != [] {
      var n := |events| - 1;
      InsertedIdsSpec(events[..n]);
      forall id | id in InsertedIds(events)
        ensures exists k :: 0 <= k < |events| && events[k] == Inserted(id)
      {
        if id !in InsertedIds(events[..n]) {
          assert events[n] == Inserted(id);
        } else {
          var k :| 0 <= k < n && events[..n][k] == Inserted(id);
          assert events[k] == Inserted(id);
        }
      }
      forall id, k | 0 <= k < |events| && events[k] == Inserted(id)
        ensures id in InsertedIds(events)
      {
        if k < n {
          assert events[..n][k] == Inserted(id);
        }
      }
    }
  }

  predicate IsReady(e: Entity, pending: set<Entity>, alive: set<Entity>, handles: map<Entity, Handle>, assets: map<Handle, DynamicPrefab>)
  {
    e in pending && e in alive && e in handles && handles[e] in assets
  }

  /**
   * The roots the join visits, in the order it visits them: the pending, living
   * entities below `bound` that hold a handle to a loaded prefab, by increasing id.
   */
  function ReadyRoots(pending: set<Entity>, alive: set<Entity>, handles: map<Entity, Handle>, assets: map<Handle, DynamicPrefab>, bound: nat): (r: seq<Entity>)
  {
    if bound == 0 then []
    else
      ReadyRoots(pending, alive, handles, assets, bound - 1)
        + (if IsReady(bound - 1, pending, alive, handles, assets) then [bound - 1] else [])
  }

  /** The roots of the join are exactly the ready entities below the bound, each once, by increasing id. */
  lemma {:induction false} ReadyRootsSpec(pending: set<Entity>, alive: set<Entity>, handles: map<Entity, Handle>, assets: map<Handle, DynamicPrefab>, bound: nat)
    ensures forall e: Entity :: e in ReadyRoots(pending, alive, handles, assets, bound) <==> e < bound && IsReady(e, pending, alive, handles, assets)
    ensures forall k :: 0 <= k < |ReadyRoots(pending, alive, handles, assets, bound)| ==> ReadyRoots(pending, alive, handles, assets, bound)[k] < bound
    ensures forall a, b :: 0 <= a < b < |ReadyRoots(pending, alive, handles, assets, bound)|
              ==> ReadyRoots(pending, alive, handles, assets, bound)[a] < ReadyRoots(pending, alive, handles, assets, bound)[b]
  {
    if bound > 0 {
      ReadyRootsSpec(pending, alive, handles, assets, bound - 1);
    }
  }

  function SetOf(s: seq<Entity>): (r: set<Entity>)
  {
    set e | e in s
  }

  /**
   * The cleanup removes exactly the instantiated roots: a pending entity that was not
   * ready stays pending for a later tick, and no instantiated root stays pending.
   */
  lemma CleanupKeepsUnready(pending: set<Entity>, alive: set<Entity>, handles: map<Entity, Handle>, assets: map<Handle, DynamicPrefab>, bound: nat, e: Entity)
    requires e in pending
    ensures e in pending - SetOf(ReadyRoots(pending, alive, handles, assets, bound))
        <==> !(e < bound && IsReady(e, pending, alive, handles, assets))
  {
    ReadyRootsSpec(pending, alive, handles, assets, bound);
  }

  /** The entities `low`, ..., `high - 1`. */
  function RangeSet(low: nat, high: nat): (r: set<Entity>)
    decreases high - low
  {
    if high <= low then {} else RangeSet(low, high - 1) + {high - 1}
  }

  lemma {:induction false} RangeSetMembers(low: nat, high: nat)
    ensures forall e: Entity :: e in RangeSet(low, high) <==> low <= e < high
    decreases high - low
  {
    if low < high {
      RangeSetMembers(low, high - 1);
    }
  }

  lemma InFreshRange(first: Entity, count: nat, e: Entity)
    ensures e in FreshRange(first, count) <==> first <= e < first + count
  {
    FreshRangeAt(first, count);
    if first <= e < first + count {
      assert FreshRange(first, count)[e - first] == e;
    }
  }

  /** One prefab instantiated in a tick: its root, the prefab, and the first entity created for it. */
  datatype Load = Load(root: Entity, prefab: DynamicPrefab, first: Entity)

  function Created(l: Load): (r: nat)
  {
    Extra(|l.prefab.entities|)
  }

  function EntitiesOf(l: Load): (r: seq<Entity>)
  {
    LoadEntities(l.root, l.first, |l.prefab.entities|)
  }

  /** The allocator's next entity after a sequence of loads that started at `first`. */
  function NextAfter(loads: seq<Load>, first: Entity): (r: Entity)
  {
    if loads == [] then first else loads[|loads| - 1].first + Created(loads[|loads| - 1])
  }

  /** Each load creates its entities right after those of the load before it. */
  ghost predicate Chained(loads: seq<Load>, first: Entity)
  {
    loads == [] ||
    (var n := |loads| - 1; Chained(loads[..n], first) && loads[n].first == NextAfter(loads[..n], first))
  }

  ghost predicate LoadsTagged(loads: seq<Load>)
  {
    forall k :: 0 <= k < |loads| ==> loads[k].prefab.tag.Some?
  }

  /** Load k is for the k-th root, with the prefab its handle refers to. */
  ghost predicate LoadsFor(loads: seq<Load>, roots: seq<Entity>, handles: map<Entity, Handle>, assets: map<Handle, DynamicPrefab>)
  {
    && |loads| == |roots|
    && forall k :: 0 <= k < |loads| ==>
         && loads[k].root == roots[k]
         && roots[k] in handles && handles[roots[k]] in assets
         && loads[k].prefab == assets[handles[roots[k]]]
  }

  lemma LoadsForAppend(loads: seq<Load>, roots: seq<Entity>, handles: map<Entity, Handle>, assets: map<Handle, DynamicPrefab>, l: Load)
    requires LoadsFor(loads, roots, handles, assets)
    requires l.root in handles && handles[l.root] in assets && l.prefab == assets[handles[l.root]]
    ensures LoadsFor(loads + [l], roots + [l.root], handles, assets)
  {
    forall k | 0 <= k < |loads| + 1
      ensures (loads + [l])[k].root == (roots + [l.root])[k]
    {
      if k < |loads| {
        assert (loads + [l])[k] == loads[k];
      }
    }
  }

  /** The tag storage after a sequence of loads on `base`: each created entity gets its prefab's tag. */
  function TagsAfter(base: map<Entity, DynamicPrefabTag>, loads: seq<Load>): (r: map<Entity, DynamicPrefabTag>)
    requires LoadsTagged(loads)
  {
    if loads == [] then base
    else
      var l := loads[|loads| - 1];
      TagsFrom(TagsAfter(base, loads[..|loads| - 1]), l.first, Created(l), NewTag(l.prefab.tag.value))
  }

  /** The instantiated-components log `base` after a sequence of loads appended theirs. */
  function AppliedAfter(base: seq<Applied>, loads: seq<Load>, serializers: SerializerMap, instantiate: Instantiate): (r: seq<Applied>)
  {
    if loads == [] then base
    else
      var l := loads[|loads| - 1];
      AppliedAfter(base, loads[..|loads| - 1], serializers, instantiate) + PrefabApplied(l.prefab.entities, EntitiesOf(l), serializers, instantiate)
  }

  /** The error log `base` after a sequence of loads appended theirs. */
  function ErrorsAfter(base: seq<LoadError>, loads: seq<Load>, serializers: SerializerMap, instantiate: Instantiate): (r: seq<LoadError>)
  {
    if loads == [] then base
    else
      var l := loads[|loads| - 1];
      ErrorsAfter(base, loads[..|loads| - 1], serializers, instantiate) + PrefabErrors(l.prefab.entities, EntitiesOf(l), serializers, instantiate)
  }


  /** Chained loads create their entities in disjoint, consecutive ranges above `first`. */
  lemma {:induction false} ChainBounds(loads: seq<Load>, first: Entity, k: nat)
    requires Chained(loads, first) && k < |loads|
    ensures first <= loads[k].first
    ensures loads[k].first + Created(loads[k]) <= NextAfter(loads, first)
    ensures forall k' :: k < k' < |loads| ==> loads[k].first + Created(loads[k]) <= loads[k'].first
  {
    var n := |loads| - 1;
    var init := loads[..n];
    if k < n {
      ChainBounds(init, first, k);
      ChainBounds(init, first, n - 1);
      forall k' | k < k' < |loads|
        ensures loads[k].first + Created(loads[k]) <= loads[k'].first
      {
        if k' < n {
          ChainBounds(init, first, k);
        }
      }
    } else if n > 0 {
      ChainBounds(init, first, n - 1);
    }
  }

  /**
   * The tag placed on a created entity is the tag of the prefab it was created
   * from (the promise of `DynamicPrefabTag`'s documentation).
   */
  lemma {:induction false} CreatedEntityTag(base: map<Entity, DynamicPrefabTag>, loads: seq<Load>, first: Entity, k: nat, e: Entity)
    requires Chained(loads, first) && LoadsTagged(loads) && k < |loads|
    requires loads[k].first <= e < loads[k].first + Created(loads[k])
    ensures e in TagsAfter(base, loads)
    ensures TagsAfter(base, loads)[e] == NewTag(loads[k].prefab.tag.value)
  {
    var n := |loads| - 1;
    var init := loads[..n];
    var l := loads[n];
    TagsFromSpec(TagsAfter(base, init), l.first, Created(l), NewTag(l.prefab.tag.value), e);
    if k < n {
      assert LoadsTagged(init);
      CreatedEntityTag(base, init, first, k, e);
      ChainBounds(loads, first, k);
    }
  }

  /** Entities that existed before the loads (the roots among them) keep their tag, or their lack of one. */
  lemma {:induction false} OlderEntitiesKeepTags(base: map<Entity, DynamicPrefabTag>, loads: seq<Load>, first: Entity, e: Entity)
    requires Chained(loads, first) && LoadsTagged(loads) && e < first
    ensures e in TagsAfter(base, loads) <==> e in base
    ensures e in base ==> TagsAfter(base, loads)[e] == base[e]
  {
    if loads != [] {
      var n := |loads| - 1;
      assert LoadsTagged(loads[..n]);
      OlderEntitiesKeepTags(base, loads[..n], first, e);
      ChainBounds(loads, first, n);
      TagsFromSpec(TagsAfter(base, loads[..n]), loads[n].first, Created(loads[n]), NewTag(loads[n].prefab.tag.value), e);
    }
  }

  /** The allocator never moves backwards over a sequence of loads. */
  lemma NextAfterAtLeast(loads: seq<Load>, first: Entity)
    requires Chained(loads, first)
    ensures first <= NextAfter(loads, first)
  {
    if loads != [] {
      ChainBounds(loads, first, |loads| - 1);
    }
  }

  lemma RangeSetSplit(low: nat, middle: nat, high: nat)
    requires low <= middle <= high
    ensures RangeSet(low, middle) + RangeSet(middle, high) == RangeSet(low, high)
  {
    RangeSetMembers(low, middle);
    RangeSetMembers(middle, high);
    RangeSetMembers(low, high);
  }

  /**
   * The state of the world and of the error log after `loads`, relative to their
   * state (`alive0`, `tags0`, `applied0`, `errors0`) when the join started at `bound`.
   */
  ghost predicate JoinSummary(loads: seq<Load>, bound: Entity, alive0: set<Entity>, tags0: map<Entity, DynamicPrefabTag>,
                              applied0: seq<Applied>, errors0: seq<LoadError>, serializers: SerializerMap, instantiate: Instantiate,
                              next: Entity, alive: set<Entity>, tags: map<Entity, DynamicPrefabTag>, applied: seq<Applied>, errors: seq<LoadError>)
  {
    && Chained(loads, bound) && LoadsTagged(loads) && next == NextAfter(loads, bound)
    && alive == alive0 + RangeSet(bound, next)
    && tags == TagsAfter(tags0, loads)
    && applied == AppliedAfter(applied0, loads, serializers, instantiate)
    && errors == ErrorsAfter(errors0, loads, serializers, instantiate)
  }

  /** One more load at the allocator's next entity keeps the chain, and the living set grows by its entities. */
  lemma ChainStep(loads: seq<Load>, l: Load, bound: Entity, alive0: set<Entity>, next: Entity, alive: set<Entity>, next': Entity, alive': set<Entity>)
    requires Chained(loads, bound) && LoadsTagged(loads) && next == NextAfter(loads, bound)
    requires alive == alive0 + RangeSet(bound, next)
    requires l.first == next && l.prefab.tag.Some? && next' == next + Created(l)
    requires alive' == alive + RangeSet(next, next')
    ensures Chained(loads + [l], bound) && LoadsTagged(loads + [l]) && next' == NextAfter(loads + [l], bound)
    ensures alive' == alive0 + RangeSet(bound, next')
  {
    assert (loads + [l])[..|loads|] == loads;
    NextAfterAtLeast(loads, bound);
    RangeSetSplit(bound, next, next');
  }

  /** One more load adds its fresh entities' tags. */
  lemma TagsStep(loads: seq<Load>, l: Load, tags0: map<Entity, DynamicPrefabTag>, tags: map<Entity, DynamicPrefabTag>, tags': map<Entity, DynamicPrefabTag>)
    requires LoadsTagged(loads) && l.prefab.tag.Some?
    requires tags == TagsAfter(tags0, loads)
    requires tags' == TagsFrom(tags, l.first, Created(l), NewTag(l.prefab.tag.value))
    ensures LoadsTagged(loads + [l]) && tags' == TagsAfter(tags0, loads + [l])
  {
    assert (loads + [l])[..|loads|] == loads;
  }

  /** One more load appends its instantiated components and its errors. */
  lemma LogsStep(loads: seq<Load>, l: Load, applied0: seq<Applied>, errors0: seq<LoadError>, serializers: SerializerMap, instantiate: Instantiate,
                 applied: seq<Applied>, errors: seq<LoadError>, applied': seq<Applied>, errors': seq<LoadError>)
    requires applied == AppliedAfter(applied0, loads, serializers, instantiate)
    requires errors == ErrorsAfter(errors0, loads, serializers, instantiate)
    requires applied' == applied + PrefabApplied(l.prefab.entities, EntitiesOf(l), serializers, instantiate)
    requires errors' == errors + PrefabErrors(l.prefab.entities, EntitiesOf(l), serializers, instantiate)
    ensures applied' == AppliedAfter(applied0, loads + [l], serializers, instantiate)
    ensures errors' == ErrorsAfter(errors0, loads + [l], serializers, instantiate)
  {
    assert (loads + [l])[..|loads|] == loads;
  }

  // ---------------------------------------------------------------------------
  // The system

  class PrefabLoaderSystem {
    /** The serializers the bundle registered; the system never changes them. */
    const serializerMap: SerializerMap

    /** Scratch list: the entities of the prefab instantiated last. */
    var entities: seq<Entity>
    /** The roots instantiated in the current tick. */
    var finished: seq<Entity>
    /** `to_process`: entities that received a prefab handle and wait for it to load. */
    var toProcess: set<Entity>
    /** Whether `insert_reader` is `Some`, i.e. `setup` registered the event reader. */
    var insertReader: bool
    var nextTag: uint64
    /** The messages the system logged with `error!`. */
    var errors: seq<LoadError>

    /** `PrefabLoaderSystem::new`. */
    constructor (serializerMap: SerializerMap)
      ensures this.serializerMap == serializerMap
      ensures entities == [] && finished == [] && toProcess == {}
      ensures !insertReader && nextTag == 0 && errors == []
    {
      this.serializerMap := serializerMap;
      entities := [];
      finished := [];
      toProcess := {};
      insertReader := false;
      nextTag := 0;
      errors := [];
    }

    /** The part of `System::setup` that registers the reader of the handle storage's events. */
    method RegisterReader()
      modifies this`insertReader
      ensures insertReader
    {
      insertReader := true;
    }

    /** The processing closure: tag the asset with the counter, bump the counter, decide. */
    method ProcessPrefab(d: DynamicPrefab) returns (r: Result<ProcessingState<DynamicPrefab>>)
      modifies this`nextTag, this`errors
      ensures r == Process(d, old(nextTag))
      ensures nextTag == TagAt(old(nextTag), 1)
      ensures errors == old(errors) + (if r.Err? then [SubAssetLoadFailed] else [])
    {
      var d := d.(tag := Some(nextTag));
      nextTag := (nextTag + 1) % U64_LIMIT;
      if !d.loading {
        return Ok(Loaded(d));
      }
      match d.progress
      case Complete =>
        r := Ok(Loaded(d));
      case Failed =>
        errors := errors + [SubAssetLoadFailed];
        r := Err("Failed loading sub asset");
      case Loading =>
        r := Ok(ProcessingState.Loading(d));
    }

    /**
     * `AssetStorage::process` with the closure: every queued asset in order; loaded
     * ones are stored under their handle, loading ones wait in the queue, failed ones
     * are dropped.
     */
    method ProcessAssets(storage: AssetStorage<DynamicPrefab>)
      requires AllTagged(storage.assets)
      modifies this`nextTag, this`errors, storage
      ensures nextTag == TagAt(old(nextTag), |old(storage.queue)|)
      ensures storage.assets == StoreLoaded(old(storage.assets), ProcessAll(old(storage.queue), old(nextTag)))
      ensures storage.queue == Requeued(ProcessAll(old(storage.queue), old(nextTag)))
      ensures errors == old(errors) + SubAssetErrors(ProcessAll(old(storage.queue), old(nextTag)))
      ensures AllTagged(storage.assets)
    {
      var queue, assets := storage.queue, storage.assets;
      var requeue: seq<(Handle, DynamicPrefab)> := [];
      ghost var start := nextTag;
      ghost var results := ProcessAll(queue, start);
      for k := 0 to |queue|
        invariant nextTag == TagAt(start, k)
        invariant assets == StoreLoaded(old(storage.assets), results[..k])
        invariant requeue == Requeued(results[..k])
        invariant errors == old(errors) + SubAssetErrors(results[..k])
      {
        assert results[..k + 1][..k] == results[..k];
        var handle, d := queue[k].0, queue[k].1;
        var r := ProcessPrefab(d);
        TagAtNext(start, k);
        assert results[k] == (handle, r);
        if r.Ok? && r.value.Loaded? {
          assets := assets[handle := r.value.asset];
        } else if r.Ok? {
          requeue := requeue + [(handle, r.value.asset)];
        }
      }
      assert results[..|queue|] == results;
      StoreLoadedTagged(old(storage.assets), queue, start, |queue|);
      storage.assets, storage.queue := assets, requeue;
    }

    /** Event intake: the id of every `Inserted` event becomes pending. */
    method ReadEvents(events: seq<ComponentEvent>)
      requires insertReader
      modifies this`toProcess
      ensures toProcess == old(toProcess) + InsertedIds(events)
    {
      for k := 0 to |events|
        invariant toProcess == old(toProcess) + InsertedIds(events[..k])
      {
        assert events[..k + 1][..k] == events[..k];
        if events[k].Inserted? {
          toProcess := toProcess + {events[k].id};
        }
      }
      assert events[..|events|] == events;
    }

    /** Create `count` entities after the root, each tagged with `tag`, and list them after it. */
    method CreateEntities(root: Entity, count: nat, tag: DynamicPrefabTag, world: World)
      requires world.Valid()
      modifies this`entities, world`next, world`alive, world`tags
      ensures world.Valid()
      ensures entities == [root] + FreshRange(old(world.next), count)
      ensures world.next == old(world.next) + count
      ensures world.alive == old(world.alive) + RangeSet(old(world.next), world.next)
      ensures world.tags == TagsFrom(old(world.tags), old(world.next), count, tag)
    {
      ghost var first := world.next;
      entities := [root];
      for k := 0 to count
        invariant world.Valid()
        invariant world.next == first + k
        invariant world.alive == old(world.alive) + RangeSet(first, world.next)
        invariant world.tags == TagsFrom(old(world.tags), first, k, tag)
        invariant entities == [root] + FreshRange(first, k)
      {
        var e := world.Create();
        entities := entities + [e];
        world.InsertTag(e, tag);
      }
    }

    /** Instantiate the components of one record on `entity`, in order, logging the failures. */
    method ApplyRecord(record: EntityRecord, entity: Entity, world: World, instantiate: ComponentInstantiate)
      modifies this`errors, world`applied
      ensures world.applied == old(world.applied) + RecordApplied(record, entity, serializerMap, instantiate)
      ensures errors == old(errors) + RecordErrors(record, entity, serializerMap, instantiate)
    {
      for j := 0 to |record|
        invariant world.applied == old(world.applied) + RecordApplied(record[..j], entity, serializerMap, instantiate)
        invariant errors == old(errors) + RecordErrors(record[..j], entity, serializerMap, instantiate)
      {
        assert record[..j + 1][..j] == record[..j];
        var uuid, value := record[j].0, record[j].1;
        if uuid !in serializerMap {
          errors := errors + [NoSerializer(uuid)];
        } else if instantiate(serializerMap[uuid], value, entity) {
          world.applied := world.applied + [Applied(entity, uuid, value)];
        } else {
          errors := errors + [InstantiateFailed(uuid, entity)];
        }
      }
      assert record[..|record|] == record;
    }

    /** Instantiate the components of every record, record i on `entities[i]`, in index order. */
    method ApplyRecords(records: seq<EntityRecord>, entities: seq<Entity>, world: World, instantiate: Instantiate)
      requires |records| <= |entities|
      modifies this`errors, world`applied
      ensures world.applied == old(world.applied) + PrefabApplied(records, entities, serializerMap, instantiate)
      ensures errors == old(errors) + PrefabErrors(records, entities, serializerMap, instantiate)
    {
      for index := 0 to |records|
        invariant world.applied == old(world.applied) + PrefabApplied(records[..index], entities, serializerMap, instantiate)
        invariant errors == old(errors) + PrefabErrors(records[..index], entities, serializerMap, instantiate)
      {
        assert records[..index + 1][..index] == records[..index];
        ApplyRecord(records[index], entities[index], world, ForPrefab(instantiate, entities));
      }
      assert records[..|records|] == records;
    }

    /**
     * Instantiate one loaded prefab on its root: the root stands for record 0, one new
     * entity per further record, each new entity tagged with the prefab's tag, then
     * every component of record i applied to `entities[i]`.
     */
    method InstantiatePrefab(root: Entity, prefab: DynamicPrefab, world: World, instantiate: Instantiate)
      requires world.Valid() && prefab.tag.Some?
      modifies this`entities, this`errors, world`next, world`alive, world`tags, world`applied
      ensures world.Valid()
      ensures entities == LoadEntities(root, old(world.next), |prefab.entities|)
      ensures world.next == old(world.next) + Extra(|prefab.entities|)
      ensures world.alive == old(world.alive) + RangeSet(old(world.next), world.next)
      ensures world.tags == TagsFrom(old(world.tags), old(world.next), Extra(|prefab.entities|), NewTag(prefab.tag.value))
      ensures world.applied == old(world.applied) + PrefabApplied(prefab.entities, entities, serializerMap, instantiate)
      ensures errors == old(errors) + PrefabErrors(prefab.entities, entities, serializerMap, instantiate)
    {
      CreateEntities(root, Extra(|prefab.entities|), NewTag(prefab.tag.value), world);
      ApplyRecords(prefab.entities, entities, world, instantiate);
    }

    /**
     * One step of the join: instantiate `prefab` on the root `id` and record the root in
     * `finished`. The ghost arguments are the world at the start of the join and the loads
     * so far; every summary of the join is extended by the new load.
     */
    method JoinRoot(id: Entity, prefab: DynamicPrefab, world: World, instantiate: Instantiate,
                    ghost bound: Entity, ghost alive0: set<Entity>, ghost tags0: map<Entity, DynamicPrefabTag>,
                    ghost applied0: seq<Applied>, ghost errors0: seq<LoadError>, ghost loads: seq<Load>)
      returns (ghost loads': seq<Load>)
      requires world.Valid() && prefab.tag.Some?
      requires JoinSummary(loads, bound, alive0, tags0, applied0, errors0, serializerMap, instantiate,
                           world.next, world.alive, world.tags, world.applied, errors)
      modifies this`entities, this`finished, this`errors, world`next, world`alive, world`tags, world`applied
      ensures loads' == loads + [Load(id, prefab, old(world.next))]
      ensures finished == old(finished) + [id]
      ensures world.Valid()
      ensures JoinSummary(loads', bound, alive0, tags0, applied0, errors0, serializerMap, instantiate,
                          world.next, world.alive, world.tags, world.applied, errors)
      ensures entities == EntitiesOf(Load(id, prefab, old(world.next)))
    {
      finished := finished + [id];
      ghost var l := Load(id, prefab, world.next);
      ghost var next, alive, tags, applied, errs := world.next, world.alive, world.tags, world.applied, errors;
      InstantiatePrefab(id, prefab, world, instantiate);
      ChainStep(loads, l, bound, alive0, next, alive, world.next, world.alive);
      TagsStep(loads, l, tags0, tags, world.tags);
      LogsStep(loads, l, applied0, errors0, serializerMap, instantiate, applied, errs, world.applied, errors);
      loads' := loads + [l];
    }

    /**
     * The join: clear `finished`, then instantiate every pending, living entity that
     * holds a handle to a loaded prefab, by increasing id, recording it in `finished`.
     * Entities created during the join are not visited.
     */
    method InstantiateReady(world: World, storage: AssetStorage<DynamicPrefab>, instantiate: Instantiate) returns (ghost loads: seq<Load>)
      requires world.Valid() && AllTagged(storage.assets)
      modifies this`entities, this`finished, this`errors, world`next, world`alive, world`tags, world`applied
      ensures world.Valid()
      ensures finished == ReadyRoots(toProcess, old(world.alive), world.handles, storage.assets, old(world.next))
      ensures LoadsFor(loads, finished, world.handles, storage.assets) && LoadsTagged(loads)
      ensures Chained(loads, old(world.next)) && world.next == NextAfter(loads, old(world.next))
      ensures world.alive == old(world.alive) + RangeSet(old(world.next), world.next)
      ensures world.tags == TagsAfter(old(world.tags), loads)
      ensures world.applied == AppliedAfter(old(world.applied), loads, serializerMap, instantiate)
      ensures errors == ErrorsAfter(old(errors), loads, serializerMap, instantiate)
      ensures loads == [] ==> entities == old(entities)
      ensures loads != [] ==> entities == EntitiesOf(loads[|loads| - 1])
    {
      finished := [];
      loads := [];
      var bound := world.next;
      var alive := world.alive;
      var id := 0;
      while id < bound
        invariant 0 <= id <= bound
        invariant world.Valid()
        invariant finished == ReadyRoots(toProcess, alive, world.handles, storage.assets, id)
        invariant LoadsFor(loads, finished, world.handles, storage.assets)
        invariant JoinSummary(loads, bound, alive, old(world.tags), old(world.applied), old(errors), serializerMap, instantiate,
                              world.next, world.alive, world.tags, world.applied, errors)
        invariant loads == [] ==> entities == old(entities)
        invariant loads != [] ==> entities == EntitiesOf(loads[|loads| - 1])
      {
        if id in toProcess && id in alive && id in world.handles && world.handles[id] in storage.assets {
          var prefab := storage.assets[world.handles[id]];
          LoadsForAppend(loads, finished, world.handles, storage.assets, Load(id, prefab, world.next));
          loads := JoinRoot(id, prefab, world, instantiate, bound, alive, old(world.tags), old(world.applied), old(errors), loads);
        }
        id := id + 1;
      }
    }

    /** Remove the roots instantiated in this tick from the pending set. */
    method RemoveFinished()
      modifies this`toProcess
      ensures toProcess == old(toProcess) - SetOf(finished)
    {
      for k := 0 to |finished|
        invariant toProcess == old(toProcess) - SetOf(finished[..k])
      {
        assert SetOf(finished[..k + 1]) == SetOf(finished[..k]) + {finished[k]};
        toProcess := toProcess - {finished[k]};
      }
      assert finished[..|finished|] == finished;
    }

    /** `System::run`: one tick of the loader. */
    method Run(events: seq<ComponentEvent>, world: World, storage: AssetStorage<DynamicPrefab>, instantiate: Instantiate)
      returns (ghost loads: seq<Load>)
      requires insertReader
      requires world.Valid() && AllTagged(storage.assets)
      modifies this`nextTag, this`errors, this`toProcess, this`finished, this`entities, storage
      modifies world`next, world`alive, world`tags, world`applied
      ensures world.Valid() && AllTagged(storage.assets)
      // the processing closure
      ensures nextTag == TagAt(old(nextTag), |old(storage.queue)|)
      ensures storage.assets == StoreLoaded(old(storage.assets), ProcessAll(old(storage.queue), old(nextTag)))
      ensures storage.queue == Requeued(ProcessAll(old(storage.queue), old(nextTag)))
      // the join, over the pending set extended by the events
      ensures finished == ReadyRoots(old(toProcess) + InsertedIds(events), old(world.alive), world.handles, storage.assets, old(world.next))
      ensures LoadsFor(loads, finished, world.handles, storage.assets) && LoadsTagged(loads)
      ensures Chained(loads, old(world.next)) && world.next == NextAfter(loads, old(world.next))
      ensures world.alive == old(world.alive) + RangeSet(old(world.next), world.next)
      ensures world.tags == TagsAfter(old(world.tags), loads)
      ensures world.applied == AppliedAfter(old(world.applied), loads, serializerMap, instantiate)
      ensures errors == ErrorsAfter(old(errors) + SubAssetErrors(ProcessAll(old(storage.queue), old(nextTag))), loads, serializerMap, instantiate)
      ensures loads == [] ==> entities == old(entities)
      ensures loads != [] ==> entities == EntitiesOf(loads[|loads| - 1])
      // the cleanup
      ensures toProcess == (old(toProcess) + InsertedIds(events)) - SetOf(finished)
    {
      ProcessAssets(storage);
      ReadEvents(events);
      loads := InstantiateReady(world, storage, instantiate);
      RemoveFinished();
    }
  }
}
