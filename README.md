# amethyst-dynamic-prefab, modelled in Dafny

This project models the core of amethyst-dynamic-prefab. That crate loads
prefabs for the Amethyst engine whose component types are chosen at run time.
Each serializable type carries a 128-bit `TypeUuid` constant. A bundle
collects type-erased serializers keyed by those identifiers. Once per tick,
the `PrefabLoaderSystem` does four things:

1. It processes the prefab assets whose data arrived. Each asset gets the next
   tag from a `u64` counter and is then stored, requeued or dropped.
2. It reads the insertion events of the `Handle<DynamicPrefab>` storage.
3. It instantiates every pending root entity whose prefab has loaded. The module
   creates one entity per further entity record and tags each one. It then
   instantiates every serialized component through the serializer registered
   for its identifier.
4. It forgets the roots it instantiated.

Modules, one per part of the program:

- `TypeUuid` (type_uuid.dfy): the `TypeUuid` constants of the type-uuid crate.
  It holds the engine types, `()`, the XOR composition used for
  `GraphicsPrefab<V, M, T>`, and the algebra of that composition.
- `Serializers` (serializers.dfy): the two serializer wrappers and
  `SerializerMap`.
- `Loader` (loader.dfy): `DynamicPrefabTag`.
- `Engine` (engine.dfy): the host engine as the loader sees it. This covers the
  entity allocator and storages (`World`), `AssetStorage` with its processing
  queue, `Completion`, `ProcessingState` and `DispatcherBuilder`. All of these
  are Amethyst's, not the crate's.
- `Prefab` (prefab.dfy): the prefab asset, and a pure specification of how its
  entity records map to entities and components.
- `LoaderSystem` (system.dfy): the `PrefabLoaderSystem` class.
  Its processing closure, event intake, join, cleanup and `run` are methods
  proved against specification functions.
- `LibBundle` (lib_bundle.dfy): the `DynamicPrefabBundle` of src/lib.rs.
- `Bundle` (bundle.dfy): the `DynamicPrefabBundle` of src/bundle.rs.

Parameters stand in for what the crate receives from outside:

- the events of a tick;
- the world;
- the asset storage;
- `SerializeDynamic::instantiate`, as a function `(Serializer, Serialized, Entity, seq<Entity>) -> bool` of the serializer, the serialized component, the target entity and the prefab's entity list. It returns true when the call returns `Ok`.

Two logs are kept as sequences. `PrefabLoaderSystem.errors` holds the
`error!` messages. `World.applied` holds the components that were
instantiated.

Behaviours of the code worth knowing, which the model follows:

- The closure tags an asset every time it runs (src/system.rs:84), including
  when the asset already has a tag. An asset that is still loading is requeued and gets a fresh tag
  on each later tick. A prefab is instantiated with the tag its last
  processing gave it.
- The root entity of an instantiated prefab is not tagged. Only the entities
  created for records 1, 2, ... receive the tag (src/system.rs:128-153).
- The counter `next_tag` is a `u64`, and `+= 1` is modelled as wrapping
  (release-build arithmetic). The lemma that tags increase is stated for
  queues that do not pass the end of the range.
- src/lib.rs declares `DynamicPrefab` as a unit struct, and declares only
  `mod loader`. It defines no `SerializerMap`, accessor or storage alias.
  src/system.rs and src/bundle.rs use all of these. The model gives the prefab
  asset the fields that src/system.rs reads: `tag`, `entities`, `loading()`
  and `progress()`.

## Model

| member | source | states |
|---|---|---|
| TypeUuid.ComposeCommutative | type-uuid/src/amethyst_types.rs:40-42 | `compose_uuid(a, b) == compose_uuid(b, a)` |
| TypeUuid.ComposeAssociative | type-uuid/src/amethyst_types.rs:40-42 | `compose_uuid` is associative |
| TypeUuid.ComposeSelfCancels | type-uuid/src/amethyst_types.rs:40-42 | composing an id with itself gives 0, and 0 is the identity on both sides |
| TypeUuid.ComposeUuid | type-uuid/src/amethyst_types.rs:40-42 | `compose_uuid` is the bitwise XOR of two ids: the result is again below 2^128, and each of its bits is set exactly where the two arguments' bits differ |
| TypeUuid.UuidOf | type-uuid/src/amethyst_types.rs:5-37 | the associated constant of each type. The id of `GraphicsPrefab<V, M, T>` is the family constant composed with the ids of V, M and T; the source nests the compositions to the right, and the contract states the equal flat left-to-right form `base ^ V ^ M ^ T`. A type that names its constant has that constant |
| TypeUuid.DynamicUuid | type-uuid/src/lib.rs:29-33 | `uuid(&self)` returns the associated constant of the value's type |
| TypeUuid.GraphicsPrefabPermutationInvariant | type-uuid/src/amethyst_types.rs:33-36 | all six orderings of the three type arguments give the same id |
| TypeUuid.GraphicsPrefabCollapse | type-uuid/src/amethyst_types.rs:33-36 | two arguments with the same id, in any two positions and whether or not they are the same type, cancel. What remains is the family constant composed with the third argument's id |
| TypeUuid.GraphicsPrefabCollision | type-uuid/src/amethyst_types.rs:33-36 | distinct instantiations share an id: `<A, B, C>` and `<C, B, A>` when A and C differ, and `<B, A, A>` and `<B, C, C>` |
| TypeUuid.EngineUuidsDistinct | type-uuid/src/amethyst_types.rs:5-15 | the constants of Transform, CameraPrefab and LightPrefab are pairwise distinct, and all differ from that of `()` |
| TypeUuid.DynamicUuidDeterministic | type-uuid/src/lib.rs:29-33 | `uuid(&self)` is the type's `UUID` constant, whatever the value: two values with the same type name get the same id |
| TypeUuid.UnitDynamicUuid | type-uuid/src/lib.rs:35-37 | the id of `()` is 23818894022279401834075037072386988352 |
| Loader.DynamicPrefabTag.Tag | src/loader.rs:43-45 | `tag()` returns the stored value: rebuilding a tag from it gives the same tag |
| Loader.NewTag | src/loader.rs:36-46 | `tag()` on a tag made by `new(t)` returns `t` |
| Loader.NewTagInjective | src/loader.rs:29-46 | two tags are equal exactly when they were made from the same value |
| Prefab.RecordOutcomes | src/system.rs:157-176 | one outcome per serialized component of a record |
| Prefab.FreshRangeAt | src/system.rs:128-130 | the k-th created entity is the allocator's next entity plus k |
| Prefab.LoadEntitiesShape | src/system.rs:126-131 | the loader's entity list starts with the root. It is followed by consecutive fresh entities, one per record after the first, all distinct |
| Prefab.TagsFromSpec | src/system.rs:145-152 | after tagging the created entities, exactly those entities receive the prefab's tag, and every other entity keeps its tag or its lack of one |
| Prefab.RecordOutcomeAt | src/system.rs:157-176 | component j of a record is skipped with "no serializer" when its id is unregistered. Otherwise it is instantiated or logged as failed, as `instantiate` answers |
| Prefab.OutcomesLength | src/system.rs:156-177 | every component of every record is attempted exactly once |
| Prefab.OutcomeAt | src/system.rs:156-177 | the outcome of component j of record i sits at its position in record-then-component order, and is applied to `entities[i]` |
| Prefab.RecordAppliedIff | src/system.rs:157-176 | a component is instantiated from a record exactly when it is one of the record's components, its id has a serializer, and instantiating it on the entity succeeds |
| Prefab.PrefabAppliedIff | src/system.rs:156-177 | the same for a whole prefab: record i is applied to `entities[i]` |
| Prefab.RecordAppliedMatches | src/system.rs:157-176 | the record-level logs the loop builds agree with the outcome-based definition |
| Prefab.PrefabAppliedMatches | src/system.rs:156-177 | the prefab-level logs the loop builds agree with the outcome-based definition |
| Prefab.AppliedIff | src/system.rs:156-177 | the outcome-based definition satisfies the same if-and-only-if as `PrefabAppliedIff` |
| LoaderSystem.Process | src/system.rs:83-103 | on success the asset comes back tagged with the counter. It is `Loaded` exactly when sub-asset loading was not started or is complete, and `Loading` exactly when it is still loading. It is an error exactly when loading failed |
| LoaderSystem.ProcessedTagsIncrease | src/system.rs:84-85 | assets processed in one pass get the counter's values in queue order, strictly increasing (short of wrap-around) |
| LoaderSystem.StoreLoadedTagged | src/system.rs:84-96 | storing processed assets keeps every stored prefab tagged, which the join's `expect` relies on |
| LoaderSystem.InsertedIdsSpec | src/system.rs:108-117 | an id becomes pending exactly when an `Inserted` event names it |
| LoaderSystem.ReadyRootsSpec | src/system.rs:119-122 | the join visits exactly the pending, living entities with a handle to a loaded prefab below the start bound. Each is visited once, in increasing id order |
| LoaderSystem.CleanupKeepsUnready | src/system.rs:181-183 | after the cleanup a pending entity stays pending exactly when it was not instantiated in this tick |
| LoaderSystem.ChainBounds | src/system.rs:128-130 | the prefabs of one tick create their entities in consecutive, disjoint ranges above the start bound |
| LoaderSystem.CreatedEntityTag | src/system.rs:145-152 | every created entity carries the tag of the prefab it was created from |
| LoaderSystem.OlderEntitiesKeepTags | src/system.rs:126-153 | entities that existed before the join, the roots among them, keep their tags |
| LoaderSystem.PrefabLoaderSystem.constructor | src/system.rs:25-36 | a new system has empty lists, nothing pending, no reader and counter 0, and owns the given serializer map |
| LoaderSystem.PrefabLoaderSystem.RegisterReader | src/system.rs:186-191 | after setup, the insertion-event reader is registered |
| LoaderSystem.PrefabLoaderSystem.ProcessPrefab | src/system.rs:83-103 | the closure returns `Process` of the asset with the current counter. The counter is bumped (wrapping), and a failure is logged |
| LoaderSystem.PrefabLoaderSystem.ProcessAssets | src/system.rs:82-107 | the queued assets are processed in order, the k-th with the counter plus k. Loaded ones are stored under their handle, loading ones are requeued, failures are logged. Every stored prefab stays tagged |
| LoaderSystem.PrefabLoaderSystem.ReadEvents | src/system.rs:108-117 | the pending set grows by the ids of the `Inserted` events and by nothing else |
| LoaderSystem.PrefabLoaderSystem.CreateEntities | src/system.rs:126-153 | the entity list is the root followed by the new entities. The allocator advances by their number, they become alive, and each gets the tag |
| LoaderSystem.PrefabLoaderSystem.ApplyRecord | src/system.rs:157-176 | the components of one record are instantiated on its entity in order. Missing serializers and failed instantiations are logged |
| LoaderSystem.PrefabLoaderSystem.ApplyRecords | src/system.rs:156-177 | record i is applied to `entities[i]`, in index order |
| LoaderSystem.PrefabLoaderSystem.InstantiatePrefab | src/system.rs:125-177 | one prefab: its entities are created and tagged, then its components are applied, with the resulting world and logs stated exactly |
| LoaderSystem.PrefabLoaderSystem.JoinRoot | src/system.rs:122-178 | one visited root: it is recorded in `finished`, and the join's summary of world and logs is extended by its prefab |
| LoaderSystem.PrefabLoaderSystem.InstantiateReady | src/system.rs:118-179 | `finished` is exactly the ready roots in id order, each instantiated with its own prefab. The new entities, tags, components and errors are those of these loads in that order |
| LoaderSystem.PrefabLoaderSystem.RemoveFinished | src/system.rs:181-183 | the pending set loses exactly the finished roots |
| LoaderSystem.PrefabLoaderSystem.Run | src/system.rs:75-184 | one tick: processing, then event intake, then the join over the updated pending set, then cleanup, with the whole new state stated |
| LibBundle.WithResource | src/lib.rs:41-48 | registering a resource maps its id to a resource wrapper for it. The other entries are unchanged and no other key appears |
| LibBundle.WithResourcesKeys | src/lib.rs:41-48 | after a sequence of registrations, the keys are the old ones plus the ids registered |
| LibBundle.LastRegistrationWins | src/lib.rs:41-48 | after a sequence of registrations, an id maps to the last type registered under it |
| LibBundle.UnregisteredKept | src/lib.rs:41-48 | an entry whose id no registration names is kept |
| LibBundle.LastWriteWins | src/lib.rs:45-47 | a second registration under the same id replaces the first |
| LibBundle.RegisterIdempotent | src/lib.rs:45-47 | registering a type twice is the same as registering it once |
| LibBundle.DistinctRegistrationsCommute | src/lib.rs:45-47 | registrations under different ids commute |
| LibBundle.GraphicsPrefabRegistrationsCollide | src/lib.rs:45-47 | registering `GraphicsPrefab<A, B, C>` and then `<C, B, A>` (distinct types) keeps only the second serializer |
| LibBundle.DynamicPrefabBundle.constructor | src/lib.rs:22-24 | a new bundle has no serializers |
| LibBundle.DynamicPrefabBundle.RegisterComponent | src/lib.rs:32-39 | leaves the serializer map unchanged (the insertion is commented out) |
| LibBundle.DynamicPrefabBundle.RegisterDefaultTypes | src/lib.rs:26-30 | leaves the serializer map unchanged |
| LibBundle.DynamicPrefabBundle.RegisterResource | src/lib.rs:41-48 | the serializer map becomes `WithResource` of the old map |
| LibBundle.DynamicPrefabBundle.Build | src/lib.rs:51-57 | returns `Ok(())` and adds no system |
| Bundle.DynamicPrefabBundle.constructor | src/bundle.rs:16-18 | a new bundle has no serializers |
| Bundle.DynamicPrefabBundle.RegisterComponent | src/bundle.rs:26-33 | leaves the serializer map unchanged (the insertion is commented out) |
| Bundle.DynamicPrefabBundle.RegisterDefaultTypes | src/bundle.rs:20-24 | leaves the serializer map unchanged |
| Bundle.DynamicPrefabBundle.Build | src/bundle.rs:36-44 | adds exactly one system named "" with no dependencies: a fresh loader system that owns the bundle's serializer map and is in its initial state. Returns `Ok(())` |

## Left out

- `DynamicPrefabLoader::load` (src/loader.rs:11-27) only forwards to the engine's `Loader`. Parsing, file I/O and sub-asset loading are not part of this model.
- `AssetStorage::process` is Amethyst's, and only the closure is the crate's code. It is modelled as one in-order pass over a queue. `Loaded` assets are stored under their handle, `Loading` ones are requeued, and failed ones are dropped. The frame number, thread pool and hot-reload strategy arguments are not modelled.
- `DynamicSystemData` (`setup`/`fetch`, src/system.rs:55-70) and `accessor` (src/system.rs:193-195) are resource plumbing. `setup` is modelled only as registering the event reader. `PrefabLoaderSystem::new` is modelled with the serializer map alone, as src/bundle.rs calls it; the accessor argument is dropped.
- LoaderSystem.PrefabLoaderSystem.Run: requires that the reader is registered. The source panics through `expect` instead.
- `SerializeDynamic::instantiate` is a parameter. Only its success or failure is modelled, not what it writes into the world.
- Prefab.Instantiate: the oracle sees the serializer, the serialized component, the target entity and the prefab's entity list. It does not see the world's resources (`dynamic_data`, src/system.rs:171), and it is one fixed function for the whole tick. A component's success therefore cannot depend on the state of the world or on components instantiated before it.
- Prefab.DynamicPrefab: the conversion from intermediate to typed entity data, sub-asset loading (commented out in the source), parents and the other TODOs are not modelled.
- Prefab.DynamicPrefab: sub-asset progress is a snapshot `Completion` stored in the asset value. A requeued asset keeps its `Completion` until the caller rewrites the queue; the progress tracker advancing on its own between ticks is not modelled.
- TypeUuid.TypeName: the `Format` bounds of the `GraphicsPrefab` impl (type-uuid/src/amethyst_types.rs:26-31) are not modelled. Any type name may stand in any of the three argument positions, so TypeUuid.GraphicsPrefabCollision and LibBundle.GraphicsPrefabRegistrationsCollide also cover instantiations Rust would reject. For example, the `<B, A, A>` case needs A to be both a mesh format and a texture format.
- Entities are modelled by their index. Generations, deletion and index reuse are not modelled, so the allocator always hands out the next unused index.
- LoaderSystem.PrefabLoaderSystem.InstantiateReady: the join is modelled over the ids below the allocator's next index when the join begins. Entities created during the join hold no prefab handle, because nothing in the system inserts one.
- LoaderSystem.ProcessedTagsIncrease: stated only for a pass that does not wrap the `u64` counter. In a debug build the source would panic at that point instead.
- The `error!` log is output, and so is the `println!` of the type-uuid test. The logged errors are kept as a sequence of `LoadError` values:
  - `SubAssetLoadFailed` drops the progress errors that src/system.rs:98 prints;
  - `NoSerializer(uuid)` keeps the uuid that src/system.rs:163 prints;
  - `InstantiateFailed(uuid, entity)` records the component's uuid and the entity, which the message at src/system.rs:174 does not contain, and drops the `err` that it does print.
- The derive macro, the uuid-gen tool and the examples are not part of this model.
