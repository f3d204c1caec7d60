/**
 * The host engine as far as the prefab system touches it: entity allocation,
 * component storages, the change events of the handle storage, asset storage
 * with its processing queue, progress completion and the dispatcher builder.
 * None of this is the crate's own code; each piece keeps only what the
 * loader relies on.
 */
module Engine {
  import opened TypeUuid
  import opened Serializers
  import opened Loader

  /** An entity, by its index (`Entity::id()`); generations are not modelled. */
  type Entity = nat

  /** A `Handle<DynamicPrefab>`, by the id of the asset it refers to. */
  type Handle = nat

  /** `ComponentEvent` of a flagged storage. */
  datatype ComponentEvent = Inserted(id: Entity) | Modified(id: Entity) | Removed(id: Entity)

  /** `Completion` of a progress tracker. */
  datatype Completion = Complete | Failed | Loading

  /** `ProcessingState<A>`: what an asset-processing closure hands back on success. */
  datatype ProcessingState<A> = Loaded(asset: A) | Loading(asset: A)

  /** The engine's `Result<T, Error>`, with the error reduced to its message. */
  datatype Result<T> = Ok(value: T) | Err(message: string)

  /** A component that a serializer instantiated on an entity. */
  datatype Applied = Applied(entity: Entity, uuid: Uuid, value: Serialized)

  /**
   * The parts of the world the loader uses: the entity allocator (`next` is the
   * next index it hands out), the read-only `Handle<DynamicPrefab>` storage, the
   * `DynamicPrefabTag` storage and the components that serializers instantiated.
   */
  class World {
    var next: Entity
    var alive: set<Entity>
    var handles: map<Entity, Handle>
    var tags: map<Entity, DynamicPrefabTag>
    var applied: seq<Applied>

    /** Every living entity was handed out by the allocator. */
    ghost predicate Valid()
      reads this
    {
      forall e :: e in alive ==> e < next
    }

    /** `Entities::create`: a new entity, distinct from every living one. */
    method Create() returns (e: Entity)
      requires Valid()
      modifies this`next, this`alive
      ensures Valid()
      ensures e == old(next) && e !in old(alive)
      ensures next == old(next) + 1 && alive == old(alive) + {e}
    {
      e := next;
      alive := alive + {e};
      next := next + 1;
    }

    /** `WriteStorage::insert` on the tag storage; it fails only for a dead entity. */
    method InsertTag(e: Entity, tag: DynamicPrefabTag)
      requires e in alive
      modifies this`tags
      ensures tags == old(tags)[e := tag]
    {
      tags := tags[e := tag];
    }
  }

  /**
   * `AssetStorage<A>`: the loaded assets by handle, and the queue of assets
   * whose data arrived and that still wait for the processing closure.
   */
  class AssetStorage<A> {
    var assets: map<Handle, A>
    var queue: seq<(Handle, A)>
  }

  /** One `DispatcherBuilder::add(system, name, dependencies)` call. */
  datatype SystemEntry<S> = SystemEntry(system: S, name: string, dependencies: seq<string>)

  /** `DispatcherBuilder`: the systems added so far, in order. */
  class DispatcherBuilder<S> {
    var systems: seq<SystemEntry<S>>

    method Add(system: S, name: string, dependencies: seq<string>)
      modifies this
      ensures systems == old(systems) + [SystemEntry(system, name, dependencies)]
    {
      systems := systems + [SystemEntry(system, name, dependencies)];
    }
  }
}
