/**
 * The bundle of src/bundle.rs: it holds a serializer map and, when built,
 * hands that map to one new `PrefabLoaderSystem` that it adds to the
 * dispatcher under the empty name and with no dependencies. This version
 * offers only component registration, whose insertion is commented out, so
 * a bundle built after any sequence of its own calls hands over the empty
 * map.
 */
module Bundle {
  import opened TypeUuid
  import opened Serializers
  import opened Engine
  import opened LoaderSystem

  /** `DynamicPrefabBundle` of src/bundle.rs. */
  class DynamicPrefabBundle {
    var serializerMap: SerializerMap

    /** `DynamicPrefabBundle::new`: the default bundle, with an empty serializer map. */
    constructor ()
      ensures serializerMap == map[]
    {
      serializerMap := map[];
    }

    /**
     * `register_component::<t>()`: its insertion is commented out, so the
     * call registers nothing.
     */
    method RegisterComponent(t: TypeName)
      ensures serializerMap == old(serializerMap)
    {
    }

    /** `register_default_types`: registers Transform, CameraPrefab and LightPrefab as components. */
    method RegisterDefaultTypes()
      ensures serializerMap == old(serializerMap)
    {
      RegisterComponent(Transform);
      RegisterComponent(CameraPrefab);
      RegisterComponent(LightPrefab);
    }

    /**
     * `SystemBundle::build`: adds exactly one system, a new loader system
     * that owns the bundle's serializer map and starts with nothing to
     * process, named "" and depending on nothing; the build succeeds.
     */
    method Build(dispatcher: DispatcherBuilder<PrefabLoaderSystem>) returns (r: Result<()>)
      modifies dispatcher
      ensures r == Ok(())
      ensures |dispatcher.systems| == |old(dispatcher.systems)| + 1
      ensures dispatcher.systems[..|old(dispatcher.systems)|] == old(dispatcher.systems)
      ensures var added := dispatcher.systems[|old(dispatcher.systems)|];
        && added.name == "" && added.dependencies == []
        && fresh(added.system)
        && added.system.serializerMap == serializerMap
        && added.system.toProcess == {} && added.system.finished == []
        && added.system.entities == [] && added.system.nextTag == 0
        && !added.system.insertReader && added.system.errors == []
    {
      var system := new PrefabLoaderSystem(serializerMap);
      dispatcher.Add(system, "", []);
      r := Ok(());
    }
  }
}
