/**
 * The type-erased serializers of the crate root (src/lib.rs) and the map that
 * holds them, keyed by the stable identifier of the serialized type.
 */
module Serializers {
  import opened TypeUuid

  /** A component or resource as it stands in prefab data, before it is instantiated. */
  type Serialized = string

  /**
   * `Box<dyn SerializeDynamic>`: the two wrappers that implement the trait,
   * each remembering the type it serializes.
   */
  datatype Serializer =
    | ComponentWrapper(component: TypeName)
    | ResourceWrapper(resource: TypeName)

  /** `SerializerMap`: `HashMap<Uuid, Box<dyn SerializeDynamic>>`. */
  type SerializerMap = map<Uuid, Serializer>
}
