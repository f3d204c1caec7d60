/** The prefab tag of src/loader.rs. */
module Loader {

  const U64_LIMIT: int := 0x1_0000_0000_0000_0000

  /** Rust's `u64`. */
  type uint64 = x: int | 0 <= x < U64_LIMIT

  /**
   * `DynamicPrefabTag`: placed on entities created by the prefab system; its value
   * matches the tag of the prefab the entity was created from. The field is private
   * in the source and no method writes it, so a datatype (an immutable value) models it.
   */
  datatype DynamicPrefabTag = DynamicPrefabTag(tag: uint64)
  {
    /** `DynamicPrefabTag::tag`: the stored value, from which the tag is rebuilt. */
    function Tag(): (r: uint64)
      ensures DynamicPrefabTag(r) == this
    {
      tag
    }
  }

  /** `DynamicPrefabTag::new`: the getter returns exactly the value given at construction. */
  function NewTag(tag: uint64): (r: DynamicPrefabTag)
    ensures r.Tag() == tag
  {
    DynamicPrefabTag(tag)
  }

  /** Two tags are equal exactly when they were created from the same value. */
  lemma NewTagInjective(s: uint64, t: uint64)
    ensures NewTag(s) == NewTag(t) <==> s == t
  {
  }
}
