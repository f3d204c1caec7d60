/**
 * The bundle of the crate root (src/lib.rs): it collects the serializers of
 * the resource types an application registers, keyed by their type
 * identifiers, and adds no system when it is built. Component registration
 * is a stub in this version: its body is commented out.
 */
module LibBundle {
  import opened TypeUuid
  import opened Serializers
  import opened Engine

  /**
   * The serializer map after `register_resource::<t>()`: the entry under
   * `t`'s identifier is a resource wrapper for `t`, overwriting whatever was
   * registered under the same identifier before; every other entry stays.
   */
  function WithResource(m: SerializerMap, t: TypeName): (r: SerializerMap)
    ensures UuidOf(t) in r && r[UuidOf(t)] == ResourceWrapper(t)
    ensures r.Keys == m.Keys + {UuidOf(t)}
    ensures forall u :: u in m && u != UuidOf(t) ==> r[u] == m[u]
  {
    m[UuidOf(t) := ResourceWrapper(t)]
  }

  /** The serializer map after registering each of `ts`, in order. */
  function WithResources(m: SerializerMap, ts: seq<TypeName>): (r: SerializerMap)
    decreases |ts|
  {
    if ts == [] then m else WithResources(WithResource(m, ts[0]), ts[1..])
  }

  /** A sequence of registrations defines exactly the identifiers already present or registered. */
  lemma {:induction false} WithResourcesKeys(m: SerializerMap, ts: seq<TypeName>, u: Uuid)
    ensures u in WithResources(m, ts) <==> u in m || exists i :: 0 <= i < |ts| && UuidOf(ts[i]) == u
    decreases |ts|
  {
    if ts != [] {
      WithResourcesKeys(WithResource(m, ts[0]), ts[1..], u);
      if exists i :: 0 <= i < |ts| && UuidOf(ts[i]) == u {
        var i :| 0 <= i < |ts| && UuidOf(ts[i]) == u;
        if i > 0 {
          assert ts[1..][i - 1] == ts[i];
        }
      }
      if exists i :: 0 <= i < |ts[1..]| && UuidOf(ts[1..][i]) == u {
        var i :| 0 <= i < |ts[1..]| && UuidOf(ts[1..][i]) == u;
        assert ts[i + 1] == ts[1..][i];
      }
    }
  }

  /**
   * After a sequence of registrations, an identifier maps to the wrapper of
   * the last type registered under it.
   */
  lemma {:induction false} LastRegistrationWins(m: SerializerMap, ts: seq<TypeName>, i: nat)
    requires i < |ts|
    requires forall j :: i < j < |ts| ==> UuidOf(ts[j]) != UuidOf(ts[i])
    ensures UuidOf(ts[i]) in WithResources(m, ts)
    ensures WithResources(m, ts)[UuidOf(ts[i])] == ResourceWrapper(ts[i])
    decreases |ts|
  {
    if i == 0 {
      UnregisteredKept(WithResource(m, ts[0]), ts[1..], UuidOf(ts[0]));
    } else {
      forall j | i - 1 < j < |ts[1..]|
        ensures UuidOf(ts[1..][j]) != UuidOf(ts[1..][i - 1])
      {
        assert ts[1..][j] == ts[j + 1];
      }
      LastRegistrationWins(WithResource(m, ts[0]), ts[1..], i - 1);
    }
  }

  /** An identifier that no registration names keeps its entry. */
  lemma {:induction false} UnregisteredKept(m: SerializerMap, ts: seq<TypeName>, u: Uuid)
    requires u in m
    requires forall j :: 0 <= j < |ts| ==> UuidOf(ts[j]) != u
    ensures u in WithResources(m, ts) && WithResources(m, ts)[u] == m[u]
    decreases |ts|
  {
    if ts != [] {
      forall j | 0 <= j < |ts[1..]|
        ensures UuidOf(ts[1..][j]) != u
      {
        assert ts[1..][j] == ts[j + 1];
      }
      UnregisteredKept(WithResource(m, ts[0]), ts[1..], u);
    }
  }

  /** Registering a second type with the same identifier replaces the first: the last write wins. */
  lemma LastWriteWins(m: SerializerMap, a: TypeName, b: TypeName)
    requires UuidOf(a) == UuidOf(b)
    ensures WithResource(WithResource(m, a), b) == WithResource(m, b)
    ensures WithResource(WithResource(m, a), b)[UuidOf(a)] == ResourceWrapper(b)
  {
    var x := WithResource(WithResource(m, a), b);
    var y := WithResource(m, b);
    assert x.Keys == y.Keys;
    forall u | u in x
      ensures x[u] == y[u]
    {
    }
  }

  /** Registering the same type twice leaves the map as registering it once. */
  lemma RegisterIdempotent(m: SerializerMap, t: TypeName)
    ensures WithResource(WithResource(m, t), t) == WithResource(m, t)
  {
    LastWriteWins(m, t, t);
  }

  /** Registrations of types with different identifiers commute. */
  lemma DistinctRegistrationsCommute(m: SerializerMap, a: TypeName, b: TypeName)
    requires UuidOf(a) != UuidOf(b)
    ensures WithResource(WithResource(m, a), b) == WithResource(WithResource(m, b), a)
  {
    var x := WithResource(WithResource(m, a), b);
    var y := WithResource(WithResource(m, b), a);
    assert x.Keys == y.Keys;
    forall u | u in x
      ensures x[u] == y[u]
    {
    }
  }

  /**
   * Because `GraphicsPrefab` composes its arguments' identifiers by XOR,
   * registering `GraphicsPrefab<A, B, C>` and then `GraphicsPrefab<C, B, A>`
   * (two different types when A and C differ) keeps only the second: the
   * first serializer is silently lost.
   */
  lemma GraphicsPrefabRegistrationsCollide(m: SerializerMap, a: TypeName, b: TypeName, c: TypeName)
    requires a != c
    ensures GraphicsPrefab(a, b, c) != GraphicsPrefab(c, b, a)
    ensures WithResource(WithResource(m, GraphicsPrefab(a, b, c)), GraphicsPrefab(c, b, a))
            == WithResource(m, GraphicsPrefab(c, b, a))
    ensures ResourceWrapper(GraphicsPrefab(a, b, c))
            !in WithResource(WithResource(m, GraphicsPrefab(a, b, c)), GraphicsPrefab(c, b, a)).Values
            || ResourceWrapper(GraphicsPrefab(a, b, c)) in m.Values
  {
    GraphicsPrefabCollision(a, b, c);
    LastWriteWins(m, GraphicsPrefab(a, b, c), GraphicsPrefab(c, b, a));
    var r := WithResource(m, GraphicsPrefab(c, b, a));
    var w := ResourceWrapper(GraphicsPrefab(a, b, c));
    if w in r.Values {
      var u :| u in r && r[u] == w;
      assert u != UuidOf(GraphicsPrefab(c, b, a));
      assert u in m && m[u] == w;
    }
  }

  /** `DynamicPrefabBundle` of src/lib.rs. */
  class DynamicPrefabBundle {
    var serializerMap: SerializerMap

    /** `DynamicPrefabBundle::new`: the default bundle, with no serializer registered. */
    constructor ()
      ensures serializerMap == map[]
    {
      serializerMap := map[];
    }

    /**
     * `register_component::<t>()`: its insertion is commented out, so the
     * call registers nothing.
     */
    method RegisterComponent(t: TypeName)
      ensures serializerMap == old(serializerMap)
    {
    }

    /** `register_default_types`: registers Transform, CameraPrefab and LightPrefab as components. */
    method RegisterDefaultTypes()
      ensures serializerMap == old(serializerMap)
    {
      RegisterComponent(Transform);
      RegisterComponent(CameraPrefab);
      RegisterComponent(LightPrefab);
    }

    /** `register_resource::<t>()`: inserts a resource wrapper for `t` under `t`'s identifier. */
    method RegisterResource(t: TypeName)
      modifies this`serializerMap
      ensures serializerMap == WithResource(old(serializerMap), t)
    {
      serializerMap := serializerMap[UuidOf(t) := ResourceWrapper(t)];
    }

    /** `SystemBundle::build`: adds no system to the dispatcher and succeeds. */
    method Build<S>(dispatcher: DispatcherBuilder<S>) returns (r: Result<()>)
      ensures r == Ok(())
    {
      r := Ok(());
    }
  }
}
