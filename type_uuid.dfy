/**
 * Stable type identifiers (the `type-uuid` crate).
 *
 * A type that can appear in prefab data carries a 128-bit constant, `UUID`.
 * Types of the engine get fixed constants; the generic `GraphicsPrefab<V, M, T>`
 * derives its identifier by XOR-ing a family constant with the identifiers of
 * its three arguments. The lemmas below state the algebra of that composition,
 * including the weaknesses it has by design: it ignores the order of the
 * arguments and two equal arguments cancel.
 *
 * A `u128` is modelled as a natural number below 2^128 and XOR is defined bit
 * by bit, least significant bit first.
 */
module TypeUuid {

  const UUID_LIMIT: int := 0x1_0000_0000_0000_0000_0000_0000_0000_0000

  /** The type of `TypeUuid::UUID`, a Rust `u128`. */
  type Uuid = x: int | 0 <= x < UUID_LIMIT

  /** `impl TypeUuid for ()`. */
  const UnitUuid: Uuid := 23818894022279401834075037072386988352

  /** `impl TypeUuid for amethyst::core::Transform`. */
  const TransformUuid: Uuid := 0xf3d49cc2c77e4dc99e1fc01e9279c999

  /** `impl TypeUuid for amethyst::renderer::CameraPrefab`. */
  const CameraPrefabUuid: Uuid := 0x15ed1b66537e4e75b52dcd4659ba53bf

  /** `impl TypeUuid for amethyst::renderer::LightPrefab`. */
  const LightPrefabUuid: Uuid := 0x41c40489269b4ef5af7f675a29473f86

  /** The family constant of `GraphicsPrefab<V, M, T>`. */
  const GraphicsPrefabBase: Uuid := 0xd29ba396a10448fea14085b9a489e26d

  /**
   * The Rust types that implement `TypeUuid`: the four with fixed impls,
   * the generic graphics prefab over its three type arguments, and any other
   * type whose impl (hand-written or derived) names its constant directly.
   */
  datatype TypeName =
    | Unit
    | Transform
    | CameraPrefab
    | LightPrefab
    | GraphicsPrefab(vertices: TypeName, mesh: TypeName, texture: TypeName)
    | Declared(uuid: Uuid)

  function Pow2(n: nat): (r: nat)
    ensures r > 0
  {
    if n == 0 then 1 else 2 * Pow2(n - 1)
  }

  /** Bitwise exclusive or of two naturals. */
  function Xor(a: nat, b: nat): (r: nat)
    decreases a + b
  {
    if a == 0 && b == 0 then 0 else 2 * Xor(a / 2, b / 2) + (a + b) % 2
  }

  /** Bit `i` of `x`, counted from the least significant bit. */
  function Bit(x: nat, i: nat): (b: bool)
  {
    if i == 0 then x % 2 == 1 else Bit(x / 2, i - 1)
  }

  /**
   * `compose_uuid`, Rust's `^` on `u128`: the exclusive or of two identifiers
   * is again an identifier, and each of its bits is set exactly where the
   * corresponding bits of the two arguments differ.
   */
  function ComposeUuid(left: Uuid, right: Uuid): (r: Uuid)
    ensures forall i: nat :: Bit(r, i) <==> Bit(left, i) != Bit(right, i)
  {
    Pow2Of128();
    XorBelow(left, right, 128);
    XorBits(left, right);
    Xor(left, right)
  }

  /**
   * The associated constant `T::UUID` of each type. The source nests the
   * compositions of `GraphicsPrefab<V, M, T>` to the right; its identifier is
   * the flat left-to-right composition `base ^ V ^ M ^ T`.
   */
  function UuidOf(t: TypeName): (r: Uuid)
    ensures t.GraphicsPrefab? ==>
      r == ComposeUuid(ComposeUuid(ComposeUuid(GraphicsPrefabBase, UuidOf(t.vertices)), UuidOf(t.mesh)),
                       UuidOf(t.texture))
    ensures t.Declared? ==> r == t.uuid
  {
    match t
    case Unit => UnitUuid
    case Transform => TransformUuid
    case CameraPrefab => CameraPrefabUuid
    case LightPrefab => LightPrefabUuid
    case GraphicsPrefab(v, m, x) =>
      var b, i, j, k := GraphicsPrefabBase, UuidOf(v), UuidOf(m), UuidOf(x);
      ComposeAssociative(i, j, k);
      ComposeAssociative(b, ComposeUuid(i, j), k);
      ComposeAssociative(b, i, j);
      ComposeUuid(b, ComposeUuid(i, ComposeUuid(j, k)))
    case Declared(u) => u
  }

  /**
   * `TypeUuidDynamic::uuid`, the blanket impl for every `T: TypeUuid`: the
   * identifier of the value's type, whatever the value. The value's Dafny type
   * `T` and its type name `ty` are independent parameters, so "the same type"
   * below means the same `TypeName`.
   */
  function DynamicUuid<T>(ty: TypeName, self: T): (r: Uuid)
    ensures r == UuidOf(ty)
  {
    UuidOf(ty)
  }

  // ---------------------------------------------------------------------------
  // Bitwise exclusive or on naturals

  lemma {:induction false} Pow2Add(m: nat, n: nat)
    ensures Pow2(m + n) == Pow2(m) * Pow2(n)
  {
    if m > 0 {
      Pow2Add(m - 1, n);
    }
  }

  lemma Pow2Of16()
    ensures Pow2(16) == 0x1_0000
  {
    assert Pow2(2) == 4;
    Pow2Add(2, 2);
    Pow2Add(4, 4);
    Pow2Add(8, 8);
  }

  lemma Pow2Of128()
    ensures Pow2(128) == UUID_LIMIT
  {
    Pow2Of16();
    Pow2Add(16, 16);
    assert Pow2(32) == 0x1_0000_0000;
    Pow2Add(32, 32);
    assert Pow2(64) == 0x1_0000_0000_0000_0000;
    Pow2Add(64, 64);
  }

  /** The exclusive or of two numbers of n bits has n bits. */
  lemma {:induction false} XorBelow(a: nat, b: nat, n: nat)
    requires a < Pow2(n) && b < Pow2(n)
    ensures Xor(a, b) < Pow2(n)
    decreases n
  {
    if n > 0 && !(a == 0 && b == 0) {
      XorBelow(a / 2, b / 2, n - 1);
    }
  }

  /** The defining step of `Xor` holds for every pair, zeros included. */
  lemma XorStep(a: nat, b: nat)
    ensures Xor(a, b) == 2 * Xor(a / 2, b / 2) + (a + b) % 2
  {
    if a == 0 && b == 0 {
      assert Xor(a / 2, b / 2) == 0;
    }
  }

  lemma {:induction false} XorCommutes(a: nat, b: nat)
    ensures Xor(a, b) == Xor(b, a)
    decreases a + b
  {
    if !(a == 0 && b == 0) {
      XorCommutes(a / 2, b / 2);
    }
  }

  /** Halving and the lowest bit of an exclusive or. */
  lemma XorHalf(a: nat, b: nat)
    ensures Xor(a, b) / 2 == Xor(a / 2, b / 2)
    ensures Xor(a, b) % 2 == (a + b) % 2
  {
    XorStep(a, b);
  }

  /** Each bit of an exclusive or is set exactly where the bits of its arguments differ. */
  lemma {:induction false} XorBits(a: nat, b: nat)
    ensures forall i: nat :: Bit(Xor(a, b), i) <==> Bit(a, i) != Bit(b, i)
  {
    forall i: nat
      ensures Bit(Xor(a, b), i) <==> Bit(a, i) != Bit(b, i)
    {
      XorBitAt(a, b, i);
    }
  }

  lemma {:induction false} XorBitAt(a: nat, b: nat, i: nat)
    ensures Bit(Xor(a, b), i) <==> Bit(a, i) != Bit(b, i)
    decreases i
  {
    XorHalf(a, b);
    if i > 0 {
      XorBitAt(a / 2, b / 2, i - 1);
    }
  }

  lemma Parity(x: nat, y: nat, z: nat)
    requires y % 2 == z % 2
    ensures (x + y) % 2 == (x + z) % 2
  {
  }

  lemma {:induction false} XorAssociates(a: nat, b: nat, c: nat)
    ensures Xor(a, Xor(b, c)) == Xor(Xor(a, b), c)
    decreases a + b + c
  {
    if !(a == 0 && b == 0 && c == 0) {
      var bc, ab := Xor(b, c), Xor(a, b);
      XorHalf(b, c);
      XorHalf(a, b);
      XorStep(a, bc);
      XorStep(ab, c);
      Parity(a, bc, b + c);
      Parity(c, ab, a + b);
      assert (a + bc) % 2 == (ab + c) % 2;
      XorAssociates(a / 2, b / 2, c / 2);
    }
  }

  lemma {:induction false} XorSelf(a: nat)
    ensures Xor(a, a) == 0
    decreases a
  {
    if a != 0 {
      XorSelf(a / 2);
    }
  }

  lemma {:induction false} XorZero(a: nat)
    ensures Xor(a, 0) == a && Xor(0, a) == a
    decreases a
  {
    if a != 0 {
      XorZero(a / 2);
    }
  }

  // ---------------------------------------------------------------------------
  // The composition rule

  lemma ComposeCommutative(a: Uuid, b: Uuid)
    ensures ComposeUuid(a, b) == ComposeUuid(b, a)
  {
    XorCommutes(a, b);
  }

  lemma ComposeAssociative(a: Uuid, b: Uuid, c: Uuid)
    ensures ComposeUuid(a, ComposeUuid(b, c)) == ComposeUuid(ComposeUuid(a, b), c)
  {
    XorAssociates(a, b, c);
  }

  /** The weakness the source flags: an id composed with itself is zero, and zero is neutral. */
  lemma ComposeSelfCancels(x: Uuid)
    ensures ComposeUuid(x, x) == 0
    ensures ComposeUuid(x, 0) == x && ComposeUuid(0, x) == x
  {
    XorSelf(x);
    XorZero(x);
  }

  /** Swapping the first two of three composed ids does not change the result. */
  lemma ComposeSwap(x: Uuid, y: Uuid, z: Uuid)
    ensures ComposeUuid(x, ComposeUuid(y, z)) == ComposeUuid(y, ComposeUuid(x, z))
  {
    ComposeAssociative(x, y, z);
    ComposeCommutative(x, y);
    ComposeAssociative(y, x, z);
  }

  /** The generic id does not see the order of the type arguments. */
  lemma GraphicsPrefabPermutationInvariant(v: TypeName, m: TypeName, t: TypeName)
    ensures UuidOf(GraphicsPrefab(v, m, t)) == UuidOf(GraphicsPrefab(m, v, t))
    ensures UuidOf(GraphicsPrefab(v, m, t)) == UuidOf(GraphicsPrefab(v, t, m))
    ensures UuidOf(GraphicsPrefab(v, m, t)) == UuidOf(GraphicsPrefab(t, m, v))
    ensures UuidOf(GraphicsPrefab(v, m, t)) == UuidOf(GraphicsPrefab(m, t, v))
    ensures UuidOf(GraphicsPrefab(v, m, t)) == UuidOf(GraphicsPrefab(t, v, m))
  {
    var x, y, z := UuidOf(v), UuidOf(m), UuidOf(t);
    ComposeSwap(x, y, z);
    ComposeCommutative(y, z);
    ComposeCommutative(x, z);
    ComposeCommutative(x, y);
    ComposeSwap(x, z, y);
    ComposeSwap(z, x, y);
    ComposeSwap(y, z, x);
    ComposeSwap(z, y, x);
  }

  /**
   * Two type arguments with the same id cancel, whichever two positions they
   * hold: only the family constant and the third argument's id remain.
   */
  lemma GraphicsPrefabCollapse(a: TypeName, b: TypeName, c: TypeName)
    requires UuidOf(a) == UuidOf(b)
    ensures UuidOf(GraphicsPrefab(a, b, c)) == ComposeUuid(GraphicsPrefabBase, UuidOf(c))
    ensures UuidOf(GraphicsPrefab(a, c, b)) == ComposeUuid(GraphicsPrefabBase, UuidOf(c))
    ensures UuidOf(GraphicsPrefab(c, a, b)) == ComposeUuid(GraphicsPrefabBase, UuidOf(c))
  {
    var x, z := UuidOf(a), UuidOf(c);
    ComposeAssociative(x, x, z);
    ComposeSelfCancels(x);
    ComposeSelfCancels(z);
    assert ComposeUuid(x, ComposeUuid(x, z)) == z;
    GraphicsPrefabPermutationInvariant(a, b, c);
  }

  /**
   * Distinct instantiations of the generic type share one identifier:
   * swapping two different arguments, or replacing a doubled argument by another doubled one.
   */
  lemma GraphicsPrefabCollision(a: TypeName, b: TypeName, c: TypeName)
    requires a != c
    ensures GraphicsPrefab(a, b, c) != GraphicsPrefab(c, b, a)
    ensures UuidOf(GraphicsPrefab(a, b, c)) == UuidOf(GraphicsPrefab(c, b, a))
    ensures GraphicsPrefab(b, a, a) != GraphicsPrefab(b, c, c)
    ensures UuidOf(GraphicsPrefab(b, a, a)) == UuidOf(GraphicsPrefab(b, c, c))
  {
    GraphicsPrefabPermutationInvariant(a, b, c);
    GraphicsPrefabCollapse(a, a, b);
    GraphicsPrefabCollapse(c, c, b);
  }

  /** The constants of the three engine types are pairwise distinct (and distinct from that of `()`). */
  lemma EngineUuidsDistinct()
    ensures UuidOf(Transform) != UuidOf(CameraPrefab)
    ensures UuidOf(Transform) != UuidOf(LightPrefab)
    ensures UuidOf(CameraPrefab) != UuidOf(LightPrefab)
    ensures UuidOf(Unit) !in {UuidOf(Transform), UuidOf(CameraPrefab), UuidOf(LightPrefab)}
  {
  }

  /** `uuid(&self)` returns `Self::UUID`: it depends on the type name only, never on the value. */
  lemma DynamicUuidDeterministic<T>(ty: TypeName, v: T, w: T)
    ensures DynamicUuid(ty, v) == UuidOf(ty)
    ensures DynamicUuid(ty, v) == DynamicUuid(ty, w)
  {
  }

  lemma UnitDynamicUuid(v: ())
    ensures DynamicUuid(Unit, v) == 23818894022279401834075037072386988352
  {
  }
}
