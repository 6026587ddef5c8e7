/**
 * Type identities and the type-erased component values of the storage.
 *
 * A component type is identified by its 128-bit TypeUuid, modelled as a
 * natural number; two types are the same storage key exactly when their
 * identities are equal. A `Box<dyn Any>` component becomes a tagged value,
 * so that a failed downcast is a case Dafny can see.
 */
module Values {
  /** A 128-bit type identity (a `Uuid` built from `TypeUuid::UUID`). */
  type TypeId = nat

  /** EntityId's identity, 2ac0c046-bf65-4857-9095-0137d418520c. */
  const ENTITY_ID: TypeId := 0x2ac0c046_bf65_4857_9095_0137d418520c
  /** Speed's identity, 2ac0c046-bf65-4857-9095-0137d418521c. */
  const SPEED: TypeId := 0x2ac0c046_bf65_4857_9095_0137d418521c
  /** Position's identity, 2ac0c046-bf65-4857-9095-0137d418522c. */
  const POSITION: TypeId := 0x2ac0c046_bf65_4857_9095_0137d418522c

  /** The identity of a component type other than the three above. */
  type CustomTypeId = t: TypeId | t != ENTITY_ID && t != SPEED && t != POSITION witness 0

  /** Exclusive upper bound of a `u32` field. */
  const U32_LIMIT: nat := 0x1_0000_0000

  /**
   * A component value. `EntityId` wraps the entity's 128-bit Uuid; Speed and
   * Position are the components of the test systems (their `u32` fields are
   * naturals here, bounded where the systems add to them); `Custom` stands for
   * a value of any other component type.
   */
  datatype Value =
    | EntityId(uuid: nat)
    | Position(x: nat, y: nat, z: nat)
    | Speed(x: nat, y: nat, z: nat)
    | Custom(typeId: CustomTypeId, payload: int)

  /** The identity of a value's type, as `component_uuid()` gives it. */
  function TypeOf(v: Value): TypeId
  {
    match v
    case EntityId(_) => ENTITY_ID
    case Position(_, _, _) => POSITION
    case Speed(_, _, _) => SPEED
    case Custom(t, _) => t
  }

  /** Every value in `s` has type `t`: what a store of `Vec<T>` can hold. */
  ghost predicate AllOfType(s: seq<Value>, t: TypeId)
  {
    forall i :: 0 <= i < |s| ==> TypeOf(s[i]) == t
  }

  /** A u32 field of a Speed or Position; false for other values. */
  predicate FitsU32(v: Value)
  {
    match v
    case Position(x, y, z) => x < U32_LIMIT && y < U32_LIMIT && z < U32_LIMIT
    case Speed(x, y, z) => x < U32_LIMIT && y < U32_LIMIT && z < U32_LIMIT
    case _ => true
  }

  /** The type identities are ordered as the source's `Uuid` ordering puts them. */
  lemma UuidOrder()
    ensures ENTITY_ID < SPEED < POSITION
  {
  }
}
