/**
 * Type identifiers and type erasure.
 *
 * A registrable Rust type `T: DeserializeOwned + Any + TypeUuid` is modelled by the
 * record `Registrable`, which bundles what those three trait bounds give the registry:
 * the constant `T::UUID`, the decode routine `T::deserialize`, and the runtime type
 * identity that `Box<dyn Any>` uses for its checked downcast.
 */
module TypeUuid {
  import opened RustCore

  /** `u128`, the type of `TypeUuid::UUID`; the registry only compares identifiers for equality. */
  newtype Uuid = x: int | 0 <= x < 0x1_0000_0000_0000_0000_0000_0000_0000_0000

  /** Rust's runtime `TypeId`: distinct concrete types have distinct identities. */
  type TypeId = nat

  /**
   * `Box<dyn Any>`: a payload in a universe `A` of runtime values, tagged with the
   * `TypeId` of the concrete type it was boxed from.
   */
  datatype Erased<A> = Erased(tag: TypeId, payload: A)

  /**
   * A type `T` with its `TypeUuid` constant, its `Deserialize` routine over the
   * deserializer `D` (whose error type is `E`), and its embedding into the universe `A`.
   */
  datatype Registrable<!T(!new), !D, !A(!new), E> = Registrable(
    uuid: Uuid,
    typeId: TypeId,
    deserialize: D -> Result<T, E>,
    box: T -> A,
    unbox: A -> Option<T>)
  {
    /**
     * The embedding is faithful: unboxing a boxed value gives it back, and only
     * boxed values unbox successfully.
     */
    ghost predicate Valid() {
      && (forall v: T :: unbox(box(v)) == Some(v))
      && (forall a: A :: unbox(a).Some? ==> box(unbox(a).value) == a)
    }
  }

  /** `TypeUuidDynamic::uuid`, which the blanket impl gives every `T: TypeUuid`. */
  function DynamicUuid<T(!new), D, A(!new), E>(ty: Registrable<T, D, A, E>, self: T): (u: Uuid)
    ensures u == ty.uuid
  {
    ty.uuid
  }

  /** The dynamic identifier is the type's constant, whatever value it is asked of. */
  lemma DynamicUuidIsConstant<T(!new), D, A(!new), E>(ty: Registrable<T, D, A, E>, x: T, y: T)
    ensures DynamicUuid(ty, x) == ty.uuid
    ensures DynamicUuid(ty, x) == DynamicUuid(ty, y)
  {
  }

  /** `Box::new(v) as Box<dyn Any>`. */
  function Erase<T(!new), D, A(!new), E>(ty: Registrable<T, D, A, E>, v: T): (e: Erased<A>)
    ensures e.tag == ty.typeId
    ensures ty.Valid() ==> ty.unbox(e.payload) == Some(v)
  {
    Erased(ty.typeId, ty.box(v))
  }

  /**
   * `Box<dyn Any>::downcast::<T>()`: succeeds only when the tag is `T`'s type
   * identity, and then recovers exactly the value that was erased.
   */
  function Downcast<T(!new), D, A(!new), E>(ty: Registrable<T, D, A, E>, e: Erased<A>): (r: Option<T>)
    ensures e.tag != ty.typeId ==> r == None
    ensures ty.Valid() && r.Some? ==> e == Erase(ty, r.value)
  {
    if e.tag == ty.typeId then ty.unbox(e.payload) else None
  }

  /** Erasing a value and downcasting it to its own type gives the value back. */
  lemma DowncastErase<T(!new), D, A(!new), E>(ty: Registrable<T, D, A, E>, v: T)
    requires ty.Valid()
    ensures Downcast(ty, Erase(ty, v)) == Some(v)
  {
  }

  /** A downcast to a type with another runtime identity fails instead of reinterpreting. */
  lemma DowncastOtherType<T(!new), U(!new), D, A(!new), E>(ty: Registrable<T, D, A, E>, other: Registrable<U, D, A, E>, v: T)
    requires ty.typeId != other.typeId
    ensures Downcast(other, Erase(ty, v)) == None
  {
  }
}
