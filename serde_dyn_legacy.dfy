/**
 * The older revision of the Type Uuid Serde Mapper: registration is the same, but
 * dispatch panics on an unknown uuid and returns the stored function's result as it is.
 */
module SerdeDynLegacy {
  import opened RustCore
  import opened TypeUuid
  import opened Adapters

  /** TUSM aka Type Uuid Serde Mapper, older revision. */
  class TUSM<!D(!new), A(!new), E> {
    var mapping: Mapping<D, A, E>

    /** `TUSM::new`: no uuid is registered. */
    constructor ()
      ensures mapping == map[]
    {
      mapping := map[];
    }

    /** `manually_register`: binds `uuid` to `adapter`, replacing any earlier binding. */
    method ManuallyRegister(uuid: Uuid, adapter: Adapter<D, A, E>)
      modifies this
      ensures mapping == old(mapping)[uuid := adapter]
      ensures uuid in mapping && mapping[uuid] == adapter
      ensures forall u :: u != uuid ==> (u in mapping <==> u in old(mapping))
      ensures forall u :: u != uuid && u in mapping ==> mapping[u] == old(mapping)[u]
    {
      mapping := mapping[uuid := adapter];
    }

    /** `register::<T>()`: binds `T::UUID` to the adapter that decodes and erases a `T`. */
    method Register<T(!new)>(ty: Registrable<T, D, A, E>)
      modifies this
      ensures mapping == old(mapping)[ty.uuid := RegisterAdapter(ty)]
      ensures mapping == AfterRegistrations(old(mapping), [RegistrationOf(ty)])
    {
      ManuallyRegister(ty.uuid, RegisterAdapter(ty));
    }

    /**
     * `deserialize_with_uuid`: the uuid must be registered (the call panics otherwise);
     * the stored function's success and its error both pass through unwrapped. Reads
     * the mapping and changes nothing.
     */
    function DeserializeWithUuid(uuid: Uuid, deserializer: D): (r: Result<Erased<A>, E>)
      reads this
      requires uuid in mapping
      ensures r.Ok? <==> mapping[uuid](deserializer).Ok?
      ensures r.Ok? ==> r.value == mapping[uuid](deserializer).value
      ensures r.Err? ==> r.error == mapping[uuid](deserializer).error
    {
      mapping[uuid](deserializer)
    }
  }

  /**
   * Dispatch through a type's own registration: it succeeds exactly when the type's
   * decode does, the result downcasts to that type and equals the decoded value, and a
   * decode error is returned as the very same error.
   */
  lemma RegisteredRoundTrip<T(!new), D(!new), A(!new), E>(t: TUSM<D, A, E>, ty: Registrable<T, D, A, E>, d: D)
    requires ty.Valid()
    requires ty.uuid in t.mapping && t.mapping[ty.uuid] == RegisterAdapter(ty)
    ensures t.DeserializeWithUuid(ty.uuid, d).Ok? <==> ty.deserialize(d).Ok?
    ensures t.DeserializeWithUuid(ty.uuid, d).Ok? ==>
      Downcast(ty, t.DeserializeWithUuid(ty.uuid, d).value) == Some(ty.deserialize(d).value)
    ensures ty.deserialize(d).Err? ==>
      t.DeserializeWithUuid(ty.uuid, d) == Err(ty.deserialize(d).error)
  {
  }

  /**
   * The crate's test: register `i32`, dispatch on a source that decodes to 5 with
   * `i32::UUID`, and downcast the result.
   */
  method DeserTest<D(!new), A(!new), E>(i32: Registrable<I32, D, A, E>, source: D) returns (newValue: I32)
    requires i32.Valid()
    requires i32.deserialize(source) == Ok(5)
    ensures newValue == 5
  {
    var tusm := new TUSM<D, A, E>();
    tusm.Register(i32);
    var erased := tusm.DeserializeWithUuid(i32.uuid, source);
    var downcast := Downcast(i32, erased.value);
    newValue := downcast.value;
  }
}
