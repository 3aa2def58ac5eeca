/**
 * The current revision of the Type Uuid Serde Mapper: dispatch reports an unknown
 * uuid and a failed decode as two distinct errors.
 */
module SerdeDyn {
  import opened RustCore
  import opened TypeUuid
  import opened Adapters

  /** `SerdeDynError`: the two ways a dispatch can fail. */
  datatype SerdeDynError<E> =
    | UuidNotFound
    | DeserializerError(inner: E)

  const NotFoundMessage: string := "Uuid requested not found in TUSM."
  const DecodeFailedPrefix: string := "Deserialization error: "

  /**
   * The `Display` text. `innerDisplay` renders the deserializer's own error. The
   * unknown-uuid text is never produced for a decode failure, and a decode failure's
   * text ends with the inner error's text.
   */
  function Display<E>(err: SerdeDynError<E>, innerDisplay: E -> string): (s: string)
    ensures s == NotFoundMessage <==> err.UuidNotFound?
    ensures err.DeserializerError? ==>
      |DecodeFailedPrefix| <= |s| && s[..|DecodeFailedPrefix|] == DecodeFailedPrefix &&
      s[|DecodeFailedPrefix|..] == innerDisplay(err.inner)
  {
    match err
    case UuidNotFound => NotFoundMessage
    case DeserializerError(e) =>
      var s := DecodeFailedPrefix + innerDisplay(e);
      assert s[0] != NotFoundMessage[0];
      s
  }

  /**
   * The `Debug` text: the variant's name, with the inner error's `Debug` text in
   * parentheses for a decode failure.
   */
  function Debug<E>(err: SerdeDynError<E>, innerDebug: E -> string): (s: string)
    ensures s == "UuidNotFound" <==> err.UuidNotFound?
    ensures err.DeserializerError? ==>
      |s| == |"DeserializerError()"| + |innerDebug(err.inner)| &&
      s[..|"DeserializerError("|] == "DeserializerError(" && s[|s| - 1] == ')' &&
      s[|"DeserializerError("|..|s| - 1] == innerDebug(err.inner)
  {
    match err
    case UuidNotFound => "UuidNotFound"
    case DeserializerError(e) =>
      var s := "DeserializerError(" + innerDebug(e) + ")";
      assert s[1] != "UuidNotFound"[1];
      s
  }

  /** TUSM aka Type Uuid Serde Mapper: a table from type uuids to decode functions. */
  class TUSM<!D(!new), A(!new), E> {
    var mapping: Mapping<D, A, E>

    /** `TUSM::new`: no uuid is registered. */
    constructor ()
      ensures mapping == map[]
    {
      mapping := map[];
    }

    /** `manually_register`: binds `uuid` to `adapter`, replacing any earlier binding. */
    method ManuallyRegister(uuid: Uuid, adapter: Adapter<D, A, E>)
      modifies this
      ensures mapping == old(mapping)[uuid := adapter]
      ensures uuid in mapping && mapping[uuid] == adapter
      ensures forall u :: u != uuid ==> (u in mapping <==> u in old(mapping))
      ensures forall u :: u != uuid && u in mapping ==> mapping[u] == old(mapping)[u]
    {
      mapping := mapping[uuid := adapter];
    }

    /** `register::<T>()`: binds `T::UUID` to the adapter that decodes and erases a `T`. */
    method Register<T(!new)>(ty: Registrable<T, D, A, E>)
      modifies this
      ensures mapping == old(mapping)[ty.uuid := RegisterAdapter(ty)]
      ensures mapping == AfterRegistrations(old(mapping), [RegistrationOf(ty)])
    {
      ManuallyRegister(ty.uuid, RegisterAdapter(ty));
    }

    /**
     * `deserialize_with_uuid`: an unknown uuid is `UuidNotFound`; otherwise the stored
     * function decides, its success returned as is and its error wrapped unchanged in
     * `DeserializerError`. Reads the mapping and changes nothing.
     */
    function DeserializeWithUuid(uuid: Uuid, deserializer: D): (r: Result<Erased<A>, SerdeDynError<E>>)
      reads this
      ensures r == Err(UuidNotFound) <==> uuid !in mapping
      ensures r.Ok? <==> uuid in mapping && mapping[uuid](deserializer).Ok?
      ensures r.Ok? ==> r.value == mapping[uuid](deserializer).value
      ensures r.Err? && r.error.DeserializerError? <==> uuid in mapping && mapping[uuid](deserializer).Err?
      ensures r.Err? && r.error.DeserializerError? ==> r.error.inner == mapping[uuid](deserializer).error
    {
      match Get(uuid)
      case Some(f) => f(deserializer).MapErr(e => DeserializerError(e))
      case None => Err(UuidNotFound)
    }

    /** `HashMap::get` on the mapping. */
    function Get(uuid: Uuid): (r: Option<Adapter<D, A, E>>)
      reads this
      ensures r.Some? <==> uuid in mapping
      ensures r.Some? ==> r.value == mapping[uuid]
    {
      if uuid in mapping then Some(mapping[uuid]) else None
    }
  }

  /** An unknown uuid fails the same way whatever the source holds: no adapter runs. */
  lemma UnknownUuidIgnoresSource<D(!new), A(!new), E>(t: TUSM<D, A, E>, uuid: Uuid, d1: D, d2: D)
    requires uuid !in t.mapping
    ensures t.DeserializeWithUuid(uuid, d1) == Err(UuidNotFound)
    ensures t.DeserializeWithUuid(uuid, d1) == t.DeserializeWithUuid(uuid, d2)
  {
  }

  /**
   * Dispatch through a type's own registration: it succeeds exactly when the type's
   * decode does, the result downcasts to that type and equals the decoded value, and a
   * decode error comes back as `DeserializerError` carrying the same error.
   */
  lemma RegisteredRoundTrip<T(!new), D(!new), A(!new), E>(t: TUSM<D, A, E>, ty: Registrable<T, D, A, E>, d: D)
    requires ty.Valid()
    requires ty.uuid in t.mapping && t.mapping[ty.uuid] == RegisterAdapter(ty)
    ensures t.DeserializeWithUuid(ty.uuid, d).Ok? <==> ty.deserialize(d).Ok?
    ensures t.DeserializeWithUuid(ty.uuid, d).Ok? ==>
      Downcast(ty, t.DeserializeWithUuid(ty.uuid, d).value) == Some(ty.deserialize(d).value)
    ensures ty.deserialize(d).Err? ==>
      t.DeserializeWithUuid(ty.uuid, d) == Err(DeserializerError(ty.deserialize(d).error))
  {
  }

  /**
   * The crate's test: register `i32`, dispatch on a source that decodes to 5 with
   * `i32::UUID`, and downcast the result. Beside it, the error path of dispatch: in the
   * same registry, a uuid that was never registered gives `UuidNotFound`.
   */
  method DeserTest<D(!new), A(!new), E>(i32: Registrable<I32, D, A, E>, source: D, unregistered: Uuid)
    returns (newValue: I32, missing: Result<Erased<A>, SerdeDynError<E>>)
    requires i32.Valid()
    requires i32.deserialize(source) == Ok(5)
    requires unregistered != i32.uuid
    ensures newValue == 5
    ensures missing == Err(UuidNotFound)
  {
    var tusm := new TUSM<D, A, E>();
    tusm.Register(i32);
    var erased := tusm.DeserializeWithUuid(i32.uuid, source);
    var downcast := Downcast(i32, erased.value);
    newValue := downcast.value;
    missing := tusm.DeserializeWithUuid(unregistered, source);
  }
}
