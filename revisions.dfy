/**
 * How the dispatch contract changed between the two revisions of the registry.
 */
module Revisions {
  import opened RustCore
  import opened TypeUuid
  import SerdeDyn
  import SerdeDynLegacy

  /**
   * Over the same mapping, the current dispatch returns `UuidNotFound` exactly where
   * the older one could not be called (it panicked), and elsewhere returns the older
   * result with only its error wrapped in `DeserializerError`.
   */
  lemma ErrorContractChange<D(!new), A(!new), E>(current: SerdeDyn.TUSM<D, A, E>, legacy: SerdeDynLegacy.TUSM<D, A, E>,
                                                uuid: Uuid, d: D)
    requires current.mapping == legacy.mapping
    ensures current.DeserializeWithUuid(uuid, d) == Err(SerdeDyn.UuidNotFound) <==> uuid !in legacy.mapping
    ensures uuid in legacy.mapping ==>
      current.DeserializeWithUuid(uuid, d) == legacy.DeserializeWithUuid(uuid, d).MapErr(e => SerdeDyn.DeserializerError(e))
  {
  }
}
