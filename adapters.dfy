/**
 * The stored decode functions, as both revisions of the registry build and keep them.
 */
module Adapters {
  import opened RustCore
  import opened TypeUuid

  /** `fn(D) -> Result<Box<dyn Any>, D::Error>`: one entry of the registry's mapping. */
  type Adapter<!D, A, E> = D -> Result<Erased<A>, E>

  /** The registry's table, keyed by type identifier. */
  type Mapping<!D, A, E> = map<Uuid, Adapter<D, A, E>>

  /**
   * The closure that `register::<T>()` stores: it runs `T::deserialize` and erases
   * a successful result, forwarding a decode error unchanged.
   */
  function RegisterAdapter<T(!new), D(!new), A(!new), E>(ty: Registrable<T, D, A, E>): (f: Adapter<D, A, E>)
    ensures forall d :: f(d).Ok? <==> ty.deserialize(d).Ok?
    ensures forall d :: f(d).Err? ==> f(d).error == ty.deserialize(d).error
    ensures forall d :: f(d).Ok? ==> f(d).value.tag == ty.typeId
    ensures ty.Valid() ==> forall d :: f(d).Ok? ==> Downcast(ty, f(d).value) == Some(ty.deserialize(d).value)
  {
    d => ty.deserialize(d).Map(v => Erase(ty, v))
  }

  /** One `manually_register(uuid, adapter)` call. */
  datatype Registration<!D, A, E> = Registration(uuid: Uuid, adapter: Adapter<D, A, E>)

  /** The registration that `register::<T>()` performs. */
  function RegistrationOf<T(!new), D(!new), A(!new), E>(ty: Registrable<T, D, A, E>): Registration<D, A, E>
  {
    Registration(ty.uuid, RegisterAdapter(ty))
  }

  /**
   * The mapping after a registration phase: `regs` are applied to `m` in order,
   * each one inserting its entry.
   */
  function AfterRegistrations<D, A, E>(m: Mapping<D, A, E>, regs: seq<Registration<D, A, E>>): Mapping<D, A, E>
  {
    if regs == [] then m
    else
      var last := regs[|regs| - 1];
      AfterRegistrations(m, regs[..|regs| - 1])[last.uuid := last.adapter]
  }

  /** The position of the last registration for `u` in `regs`, if there is one. */
  function LastRegistration<D, A, E>(regs: seq<Registration<D, A, E>>, u: Uuid): (r: Option<nat>)
    ensures r.Some? ==> r.value < |regs| && regs[r.value].uuid == u
    ensures r.Some? ==> forall j :: r.value < j < |regs| ==> regs[j].uuid != u
    ensures r.None? ==> forall j :: 0 <= j < |regs| ==> regs[j].uuid != u
  {
    if regs == [] then None
    else if regs[|regs| - 1].uuid == u then Some(|regs| - 1)
    else LastRegistration(regs[..|regs| - 1], u)
  }

  /**
   * Last write wins: after a registration phase, `u` is bound to the adapter of its
   * last registration; a uuid that was never registered keeps its earlier binding or
   * stays unbound.
   */
  lemma {:induction false} LastWriteWins<D, A, E>(m: Mapping<D, A, E>, regs: seq<Registration<D, A, E>>, u: Uuid)
    ensures LastRegistration(regs, u).Some? ==>
      var i := LastRegistration(regs, u).value;
      u in AfterRegistrations(m, regs) && AfterRegistrations(m, regs)[u] == regs[i].adapter
    ensures LastRegistration(regs, u).None? ==>
      && (u in AfterRegistrations(m, regs) <==> u in m)
      && (u in m ==> AfterRegistrations(m, regs)[u] == m[u])
  {
    if regs != [] {
      var init := regs[..|regs| - 1];
      var last := regs[|regs| - 1];
      assert AfterRegistrations(m, regs) == AfterRegistrations(m, init)[last.uuid := last.adapter];
      if last.uuid != u {
        assert LastRegistration(regs, u) == LastRegistration(init, u);
        LastWriteWins(m, init, u);
        if LastRegistration(init, u).Some? {
          assert init[LastRegistration(init, u).value] == regs[LastRegistration(init, u).value];
        }
      }
    }
  }

  /**
   * Registering two types under one uuid silently shadows the first: what dispatch
   * then produces is the second type's, and a downcast to the first type fails
   * whenever the two types are distinct.
   */
  lemma DuplicateUuidShadows<T(!new), U(!new), D(!new), A(!new), E>(m: Mapping<D, A, E>, first: Registrable<T, D, A, E>,
                                           second: Registrable<U, D, A, E>, d: D)
    requires first.uuid == second.uuid
    requires first.typeId != second.typeId
    ensures var after := AfterRegistrations(m, [RegistrationOf(first), RegistrationOf(second)]);
      && first.uuid in after
      && after[first.uuid] == RegisterAdapter(second)
      && (after[first.uuid](d).Ok? ==> Downcast(first, after[first.uuid](d).value) == None)
  {
  }
}
