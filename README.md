# serde_dyn: the Type Uuid Serde Mapper, in Dafny

`serde_dyn` lets a Rust program decode a value whose concrete type is only known at run
time from a 128-bit type identifier. Each registrable type declares a constant
`TypeUuid::UUID`. The registry, `TUSM` (Type Uuid Serde Mapper), maps such identifiers to
stored decode functions. `deserialize_with_uuid(uuid, deserializer)` looks the identifier
up, runs the stored function, and hands back a type-erased `Box<dyn Any>` that the
caller downcasts to the type it expects.

The repository holds two revisions of the registry and both are modelled:

- `src/lib.rs` (module `SerdeDyn`): an unknown uuid is the error `UuidNotFound`, and a
  failed decode is `DeserializerError(e)` carrying the deserializer's own error.
- `serde_dyn/src/lib.rs` (module `SerdeDynLegacy`): an unknown uuid panics, which is a
  precondition here, and the stored function's result is returned unwrapped.

Layout:

- `rust_core.dfy` (`RustCore`): `Option`, `Result` with `map`/`map_err`, and `i32`.
- `type_uuid.dfy` (`TypeUuid`): identifiers and type erasure. `Uuid` is `u128`.
  `Erased` stands for `Box<dyn Any>`: a payload in a universe `A` of runtime values,
  tagged with the runtime `TypeId` of the boxed type. `Registrable` bundles what the
  bounds `T: DeserializeOwned + Any + TypeUuid` give the registry: `T::UUID`,
  `T::deserialize`, `T`'s `TypeId`, and `T`'s embedding into `A`. `Downcast` is the
  checked, fallible `downcast::<T>()`.
- `adapters.dfy` (`Adapters`): the stored function type, the closure that `register`
  builds, and a registration phase as a sequence of inserts, with the
  last-write-wins lemma.
- `serde_dyn.dfy` (`SerdeDyn`) and `serde_dyn_legacy.dfy` (`SerdeDynLegacy`): each
  revision's `TUSM` as a class whose `mapping` field the registering methods update in
  place. Dispatch is a function that only reads `mapping`.
- `revisions.dfy` (`Revisions`): how the dispatch contract changed between the two.

The `TypeUuid` and `TypeUuidDynamic` traits are the same text in both files
(`src/lib.rs:27-44`, `serde_dyn/src/lib.rs:24-41`). They are modelled once and cited
at `src/lib.rs`.

Two points of the code that shape the model:

- `register::<T>()` takes no identifier argument; it always uses `T::UUID`.
- The older revision panics on an unknown uuid (serde_dyn/src/lib.rs:86-88); here that
  is the precondition of `SerdeDynLegacy.TUSM.DeserializeWithUuid`.

## Model

| member | source | states |
|---|---|---|
| `RustCore.Result.Map` | src/lib.rs:70 | `Result::map` changes only a success value; an error passes through as the same error |
| `RustCore.Result.MapErr` | src/lib.rs:93 | `Result::map_err` changes only an error; a success value passes through as the same value |
| `TypeUuid.DynamicUuidIsConstant` | src/lib.rs:40-44 | `uuid()` of any value of `T` is `T::UUID`, the same for every value (identical impl at serde_dyn/src/lib.rs:37-41) |
| `TypeUuid.DynamicUuid` | src/lib.rs:40-44 | the blanket `TypeUuidDynamic::uuid(&self)` returns the type's constant `T::UUID` |
| `TypeUuid.Erase` | src/lib.rs:70 | `Box::new(i) as Box<dyn Any>`: the erased value is tagged with `T`'s runtime type identity, and (for a `Valid` registrable type) its payload unboxes back to the value that was erased |
| `TypeUuid.Downcast` | src/lib.rs:143 | a downcast fails when the erased value's runtime type is not `T`; when it succeeds, the erased value is exactly the erasure of the value returned (for a `Valid` registrable type) |
| `TypeUuid.DowncastErase` | src/lib.rs:140-145 | erasing a `T` and downcasting it to `T` gives back the same value |
| `TypeUuid.DowncastOtherType` | src/lib.rs:143 | downcasting to a type with a different runtime identity fails instead of reinterpreting the payload |
| `Adapters.RegisterAdapter` | src/lib.rs:69-71 | the stored closure succeeds exactly when `T::deserialize` does; its success is tagged with `T`'s type and (for a `Valid` registrable type) downcasts to the decoded value; its error is the decode error unchanged (same closure at serde_dyn/src/lib.rs:66-68) |
| `Adapters.LastRegistration` | src/lib.rs:77-83 | specification helper for a sequence of `manually_register` calls: picks out the insert that decides a uuid's binding, the last one whose key is that uuid (no later entry has it); none means no entry has it |
| `Adapters.LastWriteWins` | src/lib.rs:77-83 | after any sequence of `insert`s a uuid is bound to the adapter of its last registration; a uuid never registered keeps its earlier binding or stays unbound. The registration phase is the specification helper `Adapters.AfterRegistrations`, which applies a sequence of `Adapters.Registration` entries in order; `Adapters.RegistrationOf` is the entry `register::<T>()` makes, `T::UUID` with `T`'s adapter |
| `Adapters.DuplicateUuidShadows` | src/lib.rs:26-29 | two types sharing a uuid: the later registration silently replaces the earlier one, and what dispatch returns no longer downcasts to the first type |
| `SerdeDyn.Display` | src/lib.rs:116-123 | the unknown-uuid text is "Uuid requested not found in TUSM." and is never produced for a decode failure; a decode failure's text is "Deserialization error: " followed by the inner error's text |
| `SerdeDyn.Debug` | src/lib.rs:107-114 | `UuidNotFound` renders as its own name and nothing else does; a decode failure renders as `DeserializerError(...)` around the inner error's debug text |
| `SerdeDyn.TUSM.constructor` | src/lib.rs:61-65 | `new()` starts with an empty mapping: no uuid is registered |
| `SerdeDyn.TUSM.ManuallyRegister` | src/lib.rs:77-83 | `manually_register(u, f)` binds `u` to `f`, replacing any earlier entry; every other uuid's entry is unchanged |
| `SerdeDyn.TUSM.Register` | src/lib.rs:68-72 | `register::<T>()` binds exactly `T::UUID` to `T`'s adapter and changes nothing else: a one-entry registration phase |
| `SerdeDyn.TUSM.Get` | src/lib.rs:92 | the lookup finds an adapter exactly when the uuid is registered, and it is the stored one |
| `SerdeDyn.TUSM.DeserializeWithUuid` | src/lib.rs:87-96 | `UuidNotFound` exactly when the uuid is unregistered; `Ok(x)` exactly when the stored function returns `Ok(x)`; `DeserializerError(e)` exactly when it returns `Err(e)`, with the same `e`; reads the mapping and changes nothing |
| `SerdeDyn.UnknownUuidIgnoresSource` | src/lib.rs:92-94 | an unregistered uuid gives `UuidNotFound` whatever the source holds, so no stored function decides the outcome |
| `SerdeDyn.RegisteredRoundTrip` | src/lib.rs:68-96 | dispatch through `T`'s registration succeeds exactly when `T`'s decode does, downcasts to `T` and equals the decoded value; a decode error comes back as `DeserializerError` with the same error |
| `SerdeDyn.DeserTest` | src/lib.rs:133-146 | the crate's test: registering `i32` and dispatching with `i32::UUID` on a source that decodes to 5 downcasts to 5; beside it, the error path at src/lib.rs:94: in the same registry a uuid that was never registered gives `UuidNotFound` |
| `SerdeDynLegacy.TUSM.constructor` | serde_dyn/src/lib.rs:58-62 | `new()` starts with an empty mapping |
| `SerdeDynLegacy.TUSM.ManuallyRegister` | serde_dyn/src/lib.rs:74-77 | `manually_register(u, f)` binds `u` to `f`, overwriting any earlier entry; every other entry is untouched |
| `SerdeDynLegacy.TUSM.Register` | serde_dyn/src/lib.rs:65-69 | `register::<T>()` binds exactly `T::UUID` to `T`'s adapter and changes nothing else |
| `SerdeDynLegacy.TUSM.DeserializeWithUuid` | serde_dyn/src/lib.rs:79-89 | callable only for a registered uuid (it panics otherwise); returns the stored function's result, success or error, unwrapped; reads the mapping and changes nothing |
| `SerdeDynLegacy.RegisteredRoundTrip` | serde_dyn/src/lib.rs:65-88 | dispatch through `T`'s registration succeeds exactly when `T`'s decode does, downcasts to the decoded value, and returns a decode error as the same error |
| `SerdeDynLegacy.DeserTest` | serde_dyn/src/lib.rs:98-111 | registering `i32` and dispatching with `i32::UUID` on a source that decodes to 5 downcasts to 5 |
| `Revisions.ErrorContractChange` | src/lib.rs:92-94 | over the same mapping, the current dispatch returns `UuidNotFound` exactly where the older one (serde_dyn/src/lib.rs:86-88) panics; elsewhere it returns the older result with only the error wrapped in `DeserializerError` |

## Left out

- The deserializer `D` and its error `E` are type parameters. Each type's decoding is an abstract function `D -> Result<T, E>`. serde's `Deserializer`/`DeserializeOwned` machinery and the `ron` text format used by the tests are not modelled. The tests' source "5" is any source that decodes to 5.
- `fnv::FnvHashMap` is a Dafny `map`; hashing is not modelled, only key equality.
- `Box<dyn Any>` and Rust's `TypeId` are a tagged value over a universe type `A`. A registrable type's embedding into `A` is assumed faithful (`Registrable.Valid`), which stands for Rust's own guarantee that a downcast after a matching `TypeId` check recovers the boxed value.
- `TypeUuid.Downcast`: an `Erased` value can carry `T`'s tag with a payload that no `T` boxes to (a state no `Box<dyn Any>` can be in); `Downcast` then returns `None`.
- `TypeUuid.Downcast`: `Registrable.typeId` is a free field of the record, not derived from `T`; distinct types having distinct identities is a convention of the model's callers.
- `TypeUuid.Downcast`: returns `Option<T>`, so on failure it does not hand back the box as Rust's `downcast` does with `Err(self)`.
- The `uuid` submodule (`src/lib.rs:4`) is not part of this model. Nor is the doc-comment recipe for generating an identifier from a random version 4 UUID (`src/lib.rs:16-24`): generation is random and uses `unsafe`.
- The lifetime `'de`, and the derived `Clone`, `PartialEq`, `Eq` and `Debug` on `TUSM`, are not modelled. Equality of stored function pointers is not meaningful.
- Concurrent readers are not modelled. Dispatch is a function that only reads `mapping`, which is what `&self` guarantees.
- `Display` and `Debug` take the inner error's rendering as a parameter. Formatter plumbing and write errors are not modelled.
- Calling a stored function has no side effects here, so "no adapter runs for an unknown uuid" is stated as independence from the source (`SerdeDyn.UnknownUuidIgnoresSource`).
- `Uuid` is an integer in [0, 2^128) rather than a `bv128`: only equality is used, and bit-vector map keys defeat Dafny's map reasoning.
