# Perilune identity-and-ownership substrate, in Dafny

This project models the part of the perilune Lua binding layer that lives in
`include/perilune/common.h`. That part gives every C++ type exposed to Lua a
metatable of its own, and it validates a userdata against that metatable by
reference before it hands out a typed pointer. It also has three ownership
strategies (value, raw pointer, `shared_ptr`). Each one extracts the host
object and installs (or does not install) a `__gc` finalizer.

The Lua state is abstract (`Lua.State`). It has these parts:
- the registry, an integer-keyed map. A type's entry sits under its
  `typeid(T).hash_code()`, converted to `lua_Integer`.
- a table store, holding string slots and an optional metatable.
- a userdata store, where each block has an optional metatable and a payload.
- the value stack.
- two host-side records: the use counts of `shared_ptr` control blocks, and a
  log of in-place destructor runs.

The Lua C API calls that `common.h` makes (`lua_getmetatable`,
`lua_gettable`, `lua_settable`, `lua_createtable`, the `lua_push*` family,
`lua_setfield`, `lua_rawequal`, `lua_touserdata` and `lua_pop`) are pure
functions over this state (`Lua.Api*`). Each gets its raw meaning from the
Lua 5.4 Reference Manual, section 4. One more, `Lua.ApiNewUserdata`, stands
for the runtime creating a userdata and setting its metatable
(`lua_newuserdatauv` followed by `lua_setmetatable`). `common.h` never calls
it: only the `Session` and `Collector` scenarios use it to put blocks on the
stack. Stack indices follow the manual: positive from the bottom, negative
from the top. C++ exceptions and Lua errors become `Failure` values. The
allocator behind `lua_createtable` and userdata creation becomes a parameter:
the caller supplies an unused reference.

Modules follow the components, leaf first:
- `MetaKeys`: the `MetaKey` enum and `ToString`.
- `Registry`: `LuaGetMetatable` and `LuaNewMetatable`.
- `Validator`: `LuaCheckUserData`.
- `Traits`: the three `Traits` specialisations.
- `Collector`: the runtime side of finalization. It is reduced to calling a
  block's `__gc` with the block at index 1. It exists only to state the
  end-to-end properties.
- `Session`: any sequence of these operations, and the invariants no sequence
  can break.

Behaviour of the code worth knowing:
- `common.h` does not tell a type that was never registered apart from a
  mismatched metatable. Both make `LuaCheckUserData` return null, and every
  `GetSelf` raises the same "userdata has not valid metatable" exception.
  The model has one error, `InvalidMetatable`, for both cases.
- Running a value or shared finalizer does not invalidate the block. The block
  is still accepted afterwards, and a second run would destroy it again
  (`Traits.ValueDestructKeepsVerdict`). Running `__gc` only once per object is
  left to the Lua runtime; `common.h` does not guard against a second run.
- `Traits<T>::Destruct` raises its exception out of a `__gc` call. The model's
  collector swallows that failure and changes nothing. Whatever the C++
  exception does when it crosses the C runtime is not part of this model.
- `SetPlacementDelete` pushes its finalizer before it calls `lua_setfield`, so
  the index is resolved on the grown stack. With the metatable on top, index
  `-2` reaches it. Index `-1` names the pushed function and always fails
  (`Traits.SetPlacementDeleteTopFails`).

## Model

| member | source | states |
|---|---|---|
| Lua.ApiSetField | include/perilune/common.h:182 | `lua_setfield` succeeds exactly when its index, resolved with the value already pushed, names a live table. It then pops the value and stores it under the key (a nil value removes the key), changing no other slot, table, registry entry or block |
| MetaKeys.ToString | include/perilune/common.h:31-56 | every key maps to a slot name that begins with `__` and parses back to that key; the fall-through `throw` cannot be reached |
| MetaKeys.ParseIsInverse | include/perilune/common.h:31-53 | a name parses to a key if and only if it is that key's slot name |
| MetaKeys.ToStringInjective | include/perilune/common.h:31-53 | distinct keys have distinct slot names |
| MetaKeys.GcSlotName | include/perilune/common.h:35-36 | the finalizer key's slot is `"__gc"` |
| MetaKeys.AllKeysComplete | include/perilune/common.h:17-29 | the nine keys are the whole enum and their slot names are pairwise distinct |
| Registry.RegistryKey | include/perilune/common.h:170 | the hash pushed as `lua_Integer` is in the signed 64-bit range and congruent to the hash modulo 2^64 |
| Registry.RegistryKeyInjective | include/perilune/common.h:184 | distinct hashes give distinct registry keys |
| Registry.LuaGetMetatable | include/perilune/common.h:167-172 | pushes exactly the type's registry entry (nil when absent), changes nothing else, and returns its type, which is nil exactly when the entry is |
| Registry.LuaNewMetatable | include/perilune/common.h:174-188 | with an entry present: returns 0 and only pushes that entry. With none: returns 1, binds the key to a new table whose only slot is `__name` = the type's name, leaves that table on top, and changes nothing else |
| Registry.NewMetatableLeavesEntryOnTop | include/perilune/common.h:177-187 | either way the stack grows by one, with the type's non-nil entry on top, and 1 is returned exactly when there was no entry |
| Registry.NewMetatableIdempotent | include/perilune/common.h:177-178 | a second registration returns 0, leaves registry, tables and blocks as the first left them, and pushes the same table again |
| Registry.NewMetatableFrame | include/perilune/common.h:184-186 | registering one type leaves every other type's entry unchanged |
| Registry.NewMetatableDistinct | include/perilune/common.h:179-187 | in a heap without dangling references, the new metatable differs from every other type's entry |
| Registry.NewMetatablePreservesWf | include/perilune/common.h:179-187 | registration creates no dangling table or userdata reference |
| Validator.LuaCheckUserData | include/perilune/common.h:190-212 | leaves the whole state, stack included, as it found it. Returns non-null exactly when the value is a full userdata whose metatable is the very table registered for the type, and then returns that block's address |
| Validator.CheckRejectsUnregistered | include/perilune/common.h:195-205 | a type that was never registered accepts nothing |
| Validator.CheckRejectsTables | include/perilune/common.h:199-201 | a table is never accepted, even one that carries the type's metatable |
| Validator.CheckRejectsOtherType | include/perilune/common.h:195-205 | when two types are registered with distinct tables, a block tagged with the second type's table is rejected as the first and accepted as the second |
| Validator.CheckStableUnderRegistration | include/perilune/common.h:174-211 | registering any type, the checked type included, never changes the verdict on a value already on the stack |
| Traits.GetSelfValue | include/perilune/common.h:64-72 | succeeds exactly when the check accepts, returning the block's own address; otherwise raises `InvalidMetatable` |
| Traits.GetSelfPointer | include/perilune/common.h:96-104 | succeeds exactly when the check accepts, returning the stored pointer unchecked (possibly null); otherwise raises `InvalidMetatable` |
| Traits.GetSelfShared | include/perilune/common.h:120-128 | succeeds exactly when the check accepts and the handle's `get()` is non-null, returning that non-null pointer; otherwise raises `InvalidMetatable` |
| Traits.GetSelf | include/perilune/common.h:64-128 | under every strategy a rejected value fails. Value and pointer succeed exactly on acceptance, shared exactly on acceptance with a non-null `get()`. On success it returns the block's address (value), the stored pointer (pointer) or the handle's object (shared), and value and shared never return null |
| Traits.ValueDestruct | include/perilune/common.h:74-79 | on an accepted block at index 1, records one destruction of that block and changes nothing else. Otherwise it fails with `InvalidMetatable` |
| Traits.SharedDestruct | include/perilune/common.h:130-138 | when index 1 is accepted and its handle is non-empty, decrements exactly that control block's count by one and changes nothing else. Otherwise it changes nothing |
| Traits.SetPlacementDelete | include/perilune/common.h:81-144 | the raw-pointer strategy changes nothing. The others succeed exactly when the index (resolved after the push) names a live table, and then only set its `__gc` to their own `Destruct`. Otherwise they raise a Lua error |
| Traits.SetPlacementDeleteTopFails | include/perilune/common.h:142-143 | with index -1 the installation always fails, because that index names the pushed function |
| Traits.SetPlacementDeleteOnlyGc | include/perilune/common.h:83-84 | a successful installation changes no slot other than `__gc`, no metatable, and neither the registry, the blocks nor the stack |
| Traits.SetPlacementDeletePreservesWf | include/perilune/common.h:83-84 | installation creates no dangling reference |
| Traits.SetPlacementDeleteKeepsVerdicts | include/perilune/common.h:81-85 | installation never changes which values are accepted as which type |
| Traits.ValueDestructKeepsVerdict | include/perilune/common.h:74-79 | the destructor does not invalidate the block: it stays accepted, and a second run records a second destruction |
| Traits.SharedDestructKeepsExtraction | include/perilune/common.h:130-138 | the shared finalizer leaves every `shared_ptr` extraction exactly as it was |
| Collector.Finalize | include/perilune/common.h:74-138 | collecting a block changes no stack, registry, table or block, and does nothing when its metatable has no `__gc` |
| Collector.PointerBlocksNeverFinalized | include/perilune/common.h:106-109 | register a type under the raw-pointer strategy, run its `SetPlacementDelete`, and create a block with that metatable: collecting the block, once or twice, changes nothing |
| Collector.ValueFinalizerRunsDestructor | include/perilune/common.h:74-85 | collecting an accepted block whose metatable has the value finalizer records exactly one destruction of it |
| Collector.SharedHandleReleasedOnce | include/perilune/common.h:130-144 | for two blocks sharing one handle with count 2, collecting the first leaves count 1 and the second still extracts the object. Collecting the second brings the count to 0 |
| Collector.PointRegisters | include/perilune/common.h:179-187 | registering `Point` in an empty state yields exactly its named metatable 0 on the stack, with result 1 |
| Collector.PointInstallsFinalizer | include/perilune/common.h:81-85 | with the metatable on top, index -2 installs the value finalizer as its `__gc` |
| Collector.PointExtracted | include/perilune/common.h:64-72 | a `{x = 3, y = 4}` block with `Point`'s metatable is extracted as its own block, holding 3 and 4 |
| Collector.PointCollected | include/perilune/common.h:74-79 | collecting that block records its destruction once, and the block is still accepted afterwards |
| Collector.PointEndToEnd | include/perilune/common.h:64-188 | the whole scenario: register, install, create, extract, collect |
| Session.ApplyKeepsEntry | include/perilune/common.h:174-188 | no single binding-layer operation replaces or removes an existing registry entry |
| Session.RegisteredEntryPermanent | include/perilune/common.h:177-178 | once a type has a metatable, every feasible sequence of operations leaves that very entry in place |
| Session.ApplyKeepsBlock | include/perilune/common.h:64-212 | no single operation removes a userdata block or changes its metatable or payload |
| Session.BlockPermanent | include/perilune/common.h:64-212 | no sequence of operations removes a block or changes its metatable or payload |
| Session.AcceptancePermanent | include/perilune/common.h:190-211 | a block accepted as a type is still accepted as that type, at whatever index it sits, after any sequence of operations |
| Session.ApplyPreservesWf | include/perilune/common.h:64-212 | no single operation introduces a dangling table or userdata reference |
| Session.SessionPreservesWf | include/perilune/common.h:64-212 | no sequence of operations introduces a dangling reference |

## Left out

- The real Lua C API and its metamethods. `lua_setfield` and `lua_gettable` are raw here. No `__newindex` or `__index` of a target table is consulted, and setting a field on a userdata is always an error.
- Memory errors raised by `lua_createtable`, `lua_pushstring` and `lua_newuserdatauv`.
- Pseudo-indices other than the registry, light userdata, and the metatables of basic types other than tables and full userdata (such as the string metatable). The model's stack holds only the values listed in `Lua.Value`.
- Validator.LuaCheckUserData: accepts only a full userdata on the stack. The real call also accepts a light userdata when the metatable that all light userdata share is `T`'s table, returning its raw pointer as a `T*`, and it accepts a full userdata reached through an upvalue pseudo-index. The model has neither light userdata nor upvalues.
- Registry entries under non-integer keys. No modelled operation reads them.
- `remove_const_ref`, `pop_front_impl` and `pop_front`. These are compile-time type and tuple manipulation with no runtime behaviour.
- Collisions of `typeid(T).hash_code()` and the actual `name()` strings. A type is an abstract `(hash, name)` pair. Where distinct types matter, the lemmas require distinct hashes, which the code assumes but does not check.
- C++ destructor side effects and placement-delete memory semantics. A value destruction is one entry in a log, and a `shared_ptr` release is one count decrement. Reaching zero is not followed by freeing the object.
- The `shared_ptr` aliasing constructor (a non-null pointer with no control block) and atomic reference counting. Concurrency is out of scope.
- Traits.GetSelfPointer: requires that an accepted block holds a stored pointer. The C++ cast presumes that a block carrying a type's metatable holds bytes of that type, and does not check it.
- Traits.GetSelfShared: requires that an accepted block holds a `shared_ptr`, for the same reason.
- Traits.SharedDestruct: requires that an accepted block holds a `shared_ptr`, and that a non-empty handle's control block still has a count. Otherwise `~shared_ptr` is undefined behaviour.
- Garbage-collector scheduling, marking objects for finalization, and guarding against double finalization. The Lua runtime is responsible for these, and `Collector.Finalize` only calls the `__gc` slot.
- C functions other than the two finalizers (`Lua.CFn.Foreign`). Their effects are not modelled.
