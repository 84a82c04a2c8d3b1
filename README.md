# go-duktape reference bridge in Dafny

This project models the cross-runtime reference bridge of the Go binding for the Duktape
JavaScript engine (`duktape.go`). Go code can push a host value or a host
callable into the engine. The binding mints an opaque key with `C.malloc(1)` and
stores the host value under that key in the process-wide table `objectMap`. It then
hands the engine only the key. The key goes into an internal property of the
pushed object, and into the `goFuncData` property of a finalizer attached to that
object. Two C-callable trampolines close the loop:
- `goCall` resolves the key of the function being called and runs the wrapped Go callable.
- `goFinalize` deletes the table entry and frees the key once the engine collects
  the object.

`EvalWith` uses the bridge to expose a whole suite of Go callables on one object
that it passes to an evaluated script.

Files and modules:

- `types.dfy` (`DukTypes`): the `Type` enum, numbered 0..8 in declaration order, and its nine `Is*`
  predicates.
- `names.dfy` (`InternalProps`): property names as byte strings. A Go string
  reaches the engine through `C.CString`, so the engine reads it only up to its
  first NUL byte (`CString`). The internal-property naming rule is `"_" + key`
  with the first byte overwritten by 0xFF (`InternalName`).
- `heap.dfy` (`Heap`): engine values, engine objects (properties plus a finalizer
  slot) as a class, and the binding's `PutInternalPropString` /
  `GetInternalPropString`. The value stack is abstracted away: an operation on "the
  object at index -1" takes that object as a parameter.
- `bridge.dfy` (`Bridge`): the `Registry` class is `objectMap` together with
  the set of keys `C.malloc` has returned and `C.free` has not yet released. The
  module also holds `putGoObjectRef`, `PushGoObject`, `getGoObjectRef`, `GetGoObject`,
  `PushGoFunc`, and the two trampolines. Its invariant is that every key in the
  table is live.
- `suite_state.dfy` (`SuiteState`) and `suite.dfy` (`Suite`): `EvalWith` and its two loops.
  - The first loop wraps each callable in a new `GoFuncData`.
  - The second loop pushes each one as a bridged function and binds it on the suite object.
  - `SuiteState` states what the second loop establishes: one fresh key per entry (`Minted`), the
    bindings on the object (`Bindings`), and every pushed function bridged (`AllBridged`).
    It proves these by replaying the loop's visiting order (`Replay`).
- `lifecycle.dfy` (`Lifecycle`): whole lifecycles composed from the operations above.
  - Push, call, finalize, then call again: the stale call is a type error.
  - Two pushes, then finalize one of them: the other still resolves.

Behaviour the model makes explicit:

- Names are bytes. A key or suite name holding a NUL byte is cut at that byte on its way into the
  engine. So `"a\x00b"` and `"a"` name the same internal property
  (`InternalNameTruncates`). Two suite names that reach the engine as the same
  property name overwrite each other, and the last one bound wins. The map
  iteration order of Go is unspecified, so the model lets the loop visit entries in any
  order and records the last writer of each engine name.
- `goCall` returns `C.duk_ret_t(fd.f(d))`, converting a Go `int` to a 32-bit C
  int. The model writes that conversion out as two's-complement truncation
  (`ToDukRet`). Statuses that fit in 32 bits pass through unchanged.
- Keys are distinct only among live keys. `C.malloc` may return a freed
  address (duktape.go:102), so a key pushed after another was finalized may
  equal it. A new key differs from every live key (`Registry.Malloc`), and two
  keys live at the same time differ (`PushTwoFinalizeOne`).
- `goCall` has no `recover` (duktape.go:158). A callable that panics, or a
  `nil` callable in a suite, unwinds through the exported C trampoline instead
  of returning an error status to the engine. The model assumes every callable
  returns a result.

## Model

| member | source | states |
|---|---|---|
| DukTypes.ExactlyOnePredicate | duktape.go:27-49 | the i-th `Is*` predicate in declaration order holds exactly when `t == i`; so exactly one holds for 0..8 and none for any other value |
| InternalProps.CStringPrefix | duktape.go:68 | the string the engine receives is a NUL-free prefix of the Go string, and it ends at the first NUL byte or at the end |
| InternalProps.InternalName | duktape.go:67-70 | the internal name of `key` is 0xFF followed by what `C.CString` keeps of `key` |
| InternalProps.CStringOfNulFree | duktape.go:68 | a NUL-free Go string reaches the engine unchanged |
| InternalProps.InternalNameOfNulFree | duktape.go:67-77 | for a NUL-free key the internal name is 0xFF followed by the key, one byte longer than the key |
| InternalProps.InternalNameInjective | duktape.go:67-77 | distinct NUL-free keys never share an internal property |
| InternalProps.InternalNameReserved | duktape.go:70 | no internal name equals a name that does not start with 0xFF |
| InternalProps.InternalNameTruncates | duktape.go:68-70 | `key` and `key + NUL + rest` have the same internal name |
| Heap.TypeOf | duktape.go:86 | the type tag is one of the named types; it is `DUK_TYPE_POINTER` exactly for pointer values and `DUK_TYPE_UNDEFINED` exactly for undefined |
| Heap.EngineObject.constructor | duktape.go:181 | a new object has no properties and no finalizer |
| Heap.EngineObject.PutInternalPropString | duktape.go:67-72 | stores the value under the internal name of `key`, reads back as that value, leaves every other internal property and the finalizer unchanged, and reports success |
| Heap.EngineObject.GetInternalPropString | duktape.go:74-79 | reports whether the internal property exists and yields its value, or undefined when it is missing |
| Bridge.ToDukRet | duktape.go:158 | the 32-bit status is congruent to the Go result modulo 2^32, lies in the signed 32-bit range, and equals the result whenever it fits |
| Bridge.GoFuncData.constructor | duktape.go:163-165 | a new descriptor wraps the given callable |
| Bridge.Registry.constructor | duktape.go:51-52 | the table starts empty with no live keys, so the invariant holds |
| Bridge.Registry.Malloc | duktape.go:102 | the new key differs from every live key and becomes live |
| Bridge.Registry.Free | duktape.go:97 | a live key absent from the table stops being live; the invariant is kept |
| Bridge.GetGoObjectRef | duktape.go:124-136 | nil when the internal property is missing or not a pointer; the table's entry for the key when present; nil, the map's zero value, when the key is absent |
| Bridge.GetGoObject | duktape.go:138-140 | reads the host value through the `goObjData` property |
| Bridge.PutGoObjectRef | duktape.go:101-117 | mints a key that was not live and stores `o` under it, leaving every other entry unchanged; attaches a new finalizer holding the key under `goFuncData`; writes the key into `prop`; `getGoObjectRef(prop)` then returns `o` |
| Bridge.PushGoObject | duktape.go:119-122 | a new plain object bridging `o`: fresh live key, table extended by that key, `GetGoObject` returns `o` |
| Bridge.PushGoFunc | duktape.go:167-171 | a new call-trampoline function whose `goFuncData` and whose finalizer's both hold a fresh key mapped to `fd`; it resolves back to `fd` |
| Bridge.GoFinalize | duktape.go:81-99 | a `goFuncData` that is not a pointer gives the type-error status with table and live keys unchanged; otherwise exactly that key is removed from the table, then freed, and the status is 0 |
| Bridge.GoCall | duktape.go:142-160 | when the function's key resolves to a non-nil `*GoFuncData`, returns the callable's result converted to `duk_ret_t`; otherwise returns the type-error status; the table is not touched |
| SuiteState.NulFreeNamesUnshared | duktape.go:189-192 | when no suite name holds a NUL byte, the engine sees exactly the suite's names and no two of them share a property |
| SuiteState.MintedStep | duktape.go:189-190 | one more entry with a key that is not live keeps every key fresh and distinct, the live set equal to the old live set plus the minted keys, and the table equal to the old table plus one entry per minted key |
| SuiteState.LastWriterStep | duktape.go:191 | storing a function under an engine name makes its suite name the last writer there and keeps every other bound name's function |
| SuiteState.BindStep | duktape.go:190-191 | binding one more function keeps the bound names equal to the old names plus those written, each bound name holding its last writer's function, and every other old property at its old value |
| SuiteState.UntouchedStep | duktape.go:191 | writing one property keeps every old property no suite name has written at its old value |
| SuiteState.BoundNames | duktape.go:189-192 | after binding, the object's names are its old names plus the engine names of the suite's names |
| SuiteState.BoundToOwn | duktape.go:191 | a suite name that shares its engine name with no other suite name is bound to its own function |
| SuiteState.ZipBridged | duktape.go:189-192 | every function made by the loop, looked up by its suite name, is a bridged function holding that name's key |
| SuiteState.Replay | duktape.go:189-192 | binding the entries in the order visited, each with a key that was not live, mints keys as `Minted` says and binds names as `Bindings` says |
| Suite.WrapSuite | duktape.go:184-187 | one new `GoFuncData` per suite entry, wrapping that entry's callable, no two of them the same |
| Suite.BindEntry | duktape.go:190-191 | pushes a bridged function for `fd` under a fresh live key, extends the table by that key, and binds the function on the object under the name's engine name; only that property changes, and the object's finalizer is unchanged |
| Suite.BindNext | duktape.go:189-192 | one pass of the second loop keeps the loop's history equations: table, live keys and properties are their start values extended by the visited entries; keys stay fresh; every function made stays bridged; the object's finalizer is unchanged |
| Suite.BindSuite | duktape.go:189-192 | every entry gets its own fresh live key mapped to its `GoFuncData`, with old entries kept; every entry gets a bridged function holding its key; each function is bound on the object under its engine name; other properties and the finalizer of the object are unchanged |
| Suite.EvalWith | duktape.go:176-199 | a failed evaluation returns its error with the table and live keys unchanged; otherwise the call's outcome is returned, the suite object is a new plain object with no finalizer, and one fresh entry per suite name holds that name's new `GoFuncData`, reachable from a bound function that resolves to it |
| Lifecycle.CallFinalizeCall | duktape.go:142-160 | after push, call and finalize, the table and live keys are as before the push, and calling the stale function is a type error |
| Lifecycle.PushTwoFinalizeOne | duktape.go:101-122 | two values pushed in sequence get distinct keys; finalizing the second leaves the first readable and makes the second read nil |

## Left out

- `objectMutex` locking (duktape.go:51, 94-96, 104-106, 132-133) exists for concurrent access. Each table operation is modelled as atomic and sequential.
- `log.Printf` calls only log, and are not modelled.
- The `DUK_ENUM_*` constants are C constants passed through without logic.
- `NewContext` and the value-stack primitives (`PushCurrentFunction`, `PushCFunction`, `PushPointer`, `SetFinalizer`, `Pop`, `Pop2`, `PutPropString`, `PushObject`) are calls into the C library. They are modelled as effects on engine objects. An operation takes the object it would find on the stack.
- `PevalString`, `Pcall` and `SafeToString` run script code in the engine. Their outcomes are parameters of `EvalWith`, and the error text is part of the outcome.
- A script run by `Pcall` may call bridged functions or trigger finalizers. Its effects on the table are not modelled, and neither are a host callable's own effects. `GoCall` takes what each callable returns as a parameter.
- Bridge.GoCall: assumes every callable returns an `int`. A panicking callable, or a `nil` `GoFunc` in a `MethodSuite`, is not modelled, because `goCall` has no `recover` (duktape.go:158) and such a call does not return a status at all.
- The model does not cover when the engine's garbage collector runs a finalizer. `GoFinalize` is an operation the environment invokes explicitly.
- Allocator exhaustion is not modelled: `Registry.Malloc` always succeeds.
- `duktape.h` is not part of this model. `DUK_RET_TYPE_ERROR` is taken as -105, its value in Duktape 1.x. No proof depends on the value.
- The model does not track which engine objects hold a key. It proves only that every table key is live.
- Bridge.Registry.Malloc: does not promise a key that was never live before, only one distinct from the live keys, because `C.malloc` may return a freed address.
- Bridge.GoFinalize: requires the key held by the finalizer to be live, because `C.free` on an address that is not live is undefined in C. A second finalization of the same object is therefore not modelled.
- Heap.EngineObject.PutInternalPropString: always reports success. A failing `duk_put_prop_string` is not modelled.
- Suite.BindSuite: does not state that the functions it pushes are newly allocated objects. It states only that each is bridged and holds its entry's key, so that the loop's verification stays small.
- Suite.EvalWith: does not state that the bound functions are newly allocated objects, for the same reason as `Suite.BindSuite`. It also does not model the bridging object being passed as the argument of `Pcall`.
