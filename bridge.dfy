/**
 * The cross-runtime reference bridge: the process-wide table from opaque
 * keys to host values, the allocator that mints the keys, the operations
 * that push host values into the engine and read them back, and the two
 * trampolines the engine calls (finalize and call).
 */
module Bridge {
  import opened DukTypes
  import opened InternalProps
  import opened Heap

  /** "goFuncData": the internal property holding a function's (and a finalizer's) key. */
  const GoFuncProp: Name := [0x67, 0x6F, 0x46, 0x75, 0x6E, 0x63, 0x44, 0x61, 0x74, 0x61]
  /** The engine-side name of the internal property "goFuncData". */
  const FuncDataName: Name := InternalName(GoFuncProp)
  /** "goObjData": the internal property holding a pushed host object's key. */
  const GoObjProp: Name := [0x67, 0x6F, 0x4F, 0x62, 0x6A, 0x44, 0x61, 0x74, 0x61]

  /** DUK_RET_TYPE_ERROR (Duktape 1.x): a native function's "throw a TypeError" status. */
  const RetTypeError: int := -105

  /** A host callable `func(d *Context) int`, identified; what it does is supplied when it is called. */
  datatype GoFunc = GoFunc(id: nat)

  /** `GoFuncData`: a heap cell wrapping one host callable. */
  class GoFuncData {
    const f: GoFunc
    constructor (f: GoFunc)
      ensures this.f == f
    {
      this.f := f;
    }
  }

  /**
   * A value of Go's `interface{}` as stored in the table: nil, a
   * `*GoFuncData` (possibly a nil pointer), or any other host value.
   */
  datatype HostValue = Nil | Func(fd: GoFuncData?) | Host(id: nat)

  /** Go's conversion of an `int` status to C's 32-bit `duk_ret_t`: two's-complement truncation. */
  function ToDukRet(x: int): (r: int)
    ensures -0x8000_0000 <= r < 0x8000_0000
    ensures (r - x) % 0x1_0000_0000 == 0
    ensures -0x8000_0000 <= x < 0x8000_0000 ==> r == x
  {
    (x + 0x8000_0000) % 0x1_0000_0000 - 0x8000_0000
  }

  /** An address above every address in `s`. */
  ghost function Bound(s: set<Key>): (b: Key)
    ensures forall k | k in s :: k < b
    decreases s
  {
    if s == {} then 0
    else
      var k :| k in s;
      var m := Bound(s - {k});
      assert forall x | x in s :: x == k || x in s - {k};
      if k < m then m else k + 1
  }

  /**
   * The package-level `objectMap` together with the C allocator's view of
   * the keys: `live` holds every key `C.malloc` returned that `C.free` has
   * not yet released.
   */
  class Registry {
    var table: map<Key, HostValue>
    var live: set<Key>

    /** Every key in the table is a live allocation. */
    ghost predicate Valid()
      reads this
    {
      table.Keys <= live
    }

    constructor ()
      ensures Valid()
      ensures table == map[] && live == {}
    {
      table := map[];
      live := {};
    }

    /** `C.malloc(1)`: an address distinct from every live one. */
    method Malloc() returns (k: Key)
      modifies this`live
      ensures k !in old(live)
      ensures live == old(live) + {k}
    {
      assert Bound(live) !in live;
      k :| k !in live;
      live := live + {k};
    }

    /** `C.free`: releases a live key; a key still in the table must not be freed. */
    method Free(k: Key)
      requires Valid()
      requires k in live && k !in table
      modifies this`live
      ensures Valid()
      ensures live == old(live) - {k}
    {
      live := live - {k};
    }
  }

  /**
   * `getGoObjectRef`: the host value the internal property `prop` of `obj`
   * refers to, or nil when the property is missing, is not a pointer, or
   * holds a key the table does not know.
   */
  function GetGoObjectRef(reg: Registry, obj: EngineObject, prop: Name): (v: HostValue)
    reads reg, obj
    ensures !obj.InternalProp(prop).Pointer? ==> v == Nil
    ensures obj.InternalProp(prop).Pointer? && obj.InternalProp(prop).key !in reg.table ==> v == Nil
    ensures obj.InternalProp(prop).Pointer? && obj.InternalProp(prop).key in reg.table ==>
              v == reg.table[obj.InternalProp(prop).key]
    ensures v != Nil ==> obj.InternalProp(prop).Pointer? && obj.InternalProp(prop).key in reg.table
  {
    var p := obj.InternalProp(prop);
    if !IsPointer(TypeOf(p)) then Nil
    else if p.key in reg.table then reg.table[p.key]
    else Nil
  }

  /** `GetGoObject`: the host value bridged by `PushGoObject` onto `obj`. */
  function GetGoObject(reg: Registry, obj: EngineObject): (v: HostValue)
    reads reg, obj
    ensures v != Nil ==> obj.InternalProp(GoObjProp).Pointer?
    ensures v == GetGoObjectRef(reg, obj, GoObjProp)
  {
    GetGoObjectRef(reg, obj, GoObjProp)
  }

  /** The key a finalizer function (or a bridged function) holds under "goFuncData", if it holds one. */
  predicate HoldsKey(obj: EngineObject, key: Key)
    reads obj
  {
    FuncDataName in obj.props && obj.props[FuncDataName] == Pointer(key)
  }

  /**
   * `putGoObjectRef`: mints a fresh key, stores `o` under it, gives `target`
   * a new finalizer function that holds the key under "goFuncData", and
   * stores the key under `target`'s internal property `prop`.
   */
  method PutGoObjectRef(reg: Registry, target: EngineObject, prop: Name, o: HostValue) returns (ghost key: Key)
    requires reg.Valid()
    modifies reg, target
    ensures reg.Valid()
    ensures key !in old(reg.live) && key !in old(reg.table)
    ensures reg.live == old(reg.live) + {key}
    ensures reg.table == old(reg.table)[key := o]
    ensures target.props == old(target.props)[InternalName(prop) := Pointer(key)]
    ensures target.finalizer != null && fresh(target.finalizer)
    ensures target.finalizer.native == FinalizeTrampoline
    ensures target.finalizer.props == map[FuncDataName := Pointer(key)]
    ensures HoldsKey(target.finalizer, key)
    ensures GetGoObjectRef(reg, target, prop) == o
  {
    var k := reg.Malloc();
    reg.table := reg.table[k := o];
    key := k;

    var fin := new EngineObject(FinalizeTrampoline);
    var _ := fin.PutInternalPropString(GoFuncProp, Pointer(k));
    target.finalizer := fin;

    var _ := target.PutInternalPropString(prop, Pointer(k));
  }

  /** `PushGoObject`: a new plain object bridging the host value `o`. */
  method PushGoObject(reg: Registry, o: HostValue) returns (obj: EngineObject, ghost key: Key)
    requires reg.Valid()
    modifies reg
    ensures reg.Valid()
    ensures fresh(obj) && obj.native == NoNative
    ensures key !in old(reg.live) && reg.live == old(reg.live) + {key}
    ensures reg.table == old(reg.table)[key := o]
    ensures obj.props == map[InternalName(GoObjProp) := Pointer(key)]
    ensures obj.finalizer != null && fresh(obj.finalizer)
    ensures obj.finalizer.native == FinalizeTrampoline
    ensures obj.finalizer.props == map[FuncDataName := Pointer(key)]
    ensures GetGoObject(reg, obj) == o
  {
    obj := new EngineObject(NoNative);
    key := PutGoObjectRef(reg, obj, GoObjProp, o);
  }

  /** `PushGoFunc`: a new function object, run by the call trampoline, bridging `fd`. */
  method PushGoFunc(reg: Registry, fd: GoFuncData?) returns (fn: EngineObject, ghost key: Key)
    requires reg.Valid()
    modifies reg
    ensures reg.Valid()
    ensures fresh(fn) && fn.native == CallTrampoline
    ensures key !in old(reg.live) && reg.live == old(reg.live) + {key}
    ensures reg.table == old(reg.table)[key := Func(fd)]
    ensures fn.props == map[FuncDataName := Pointer(key)]
    ensures HoldsKey(fn, key)
    ensures fn.finalizer != null && fresh(fn.finalizer)
    ensures fn.finalizer.native == FinalizeTrampoline
    ensures fn.finalizer.props == map[FuncDataName := Pointer(key)]
    ensures GetGoObjectRef(reg, fn, GoFuncProp) == Func(fd)
  {
    fn := new EngineObject(CallTrampoline);
    key := PutGoObjectRef(reg, fn, GoFuncProp, Func(fd));
  }

  /**
   * `goFinalize`, run with `current` being the finalizer function. A
   * "goFuncData" that is not a pointer is a type error that changes nothing;
   * otherwise the key's entry is removed and then the key is freed.
   */
  method GoFinalize(reg: Registry, current: EngineObject) returns (status: int)
    requires reg.Valid()
    requires current.InternalProp(GoFuncProp).Pointer? ==> current.InternalProp(GoFuncProp).key in reg.live
    modifies reg
    ensures reg.Valid()
    ensures !current.InternalProp(GoFuncProp).Pointer? ==>
              status == RetTypeError && reg.table == old(reg.table) && reg.live == old(reg.live)
    ensures current.InternalProp(GoFuncProp).Pointer? ==>
              var key := current.InternalProp(GoFuncProp).key;
              && status == 0
              && reg.table == old(reg.table) - {key}
              && reg.live == old(reg.live) - {key}
  {
    var _, v := current.GetInternalPropString(GoFuncProp);
    if !IsPointer(TypeOf(v)) {
      return RetTypeError;
    }
    var key := v.key;
    reg.table := reg.table - {key};
    reg.Free(key);
    return 0;
  }

  /**
   * `goCall`, run with `current` being the called function. When its
   * "goFuncData" resolves to a non-nil `*GoFuncData`, the result of that
   * callable (`run` gives what each host callable returns) is passed back
   * through the `duk_ret_t` conversion; otherwise the call is a type error.
   * The table is not touched.
   */
  method GoCall(reg: Registry, current: EngineObject, run: GoFunc -> int) returns (status: int)
    ensures GetGoObjectRef(reg, current, GoFuncProp).Func? && GetGoObjectRef(reg, current, GoFuncProp).fd != null ==>
              status == ToDukRet(run(GetGoObjectRef(reg, current, GoFuncProp).fd.f))
    ensures !(GetGoObjectRef(reg, current, GoFuncProp).Func? && GetGoObjectRef(reg, current, GoFuncProp).fd != null) ==>
              status == RetTypeError
  {
    var ref := GetGoObjectRef(reg, current, GoFuncProp);
    if ref.Func? && ref.fd != null {
      status := ToDukRet(run(ref.fd.f));
    } else {
      status := RetTypeError;
    }
  }
}
