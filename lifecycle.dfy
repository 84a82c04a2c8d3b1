/**
 * Whole lifecycles of bridged values, composed from the bridge's own
 * operations: a function is pushed, called, finalized and called again; two
 * host values are pushed side by side and one of them is finalized.
 */
module Lifecycle {
  import opened Heap
  import opened Bridge

  // Two map and set identities the lifecycles call at the exact shape of a
  // goal. Dafny proves them on its own; they model nothing in the binding.

  /** Removing a key just added to a map gives the map back. */
  lemma UndoInsert<K, V>(m: map<K, V>, k: K, v: V)
    requires k !in m
    ensures m[k := v] - {k} == m
  {
  }

  /** Removing an element just added to a set gives the set back. */
  lemma UndoAdd<K>(s: set<K>, k: K)
    requires k !in s
    ensures s + {k} - {k} == s
  {
  }

  /**
   * `PushGoFunc(fd)`, then `goCall` on the pushed function, then `goFinalize`
   * on its finalizer, then `goCall` on the same (now stale) function.
   * The first call runs `fd.f`; finalizing succeeds and returns the table
   * and the live keys to what they were before the push; the stale call is
   * a type error.
   */
  method CallFinalizeCall(reg: Registry, fd: GoFuncData, run: GoFunc -> int)
    returns (first: int, finalized: int, stale: int)
    requires reg.Valid()
    modifies reg
    ensures reg.Valid()
    ensures first == ToDukRet(run(fd.f))
    ensures finalized == 0
    ensures stale == RetTypeError
    ensures reg.table == old(reg.table) && reg.live == old(reg.live)
  {
    var fn, key := PushGoFunc(reg, fd);
    first := GoCall(reg, fn, run);
    var fin := fn.finalizer;
    assert fin.InternalProp(GoFuncProp) == Pointer(key);
    finalized := GoFinalize(reg, fin);
    UndoInsert(old(reg.table), key, Func(fd));
    UndoAdd(old(reg.live), key);
    stale := GoCall(reg, fn, run);
  }

  /**
   * Two host values pushed one after the other get distinct keys, and each
   * object reads back its own value. Finalizing the second leaves the first
   * readable and makes the second read nil.
   */
  method PushTwoFinalizeOne(reg: Registry, o1: HostValue, o2: HostValue)
    returns (a: EngineObject, b: EngineObject, ghost ka: Key, ghost kb: Key)
    requires reg.Valid()
    modifies reg
    ensures reg.Valid()
    ensures ka != kb
    ensures GetGoObject(reg, a) == o1
    ensures GetGoObject(reg, b) == Nil
    ensures reg.table == old(reg.table)[ka := o1]
    ensures reg.live == old(reg.live) + {ka}
  {
    a, ka := PushGoObject(reg, o1);
    ghost var afterA, liveA := reg.table, reg.live;
    b, kb := PushGoObject(reg, o2);
    assert ka != kb by {
      assert ka in liveA;
    }
    assert reg.table == afterA[kb := o2];
    var fin := b.finalizer;
    assert fin.InternalProp(GoFuncProp) == Pointer(kb);
    var status := GoFinalize(reg, fin);
    UndoInsert(afterA, kb, o2);
    UndoAdd(liveA, kb);
    assert a.InternalProp(GoObjProp) == Pointer(ka);
    assert b.InternalProp(GoObjProp) == Pointer(kb);
  }
}
