/**
 * What the second loop of `EvalWith` establishes, as predicates over the
 * registry's table and live keys and over the suite object's properties: the
 * lemmas that show one more bound entry keeps them, and the replay of the
 * entries in the order the loop visited them.
 */
module SuiteState {
  import opened InternalProps
  import opened Heap
  import opened Bridge

  /** No other suite name reaches the engine as the same property name as `p`. */
  predicate Unshared(names: set<Name>, p: Name) {
    forall q | q in names && CString(q) == CString(p) :: q == p
  }

  /** The property names the engine sees for the suite names `ps`. */
  ghost function EngineNames(ps: set<Name>): set<Name> {
    set p | p in ps :: CString(p)
  }

  /**
   * When no suite name holds a NUL byte, the engine sees exactly the suite's
   * names and no two suite names share one.
   */
  lemma NulFreeNamesUnshared(names: set<Name>)
    requires forall p | p in names :: NulFree(p)
    ensures EngineNames(names) == names
    ensures forall p | p in names :: Unshared(names, p)
  {
    forall p | p in names ensures CString(p) == p {
      CStringOfNulFree(p);
    }
  }

  /**
   * `keys` gives every entry of `data` its own key, none of them live in `live0`;
   * `live` and `table` are `live0` and `table0` with exactly those keys added,
   * each mapped to its entry's `GoFuncData`.
   */
  ghost predicate Minted(table0: map<Key, HostValue>, live0: set<Key>, table: map<Key, HostValue>, live: set<Key>,
                         keys: map<Name, Key>, data: map<Name, GoFuncData>)
  {
    && keys.Keys <= data.Keys
    && (forall p | p in keys :: keys[p] !in live0)
    && (forall p, q | p in keys && q in keys && p != q :: keys[p] != keys[q])
    && live == live0 + keys.Values
    && table.Keys == table0.Keys + keys.Values
    && (forall k | k in table0 :: table[k] == table0[k])
    && (forall p | p in keys :: table[keys[p]] == Func(data[p]))
  }

  /** Minting one more fresh key for a new entry keeps `Minted`. */
  lemma MintedStep(table0: map<Key, HostValue>, live0: set<Key>, table: map<Key, HostValue>, live: set<Key>,
                   keys: map<Name, Key>, data: map<Name, GoFuncData>, p: Name, key: Key)
    requires Minted(table0, live0, table, live, keys, data)
    requires table0.Keys <= live0
    requires p in data && p !in keys && key !in live
    ensures Minted(table0, live0, table[key := Func(data[p])], live + {key}, keys[p := key], data)
  {
    ValuesOfUpdate(keys, p, key);
    var keys' := keys[p := key];
    forall q | q in keys' ensures keys'[q] !in live0 {
      if q != p { assert keys'[q] == keys[q]; }
    }
  }

  /** `fn` is a function run by the call trampoline whose "goFuncData" and whose finalizer's both hold `key`. */
  ghost predicate BridgedFunc(fn: EngineObject, key: Key)
    reads fn, fn.finalizer
  {
    && fn.native == CallTrampoline
    && fn.props == map[FuncDataName := Pointer(key)]
    && fn.finalizer != null && fn.finalizer.native == FinalizeTrampoline
    && fn.finalizer.props == map[FuncDataName := Pointer(key)]
  }

  /** Adding a new key to a map adds its value to the map's values. */
  lemma ValuesOfUpdate<K, V>(m: map<K, V>, k: K, v: V)
    requires k !in m
    ensures m[k := v].Values == m.Values + {v}
  {
    forall x | x in m[k := v].Values ensures x in m.Values + {v} {
      var j :| j in m[k := v] && m[k := v][j] == x;
      if j != k { assert m[j] == x; }
    }
    forall x | x in m.Values ensures x in m[k := v].Values {
      var j :| j in m && m[j] == x;
      assert m[k := v][j] == x;
    }
    assert m[k := v][k] == v;
  }

  /**
   * The bindings `BindSuite` has made so far. `props` is `props0` with the
   * engine names in `last` added; `last` maps each of them to the suite name whose
   * function was stored there last, a suite name with that engine name; the
   * engine name of every suite name in `keys` is bound; and every other
   * property of `props0` keeps its value.
   */
  ghost predicate Bindings(props0: map<Name, Value>, props: map<Name, Value>, keys: map<Name, Key>,
                           fns: map<Name, EngineObject>, last: map<Name, Name>)
  {
    && fns.Keys == keys.Keys
    && props.Keys == props0.Keys + last.Keys
    && LastWriters(props, keys, fns, last)
    && (forall p | p in keys :: CString(p) in last)
    && Untouched(props0, props, last)
  }

  /** Every property of `props0` that no suite name writes keeps its value. */
  ghost predicate Untouched(props0: map<Name, Value>, props: map<Name, Value>, last: map<Name, Name>) {
    forall n | n in props0 && n !in last :: n in props && props[n] == props0[n]
  }

  /** Writing under a name recorded in `last` keeps every other property of `props0`. */
  lemma UntouchedStep(props0: map<Name, Value>, props: map<Name, Value>, last: map<Name, Name>, c: Name, v: Value, w: Name)
    requires Untouched(props0, props, last)
    ensures Untouched(props0, props[c := v], last[c := w])
  {
    forall n | n in props0 && n !in last[c := w]
      ensures n in props[c := v] && props[c := v][n] == props0[n]
    {
      assert n != c && n !in last;
    }
  }

  /** What `Bindings` says of each bound name: its last writer is a suite name with that engine name, and its function is stored there. */
  ghost predicate LastWriters(props: map<Name, Value>, keys: map<Name, Key>, fns: map<Name, EngineObject>,
                              last: map<Name, Name>)
  {
    forall n | n in last ::
      && last[n] in keys && CString(last[n]) == n
      && n in props && last[n] in fns && props[n] == Object(fns[last[n]])
  }

  /** Storing the function of `p` under its engine name, with `p` recorded as the last writer there, keeps `LastWriters`. */
  lemma LastWriterStep(props: map<Name, Value>, keys: map<Name, Key>, fns: map<Name, EngineObject>, last: map<Name, Name>,
                       props': map<Name, Value>, keys': map<Name, Key>, fns': map<Name, EngineObject>, last': map<Name, Name>,
                       p: Name, key: Key, fn: EngineObject)
    requires LastWriters(props, keys, fns, last)
    requires props' == props[CString(p) := Object(fn)] && keys' == keys[p := key]
    requires fns' == fns[p := fn] && last' == last[CString(p) := p]
    ensures LastWriters(props', keys', fns', last')
  {
    forall n | n in last'
      ensures && last'[n] in keys' && CString(last'[n]) == n
              && n in props' && last'[n] in fns' && props'[n] == Object(fns'[last'[n]])
    {
      if n != CString(p) {
        assert last[n] != p;
      }
    }
  }

  /** Binding the function of `p` under the engine name of `p` keeps `Bindings`, with `p` now the last writer there. */
  lemma BindStep(props0: map<Name, Value>, props: map<Name, Value>, keys: map<Name, Key>,
                 fns: map<Name, EngineObject>, last: map<Name, Name>, p: Name, key: Key, fn: EngineObject)
    requires Bindings(props0, props, keys, fns, last)
    ensures Bindings(props0, props[CString(p) := Object(fn)], keys[p := key], fns[p := fn], last[CString(p) := p])
  {
    var c := CString(p);
    BoundKeysStep(props0, props, last, c, Object(fn), p);
    SameKeysStep(fns, keys, p, fn, key);
    UntouchedStep(props0, props, last, c, Object(fn), p);
    LastWriterStep(props, keys, fns, last, props[c := Object(fn)], keys[p := key], fns[p := fn], last[c := p], p, key, fn);
  }

  /** The names `Bindings` says are bound are exactly the engine names of the suite names in `keys`. */
  lemma BoundNames(props0: map<Name, Value>, props: map<Name, Value>, keys: map<Name, Key>,
                   fns: map<Name, EngineObject>, last: map<Name, Name>)
    requires Bindings(props0, props, keys, fns, last)
    ensures props.Keys == props0.Keys + EngineNames(keys.Keys)
  {
    forall n | n in EngineNames(keys.Keys) ensures n in last {
      var p :| p in keys && CString(p) == n;
    }
  }

  /** A suite name no other suite name shares an engine name with is bound to its own function. */
  lemma BoundToOwn(props0: map<Name, Value>, props: map<Name, Value>, keys: map<Name, Key>,
                   fns: map<Name, EngineObject>, last: map<Name, Name>, names: set<Name>, p: Name)
    requires Bindings(props0, props, keys, fns, last)
    requires keys.Keys <= names && p in keys && Unshared(names, p)
    ensures CString(p) in props && props[CString(p)] == Object(fns[p])
  {
    var q := last[CString(p)];
    assert q in names && CString(q) == CString(p);
  }

  /** The functions `fs` are bridged, each holding the key at its position in `ks`, and none of them (nor its finalizer) is `obj`. */
  ghost predicate AllBridged(obj: EngineObject, ks: seq<Key>, fs: seq<EngineObject>)
    reads set i | 0 <= i < |fs| :: fs[i]
    reads set i | 0 <= i < |fs| :: fs[i].finalizer
  {
    && |ks| == |fs|
    && forall i | 0 <= i < |fs| :: fs[i] != obj && fs[i].finalizer != obj && BridgedFunc(fs[i], ks[i])
  }

  /** Bridged functions stay bridged when looked up by name. */
  lemma {:induction false} ZipBridged(obj: EngineObject, order: seq<Name>, ks: seq<Key>, fs: seq<EngineObject>)
    requires |order| == |fs| && AllBridged(obj, ks, fs)
    ensures forall p | p in Zip(order, fs) :: BridgedFunc(Zip(order, fs)[p], Zip(order, ks)[p])
  {
    if order != [] {
      assert AllBridged(obj, ks[1..], fs[1..]) by {
        forall i | 0 <= i < |fs| - 1
          ensures fs[1..][i] != obj && fs[1..][i].finalizer != obj && BridgedFunc(fs[1..][i], ks[1..][i])
        {
          assert fs[1..][i] == fs[i + 1] && ks[1..][i] == ks[i + 1];
        }
      }
      ZipBridged(obj, order[1..], ks[1..], fs[1..]);
      assert BridgedFunc(fs[0], ks[0]);
    }
  }

  // The order in which the second loop of `EvalWith` visits the suite, most
  // recent first, and what it has built after each visit.

  /** The elements of `s`. */
  function Elems<T(==)>(s: seq<T>): set<T> {
    if s == [] then {} else {s[0]} + Elems(s[1..])
  }

  /** No element of `s` appears twice. */
  predicate Distinct<T(==)>(s: seq<T>) {
    s == [] || (s[0] !in Elems(s[1..]) && Distinct(s[1..]))
  }

  /** Every key of `ks` is outside `live0` and differs from the keys after it. */
  predicate FreshKeys(live0: set<Key>, ks: seq<Key>) {
    ks == [] || (ks[0] !in live0 + Elems(ks[1..]) && FreshKeys(live0, ks[1..]))
  }

  /** Each name of `order` mapped to the value at its position. */
  function Zip<V>(order: seq<Name>, vs: seq<V>): (m: map<Name, V>)
    requires |vs| == |order|
    ensures m.Keys == Elems(order)
  {
    if order == [] then map[] else Zip(order[1..], vs[1..])[order[0] := vs[0]]
  }

  /** Each engine name reached by `order` mapped to the most recent suite name that reaches it. */
  function LastWriter(order: seq<Name>): map<Name, Name> {
    if order == [] then map[] else LastWriter(order[1..])[CString(order[0]) := order[0]]
  }

  /** `table0` with each key of `ks` mapped to the `GoFuncData` of the name at its position. */
  function Table(table0: map<Key, HostValue>, order: seq<Name>, ks: seq<Key>, data: map<Name, GoFuncData>)
    : map<Key, HostValue>
    requires |ks| == |order| && Elems(order) <= data.Keys
  {
    if order == [] then table0
    else Table(table0, order[1..], ks[1..], data)[ks[0] := Func(data[order[0]])]
  }

  /** `props0` with each function of `fs` stored under the engine name of the name at its position. */
  function Store(props0: map<Name, Value>, order: seq<Name>, fs: seq<EngineObject>): map<Name, Value>
    requires |fs| == |order|
  {
    if order == [] then props0
    else Store(props0, order[1..], fs[1..])[CString(order[0]) := Object(fs[0])]
  }

  /**
   * Binding the names of `order` one after the other, each to a fresh key and
   * a function, mints keys as `Minted` says and binds names as `Bindings` says.
   */
  lemma {:induction false} Replay(table0: map<Key, HostValue>, live0: set<Key>, props0: map<Name, Value>,
                                  order: seq<Name>, ks: seq<Key>, fs: seq<EngineObject>, data: map<Name, GoFuncData>)
    requires |ks| == |order| && |fs| == |order|
    requires Elems(order) <= data.Keys && Distinct(order)
    requires FreshKeys(live0, ks) && table0.Keys <= live0
    ensures Minted(table0, live0, Table(table0, order, ks, data), live0 + Elems(ks), Zip(order, ks), data)
    ensures Bindings(props0, Store(props0, order, fs), Zip(order, ks), Zip(order, fs), LastWriter(order))
  {
    if order != [] {
      var p, key, fn := order[0], ks[0], fs[0];
      var order', ks', fs' := order[1..], ks[1..], fs[1..];
      Replay(table0, live0, props0, order', ks', fs', data);
      MintedStep(table0, live0, Table(table0, order', ks', data), live0 + Elems(ks'), Zip(order', ks'), data, p, key);
      BindStep(props0, Store(props0, order', fs'), Zip(order', ks'), Zip(order', fs'), LastWriter(order'), p, key, fn);
      AddFirst(live0, ks);
    }
  }

  // Set and map identities the proofs above call at the exact shape of a
  // goal. Dafny proves each of them on its own; they model nothing in the
  // binding and only save the solver from searching for the rewrite.

  /** Adding the same name to the bound names and to the properties keeps them in step. */
  lemma BoundKeysStep<V, W>(props0: map<Name, V>, props: map<Name, V>, last: map<Name, W>, c: Name, v: V, w: W)
    requires props.Keys == props0.Keys + last.Keys
    ensures props[c := v].Keys == props0.Keys + last[c := w].Keys
  {
    assert props[c := v].Keys == props.Keys + {c};
    assert last[c := w].Keys == last.Keys + {c};
  }

  /** Adding the same key to two maps with the same keys keeps their keys the same. */
  lemma SameKeysStep<K, V, W>(m: map<K, V>, n: map<K, W>, k: K, v: V, w: W)
    requires m.Keys == n.Keys
    ensures m[k := v].Keys == n[k := w].Keys
  {
    assert m[k := v].Keys == m.Keys + {k};
    assert n[k := w].Keys == n.Keys + {k};
  }

  /** When nothing is left to do, everything is done. */
  lemma NothingLeft<T>(all: set<T>, done: set<T>, todo: set<T>)
    requires done == all - todo && todo == {}
    ensures done == all
  {
  }

  /** Taking `p` out of what is left to do adds it to what is done. */
  lemma TodoStep<T>(all: set<T>, done: set<T>, todo: set<T>, p: T)
    requires done == all - todo && todo <= all && p in todo
    ensures done + {p} == all - (todo - {p})
  {
  }

  /** Putting `x` in front of `s` adds `x` to its elements. */
  lemma ElemsCons<T>(x: T, s: seq<T>)
    ensures Elems([x] + s) == Elems(s) + {x}
  {
    assert ([x] + s)[1..] == s;
  }

  /** The first element of `s` added to the rest, on top of `base`. */
  lemma AddFirst<T>(base: set<T>, s: seq<T>)
    requires s != []
    ensures base + Elems(s) == base + Elems(s[1..]) + {s[0]}
  {
  }
}
