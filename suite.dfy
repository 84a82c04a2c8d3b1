/**
 * `EvalWith`: evaluate a source text, bridge every callable of a method suite
 * onto one fresh object, and call the evaluated value with that object.
 */
module Suite {
  import opened InternalProps
  import opened Heap
  import opened Bridge
  import opened SuiteState

  /** What a protected evaluation or call reports: success, or the error rendered as a string. */
  datatype Outcome = Ok | Err(message: string)

  /** `MethodSuite`: property name to host callable. */
  type MethodSuite = map<Name, GoFunc>

  /** The first loop of `EvalWith`: one new `GoFuncData` per suite entry, all distinct. */
  method WrapSuite(suite: MethodSuite) returns (data: map<Name, GoFuncData>)
    ensures data.Keys == suite.Keys
    ensures forall p | p in suite :: fresh(data[p]) && data[p].f == suite[p]
    ensures forall p, q | p in suite && q in suite && p != q :: data[p] != data[q]
  {
    data := map[];
    var todo := suite.Keys;
    while todo != {}
      invariant todo <= suite.Keys
      invariant data.Keys == suite.Keys - todo
      invariant forall p | p in data :: fresh(data[p]) && data[p].f == suite[p]
      invariant forall p, q | p in data && q in data && p != q :: data[p] != data[q]
      decreases todo
    {
      var p :| p in todo;
      var fd := new GoFuncData(suite[p]);
      data := data[p := fd];
      todo := todo - {p};
    }
  }

  /** One pass of the second loop: `PushGoFunc(fd)` and bind the result on `obj` under `name`. */
  method BindEntry(reg: Registry, obj: EngineObject, name: Name, fd: GoFuncData) returns (fn: EngineObject, ghost key: Key)
    requires reg.Valid()
    modifies reg, obj
    ensures reg.Valid()
    ensures key !in old(reg.live) && reg.live == old(reg.live) + {key}
    ensures reg.table == old(reg.table)[key := Func(fd)]
    ensures fresh(fn) && fresh(fn.finalizer) && BridgedFunc(fn, key)
    ensures obj.props == old(obj.props)[CString(name) := Object(fn)]
    ensures obj.finalizer == old(obj.finalizer)
  {
    fn, key := PushGoFunc(reg, fd);
    obj.props := obj.props[CString(name) := Object(fn)];
  }

  /**
   * One pass of the second loop of `EvalWith`: `BindEntry` on a suite entry
   * `p` not visited yet. The passes so far visited `order` (most recent
   * first), minting the keys `ks` and making the functions `fs`; this pass
   * puts `p`, its key and its function in front.
   */
  method BindNext(reg: Registry, obj: EngineObject, data: map<Name, GoFuncData>, p: Name,
                  ghost table0: map<Key, HostValue>, ghost live0: set<Key>, ghost props0: map<Name, Value>,
                  ghost order: seq<Name>, ghost ks: seq<Key>, ghost fs: seq<EngineObject>)
    returns (fn: EngineObject, ghost key: Key)
    requires p in data && p !in Elems(order) && Elems(order) <= data.Keys
    requires |ks| == |order| && |fs| == |order|
    requires Distinct(order) && FreshKeys(live0, ks)
    requires reg.Valid()
    requires reg.table == Table(table0, order, ks, data)
    requires reg.live == live0 + Elems(ks)
    requires obj.props == Store(props0, order, fs)
    requires AllBridged(obj, ks, fs)
    modifies reg, obj
    ensures Distinct([p] + order) && FreshKeys(live0, [key] + ks)
    ensures reg.Valid()
    ensures reg.table == Table(table0, [p] + order, [key] + ks, data)
    ensures reg.live == live0 + Elems([key] + ks)
    ensures obj.props == Store(props0, [p] + order, [fn] + fs)
    ensures obj.finalizer == old(obj.finalizer)
    ensures AllBridged(obj, [key] + ks, [fn] + fs)
  {
    fn, key := BindEntry(reg, obj, p, data[p]);
    ghost var ks', fs' := [key] + ks, [fn] + fs;
    forall i | 0 <= i < |fs'|
      ensures fs'[i] != obj && fs'[i].finalizer != obj && BridgedFunc(fs'[i], ks'[i])
    {
      if i > 0 {
        assert fs'[i] == fs[i - 1] && ks'[i] == ks[i - 1];
        assert old(BridgedFunc(fs[i - 1], ks[i - 1]));
        assert unchanged(fs[i - 1]);
        assert unchanged(fs[i - 1].finalizer);
      }
    }
    AddFirst(live0, [key] + ks);
    assert ([p] + order)[1..] == order && ([key] + ks)[1..] == ks && ([fn] + fs)[1..] == fs;
  }

  /**
   * The second loop of `EvalWith`: push each `GoFuncData` as a bridged
   * function and bind it on `obj` under its name, in no particular order.
   */
  method BindSuite(reg: Registry, obj: EngineObject, data: map<Name, GoFuncData>)
    returns (ghost keys: map<Name, Key>, ghost fns: map<Name, EngineObject>, ghost last: map<Name, Name>)
    requires reg.Valid()
    modifies reg, obj
    ensures reg.Valid()
    ensures keys.Keys == data.Keys && fns.Keys == data.Keys
    ensures Minted(old(reg.table), old(reg.live), reg.table, reg.live, keys, data)
    ensures forall p | p in data :: BridgedFunc(fns[p], keys[p])
    ensures Bindings(old(obj.props), obj.props, keys, fns, last)
    ensures obj.finalizer == old(obj.finalizer)
  {
    ghost var table0, live0, props0 := reg.table, reg.live, obj.props;
    // The names visited so far, most recent first, with the key minted and the function made for each.
    ghost var order: seq<Name>, ks: seq<Key>, fs: seq<EngineObject> := [], [], [];
    var todo := data.Keys;
    while todo != {}
      invariant todo <= data.Keys && Elems(order) == data.Keys - todo
      invariant |ks| == |order| && |fs| == |order|
      invariant Distinct(order) && FreshKeys(live0, ks)
      invariant reg.Valid()
      invariant reg.table == Table(table0, order, ks, data)
      invariant reg.live == live0 + Elems(ks)
      invariant obj.props == Store(props0, order, fs)
      invariant AllBridged(obj, ks, fs)
      invariant obj.finalizer == old(obj.finalizer)
      decreases todo
    {
      var p :| p in todo;
      var fn, key := BindNext(reg, obj, data, p, table0, live0, props0, order, ks, fs);
      TodoStep(data.Keys, Elems(order), todo, p);
      ElemsCons(p, order);
      order, ks, fs := [p] + order, [key] + ks, [fn] + fs;
      todo := todo - {p};
    }
    NothingLeft(data.Keys, Elems(order), todo);
    Replay(table0, live0, props0, order, ks, fs, data);
    ZipBridged(obj, order, ks, fs);
    keys, fns, last := Zip(order, ks), Zip(order, fs), LastWriter(order);
  }

  /**
   * `peval` is what `PevalString` reports for `source`; `pcall` is what `Pcall`
   * reports when the evaluated value is applied to the suite object. On
   * failure of the evaluation nothing is bridged. Otherwise every suite entry
   * gets its own new `GoFuncData` (`data`), a fresh live key (`keys`) and a
   * bridged function (`fns`) that resolves to it, bound on the new object `api`
   * under the entry's engine name (`last` says which entry's function each bound
   * name holds).
   */
  method EvalWith(reg: Registry, source: string, suite: MethodSuite, peval: string -> Outcome, pcall: Outcome)
    returns (err: Outcome, ghost api: EngineObject?, ghost data: map<Name, GoFuncData>,
             ghost keys: map<Name, Key>, ghost fns: map<Name, EngineObject>, ghost last: map<Name, Name>)
    requires reg.Valid()
    modifies reg
    ensures reg.Valid()
    ensures peval(source).Err? ==> err == peval(source) && reg.table == old(reg.table) && reg.live == old(reg.live)
    ensures peval(source).Ok? ==> err == pcall
    ensures peval(source).Ok? ==>
              && api != null && fresh(api) && api.native == NoNative && api.finalizer == null
              && data.Keys == suite.Keys && keys.Keys == suite.Keys && fns.Keys == suite.Keys
              // one new GoFuncData per entry, wrapping that entry's callable
              && (forall p | p in suite :: fresh(data[p]) && data[p].f == suite[p])
              && (forall p, q | p in suite && q in suite && p != q :: data[p] != data[q])
              // one fresh key per entry, mapped to that entry's GoFuncData; old entries kept
              && Minted(old(reg.table), old(reg.live), reg.table, reg.live, keys, data)
              // one finalizable bridged function per entry, resolving to that entry's GoFuncData
              && (forall p | p in suite ::
                    && BridgedFunc(fns[p], keys[p])
                    && GetGoObjectRef(reg, fns[p], GoFuncProp) == Func(data[p]))
              // bound on the suite object under the entry's engine name
              && Bindings(map[], api.props, keys, fns, last)
  {
    data, keys, fns, last := map[], map[], map[], map[];
    var status := peval(source);
    if status.Err? {
      return status, null, data, keys, fns, last;
    }

    var obj := new EngineObject(NoNative);
    api := obj;
    // Keep a reference to every GoFuncData.
    var suiteData := WrapSuite(suite);
    data := suiteData;
    keys, fns, last := BindSuite(reg, obj, suiteData);
    err := pcall;
  }
}
