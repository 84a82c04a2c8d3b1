/**
 * The slice of the Duktape heap the bridge touches: values, objects with
 * named properties and a finalizer slot, and the binding's two helpers that
 * put and get internal properties on an object.
 *
 * The value stack is abstracted away: an operation that works on "the object
 * at index -1" takes that object as a parameter.
 */
module Heap {
  import opened DukTypes
  import opened InternalProps

  /** A raw address, as carried by a Duktape pointer value. */
  type Key = nat

  /** The C function behind a function object, if any. */
  datatype Native = NoNative | CallTrampoline | FinalizeTrampoline

  /**
   * An engine value, with only the payloads the bridge inspects: the address
   * in a pointer and the object in an object reference.
   */
  datatype Value =
    | Undefined
    | Null
    | Boolean
    | Number
    | String
    | Object(obj: EngineObject)
    | Buffer
    | Pointer(key: Key)

  /** `duk_get_type` of a value on the stack. */
  function TypeOf(v: Value): (t: Type)
    ensures TypeUndefined <= t <= TypePointer
    ensures IsPointer(t) <==> v.Pointer?
    ensures IsUndefined(t) <==> v.Undefined?
  {
    match v
    case Undefined => TypeUndefined
    case Null => TypeNull
    case Boolean => TypeBoolean
    case Number => TypeNumber
    case String => TypeString
    case Object(_) => TypeObject
    case Buffer => TypeBuffer
    case Pointer(_) => TypePointer
  }

  /** An object (plain or function) on the engine heap. */
  class EngineObject {
    const native: Native
    var props: map<Name, Value>
    var finalizer: EngineObject?

    constructor (native: Native)
      ensures this.native == native
      ensures props == map[] && finalizer == null
    {
      this.native := native;
      props := map[];
      finalizer := null;
    }

    /** What `duk_get_prop_string` pushes for the internal property `key`: its value, or undefined. */
    function InternalProp(key: Name): Value
      reads this
    {
      var n := InternalName(key);
      if n in props then props[n] else Undefined
    }

    /** Stores `v` under the internal name of `key`; no other property and not the finalizer changes. */
    method PutInternalPropString(key: Name, v: Value) returns (ok: bool)
      modifies this
      ensures props == old(props)[InternalName(key) := v]
      ensures finalizer == old(finalizer)
      ensures InternalProp(key) == v
      ensures forall other: Name | InternalName(other) != InternalName(key) ::
                InternalProp(other) == old(InternalProp(other))
      ensures ok
    {
      props := props[InternalName(key) := v];
      ok := true;
    }

    /** Reads the internal property `key`; reports whether it exists and yields undefined when it does not. */
    method GetInternalPropString(key: Name) returns (found: bool, v: Value)
      ensures found <==> InternalName(key) in props
      ensures found ==> v == props[InternalName(key)]
      ensures !found ==> v.Undefined?
      ensures v == InternalProp(key)
    {
      var n := InternalName(key);
      found := n in props;
      v := if found then props[n] else Undefined;
    }
  }
}
