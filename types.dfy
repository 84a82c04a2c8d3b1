/**
 * Duktape value types as the Go binding numbers them: the `Type` enum
 * (declared with iota, so 0..8 in declaration order) and its `Is*` predicates.
 */
module DukTypes {

  /** Go's `type Type int`: any integer, of which 0..8 are named. */
  type Type = int

  const TypeNone: Type := 0       // DUK_TYPE_NONE
  const TypeUndefined: Type := 1  // DUK_TYPE_UNDEFINED
  const TypeNull: Type := 2       // DUK_TYPE_NULL
  const TypeBoolean: Type := 3    // DUK_TYPE_BOOLEAN
  const TypeNumber: Type := 4     // DUK_TYPE_NUMBER
  const TypeString: Type := 5     // DUK_TYPE_STRING
  const TypeObject: Type := 6     // DUK_TYPE_OBJECT
  const TypeBuffer: Type := 7     // DUK_TYPE_BUFFER
  const TypePointer: Type := 8    // DUK_TYPE_POINTER

  predicate IsNone(t: Type)      { t == TypeNone }
  predicate IsUndefined(t: Type) { t == TypeUndefined }
  predicate IsNull(t: Type)      { t == TypeNull }
  predicate IsBool(t: Type)      { t == TypeBoolean }
  predicate IsNumber(t: Type)    { t == TypeNumber }
  predicate IsString(t: Type)    { t == TypeString }
  predicate IsObject(t: Type)    { t == TypeObject }
  predicate IsBuffer(t: Type)    { t == TypeBuffer }
  predicate IsPointer(t: Type)   { t == TypePointer }

  /** The nine predicates of `t`, in the order the constants are declared. */
  function Predicates(t: Type): (r: seq<bool>)
    ensures |r| == 9
  {
    [IsNone(t), IsUndefined(t), IsNull(t), IsBool(t), IsNumber(t),
     IsString(t), IsObject(t), IsBuffer(t), IsPointer(t)]
  }

  /** How many of the nine predicates hold of `t`. */
  function CountTrue(bs: seq<bool>): (n: nat)
    ensures n <= |bs|
  {
    if bs == [] then 0 else (if bs[0] then 1 else 0) + CountTrue(bs[1..])
  }

  lemma {:induction false} CountNone(bs: seq<bool>)
    requires forall j | 0 <= j < |bs| :: !bs[j]
    ensures CountTrue(bs) == 0
  {
    if bs != [] { CountNone(bs[1..]); }
  }

  lemma {:induction false} CountSingle(bs: seq<bool>, i: nat)
    requires i < |bs| && bs[i]
    requires forall j | 0 <= j < |bs| && j != i :: !bs[j]
    ensures CountTrue(bs) == 1
  {
    if i == 0 {
      CountNone(bs[1..]);
    } else {
      CountSingle(bs[1..], i - 1);
    }
  }

  /**
   * The i-th predicate in declaration order holds exactly when `t == i`;
   * so for 0 <= t <= 8 exactly one predicate holds, and none for any other `t`.
   */
  lemma ExactlyOnePredicate(t: Type)
    ensures forall i | 0 <= i < 9 :: Predicates(t)[i] <==> t == i
    ensures CountTrue(Predicates(t)) == (if 0 <= t <= 8 then 1 else 0)
  {
    var ps := Predicates(t);
    if 0 <= t <= 8 {
      CountSingle(ps, t);
    } else {
      CountNone(ps);
    }
  }
}
