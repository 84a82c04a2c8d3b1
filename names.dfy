/**
 * Property names as the engine sees them, and the naming rule for the
 * binding's internal (script-invisible) properties.
 *
 * Go strings are byte strings; the binding hands them to the engine through
 * `C.CString`, so the engine reads every name only up to its first NUL byte.
 */
module InternalProps {

  newtype Byte = b: int | 0 <= b < 256

  /** A property name: the bytes of a Go string. */
  type Name = seq<Byte>

  const Nul: Byte := 0x00
  const Underscore: Byte := 0x5F
  /** A leading 0xFF byte is Duktape's marker for an internal property. */
  const InternalMarker: Byte := 0xFF

  predicate NulFree(s: Name) {
    forall i | 0 <= i < |s| :: s[i] != Nul
  }

  /** The name a C function reads from a Go string copied by `C.CString`: the bytes before the first NUL. */
  function CString(s: Name): Name {
    if s == [] || s[0] == Nul then [] else [s[0]] + CString(s[1..])
  }

  /** The copy is the longest NUL-free prefix of the Go string: it stops at the first NUL or at the end. */
  lemma {:induction false} CStringPrefix(s: Name)
    ensures CString(s) <= s
    ensures NulFree(CString(s))
    ensures |CString(s)| < |s| ==> s[|CString(s)|] == Nul
  {
    if s != [] && s[0] != Nul {
      CStringPrefix(s[1..]);
    }
  }

  /**
   * `PutInternalPropString` / `GetInternalPropString` build the name `"_" + key`,
   * overwrite its first byte with 0xFF and pass it to the engine as a C string.
   */
  function InternalName(key: Name): (n: Name)
    ensures n == [InternalMarker] + CString(key)
  {
    var c := CString([Underscore] + key);
    c[0 := InternalMarker]
  }

  /** A NUL-free Go string reaches the engine unchanged. */
  lemma {:induction false} CStringOfNulFree(s: Name)
    requires NulFree(s)
    ensures CString(s) == s
  {
    if s != [] {
      CStringOfNulFree(s[1..]);
    }
  }

  /** For a NUL-free key the internal name is 0xFF followed by the key, one byte longer than the key. */
  lemma InternalNameOfNulFree(key: Name)
    requires NulFree(key)
    ensures InternalName(key) == [InternalMarker] + key
    ensures |InternalName(key)| == |key| + 1
  {
    CStringOfNulFree(key);
  }

  /** Distinct NUL-free keys never share an internal property. */
  lemma InternalNameInjective(a: Name, b: Name)
    requires NulFree(a) && NulFree(b)
    requires a != b
    ensures InternalName(a) != InternalName(b)
  {
    InternalNameOfNulFree(a);
    InternalNameOfNulFree(b);
    assert InternalName(a)[1..] == a;
  }

  /** An internal name never equals a name a script can write (one not starting with 0xFF). */
  lemma InternalNameReserved(key: Name, scriptName: Name)
    requires scriptName == [] || scriptName[0] != InternalMarker
    ensures InternalName(key) != scriptName
  {
  }

  /** Bytes after an embedded NUL are lost: `key` and `key + [0] + rest` name the same property. */
  lemma {:induction false} InternalNameTruncates(key: Name, rest: Name)
    ensures InternalName(key + [Nul] + rest) == InternalName(key)
  {
    CStringTruncates(key, rest);
  }

  lemma {:induction false} CStringTruncates(s: Name, rest: Name)
    ensures CString(s + [Nul] + rest) == CString(s)
  {
    if s == [] {
      assert (s + [Nul] + rest)[0] == Nul;
    } else if s[0] == Nul {
      assert (s + [Nul] + rest)[0] == Nul;
    } else {
      assert (s + [Nul] + rest)[1..] == s[1..] + [Nul] + rest;
      CStringTruncates(s[1..], rest);
    }
  }
}
