/**
 * Accessor naming convention of `BaseObject`: a property `key` is served by
 * the methods `get<Key>` and `set<Key>`, where `<Key>` is `key` with its first
 * character upper-cased (`uppercaseFirst` in base/BaseObject.js).
 */
module Naming {

  predicate IsAsciiLower(c: char) {
    'a' <= c <= 'z'
  }

  /** `toUpperCase` on one character, restricted to the ASCII letters. */
  function ToUpperAscii(c: char): (u: char)
    ensures !IsAsciiLower(u)
    ensures !IsAsciiLower(c) ==> u == c
    ensures IsAsciiLower(c) ==> 'A' <= u <= 'Z' && u as int - 'A' as int == c as int - 'a' as int
  {
    if IsAsciiLower(c) then (c as int - 32) as char else c
  }

  /**
   * `str.charAt(0).toUpperCase() + str.slice(1)`: the empty string stays
   * empty; otherwise only the first character changes.
   */
  function UppercaseFirst(s: string): (r: string)
    ensures |r| == |s|
    ensures |s| > 0 ==> r[0] == ToUpperAscii(s[0])
    ensures forall i :: 1 <= i < |s| ==> r[i] == s[i]
  {
    if s == [] then [] else [ToUpperAscii(s[0])] + s[1..]
  }

  /** The name of the getter method that serves property `key`. */
  function GetterName(key: string): string
  {
    "get" + UppercaseFirst(key)
  }

  /** The name of the setter method that serves property `key`. */
  function SetterName(key: string): string
  {
    "set" + UppercaseFirst(key)
  }

  /**
   * The shape of both accessor names: the prefix `get` or `set`, then the
   * key with its first character upper-cased and the rest unchanged.
   */
  lemma AccessorNames(key: string)
    ensures |GetterName(key)| == |key| + 3 && GetterName(key)[..3] == "get"
    ensures |SetterName(key)| == |key| + 3 && SetterName(key)[..3] == "set"
    ensures |key| > 0 ==> GetterName(key)[3] == ToUpperAscii(key[0]) && SetterName(key)[3] == ToUpperAscii(key[0])
    ensures forall i :: 1 <= i < |key| ==> GetterName(key)[i + 3] == key[i] && SetterName(key)[i + 3] == key[i]
  {
  }

  /** Two keys are served by the same accessors when they differ at most in the case of their first letter. */
  predicate SameUpToFirstCase(k1: string, k2: string) {
    |k1| == |k2| && (|k1| > 0 ==> ToUpperAscii(k1[0]) == ToUpperAscii(k2[0]) && k1[1..] == k2[1..])
  }

  /** No getter name is ever a setter name, whatever the two keys are. */
  lemma GetterNeverSetter(k1: string, k2: string)
    ensures GetterName(k1) != SetterName(k2)
  {
    assert GetterName(k1)[0] == 'g';
    assert SetterName(k2)[0] == 's';
  }

  /** An accessor name is never the key it serves: it is three characters longer. */
  lemma AccessorNeverKey(key: string)
    ensures GetterName(key) != key && SetterName(key) != key
  {
  }

  /** Prefixing with the same three letters is injective. */
  lemma PrefixCancels(prefix: string, a: string, b: string)
    requires prefix + a == prefix + b
    ensures a == b
  {
    assert a == (prefix + a)[|prefix|..];
    assert b == (prefix + b)[|prefix|..];
  }

  /**
   * Keys share a getter (and a setter) exactly when they agree up to the
   * case of their first letter, e.g. `name` and `Name` are both served by
   * `getName` / `setName`.
   */
  lemma SharedAccessors(k1: string, k2: string)
    ensures GetterName(k1) == GetterName(k2) <==> SameUpToFirstCase(k1, k2)
    ensures SetterName(k1) == SetterName(k2) <==> SameUpToFirstCase(k1, k2)
  {
    var u1, u2 := UppercaseFirst(k1), UppercaseFirst(k2);
    if GetterName(k1) == GetterName(k2) {
      PrefixCancels("get", u1, u2);
    }
    if SetterName(k1) == SetterName(k2) {
      PrefixCancels("set", u1, u2);
    }
    if u1 == u2 && |k1| > 0 {
      assert u1[1..] == k1[1..] && u2[1..] == k2[1..];
    }
    if SameUpToFirstCase(k1, k2) && |k1| > 0 {
      assert u1 == [ToUpperAscii(k1[0])] + k1[1..];
      assert u2 == [ToUpperAscii(k2[0])] + k2[1..];
    }
  }
}
