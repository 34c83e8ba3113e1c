/** JavaScript values and built-ins as far as the Taro adapter relies on them. */
module Js {

  datatype Option<+T> = None | Some(value: T)

  /** A JavaScript value. Object fields are listed in the order `Object.keys` reports them.
      Numbers are modelled as integers: the adapter only copies them. */
  datatype Value =
    | Undefined
    | Null
    | Bool(b: bool)
    | Num(n: int)
    | Str(s: string)
    | Obj(fields: Dict<Value>)

  predicate IsDigit(c: char) {
    '0' <= c <= '9'
  }

  /** The number a string of decimal digits denotes. */
  function DigitsValue(s: string): nat
    requires forall i :: 0 <= i < |s| ==> IsDigit(s[i])
  {
    if s == [] then 0
    else
      var last := s[|s| - 1];
      assert IsDigit(last);
      DigitsValue(s[..|s| - 1]) * 10 + (last as int - '0' as int)
  }

  /** An array index: the canonical decimal form of an integer below 2^32 - 1. */
  predicate IsArrayIndex(s: string) {
    && |s| > 0
    && (forall i :: 0 <= i < |s| ==> IsDigit(s[i]))
    && (s[0] != '0' || |s| == 1)
    && DigitsValue(s) < 0xFFFF_FFFF
  }

  /** The order in which an ordinary object lists its own string keys: each key
      once, array indices first in ascending numeric order, then the other keys
      in insertion order. */
  predicate IsObjectKeyOrder<V>(d: seq<(string, V)>) {
    forall i, j :: 0 <= i < j < |d| ==>
      && d[i].0 != d[j].0
      && (IsArrayIndex(d[j].0) ==> IsArrayIndex(d[i].0) && DigitsValue(d[i].0) < DigitsValue(d[j].0))
  }

  /** A plain object: its own enumerable properties in the order `Object.keys` lists them. */
  type Dict<V> = d: seq<(string, V)> | IsObjectKeyOrder(d)
    witness []

  /** A field named `1` is listed before a field named `doc`, whichever was added first. */
  lemma IndexKeysComeFirst()
    ensures !IsObjectKeyOrder([("doc", "p1"), ("1", "p2")])
    ensures IsObjectKeyOrder([("1", "p2"), ("doc", "p1")])
  {
    assert DigitsValue("1") == 1 by {
      assert "1"[..0] == [];
    }
    assert IsArrayIndex("1");
    assert !IsDigit("doc"[0]);
    var bad: seq<(string, string)> := [("doc", "p1"), ("1", "p2")];
    assert bad[1].0 == "1" && bad[0].0 == "doc";
    assert !IsArrayIndex(bad[0].0);
  }

  /** `Object.keys(d)`. */
  function Keys<V>(d: Dict<V>): (ks: seq<string>)
    ensures |ks| == |d|
    ensures forall i :: 0 <= i < |d| ==> ks[i] == d[i].0
  {
    if d == [] then [] else [d[0].0] + Keys(d[1..])
  }

  /** `d[k]`, with `None` for a property the object does not have. */
  function Lookup<V>(d: Dict<V>, k: string): (r: Option<V>)
    ensures r.Some? <==> k in Keys(d)
    ensures r.Some? ==> (k, r.value) in d
    ensures forall i :: 0 <= i < |d| && d[i].0 == k ==> r == Some(d[i].1)
  {
    if d == [] then None
    else if d[0].0 == k then Some(d[0].1)
    else Lookup(d[1..], k)
  }

  /** Property access `e.k` on an object given as a map: a missing property reads as `undefined`. */
  function Field(e: map<string, Value>, k: string): (v: Value)
    ensures k !in e ==> v == Undefined
    ensures k in e ==> v == e[k]
  {
    if k in e then e[k] else Undefined
  }

  predicate IsLowerAscii(c: char) {
    'a' <= c <= 'z'
  }

  /** `toUpperCase` on one character, restricted to ASCII letters. */
  function UpperChar(c: char): (u: char)
    ensures !IsLowerAscii(u)
    ensures IsLowerAscii(c) ==> u as int == c as int - 32
    ensures !IsLowerAscii(c) ==> u == c
  {
    if IsLowerAscii(c) then (c as int - 32) as char else c
  }

  /** `s.toUpperCase()`, restricted to ASCII letters. */
  function UpperAscii(s: string): (r: string)
    ensures |r| == |s|
    ensures forall i :: 0 <= i < |s| ==> r[i] == UpperChar(s[i])
  {
    if s == [] then [] else [UpperChar(s[0])] + UpperAscii(s[1..])
  }

  /** Upper-casing twice is upper-casing once. */
  lemma UpperAsciiIdempotent(s: string)
    ensures UpperAscii(UpperAscii(s)) == UpperAscii(s)
  {
  }

  /** A string without lower-case ASCII letters is its own upper-case form. */
  lemma UpperAsciiFixesUpper(s: string)
    requires forall i :: 0 <= i < |s| ==> !IsLowerAscii(s[i])
    ensures UpperAscii(s) == s
  {
  }
}
