/** JavaScript values the services pass around, and the string helpers they use. */
module Js {

  datatype Option<T> = None | Some(value: T)

  /** A string-typed JavaScript value: `undefined`, `null` or a string. The two
      empty values differ under `!==`, which the link rewriting relies on. */
  datatype JsString = Undefined | Null | Str(s: string)

  /** How a promise settles: with a value, or rejected by a thrown error. */
  datatype Settled<T> = Resolved(value: T) | Rejected

  /** JavaScript truthiness of a string-typed value. */
  predicate Truthy(v: JsString) {
    v.Str? && v.s != ""
  }

  /** JavaScript truthiness of an optional string (`null`/`undefined` are `None`). */
  predicate Present(v: Option<string>) {
    v.Some? && v.value != ""
  }

  /** `String(v)` for an optional string: a missing value prints as "undefined". */
  function Stringify(v: Option<string>): (s: string)
    ensures v.Some? ==> s == v.value
    ensures v.None? ==> s == "undefined"
  {
    if v.Some? then v.value else "undefined"
  }

  predicate StartsWith(s: string, prefix: string) {
    |prefix| <= |s| && s[..|prefix|] == prefix
  }

  /** Case folding as the `i` flag of a non-Unicode JavaScript regular
      expression applies it to ASCII letters. */
  function LowerAscii(c: char): (d: char)
    ensures 'A' <= c <= 'Z' ==> d as int == c as int + 32
    ensures !('A' <= c <= 'Z') ==> d == c
  {
    if 'A' <= c <= 'Z' then (c as int + 32) as char else c
  }

  predicate EqualsIgnoreCase(s: string, t: string) {
    |s| == |t| && forall k :: 0 <= k < |s| ==> LowerAscii(s[k]) == LowerAscii(t[k])
  }

  predicate StartsWithIgnoreCase(s: string, prefix: string) {
    |prefix| <= |s| && EqualsIgnoreCase(s[..|prefix|], prefix)
  }

  /** The present values of a sequence of optional values, in order. */
  function Somes<T>(rs: seq<Option<T>>): (r: seq<T>)
    ensures |r| <= |rs|
  {
    if rs == [] then []
    else (if rs[0].Some? then [rs[0].value] else []) + Somes(rs[1..])
  }

  lemma {:induction false} SomesAppend<T>(a: seq<Option<T>>, b: seq<Option<T>>)
    ensures Somes(a + b) == Somes(a) + Somes(b)
  {
    if a == [] {
      assert a + b == b;
    } else {
      var head := if a[0].Some? then [a[0].value] else [];
      assert (a + b)[0] == a[0] && (a + b)[1..] == a[1..] + b;
      assert Somes(a + b) == head + Somes(a[1..] + b);
      SomesAppend(a[1..], b);
      assert Somes(a) == head + Somes(a[1..]);
    }
  }

  function Min(a: int, b: int): int { if a <= b then a else b }
  function Max(a: int, b: int): int { if a <= b then b else a }
}
