/**
 * The few pieces of JavaScript value semantics that the application's logic
 * depends on: optional values (`undefined`/`null`), string truthiness,
 * `||` defaults, template-literal interpolation, `Array.prototype.indexOf`,
 * `String.prototype.includes` and `s.split(sep)[1]`.
 */
module JsValues {

  /** A value that may be absent (`undefined` or `null` in the source). */
  datatype Option<+T> = None | Some(value: T)

  /** The outcome of a promise: resolved with a value or rejected with an error. */
  datatype Result<+T, +E> = Success(value: T) | Failure(error: E)

  /** A possibly-absent string is truthy when it is present and non-empty. */
  predicate Truthy(s: Option<string>) {
    s.Some? && s.value != ""
  }

  /** `s || fallback` on a possibly-absent string. */
  function OrElse(s: Option<string>, fallback: string): (r: string)
    ensures Truthy(s) ==> r == s.value
    ensures !Truthy(s) ==> r == fallback
  {
    if Truthy(s) then s.value else fallback
  }

  /** `${s}` in a template literal: an absent value prints as "undefined". */
  function Interpolate(s: Option<string>): (r: string)
    ensures s.Some? ==> r == s.value
    ensures s.None? ==> r == "undefined"
  {
    match s
    case Some(v) => v
    case None => "undefined"
  }

  /** `s.indexOf(x)`: the position of the first occurrence of `x`, or -1. */
  function IndexOf<T(==)>(s: seq<T>, x: T): (r: int)
    ensures -1 <= r < |s|
    ensures r == -1 <==> x !in s
    ensures 0 <= r ==> s[r] == x && x !in s[..r]
  {
    if s == [] then -1
    else if s[0] == x then 0
    else
      var k := IndexOf(s[1..], x);
      if k == -1 then -1
      else
        assert s[..k + 1] == [s[0]] + s[1..][..k];
        k + 1
  }

  /** The first occurrence of `x` sits right after a prefix that does not contain it. */
  lemma IndexOfAfterPrefix<T>(a: seq<T>, x: T, b: seq<T>)
    requires x !in a
    ensures IndexOf(a + [x] + b, x) == |a|
  {
    assert (a + [x] + b)[|a|] == x;
  }

  /** `part` occurs in `s` starting at position `i`. */
  predicate OccursAt(s: string, part: string, i: int) {
    0 <= i <= |s| - |part| && s[i..i + |part|] == part
  }

  /** `s.includes(part)`. */
  predicate Includes(s: string, part: string) {
    exists i :: 0 <= i <= |s| - |part| && OccursAt(s, part, i)
  }

  /**
   * `s.split(sep)[1]`: the field between the first and the second separator
   * (or the end of `s`), and `undefined` when `s` has no separator at all.
   */
  function SecondField(s: string, sep: char): (r: Option<string>)
    ensures r.None? <==> sep !in s
    ensures r.Some? ==> sep !in r.value
  {
    var i := IndexOf(s, sep);
    if i < 0 then None
    else
      var rest := s[i + 1..];
      var j := IndexOf(rest, sep);
      if j < 0 then Some(rest) else Some(rest[..j])
  }

  /** With exactly one separator, the second field is everything after it. */
  lemma SecondFieldOfOne(a: string, sep: char, b: string)
    requires sep !in a && sep !in b
    ensures SecondField(a + [sep] + b, sep) == Some(b)
  {
    IndexOfAfterPrefix(a, sep, b);
    assert (a + [sep] + b)[|a| + 1..] == b;
  }

  /** With more separators, the second field stops at the second separator. */
  lemma SecondFieldOfMany(a: string, sep: char, b: string, c: string)
    requires sep !in a && sep !in b
    ensures SecondField(a + [sep] + b + [sep] + c, sep) == Some(b)
  {
    var s := a + [sep] + b + [sep] + c;
    assert s == a + [sep] + (b + [sep] + c);
    IndexOfAfterPrefix(a, sep, b + [sep] + c);
    assert s[|a| + 1..] == b + [sep] + c;
    IndexOfAfterPrefix(b, sep, c);
    assert (b + [sep] + c)[..|b|] == b;
  }
}
