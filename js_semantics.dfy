/**
 * The few pieces of JavaScript value semantics the site's components rely on:
 * optional props (`undefined` is `None`), the `||` and `??` fallbacks, the
 * truthiness of strings, `Array.prototype.slice`, `String.prototype.startsWith`
 * and `String.prototype.charAt`.
 */
module JsSemantics {

  /** A prop or lookup that may be `undefined`. */
  datatype Option<+T> = None | Some(value: T)

  /** `a ?? d`: only a missing value takes the default; `false`, `0` and `""` are kept. */
  function Coalesce<T>(a: Option<T>, d: T): T
  {
    match a
    case Some(v) => v
    case None => d
  }

  /** A string prop is truthy when it is present and non-empty. */
  predicate Truthy(s: Option<string>)
  {
    s.Some? && s.value != ""
  }

  /** `s || d` on an optional string. */
  function OrElse(s: Option<string>, d: string): string
  {
    if Truthy(s) then s.value else d
  }

  /** `s.slice(start, end)` for non-negative bounds: both are clamped to the length. */
  function Slice<T>(s: seq<T>, start: nat, end: nat): seq<T>
  {
    var e := if end < |s| then end else |s|;
    var b := if start < e then start else e;
    s[b..e]
  }

  /** `s.slice(start)` for a non-negative start. */
  function SliceFrom<T>(s: seq<T>, start: nat): seq<T>
  {
    if start < |s| then s[start..] else []
  }

  /** `slice(0, k)` and `slice(k)` split a list without losing or repeating an element. */
  lemma SliceSplit<T>(s: seq<T>, k: nat)
    ensures Slice(s, 0, k) + SliceFrom(s, k) == s
  {
    if k < |s| {
      assert s[..k] + s[k..] == s;
    }
  }

  /** `s.startsWith(prefix)`. */
  predicate StartsWith(s: string, prefix: string)
  {
    |prefix| <= |s| && s[..|prefix|] == prefix
  }

  /** `s.charAt(i)`: the one-character string at `i`, or `""` past the end. */
  function CharAt(s: string, i: nat): string
  {
    if i < |s| then [s[i]] else ""
  }

  /** The position of the first `c` in `s`, or `|s|` when there is none. */
  function IndexOf(s: string, c: char): (r: nat)
    ensures r <= |s|
    ensures r < |s| ==> s[r] == c
    ensures forall i :: 0 <= i < r ==> s[i] != c
  {
    if s == [] then 0
    else if s[0] == c then 0
    else 1 + IndexOf(s[1..], c)
  }

  /** Searching past a prefix free of `c` lands on the `c` that follows it. */
  lemma {:induction false} IndexOfAfterPrefix(a: string, c: char, b: string)
    requires c !in a
    ensures IndexOf(a + [c] + b, c) == |a|
  {
    if a != [] {
      assert (a + [c] + b)[1..] == a[1..] + [c] + b;
      IndexOfAfterPrefix(a[1..], c, b);
    }
  }
}
