/** JavaScript values as the frontend sees them after `response.json()`, and the
    handful of JavaScript operators the frontend applies to them: truthiness,
    `||`, `??`, optional chaining, member access on `null` (which throws),
    `String.prototype.trim` and the insertion order of a `Set`. */
module JsValues {

  /** A JSON value, plus JavaScript's `undefined` (what a missing key reads as).
      Numbers are kept as reals: no NaN, no infinities, no rounding. */
  datatype Json =
    | Undefined
    | Null
    | Bool(b: bool)
    | Num(n: real)
    | Str(s: string)
    | Arr(items: seq<Json>)
    | Obj(fields: map<string, Json>)

  /** The outcome of evaluating a JavaScript expression that may throw a TypeError. */
  datatype Completion<T> = Normal(value: T) | Thrown

  /** JavaScript's truthiness: `undefined`, `null`, `false`, `0` and `""` are
      falsy; every array and every object, even an empty one, is truthy. */
  predicate Truthy(v: Json) {
    match v
    case Undefined => false
    case Null => false
    case Bool(b) => b
    case Num(n) => n != 0.0
    case Str(s) => s != ""
    case Arr(_) => true
    case Obj(_) => true
  }

  /** `a || b` */
  function Or(a: Json, b: Json): Json {
    if Truthy(a) then a else b
  }

  /** `null` or `undefined`: the values `??` and `?.` give way on. */
  predicate Nullish(v: Json) {
    v.Undefined? || v.Null?
  }

  /** `a ?? b` */
  function Coalesce(a: Json, b: Json): Json {
    if Nullish(a) then b else a
  }

  /** `v?.key`; also `v.key` whenever `v` is neither `null` nor `undefined`
      (a property of a string, number or array that JSON cannot set reads
      as `undefined`). */
  function Get(v: Json, key: string): Json {
    if v.Obj? && key in v.fields then v.fields[key] else Undefined
  }

  /** `v.key` without optional chaining: a TypeError on `null`/`undefined`. */
  function Member(v: Json, key: string): (r: Completion<Json>)
    ensures r.Thrown? <==> Nullish(v)
    ensures r.Normal? ==> r.value == Get(v, key)
  {
    if Nullish(v) then Thrown else Normal(Get(v, key))
  }

  /** `v?.[0]`: the first element of an array, the first character of a
      string, an object's property "0", otherwise `undefined`. */
  function First(v: Json): Json {
    match v
    case Arr(items) => if |items| > 0 then items[0] else Undefined
    case Str(s) => if |s| > 0 then Str(s[..1]) else Undefined
    case Obj(fields) => if "0" in fields then fields["0"] else Undefined
    case _ => Undefined
  }

  /** The characters `String.prototype.trim` removes: WhiteSpace and
      LineTerminator of section 12.2 and 12.3 of ECMA-262. */
  predicate IsJsSpace(c: char) {
    c == ' ' || c == '\t' || c == '\n' || c == '\r' || c == '\U{000B}' || c == '\U{000C}'
    || c == '\U{00A0}' || c == '\U{1680}' || ('\U{2000}' <= c <= '\U{200A}')
    || c == '\U{2028}' || c == '\U{2029}' || c == '\U{202F}' || c == '\U{205F}'
    || c == '\U{3000}' || c == '\U{FEFF}'
  }

  predicate AllSpace(s: string) {
    forall i :: 0 <= i < |s| ==> IsJsSpace(s[i])
  }

  /** The number of white-space characters `s` starts with. */
  function LeadingSpaces(s: string): (k: nat)
    ensures k <= |s| && AllSpace(s[..k])
    ensures k < |s| ==> !IsJsSpace(s[k])
  {
    if |s| > 0 && IsJsSpace(s[0]) then 1 + LeadingSpaces(s[1..]) else 0
  }

  /** The number of white-space characters `s` ends with. */
  function TrailingSpaces(s: string): (k: nat)
    ensures k <= |s| && AllSpace(s[|s| - k..])
    ensures k < |s| ==> !IsJsSpace(s[|s| - k - 1])
  {
    if |s| > 0 && IsJsSpace(s[|s| - 1]) then 1 + TrailingSpaces(s[..|s| - 1]) else 0
  }

  /** `s.trim()` */
  function Trim(s: string): string {
    var t := s[LeadingSpaces(s)..];
    t[..|t| - TrailingSpaces(t)]
  }

  /** `s.trim()` drops leading and trailing white space and nothing else: it
      is a contiguous slice of `s`, with only white space cut off on either
      side, that neither starts nor ends with white space; it is empty
      exactly when `s` is all white space, which is when the guard
      `!input.trim()` rejects a submit. */
  lemma TrimSpec(s: string)
    ensures exists i, j :: 0 <= i <= j <= |s| && Trim(s) == s[i..j] && AllSpace(s[..i]) && AllSpace(s[j..])
    ensures Trim(s) == "" <==> AllSpace(s)
    ensures Trim(s) != "" ==> !IsJsSpace(Trim(s)[0]) && !IsJsSpace(Trim(s)[|Trim(s)| - 1])
  {
    var a := LeadingSpaces(s);
    var t := s[a..];
    var b := TrailingSpaces(t);
    assert Trim(s) == s[a..a + |t| - b];
    assert s[a + |t| - b..] == t[|t| - b..];
    if Trim(s) == "" {
      assert s[..a] == s;
    }
    if Trim(s) != "" {
      assert Trim(s)[0] == s[a];
      assert Trim(s)[|Trim(s)| - 1] == t[|t| - b - 1];
    }
  }

  /** `[...new Set(xs)]`: the distinct elements of `xs` in the order of their
      first occurrence. */
  function Dedup<T(==)>(xs: seq<T>): seq<T> {
    if xs == [] then []
    else
      var d := Dedup(xs[..|xs| - 1]);
      if xs[|xs| - 1] in d then d else d + [xs[|xs| - 1]]
  }

  predicate NoDuplicates<T(==)>(xs: seq<T>) {
    forall i, j :: 0 <= i < j < |xs| ==> xs[i] != xs[j]
  }

  /** The position of the first occurrence of `x` in `xs`. */
  function FirstIndex<T(==)>(xs: seq<T>, x: T): (k: nat)
    requires x in xs
    ensures k < |xs| && xs[k] == x && x !in xs[..k]
  {
    if xs[0] == x then 0 else 1 + FirstIndex(xs[1..], x)
  }

  /** Deduplication keeps exactly the elements of the input, each once, and
      orders them by where each first occurs. */
  lemma {:induction false} DedupSpec<T>(xs: seq<T>)
    ensures forall x :: x in Dedup(xs) <==> x in xs
    ensures NoDuplicates(Dedup(xs))
    ensures |Dedup(xs)| <= |xs|
    ensures forall i, j :: 0 <= i < j < |Dedup(xs)| ==> FirstIndex(xs, Dedup(xs)[i]) < FirstIndex(xs, Dedup(xs)[j])
  {
    if xs != [] {
      var p := xs[..|xs| - 1];
      var last := xs[|xs| - 1];
      DedupSpec(p);
      assert xs == p + [last];
      var d := Dedup(p);
      forall x | x in p ensures FirstIndex(xs, x) == FirstIndex(p, x) {
        FirstIndexPrefix(p, [last], x);
      }
      if last !in d {
        assert last !in p;
        FirstIndexLast(p, last);
      }
    }
  }

  lemma {:induction false} FirstIndexPrefix<T>(p: seq<T>, q: seq<T>, x: T)
    requires x in p
    ensures FirstIndex(p + q, x) == FirstIndex(p, x)
  {
    if p[0] != x {
      assert (p + q)[1..] == p[1..] + q;
      FirstIndexPrefix(p[1..], q, x);
    }
  }

  lemma {:induction false} FirstIndexLast<T>(p: seq<T>, x: T)
    requires x !in p
    ensures FirstIndex(p + [x], x) == |p|
  {
    if p != [] {
      assert (p + [x])[1..] == p[1..] + [x];
      FirstIndexLast(p[1..], x);
    }
  }

  /** A list whose every element is `x`, and which is not empty, deduplicates
      to `[x]`. */
  lemma {:induction false} DedupConstant<T>(xs: seq<T>, x: T)
    requires |xs| > 0 && forall i :: 0 <= i < |xs| ==> xs[i] == x
    ensures Dedup(xs) == [x]
  {
    if |xs| > 1 {
      DedupConstant(xs[..|xs| - 1], x);
    }
  }

  /** Deduplicating a list that already has no duplicates changes nothing. */
  lemma {:induction false} DedupOfDistinct<T>(xs: seq<T>)
    requires NoDuplicates(xs)
    ensures Dedup(xs) == xs
  {
    if xs != [] {
      var p := xs[..|xs| - 1];
      DedupOfDistinct(p);
      assert xs[|xs| - 1] !in p;
      assert xs == p + [xs[|xs| - 1]];
    }
  }
}
