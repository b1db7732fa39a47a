/** The Python string operations the backend applies: `in` on strings,
    `str.lower`/`str.upper`, `str.split()`, `str.split(sep)` and
    `sep.join(...)`. Case mapping is modelled on ASCII letters only. */
module PyText {

  /** `needle` occurs in `hay` starting at index `i`. */
  predicate OccursAt(hay: string, needle: string, i: int) {
    0 <= i && i + |needle| <= |hay| && hay[i..i + |needle|] == needle
  }

  /** `needle in hay` */
  predicate Contains(hay: string, needle: string) {
    exists i :: 0 <= i <= |hay| && OccursAt(hay, needle, i)
  }

  /** A string occurs in any text built around it. */
  lemma OccursBetween(a: string, needle: string, b: string)
    ensures OccursAt(a + needle + b, needle, |a|)
    ensures Contains(a + needle + b, needle)
  {
    assert (a + needle + b)[|a|..|a| + |needle|] == needle;
    assert 0 <= |a| <= |a + needle + b| && OccursAt(a + needle + b, needle, |a|);
  }

  function LowerChar(c: char): char {
    if 'A' <= c <= 'Z' then (c as int + 32) as char else c
  }

  function UpperChar(c: char): char {
    if 'a' <= c <= 'z' then (c as int - 32) as char else c
  }

  /** `s.lower()` on ASCII letters: each upper-case letter becomes its
      lower-case form, every other character stays, and no upper-case ASCII
      letter is left. */
  function Lower(s: string): (r: string)
    ensures |r| == |s|
    ensures forall i :: 0 <= i < |s| && 'A' <= s[i] <= 'Z' ==> r[i] as int == s[i] as int + 32
    ensures forall i :: 0 <= i < |s| && !('A' <= s[i] <= 'Z') ==> r[i] == s[i]
    ensures forall i :: 0 <= i < |s| ==> !('A' <= r[i] <= 'Z')
  {
    seq(|s|, i requires 0 <= i < |s| => LowerChar(s[i]))
  }

  /** `s.upper()` on ASCII letters: each lower-case letter becomes its
      upper-case form, every other character stays, and no lower-case ASCII
      letter is left. */
  function Upper(s: string): (r: string)
    ensures |r| == |s|
    ensures forall i :: 0 <= i < |s| && 'a' <= s[i] <= 'z' ==> r[i] as int == s[i] as int - 32
    ensures forall i :: 0 <= i < |s| && !('a' <= s[i] <= 'z') ==> r[i] == s[i]
    ensures forall i :: 0 <= i < |s| ==> !('a' <= r[i] <= 'z')
    ensures forall i :: 0 <= i < |s| ==> (IsPySpace(r[i]) <==> IsPySpace(s[i])) && (r[i] == '\n' <==> s[i] == '\n')
  {
    seq(|s|, i requires 0 <= i < |s| => UpperChar(s[i]))
  }

  /** Lower-casing after upper-casing is lower-casing: the two mappings agree
      on which characters are the same letter. */
  lemma LowerUpper(s: string)
    ensures Lower(Upper(s)) == Lower(s)
  {
    var u := Upper(s);
    forall i | 0 <= i < |s| ensures Lower(u)[i] == Lower(s)[i] {
      if 'a' <= s[i] <= 'z' {
        assert 'A' <= u[i] <= 'Z';
      }
    }
  }

  /** The characters `str.isspace` accepts, which `str.split()` and
      `str.strip()` treat as white space. */
  predicate IsPySpace(c: char) {
    ('\t' <= c <= '\r') || ('\U{001C}' <= c <= ' ') || c == '\U{0085}' || c == '\U{00A0}'
    || c == '\U{1680}' || ('\U{2000}' <= c <= '\U{200A}') || c == '\U{2028}' || c == '\U{2029}'
    || c == '\U{202F}' || c == '\U{205F}' || c == '\U{3000}'
  }

  /** The number of white-space characters `s` starts with. */
  function LeadingSpaces(s: string): (k: nat)
    ensures k <= |s| && forall i :: 0 <= i < k ==> IsPySpace(s[i])
    ensures k < |s| ==> !IsPySpace(s[k])
  {
    if |s| > 0 && IsPySpace(s[0]) then 1 + LeadingSpaces(s[1..]) else 0
  }

  /** The number of white-space characters `s` ends with. */
  function TrailingSpaces(s: string): (k: nat)
    ensures k <= |s| && forall i :: |s| - k <= i < |s| ==> IsPySpace(s[i])
    ensures k < |s| ==> !IsPySpace(s[|s| - k - 1])
  {
    if |s| > 0 && IsPySpace(s[|s| - 1]) then 1 + TrailingSpaces(s[..|s| - 1]) else 0
  }

  /** `s.strip()`: a slice of `s` that neither starts nor ends with white
      space, with only white space cut off on either side. */
  function Strip(s: string): (r: string)
    ensures r != "" ==> !IsPySpace(r[0]) && !IsPySpace(r[|r| - 1])
    ensures exists i, j ::
              0 <= i <= j <= |s| && r == s[i..j]
              && (forall k :: 0 <= k < i ==> IsPySpace(s[k])) && (forall k :: j <= k < |s| ==> IsPySpace(s[k]))
  {
    var a := LeadingSpaces(s);
    var t := s[a..];
    var b := TrailingSpaces(t);
    assert t[..|t| - b] == s[a..a + |t| - b];
    assert forall k :: a + |t| - b <= k < |s| ==> s[k] == t[k - a];
    assert forall k :: a + |t| - b <= k < |s| ==> IsPySpace(s[k]);
    t[..|t| - b]
  }

  /** `strip()` removes exactly the white-space padding around a text that
      neither starts nor ends with white space. */
  lemma StripPadded(pre: string, w: string, post: string)
    requires forall k :: 0 <= k < |pre| ==> IsPySpace(pre[k])
    requires forall k :: 0 <= k < |post| ==> IsPySpace(post[k])
    requires w != "" && !IsPySpace(w[0]) && !IsPySpace(w[|w| - 1])
    ensures Strip(pre + w + post) == w
  {
    var s := pre + w + post;
    var r := Strip(s);
    var i, j :| 0 <= i <= j <= |s| && r == s[i..j]
      && (forall k :: 0 <= k < i ==> IsPySpace(s[k])) && (forall k :: j <= k < |s| ==> IsPySpace(s[k]));
    var lo, hi := |pre|, |pre| + |w| - 1;
    assert s[lo] == w[0] && s[hi] == w[|w| - 1];
    assert i <= lo && hi < j;
    assert r == s[lo..hi + 1];
    assert s[lo..hi + 1] == w;
  }

  /** The length of the run of non-space characters `s` starts with. */
  function WordLength(s: string): (n: nat)
    ensures n <= |s|
    ensures forall i :: 0 <= i < n ==> !IsPySpace(s[i])
    ensures n < |s| ==> IsPySpace(s[n])
  {
    if |s| == 0 || IsPySpace(s[0]) then 0 else 1 + WordLength(s[1..])
  }

  /** Text that starts with white space does not lengthen the word in
      front of it. */
  lemma {:induction false} WordLengthAppend(a: string, t: string)
    requires t != "" && IsPySpace(t[0])
    ensures WordLength(a + t) == WordLength(a)
    decreases |a|
  {
    if a != "" && !IsPySpace(a[0]) {
      assert (a + t)[1..] == a[1..] + t;
      WordLengthAppend(a[1..], t);
    }
  }

  /** `s.split()`: the maximal runs of non-space characters, in order. */
  function Words(s: string): (ws: seq<string>)
    ensures forall k :: 0 <= k < |ws| ==> ws[k] != "" && forall i :: 0 <= i < |ws[k]| ==> !IsPySpace(ws[k][i])
    decreases |s|
  {
    if s == "" then []
    else if IsPySpace(s[0]) then Words(s[1..])
    else
      var n := WordLength(s);
      [s[..n]] + Words(s[n..])
  }

  /** Splitting at a white-space character splits the words: the words of
      `a`, then those of `b`; none spans the space. */
  lemma {:induction false} WordsSplitAt(a: string, c: char, b: string)
    requires IsPySpace(c)
    ensures Words(a + [c] + b) == Words(a) + Words(b)
    decreases |a|
  {
    var s := a + [c] + b;
    if a == "" {
      assert s[1..] == b;
    } else if IsPySpace(a[0]) {
      assert s[1..] == a[1..] + [c] + b;
      WordsSplitAt(a[1..], c, b);
    } else {
      assert s == a + ([c] + b);
      WordLengthAppend(a, [c] + b);
      var n := WordLength(a);
      assert s[..n] == a[..n];
      assert s[n..] == a[n..] + [c] + b;
      WordsSplitAt(a[n..], c, b);
    }
  }

  /** A non-empty text without white space is one word. */
  lemma WordsSingle(w: string)
    requires w != "" && forall i :: 0 <= i < |w| ==> !IsPySpace(w[i])
    ensures Words(w) == [w]
  {
    assert WordLength(w) == |w|;
    assert w[..|w|] == w;
    assert Words(w[|w|..]) == [];
  }

  /** `s.split(sep)` for a one-character separator: never empty; `""` splits
      into `[""]`. */
  function Split(s: string, sep: char): (parts: seq<string>)
    ensures |parts| >= 1
  {
    if s == "" then [""]
    else
      var rest := Split(s[1..], sep);
      if s[0] == sep then [""] + rest else [[s[0]] + rest[0]] + rest[1..]
  }

  /** `sep.join(parts)` */
  function Join(parts: seq<string>, sep: string): string {
    if |parts| == 0 then ""
    else if |parts| == 1 then parts[0]
    else parts[0] + sep + Join(parts[1..], sep)
  }

  /** A string without the separator splits into itself alone. */
  lemma {:induction false} SplitWithoutSeparator(s: string, sep: char)
    requires sep !in s
    ensures Split(s, sep) == [s]
  {
    if s != "" {
      SplitWithoutSeparator(s[1..], sep);
      assert [s[0]] + s[1..] == s;
    }
  }

  /** Splitting `a + sep + b`, where `a` has no separator, yields `a` and then
      the pieces of `b`. */
  lemma {:induction false} SplitAfterPiece(a: string, sep: char, b: string)
    requires sep !in a
    ensures Split(a + [sep] + b, sep) == [a] + Split(b, sep)
  {
    if a == "" {
      assert a + [sep] + b == [sep] + b;
      assert ([sep] + b)[1..] == b;
    } else {
      SplitAfterPiece(a[1..], sep, b);
      assert (a + [sep] + b)[1..] == a[1..] + [sep] + b;
      assert [a[0]] + a[1..] == a;
    }
  }

  /** `s.split(sep)` undoes `sep.join(parts)` when no part contains the
      separator and there is at least one part. */
  lemma {:induction false} SplitJoin(parts: seq<string>, sep: char)
    requires |parts| >= 1
    requires forall k :: 0 <= k < |parts| ==> sep !in parts[k]
    ensures Split(Join(parts, [sep]), sep) == parts
  {
    if |parts| == 1 {
      SplitWithoutSeparator(parts[0], sep);
    } else {
      SplitJoin(parts[1..], sep);
      SplitAfterPiece(parts[0], sep, Join(parts[1..], [sep]));
      assert [parts[0]] + parts[1..] == parts;
    }
  }

  /** Every piece `s.split(sep)` yields is free of the separator, and the
      pieces joined back with it give `s` again. */
  lemma {:induction false} JoinSplit(s: string, sep: char)
    ensures forall k :: 0 <= k < |Split(s, sep)| ==> sep !in Split(s, sep)[k]
    ensures Join(Split(s, sep), [sep]) == s
  {
    if s != "" {
      JoinSplit(s[1..], sep);
      var rest := Split(s[1..], sep);
      if s[0] == sep {
        assert Join([""] + rest, [sep]) == "" + [sep] + Join(rest, [sep]);
        assert [s[0]] + s[1..] == s;
      } else {
        JoinSplitStep(s, sep, rest);
      }
    }
  }

  /** The step of `JoinSplit` for a text that does not start with the
      separator: its first character joins the first piece of the rest. */
  lemma {:induction false} JoinSplitStep(s: string, sep: char, rest: seq<string>)
    requires s != "" && s[0] != sep && rest == Split(s[1..], sep)
    requires forall k :: 0 <= k < |rest| ==> sep !in rest[k]
    requires Join(rest, [sep]) == s[1..]
    ensures forall k :: 0 <= k < |Split(s, sep)| ==> sep !in Split(s, sep)[k]
    ensures Join(Split(s, sep), [sep]) == s
  {
    var parts := [[s[0]] + rest[0]] + rest[1..];
    assert Split(s, sep) == parts;
    StepPiecesClean(s[0], sep, rest);
    StepJoins(s[0], sep, rest);
    assert [s[0]] + s[1..] == s;
  }

  /** Prefixing the first piece with a character other than the separator
      keeps every piece free of it. */
  lemma {:induction false} StepPiecesClean(c: char, sep: char, rest: seq<string>)
    requires c != sep && |rest| >= 1
    requires forall k :: 0 <= k < |rest| ==> sep !in rest[k]
    ensures var parts := [[c] + rest[0]] + rest[1..];
      forall k :: 0 <= k < |parts| ==> sep !in parts[k]
  {
    var parts := [[c] + rest[0]] + rest[1..];
    forall k | 0 <= k < |parts| ensures sep !in parts[k] {
      if k == 0 {
        assert sep !in rest[0];
      } else {
        assert parts[k] == rest[k];
      }
    }
  }

  /** Joining after prefixing the first piece prefixes the joined text. */
  lemma {:induction false} StepJoins(c: char, sep: char, rest: seq<string>)
    requires |rest| >= 1
    ensures Join([[c] + rest[0]] + rest[1..], [sep]) == [c] + Join(rest, [sep])
  {
    var parts := [[c] + rest[0]] + rest[1..];
    if |rest| == 1 {
      assert parts == [[c] + rest[0]];
    } else {
      var tail := Join(rest[1..], [sep]);
      assert parts[0] == [c] + rest[0] && parts[1..] == rest[1..];
      assert Join(parts, [sep]) == parts[0] + [sep] + tail;
      assert Join(rest, [sep]) == rest[0] + [sep] + tail;
      assert ([c] + rest[0]) + [sep] + tail == [c] + (rest[0] + [sep] + tail);
    }
  }
}
