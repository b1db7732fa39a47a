/** The chat panel of frontend/src/components/ChatInterface.tsx: the
    YouTube-id extractor, the source classifier, the assembly of the
    assistant message from the backend's JSON, and the panel's state
    (message log, input box, "thinking" flag, pipeline step) as a submit
    changes it. */
module Chat {
  import opened Wrappers
  import opened JsValues

  // ---------------------------------------------------------------------
  // The three URL patterns `<prefix>([a-zA-Z0-9_-]{11})`
  // ---------------------------------------------------------------------

  const WatchPrefix := "v="
  const ShortPrefix := "youtu.be/"
  const EmbedPrefix := "embed/"

  /** The id length every pattern captures. */
  const IdLength := 11

  predicate IsIdChar(c: char) {
    'a' <= c <= 'z' || 'A' <= c <= 'Z' || '0' <= c <= '9' || c == '_' || c == '-'
  }

  /** Exactly eleven characters of `[A-Za-z0-9_-]`. */
  predicate IsVideoId(s: string) {
    |s| == IdLength && forall i :: 0 <= i < |s| ==> IsIdChar(s[i])
  }

  /** The pattern `prefix` followed by eleven id characters matches `s` at
      index `i`. */
  predicate MatchesAt(s: string, prefix: string, i: nat) {
    i + |prefix| + IdLength <= |s|
    && s[i..i + |prefix|] == prefix
    && IsVideoId(s[i + |prefix|..i + |prefix| + IdLength])
  }

  /** The capture group of the match at `i`. */
  function CaptureAt(s: string, prefix: string, i: nat): string
    requires i + |prefix| + IdLength <= |s|
  {
    s[i + |prefix|..i + |prefix| + IdLength]
  }

  /** `Array.from(s.matchAll(/prefix(...)/g)).map(m => m[1])`, the search
      starting at index `i`: every non-overlapping match, left to right, each
      search resuming where the previous match ended. */
  function MatchAll(s: string, prefix: string, i: nat): seq<string>
    requires |prefix| > 0
    decreases |s| - i
  {
    if i + |prefix| + IdLength > |s| then []
    else if MatchesAt(s, prefix, i) then [CaptureAt(s, prefix, i)] + MatchAll(s, prefix, i + |prefix| + IdLength)
    else MatchAll(s, prefix, i + 1)
  }

  /** `s.match(/prefix(...)/)?.[1]` searched from index `i`: the capture of
      the leftmost match. */
  function FirstMatch(s: string, prefix: string, i: nat): Option<string>
    requires |prefix| > 0
    decreases |s| - i
  {
    if i + |prefix| + IdLength > |s| then None
    else if MatchesAt(s, prefix, i) then Some(CaptureAt(s, prefix, i))
    else FirstMatch(s, prefix, i + 1)
  }

  /** Every capture of a global search is a video id that stands in `s`
      right after the prefix. */
  lemma {:induction false} MatchAllSound(s: string, prefix: string, i: nat)
    requires |prefix| > 0
    ensures forall c :: c in MatchAll(s, prefix, i) ==> IsVideoId(c)
    ensures forall c :: c in MatchAll(s, prefix, i) ==> exists k :: i <= k && MatchesAt(s, prefix, k) && CaptureAt(s, prefix, k) == c
    decreases |s| - i
  {
    if i + |prefix| + IdLength <= |s| {
      if MatchesAt(s, prefix, i) {
        MatchAllSound(s, prefix, i + |prefix| + IdLength);
      } else {
        MatchAllSound(s, prefix, i + 1);
      }
    }
  }

  /** The single (non-global) search finds the first capture of the global
      one. */
  lemma {:induction false} FirstMatchIsFirstOfAll(s: string, prefix: string, i: nat)
    requires |prefix| > 0
    ensures FirstMatch(s, prefix, i) == if MatchAll(s, prefix, i) == [] then None else Some(MatchAll(s, prefix, i)[0])
    decreases |s| - i
  {
    if i + |prefix| + IdLength <= |s| && !MatchesAt(s, prefix, i) {
      FirstMatchIsFirstOfAll(s, prefix, i + 1);
    }
  }

  /** Positions where the pattern does not match can be skipped. */
  lemma {:induction false} MatchAllSkip(s: string, prefix: string, i: nat, j: nat)
    requires |prefix| > 0 && i <= j
    requires forall k :: i <= k < j ==> !MatchesAt(s, prefix, k)
    ensures MatchAll(s, prefix, i) == MatchAll(s, prefix, j)
    decreases j - i
  {
    if i < j {
      MatchAllSkip(s, prefix, i + 1, j);
      if i + |prefix| + IdLength > |s| {
        MatchAllEnd(s, prefix, j);
      }
    }
  }

  /** No match can start past the last position with room for one. */
  lemma MatchAllEnd(s: string, prefix: string, j: nat)
    requires |prefix| > 0 && j + |prefix| + IdLength > |s|
    ensures MatchAll(s, prefix, j) == []
  {
  }

  /** A pattern that matches nowhere yields no capture. */
  lemma MatchAllNone(s: string, prefix: string)
    requires |prefix| > 0
    requires forall k :: 0 <= k <= |s| ==> !MatchesAt(s, prefix, k)
    ensures MatchAll(s, prefix, 0) == []
  {
    MatchAllSkip(s, prefix, 0, |s|);
  }

  /** The pattern cannot match at `k` if one of the prefix's characters
      differs from the text. */
  lemma MismatchAt(s: string, prefix: string, k: nat, m: nat)
    requires m < |prefix| && k + m < |s| && s[k + m] != prefix[m]
    ensures !MatchesAt(s, prefix, k)
  {
  }

  /** The pattern matches right where the prefix is followed by an id. */
  lemma MatchAfter(pre: string, prefix: string, id: string, post: string)
    requires IsVideoId(id)
    ensures MatchesAt(pre + prefix + id + post, prefix, |pre|)
    ensures CaptureAt(pre + prefix + id + post, prefix, |pre|) == id
  {
    var s := pre + prefix + id + post;
    assert s[|pre|..|pre| + |prefix|] == prefix;
    assert s[|pre| + |prefix|..|pre| + |prefix| + IdLength] == id;
  }

  /** The pattern matches nowhere in `s`. */
  ghost predicate NoMatch(s: string, prefix: string) {
    forall k: nat :: !MatchesAt(s, prefix, k)
  }

  /** `k` is the leftmost position at or after `i` where the pattern
      matches. */
  predicate LeftmostFrom(s: string, prefix: string, i: nat, k: nat) {
    i <= k && MatchesAt(s, prefix, k) && forall j: nat :: i <= j < k ==> !MatchesAt(s, prefix, j)
  }

  /** The single search from `i` finds nothing exactly when the pattern
      matches nowhere at or after `i`, and otherwise returns the capture of
      the leftmost match there. */
  lemma {:induction false} FirstMatchSpec(s: string, prefix: string, i: nat)
    requires |prefix| > 0
    ensures FirstMatch(s, prefix, i).None? <==> forall k: nat :: i <= k ==> !MatchesAt(s, prefix, k)
    ensures FirstMatch(s, prefix, i).Some? ==>
      exists k: nat :: LeftmostFrom(s, prefix, i, k) && FirstMatch(s, prefix, i).value == CaptureAt(s, prefix, k)
    decreases |s| - i
  {
    if i + |prefix| + IdLength > |s| {
      assert forall k: nat :: i <= k ==> !MatchesAt(s, prefix, k);
    } else if MatchesAt(s, prefix, i) {
      assert LeftmostFrom(s, prefix, i, i);
    } else {
      FirstMatchSpec(s, prefix, i + 1);
      if FirstMatch(s, prefix, i + 1).Some? {
        var k: nat :| LeftmostFrom(s, prefix, i + 1, k) && FirstMatch(s, prefix, i + 1).value == CaptureAt(s, prefix, k);
        assert LeftmostFrom(s, prefix, i, k);
      } else {
        forall k: nat | i <= k ensures !MatchesAt(s, prefix, k) {
          if k > i {
            assert i + 1 <= k;
          }
        }
      }
    }
  }

  // ---------------------------------------------------------------------
  // extractYoutubeIds
  // ---------------------------------------------------------------------

  /** `parseString`: the capture of the first of the three patterns, tried in
      the order `v=`, `youtu.be/`, `embed/`, that matches anywhere. */
  function ParseString(s: string): (id: Option<string>)
    ensures id.Some? ==> IsVideoId(id.value)
  {
    FirstMatchIsFirstOfAll(s, WatchPrefix, 0);
    FirstMatchIsFirstOfAll(s, ShortPrefix, 0);
    FirstMatchIsFirstOfAll(s, EmbedPrefix, 0);
    MatchAllSound(s, WatchPrefix, 0);
    MatchAllSound(s, ShortPrefix, 0);
    MatchAllSound(s, EmbedPrefix, 0);
    var v := FirstMatch(s, WatchPrefix, 0);
    if v.Some? then v
    else
      var short := FirstMatch(s, ShortPrefix, 0);
      if short.Some? then short else FirstMatch(s, EmbedPrefix, 0)
  }

  /** `parseString` finds nothing exactly when none of the three patterns
      matches anywhere; otherwise it returns the capture of the leftmost
      match of the first pattern, in the order `v=`, `youtu.be/`, `embed/`,
      that matches at all. */
  lemma ParseStringSpec(s: string)
    ensures ParseString(s).None? <==> NoMatch(s, WatchPrefix) && NoMatch(s, ShortPrefix) && NoMatch(s, EmbedPrefix)
    ensures !NoMatch(s, WatchPrefix) ==>
      exists k: nat :: LeftmostFrom(s, WatchPrefix, 0, k) && ParseString(s) == Some(CaptureAt(s, WatchPrefix, k))
    ensures NoMatch(s, WatchPrefix) && !NoMatch(s, ShortPrefix) ==>
      exists k: nat :: LeftmostFrom(s, ShortPrefix, 0, k) && ParseString(s) == Some(CaptureAt(s, ShortPrefix, k))
    ensures NoMatch(s, WatchPrefix) && NoMatch(s, ShortPrefix) && !NoMatch(s, EmbedPrefix) ==>
      exists k: nat :: LeftmostFrom(s, EmbedPrefix, 0, k) && ParseString(s) == Some(CaptureAt(s, EmbedPrefix, k))
  {
    FirstMatchSpec(s, WatchPrefix, 0);
    FirstMatchSpec(s, ShortPrefix, 0);
    FirstMatchSpec(s, EmbedPrefix, 0);
  }

  /** The link an object element carries: `item.url || item.link || item.href || ''`. */
  function LinkOf(item: Json): Json {
    Or(Or(Or(Get(item, "url"), Get(item, "link")), Get(item, "href")), Str(""))
  }

  /** An element whose `parseString` call would throw: an object (or array)
      whose link is truthy but not a string, which has no `.match` method. */
  predicate ThrowsOnItem(item: Json) {
    (item.Obj? || item.Arr?) && Truthy(LinkOf(item)) && !LinkOf(item).Str?
  }

  /** What one list element contributes: a string is parsed; an object's link
      is parsed if truthy; anything else (null, numbers, booleans)
      contributes nothing. */
  function ItemId(item: Json): (r: Completion<Option<string>>)
    ensures r.Thrown? <==> ThrowsOnItem(item)
    ensures r.Normal? && r.value.Some? ==> IsVideoId(r.value.value)
    ensures item.Str? ==> r == Normal(ParseString(item.s))
    ensures (item.Obj? || item.Arr?) && LinkOf(item).Str? && Truthy(LinkOf(item)) ==> r == Normal(ParseString(LinkOf(item).s))
    ensures (item.Obj? || item.Arr?) && !Truthy(LinkOf(item)) ==> r == Normal(None)
    ensures !(item.Str? || item.Obj? || item.Arr?) ==> r == Normal(None)
  {
    match item
    case Str(s) => Normal(ParseString(s))
    case Arr(_) => ObjectItemId(item)
    case Obj(_) => ObjectItemId(item)
    case _ => Normal(None)
  }

  function ObjectItemId(item: Json): Completion<Option<string>> {
    var url := LinkOf(item);
    if !Truthy(url) then Normal(None)
    else if url.Str? then Normal(ParseString(url.s))
    else Thrown
  }

  /** The ids the `forEach` over the first elements pushes, in order. */
  function ListIds(items: seq<Json>): Completion<seq<string>>
  {
    if items == [] then Normal([])
    else
      match ListIds(items[..|items| - 1])
      case Thrown => Thrown
      case Normal(ids) =>
        match ItemId(items[|items| - 1])
        case Thrown => Thrown
        case Normal(None) => Normal(ids)
        case Normal(Some(id)) => Normal(ids + [id])
  }

  /** The list case throws exactly when some element throws; otherwise each
      element contributes at most one id, every id comes from some element,
      and every element's id is among them. */
  lemma {:induction false} ListIdsSpec(items: seq<Json>)
    ensures ListIds(items).Thrown? <==> exists i :: 0 <= i < |items| && ThrowsOnItem(items[i])
    ensures ListIds(items).Normal? ==> |ListIds(items).value| <= |items|
    ensures ListIds(items).Normal? ==> forall id :: id in ListIds(items).value ==> exists i :: 0 <= i < |items| && ItemId(items[i]) == Normal(Some(id))
    ensures ListIds(items).Normal? ==> forall i :: 0 <= i < |items| && ItemId(items[i]).Normal? && ItemId(items[i]).value.Some? ==> ItemId(items[i]).value.value in ListIds(items).value
  {
    if items != [] {
      var p := items[..|items| - 1];
      ListIdsSpec(p);
      forall i | 0 <= i < |p| ensures p[i] == items[i] { }
      if ListIds(p).Thrown? {
        var i :| 0 <= i < |p| && ThrowsOnItem(p[i]);
        assert ThrowsOnItem(items[i]);
      }
    }
  }

  /** A one-element list yields that element's id, nothing, or the throw. */
  lemma ListIdsSingle(item: Json)
    ensures ListIds([item]) == match ItemId(item)
      case Thrown => Thrown
      case Normal(None) => Normal([])
      case Normal(Some(id)) => Normal([id])
  {
    assert [item][..0] == [];
    assert ListIds([]) == Normal([]);
    if ItemId(item).Normal? && ItemId(item).value.Some? {
      assert [] + [ItemId(item).value.value] == [ItemId(item).value.value];
    }
  }

  /** Extraction runs element by element: a list throws when either part
      throws, and otherwise its ids are those of the first part followed by
      those of the second. */
  lemma {:induction false} ListIdsConcat(a: seq<Json>, b: seq<Json>)
    ensures ListIds(a + b).Thrown? <==> ListIds(a).Thrown? || ListIds(b).Thrown?
    ensures ListIds(a).Normal? && ListIds(b).Normal? ==> ListIds(a + b) == Normal(ListIds(a).value + ListIds(b).value)
    decreases |b|
  {
    if b == [] {
      assert a + b == a;
      assert ListIds(b) == Normal([]);
      if ListIds(a).Normal? {
        assert ListIds(a).value + [] == ListIds(a).value;
      }
    } else {
      var p := b[..|b| - 1];
      assert (a + b)[..|a + b| - 1] == a + p;
      assert (a + b)[|a + b| - 1] == b[|b| - 1];
      ListIdsConcat(a, p);
      if ListIds(a).Normal? && ListIds(p).Normal? {
        var x, u, v := b[|b| - 1], ListIds(a).value, ListIds(p).value;
        match ItemId(x)
        case Thrown =>
        case Normal(None) =>
        case Normal(Some(id)) =>
          assert u + v + [id] == u + (v + [id]);
      }
    }
  }

  /** Once an element has thrown, the whole list throws. */
  lemma {:induction false} ListIdsThrownPersists(items: seq<Json>, k: nat)
    requires k <= |items| && ListIds(items[..k]).Thrown?
    ensures ListIds(items).Thrown?
    decreases |items| - k
  {
    if k < |items| {
      assert items[..k + 1][..k] == items[..k];
      ListIdsThrownPersists(items, k + 1);
    } else {
      assert items[..k] == items;
    }
  }

  /** An array whose elements yield `ids` extracts to those ids without
      repeats. */
  lemma ExtractedFromList(items: seq<Json>, ids: seq<string>)
    requires ListIds(items) == Normal(ids)
    ensures ExtractedIds(Arr(items)) == Normal(Dedup(ids))
  {
    assert Truthy(Arr(items));
  }

  /** `extractYoutubeIds(ytData)` as a value: falsy input gives `[]`; a string
      gives every `v=` capture then every `youtu.be/` capture, deduplicated;
      an array gives its elements' ids, deduplicated; any other value gives
      `[]`. */
  function ExtractedIds(ytData: Json): (r: Completion<seq<string>>)
    ensures !Truthy(ytData) || !(ytData.Str? || ytData.Arr?) ==> r == Normal([])
    ensures r.Thrown? <==> ytData.Arr? && exists i :: 0 <= i < |ytData.items| && ThrowsOnItem(ytData.items[i])
    ensures r.Normal? ==> NoDuplicates(r.value) && forall id :: id in r.value ==> IsVideoId(id)
  {
    if !Truthy(ytData) then Normal([])
    else
      match ytData
      case Str(s) =>
        var all := MatchAll(s, WatchPrefix, 0) + MatchAll(s, ShortPrefix, 0);
        MatchAllSound(s, WatchPrefix, 0);
        MatchAllSound(s, ShortPrefix, 0);
        DedupSpec(all);
        Normal(Dedup(all))
      case Arr(items) =>
        ListIdsSpec(items);
        (match ListIds(items)
         case Thrown => Thrown
         case Normal(ids) =>
           DedupSpec(ids);
           assert forall id :: id in ids ==> IsVideoId(id);
           Normal(Dedup(ids)))
      case _ => Normal([])
  }

  /** `extractYoutubeIds`: the list case runs the `forEach` loop, pushing
      each element's id into `ids`; a TypeError thrown by an element ends the
      call. */
  method ExtractYoutubeIds(ytData: Json) returns (r: Completion<seq<string>>)
    ensures r == ExtractedIds(ytData)
  {
    if !Truthy(ytData) {
      return Normal([]);
    }
    var ids: seq<string> := [];
    if ytData.Str? {
      var globalV := MatchAll(ytData.s, WatchPrefix, 0);
      var globalShort := MatchAll(ytData.s, ShortPrefix, 0);
      return Normal(Dedup(globalV + globalShort));
    }
    if ytData.Arr? {
      var items := ytData.items;
      var i := 0;
      while i < |items|
        invariant 0 <= i <= |items|
        invariant ListIds(items[..i]) == Normal(ids)
      {
        assert items[..i + 1][..i] == items[..i];
        var id := ItemId(items[i]);
        if id.Thrown? {
          ListIdsThrownPersists(items, i + 1);
          return Thrown;
        }
        if id.value.Some? {
          ids := ids + [id.value.value];
        }
        i := i + 1;
      }
      assert items[..i] == items;
    }
    return Normal(Dedup(ids));
  }

  /** String input: the ids are exactly the `v=` and `youtu.be/` captures,
      each once, ordered by where each first occurs in the `v=` captures
      followed by the `youtu.be/` captures. */
  lemma StringInputSpec(s: string)
    requires s != ""
    ensures ExtractedIds(Str(s)).Normal?
    ensures forall id :: id in ExtractedIds(Str(s)).value <==> id in MatchAll(s, WatchPrefix, 0) || id in MatchAll(s, ShortPrefix, 0)
    ensures var all := MatchAll(s, WatchPrefix, 0) + MatchAll(s, ShortPrefix, 0);
            var ids := ExtractedIds(Str(s)).value;
            forall i, j :: 0 <= i < j < |ids| ==> FirstIndex(all, ids[i]) < FirstIndex(all, ids[j])
  {
    DedupSpec(MatchAll(s, WatchPrefix, 0) + MatchAll(s, ShortPrefix, 0));
  }

  /** A text whose every `v=` and `youtu.be/` capture is the same id, and
      which has at least one, however often it repeats it, yields that id
      once. */
  lemma SameIdEverywhere(s: string, id: string)
    requires s != ""
    requires MatchAll(s, WatchPrefix, 0) + MatchAll(s, ShortPrefix, 0) != []
    requires forall c :: c in MatchAll(s, WatchPrefix, 0) + MatchAll(s, ShortPrefix, 0) ==> c == id
    ensures ExtractedIds(Str(s)) == Normal([id])
  {
    var all := MatchAll(s, WatchPrefix, 0) + MatchAll(s, ShortPrefix, 0);
    assert forall i :: 0 <= i < |all| ==> all[i] in all;
    DedupConstant(all, id);
  }

  /** A `v=` link, a `youtu.be/` link and the `v=` link again, in one text. */
  function RepeatedReference(id: string): string {
    WatchPrefix + id + " " + ShortPrefix + id + " " + WatchPrefix + id
  }

  /** A text that links one id as `v=`, as `youtu.be/` and as `v=` again
      yields that id once. */
  lemma RepeatedReferenceOnce(id: string)
    requires IsVideoId(id)
    ensures ExtractedIds(Str(RepeatedReference(id))) == Normal([id])
  {
    RepeatedWatchMatches(id);
    RepeatedShortMatches(id);
    SameIdEverywhere(RepeatedReference(id), id);
  }

  lemma RepeatedWatchMatches(id: string)
    requires IsVideoId(id)
    ensures MatchAll(RepeatedReference(id), WatchPrefix, 0) == [id, id]
  {
    var s := RepeatedReference(id);
    assert |s| == 48;
    MatchAfter("", WatchPrefix, id, " " + ShortPrefix + id + " " + WatchPrefix + id);
    assert "" + WatchPrefix + id + (" " + ShortPrefix + id + " " + WatchPrefix + id) == s;
    forall k | 13 <= k < 35 ensures !MatchesAt(s, WatchPrefix, k) {
      assert s[k + 1] != '=';
      MismatchAt(s, WatchPrefix, k, 1);
    }
    MatchAllSkip(s, WatchPrefix, 13, 35);
    MatchAfter(WatchPrefix + id + " " + ShortPrefix + id + " ", WatchPrefix, id, "");
    assert WatchPrefix + id + " " + ShortPrefix + id + " " + WatchPrefix + id + "" == s;
    MatchAllEnd(s, WatchPrefix, 48);
  }

  lemma RepeatedShortMatches(id: string)
    requires IsVideoId(id)
    ensures MatchAll(RepeatedReference(id), ShortPrefix, 0) == [id]
  {
    var s := RepeatedReference(id);
    assert |s| == 48;
    forall k | 0 <= k < 14 ensures !MatchesAt(s, ShortPrefix, k) {
      assert s[k + 5] != '.';
      MismatchAt(s, ShortPrefix, k, 5);
    }
    MatchAllSkip(s, ShortPrefix, 0, 14);
    MatchAfter(WatchPrefix + id + " ", ShortPrefix, id, " " + WatchPrefix + id);
    assert WatchPrefix + id + " " + ShortPrefix + id + (" " + WatchPrefix + id) == s;
    MatchAllEnd(s, ShortPrefix, 34);
  }

  const EmbedBase := "https://www.youtube.com/"

  /** An embed link is recognised only inside a list: as a plain string the
      extractor scans for `v=` and `youtu.be/` alone and finds nothing, while
      the same link as a list element yields its id through the `embed/`
      pattern of `parseString`. */
  lemma EmbedLinkOnlyInLists(id: string)
    requires IsVideoId(id)
    ensures ExtractedIds(Str(EmbedBase + EmbedPrefix + id)) == Normal([])
    ensures ExtractedIds(Arr([Str(EmbedBase + EmbedPrefix + id)])) == Normal([id])
  {
    var s := EmbedBase + EmbedPrefix + id;
    EmbedHasNoWatchOrShortMatch(id);
    assert Dedup<string>([]) == [];
    assert Truthy(Str(s));
    EmbedParses(id);
    var items := [Str(s)];
    assert items[..0] == [];
    assert ListIds(items[..0]) == Normal([]);
    assert ItemId(items[0]) == Normal(Some(id));
    assert ListIds(items) == Normal([] + [id]);
    assert Dedup([id]) == [id] by {
      assert [id][..0] == [];
    }
  }

  lemma EmbedHasNoWatchOrShortMatch(id: string)
    requires IsVideoId(id)
    ensures MatchAll(EmbedBase + EmbedPrefix + id, WatchPrefix, 0) == []
    ensures MatchAll(EmbedBase + EmbedPrefix + id, ShortPrefix, 0) == []
  {
    var s := EmbedBase + EmbedPrefix + id;
    assert |s| == 41;
    forall k | 0 <= k <= |s| ensures !MatchesAt(s, WatchPrefix, k) {
      if k + 2 + IdLength <= |s| {
        assert s[k + 1] == (EmbedBase + EmbedPrefix)[k + 1];
        MismatchAt(s, WatchPrefix, k, 1);
      }
    }
    MatchAllNone(s, WatchPrefix);
    forall k | 0 <= k <= |s| ensures !MatchesAt(s, ShortPrefix, k) {
      if k + 9 + IdLength <= |s| {
        assert s[k] == EmbedBase[k];
        if EmbedBase[k] != 'y' {
          MismatchAt(s, ShortPrefix, k, 0);
        } else {
          assert k == 12 && s[k + 5] == 'b';
          MismatchAt(s, ShortPrefix, k, 5);
        }
      }
    }
    MatchAllNone(s, ShortPrefix);
  }

  lemma EmbedParses(id: string)
    requires IsVideoId(id)
    ensures ParseString(EmbedBase + EmbedPrefix + id) == Some(id)
  {
    var s := EmbedBase + EmbedPrefix + id;
    EmbedHasNoWatchOrShortMatch(id);
    FirstMatchIsFirstOfAll(s, WatchPrefix, 0);
    FirstMatchIsFirstOfAll(s, ShortPrefix, 0);
    forall k | 0 <= k < 24 ensures !MatchesAt(s, EmbedPrefix, k) {
      assert s[k] == EmbedBase[k];
      if EmbedBase[k] != 'e' {
        MismatchAt(s, EmbedPrefix, k, 0);
      } else {
        assert k == 18 && s[k + 1] == '.';
        MismatchAt(s, EmbedPrefix, k, 1);
      }
    }
    MatchAfter(EmbedBase, EmbedPrefix, id, "");
    assert EmbedBase + EmbedPrefix + id + "" == s;
    assert FirstMatch(s, EmbedPrefix, 24) == Some(id);
    FirstMatchSkip(s, EmbedPrefix, 0, 24);
  }

  lemma {:induction false} FirstMatchSkip(s: string, prefix: string, i: nat, j: nat)
    requires |prefix| > 0 && i <= j
    requires forall k :: i <= k < j ==> !MatchesAt(s, prefix, k)
    ensures FirstMatch(s, prefix, i) == FirstMatch(s, prefix, j)
    decreases j - i
  {
    if i < j {
      FirstMatchSkip(s, prefix, i + 1, j);
    }
  }

  // ---------------------------------------------------------------------
  // determineSources
  // ---------------------------------------------------------------------

  const LocalDb := "Local DB"
  const Reddit := "Reddit"
  const VectorSearch := "Vector Search"
  const YouTube := "YouTube"

  /** The labels in the order the classifier emits them. */
  const SourceOrder := [LocalDb, Reddit, VectorSearch, YouTube]

  /** `determineSources(data)`: a label for each of `sql`, `web`,
      `rag || discovery` and `youtube` that is truthy, in that order. */
  function DetermineSources(data: Json): (r: seq<string>)
    ensures LocalDb in r <==> Truthy(Get(data, "sql"))
    ensures Reddit in r <==> Truthy(Get(data, "web"))
    ensures VectorSearch in r <==> Truthy(Get(data, "rag")) || Truthy(Get(data, "discovery"))
    ensures YouTube in r <==> Truthy(Get(data, "youtube"))
    ensures Nullish(data) ==> r == []
  {
    (if Truthy(Get(data, "sql")) then [LocalDb] else [])
    + (if Truthy(Get(data, "web")) then [Reddit] else [])
    + (if Truthy(Get(data, "rag")) || Truthy(Get(data, "discovery")) then [VectorSearch] else [])
    + (if Truthy(Get(data, "youtube")) then [YouTube] else [])
  }

  /** The position of a label in `SourceOrder`. */
  function Rank(name: string): int {
    if name == LocalDb then 0
    else if name == Reddit then 1
    else if name == VectorSearch then 2
    else if name == YouTube then 3
    else -1
  }

  /** The labels whose flags are set, in the order of `SourceOrder`. */
  function Pick(sql: bool, web: bool, vector: bool, yt: bool): seq<string> {
    (if sql then [LocalDb] else []) + (if web then [Reddit] else [])
    + (if vector then [VectorSearch] else []) + (if yt then [YouTube] else [])
  }

  predicate RankedSubsequence(r: seq<string>) {
    (forall i :: 0 <= i < |r| ==> r[i] in SourceOrder)
    && (forall i, j :: 0 <= i < j < |r| ==> Rank(r[i]) < Rank(r[j]))
  }

  lemma PickRanked(sql: bool, web: bool, vector: bool, yt: bool)
    ensures RankedSubsequence(Pick(sql, web, vector, yt))
  {
    assert Rank(LocalDb) == 0 && Rank(Reddit) == 1 && Rank(VectorSearch) == 2 && Rank(YouTube) == 3;
    if sql {
      if web {
        if vector { if yt { } else { } } else { if yt { } else { } }
      } else {
        if vector { if yt { } else { } } else { if yt { } else { } }
      }
    } else {
      if web {
        if vector { if yt { } else { } } else { if yt { } else { } }
      } else {
        if vector { if yt { } else { } } else { if yt { } else { } }
      }
    }
  }

  /** The classifier emits a subsequence of `SourceOrder`: every label is one
      of the four, in the fixed order, so none twice. */
  lemma SourcesOrdered(data: Json)
    ensures forall i :: 0 <= i < |DetermineSources(data)| ==> DetermineSources(data)[i] in SourceOrder
    ensures forall i, j :: 0 <= i < j < |DetermineSources(data)| ==> Rank(DetermineSources(data)[i]) < Rank(DetermineSources(data)[j])
    ensures NoDuplicates(DetermineSources(data))
  {
    var r := DetermineSources(data);
    assert r == Pick(Truthy(Get(data, "sql")), Truthy(Get(data, "web")),
                     Truthy(Get(data, "rag")) || Truthy(Get(data, "discovery")), Truthy(Get(data, "youtube")));
    PickRanked(Truthy(Get(data, "sql")), Truthy(Get(data, "web")),
               Truthy(Get(data, "rag")) || Truthy(Get(data, "discovery")), Truthy(Get(data, "youtube")));
  }

  // ---------------------------------------------------------------------
  // Messages
  // ---------------------------------------------------------------------

  datatype Role = User | Assistant

  /** The panel's `Message`; the id and timestamp (clock readings) are left
      out. `content` and `coordinates` hold whatever the payload carried
      (`Undefined` when absent); `metrics` holds `data.metrics?.latency`. */
  datatype Message = Message(
    role: Role,
    content: Json,
    coordinates: Json,
    youtube: Option<seq<string>>,
    sources: Option<seq<string>>,
    metrics: Option<Json>)

  const OfflineText := "\U{26A0}\U{FE0F} **System Offline:** Is the backend running?"
  const NoResponseText := "No response from server."

  /** The session id this panel always sends. */
  const PanelSessionId := "user-session-1"

  function UserMessage(text: string): Message {
    Message(User, Str(text), Undefined, None, None, None)
  }

  /** The fixed message the `catch` block appends. */
  const OfflineMessage := Message(Assistant, Str(OfflineText), Undefined, None, None, None)

  /** The assistant message built from a parsed payload, or `Thrown` when
      reading it throws: `data.youtube` on a `null` payload, or an element
      the extractor cannot parse. */
  function AssistantMessage(data: Json): (r: Completion<Message>)
    ensures r.Thrown? <==> Nullish(data) || ExtractedIds(Get(data, "youtube")).Thrown?
    ensures r.Normal? ==> r.value.role == Assistant
    ensures r.Normal? ==> r.value.content == (if Truthy(Get(data, "response")) then Get(data, "response") else Str(NoResponseText))
    ensures r.Normal? ==> Truthy(r.value.content)
    ensures r.Normal? ==> r.value.coordinates == (if Truthy(Get(data, "coordinates")) then Get(data, "coordinates") else Undefined)
    ensures r.Normal? ==> r.value.youtube == Some(ExtractedIds(Get(data, "youtube")).value)
    ensures r.Normal? ==> r.value.sources == Some(DetermineSources(data))
    ensures r.Normal? ==> r.value.metrics == Some(Get(Get(data, "metrics"), "latency"))
  {
    match Member(data, "youtube")
    case Thrown => Thrown
    case Normal(yt) =>
      match ExtractedIds(yt)
      case Thrown => Thrown
      case Normal(ids) =>
        Normal(Message(
          Assistant,
          Or(Get(data, "response"), Str(NoResponseText)),
          Or(Get(data, "coordinates"), Undefined),
          Some(ids),
          Some(DetermineSources(data)),
          Some(Get(Get(data, "metrics"), "latency"))))
  }

  /** What `fetch` and `response.json()` produced: a network error, or an
      HTTP answer whose body parsed as JSON (`Some`) or did not (`None`). */
  datatype FetchOutcome = NetworkError | Answered(ok: bool, body: Option<Json>)

  /** The message handed to `onNewMessage`: present exactly on the success
      path. */
  function Delivered(reply: FetchOutcome): Option<Message> {
    match reply
    case NetworkError => None
    case Answered(ok, body) =>
      if !ok || body.None? then None
      else
        match AssistantMessage(body.value)
        case Normal(m) => Some(m)
        case Thrown => None
  }

  /** The entry the submit appends after the user's: the assembled message on
      success, the fixed offline message on any failure. */
  function ReplyMessage(reply: FetchOutcome): (m: Message)
    ensures m.role == Assistant
    ensures Delivered(reply).Some? ==> m == Delivered(reply).value && m.youtube.Some?
    ensures Delivered(reply).None? ==> m == OfflineMessage
    ensures m == OfflineMessage <==> Delivered(reply).None?
  {
    if Delivered(reply).Some? then Delivered(reply).value else OfflineMessage
  }

  /** The request body the panel posts. */
  datatype ChatRequest = ChatRequest(query: string, sessionId: string)

  /** The pipeline indicator's steps, as `simulatePipeline` sets them. */
  const PipelineSteps := [1, 2, 3, 0]

  // ---------------------------------------------------------------------
  // The component's state
  // ---------------------------------------------------------------------

  class ChatInterface {
    var messages: seq<Message>
    var input: string
    var isThinking: bool
    var pipelineStep: int
    /** Every value `pipelineStep` has been set to, in order (timers left out). */
    var pipelineTrace: seq<int>

    constructor ()
      ensures messages == [] && input == "" && !isThinking && pipelineStep == 0 && pipelineTrace == []
    {
      messages := [];
      input := "";
      isThinking := false;
      pipelineStep := 0;
      pipelineTrace := [];
    }

    /** The guard of `handleSubmit` (and the button's `disabled`). */
    predicate CanSubmit()
      reads this
    {
      Trim(input) != "" && !isThinking
    }

    /** The input box's `onChange`. */
    method SetInput(text: string)
      modifies this`input
      ensures input == text
    {
      input := text;
    }

    /** `simulatePipeline`: steps 1, 2, 3, then back to 0. */
    method SimulatePipeline()
      modifies this`pipelineStep, this`pipelineTrace
      ensures pipelineStep == 0
      ensures pipelineTrace == old(pipelineTrace) + PipelineSteps
    {
      pipelineStep := 1;
      pipelineTrace := pipelineTrace + [pipelineStep];
      pipelineStep := 2;
      pipelineTrace := pipelineTrace + [pipelineStep];
      pipelineStep := 3;
      pipelineTrace := pipelineTrace + [pipelineStep];
      pipelineStep := 0;
      pipelineTrace := pipelineTrace + [pipelineStep];
    }

    /** The synchronous part of `handleSubmit`, up to the `fetch`: the guard,
        the user message (trimmed), clearing the input, raising the thinking
        flag and starting the pipeline indicator. Returns the request sent,
        or `None` when the guard refuses. */
    method Submit() returns (request: Option<ChatRequest>)
      modifies this
      ensures !old(CanSubmit()) ==> request == None && unchanged(this)
      ensures old(CanSubmit()) ==> request == Some(ChatRequest(Trim(old(input)), PanelSessionId))
      ensures old(CanSubmit()) ==> messages == old(messages) + [UserMessage(Trim(old(input)))]
      ensures old(CanSubmit()) ==> input == "" && isThinking && pipelineStep == 0
      ensures old(CanSubmit()) ==> pipelineTrace == old(pipelineTrace) + PipelineSteps
    {
      if Trim(input) == "" || isThinking {
        return None;
      }
      var text := Trim(input);
      messages := messages + [UserMessage(text)];
      input := "";
      isThinking := true;
      SimulatePipeline();
      request := Some(ChatRequest(text, PanelSessionId));
    }

    /** The continuation of `handleSubmit` once `fetch` settles: append the
        assembled message and notify the parent, or append the offline
        message; then lower the thinking flag. */
    method Receive(reply: FetchOutcome) returns (notified: Option<Message>)
      requires isThinking
      modifies this`messages, this`isThinking
      ensures messages == old(messages) + [ReplyMessage(reply)]
      ensures !isThinking
      ensures notified == Delivered(reply)
    {
      notified := None;
      var failed := true;
      if reply.Answered? && reply.ok && reply.body.Some? {
        var data := reply.body.value;
        if !Nullish(data) {
          var ytIds := ExtractYoutubeIds(Get(data, "youtube"));
          if ytIds.Normal? {
            var assistantMessage := Message(
              Assistant,
              Or(Get(data, "response"), Str(NoResponseText)),
              Or(Get(data, "coordinates"), Undefined),
              Some(ytIds.value),
              Some(DetermineSources(data)),
              Some(Get(Get(data, "metrics"), "latency")));
            messages := messages + [assistantMessage];
            notified := Some(assistantMessage);
            failed := false;
          }
        }
      }
      if failed {
        messages := messages + [OfflineMessage];
      }
      isThinking := false;
    }

    /** `handleSubmit` run to completion with the given `fetch` outcome. A
        refused submit changes nothing and sends nothing; an accepted one
        appends exactly two entries, the user's trimmed text and then the
        reply, and leaves the panel ready for the next submit. */
    method HandleSubmit(reply: FetchOutcome) returns (request: Option<ChatRequest>, notified: Option<Message>)
      modifies this
      ensures !old(CanSubmit()) ==> request == None && notified == None && unchanged(this)
      ensures old(CanSubmit()) ==> request == Some(ChatRequest(Trim(old(input)), PanelSessionId))
      ensures old(CanSubmit()) ==> messages == old(messages) + [UserMessage(Trim(old(input))), ReplyMessage(reply)]
      ensures old(CanSubmit()) ==> notified == Delivered(reply)
      ensures old(CanSubmit()) ==> input == "" && !isThinking && pipelineStep == 0
      ensures old(CanSubmit()) ==> pipelineTrace == old(pipelineTrace) + PipelineSteps
    {
      request := Submit();
      notified := None;
      if request.Some? {
        notified := Receive(reply);
      }
    }
  }
}
