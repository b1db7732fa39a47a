/** frontend/src/components/MediaGrid.tsx: what the grid renders for a list
    of video ids and a list of source labels, and the links it builds from an
    id, which the extractor of the chat panel reads back. */
module MediaGrid {
  import opened Wrappers
  import opened JsValues
  import opened Chat

  const WatchBase := "https://www.youtube.com/watch?v="
  const ThumbnailBase := "https://img.youtube.com/vi/"
  const ThumbnailSuffix := "/mqdefault.jpg"

  /** The card's `href`. */
  function WatchUrl(id: string): string {
    WatchBase + id
  }

  /** The card's thumbnail `src`. */
  function ThumbnailUrl(id: string): string {
    ThumbnailBase + id + ThumbnailSuffix
  }

  /** `sourceColors`: a colour class for three of the labels. */
  const SourceColors: map<string, string> := map[
    LocalDb := "bg-emerald-500/20 text-emerald-400 border-emerald-500/30",
    Reddit := "bg-orange-500/20 text-orange-400 border-orange-500/30",
    YouTube := "bg-red-500/20 text-red-400 border-red-500/30"]

  /** `sourceColors[source] || ''` */
  function SourceColor(source: string): (c: string)
    ensures source in SourceColors ==> c == SourceColors[source]
    ensures c != "" <==> source == LocalDb || source == Reddit || source == YouTube
    ensures source == VectorSearch ==> c == ""
  {
    if source in SourceColors then SourceColors[source] else ""
  }

  datatype Chip = Chip(name: string, className: string)
  datatype VideoCard = VideoCard(videoId: string, href: string, thumbnail: string)

  /** The grid: the "No media available" placeholder, or the sources section
      and the videos section, each present or not. */
  datatype View =
    | NoMedia
    | Sections(sources: Option<seq<Chip>>, videos: Option<seq<VideoCard>>)

  function ChipFor(source: string): Chip {
    Chip(source, "media-chip " + SourceColor(source))
  }

  function CardFor(id: string): VideoCard {
    VideoCard(id, WatchUrl(id), ThumbnailUrl(id))
  }

  /** `MediaGrid({ youtube = [], sources = [] })`: an absent list renders as
      an empty one; the placeholder shows exactly when both are empty; each
      section shows exactly when its list is non-empty, one entry per element
      in input order. */
  function Render(youtube: Option<seq<string>>, sources: Option<seq<string>>): (v: View)
    ensures v.NoMedia? <==> |youtube.GetOr([])| == 0 && |sources.GetOr([])| == 0
    ensures v.Sections? ==> (v.sources.Some? <==> |sources.GetOr([])| > 0)
    ensures v.Sections? ==> (v.videos.Some? <==> |youtube.GetOr([])| > 0)
    ensures v.Sections? && v.videos.Some? ==>
      var ids := youtube.GetOr([]);
      |v.videos.value| == |ids| &&
      forall i :: 0 <= i < |ids| ==> v.videos.value[i].href == WatchBase + ids[i] && v.videos.value[i].thumbnail == ThumbnailBase + ids[i] + ThumbnailSuffix
    ensures v.Sections? && v.sources.Some? ==>
      var labels := sources.GetOr([]);
      |v.sources.value| == |labels| &&
      forall i :: 0 <= i < |labels| ==> v.sources.value[i].name == labels[i] && v.sources.value[i].className == "media-chip " + SourceColor(labels[i])
  {
    var ids := youtube.GetOr([]);
    var labels := sources.GetOr([]);
    if |ids| == 0 && |labels| == 0 then NoMedia
    else
      Sections(
        if |labels| > 0 then Some(seq(|labels|, i requires 0 <= i < |labels| => ChipFor(labels[i]))) else None,
        if |ids| > 0 then Some(seq(|ids|, i requires 0 <= i < |ids| => CardFor(ids[i]))) else None)
  }

  /** The id stands in the card's href right after `v=`, and in the
      thumbnail between the `/vi/` path and `/mqdefault.jpg`. */
  lemma LinksCarryId(id: string)
    ensures WatchUrl(id)[|WatchBase|..] == id
    ensures ThumbnailUrl(id)[|ThumbnailBase|..|ThumbnailBase| + |id|] == id
  {
    assert (ThumbnailBase + id + ThumbnailSuffix)[|ThumbnailBase|..|ThumbnailBase| + |id|] == id;
  }

  /** Scanning an href for `v=` finds exactly its id. */
  lemma WatchUrlWatchMatches(id: string)
    requires IsVideoId(id)
    ensures MatchAll(WatchUrl(id), WatchPrefix, 0) == [id]
  {
    var s := WatchUrl(id);
    assert |WatchBase| == 32;
    forall k | 0 <= k < 30 ensures !MatchesAt(s, WatchPrefix, k) {
      assert s[k] == WatchBase[k];
      assert WatchBase[k] != 'v';
      MismatchAt(s, WatchPrefix, k, 0);
    }
    MatchAllSkip(s, WatchPrefix, 0, 30);
    MatchAfter("https://www.youtube.com/watch?", WatchPrefix, id, "");
    assert "https://www.youtube.com/watch?" + WatchPrefix + id + "" == s;
    MatchAllEnd(s, WatchPrefix, 43);
  }

  /** An href holds no `youtu.be/` link. */
  lemma WatchUrlNoShortMatch(id: string)
    requires IsVideoId(id)
    ensures MatchAll(WatchUrl(id), ShortPrefix, 0) == []
  {
    var s := WatchUrl(id);
    forall k | 0 <= k <= |s| ensures !MatchesAt(s, ShortPrefix, k) {
      if k + |ShortPrefix| + IdLength <= |s| {
        assert s[k] == WatchBase[k];
        if WatchBase[k] != 'y' {
          MismatchAt(s, ShortPrefix, k, 0);
        } else {
          assert k == 12 && s[k + 5] == 'b';
          MismatchAt(s, ShortPrefix, k, 5);
        }
      }
    }
    MatchAllNone(s, ShortPrefix);
  }

  /** Round trip with the extractor: for any valid id, the card's href, given
      as a string, as a one-element list or as an object's `url`, extracts to
      exactly that id. */
  lemma WatchUrlRoundTrip(id: string)
    requires IsVideoId(id)
    ensures ExtractedIds(Str(WatchUrl(id))) == Normal([id])
    ensures ExtractedIds(Arr([Str(WatchUrl(id))])) == Normal([id])
    ensures ExtractedIds(Arr([Obj(map["url" := Str(WatchUrl(id))])])) == Normal([id])
  {
    WatchUrlWatchMatches(id);
    WatchUrlNoShortMatch(id);
    assert MatchAll(WatchUrl(id), WatchPrefix, 0) + MatchAll(WatchUrl(id), ShortPrefix, 0) == [id];
    assert Dedup([id]) == [id] by {
      assert [id][..0] == [];
    }
    assert Truthy(Str(WatchUrl(id)));
    FirstMatchIsFirstOfAll(WatchUrl(id), WatchPrefix, 0);
    assert ParseString(WatchUrl(id)) == Some(id);
    assert [Str(WatchUrl(id))][..0] == [];
    assert ItemId(Str(WatchUrl(id))) == Normal(Some(id));
    assert ListIds([Str(WatchUrl(id))]) == Normal([id]);
    var o := Obj(map["url" := Str(WatchUrl(id))]);
    assert LinkOf(o) == Str(WatchUrl(id));
    assert [o][..0] == [];
    assert ItemId(o) == Normal(Some(id));
    assert ListIds([o]) == Normal([id]);
  }

  /** The cards' hrefs, in order, as the JSON strings a list of links
      would hold. */
  function Hrefs(ids: seq<string>): seq<Json> {
    if ids == [] then [] else Hrefs(ids[..|ids| - 1]) + [Str(WatchUrl(ids[|ids| - 1]))]
  }

  /** The `i`-th href is the watch link of the `i`-th id. */
  lemma {:induction false} HrefsAt(ids: seq<string>)
    ensures |Hrefs(ids)| == |ids|
    ensures forall i :: 0 <= i < |ids| ==> Hrefs(ids)[i] == Str(WatchUrl(ids[i]))
  {
    if ids != [] {
      HrefsAt(ids[..|ids| - 1]);
    }
  }

  /** Round trip over the whole grid: the hrefs of the rendered cards, given
      back to the extractor as a list, yield exactly the ids that were
      rendered, for any duplicate-free list of valid ids (which is what the
      extractor itself produces). */
  lemma RenderedHrefsRoundTrip(ids: seq<string>)
    requires forall i :: 0 <= i < |ids| ==> IsVideoId(ids[i])
    requires NoDuplicates(ids)
    ensures ExtractedIds(Arr(Hrefs(ids))) == Normal(ids)
  {
    HrefsListIds(ids);
    ExtractedFromList(Hrefs(ids), ids);
    DedupOfDistinct(ids);
  }

  lemma {:induction false} HrefsListIds(ids: seq<string>)
    requires forall i :: 0 <= i < |ids| ==> IsVideoId(ids[i])
    ensures ListIds(Hrefs(ids)) == Normal(ids)
  {
    if ids != [] {
      var p := ids[..|ids| - 1];
      var last := ids[|ids| - 1];
      var hrefs := Hrefs(ids);
      HrefsListIds(p);
      HrefItemId(last);
      assert hrefs == Hrefs(p) + [Str(WatchUrl(last))];
      assert hrefs[..|hrefs| - 1] == Hrefs(p);
      assert p + [last] == ids;
    }
  }

  /** One href, as a list element, yields its id. */
  lemma HrefItemId(id: string)
    requires IsVideoId(id)
    ensures ItemId(Str(WatchUrl(id))) == Normal(Some(id))
  {
    WatchUrlWatchMatches(id);
    FirstMatchIsFirstOfAll(WatchUrl(id), WatchPrefix, 0);
  }
}
