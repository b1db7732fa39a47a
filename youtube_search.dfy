/** backend/app/tools/youtube_search.py: `search_youtube_reviews`, which asks
    the YouTube Data API for three review videos and formats each as one
    line of text. The API call itself is an input: its outcome is given. */
module YoutubeSearch {
  import opened Wrappers
  import opened PyText

  /** `item['snippet']`: a dict whose `title` key may be missing. */
  datatype Snippet = Snippet(title: Option<string>)

  /** `item['id']`: a dict whose `videoId` key may be missing. */
  datatype VideoRef = VideoRef(videoId: Option<string>)

  /** One element of the response's `items`; `None` where the key is
      missing. */
  datatype Item = Item(snippet: Option<Snippet>, id: Option<VideoRef>)

  /** `response.get('items', [])`: the key absent (the default `[]`), present
      with `null`, or present with a list. */
  datatype ItemsField = Absent | Null | Items(list: seq<Item>)

  /** What `request.execute()` did: raised with a message, or returned a
      response. */
  datatype ApiOutcome = Raised(message: string) | Response(items: ItemsField)

  const MissingKeyText := "YouTube API Key is missing in .env."
  const NoVideosText := "No video reviews found."
  const ErrorPrefix := "YouTube API Error: "
  const VideoMarker := "\U{1F3A5}"
  const WatchBase := "https://www.youtube.com/watch?v="
  /** `str(TypeError)` raised by a `for` loop over `None`. */
  const NotIterableText := "'NoneType' object is not iterable"

  /** The search text sent to the API for a user query. */
  function SearchQuery(query: string): string {
    query + " food review mumbai"
  }

  /** `f"🎥 {title} - {url}"` */
  function FormatLine(title: string, videoId: string): string {
    VideoMarker + " " + title + " - " + WatchBase + videoId
  }

  /** `str(KeyError(key))`: the key in single quotes. */
  function KeyErrorText(key: string): string {
    "'" + key + "'"
  }

  /** The list the loop iterates over; `null` has none. */
  function ItemsOf(field: ItemsField): seq<Item> {
    if field.Items? then field.list else []
  }

  /** The first key the two lookups `item['snippet']['title']` and
      `item['id']['videoId']` find missing, in the order they are read. */
  function MissingKeyOf(item: Item): Option<string> {
    if item.snippet.None? then Some("snippet")
    else if item.snippet.value.title.None? then Some("title")
    else if item.id.None? then Some("id")
    else if item.id.value.videoId.None? then Some("videoId")
    else None
  }

  /** Both lookups succeed on `item`. */
  predicate Complete(item: Item) {
    MissingKeyOf(item).None?
  }

  function TitleOf(item: Item): string
    requires Complete(item)
  {
    item.snippet.value.title.value
  }

  function VideoIdOf(item: Item): string
    requires Complete(item)
  {
    item.id.value.videoId.value
  }

  /** The lines of the loop, or the missing key that stops it. */
  datatype Lines = Formatted(lines: seq<string>) | MissingKey(key: string)

  /** The loop over `items`, as a value: when every item is complete, each
      item's line in item order; otherwise the key missing from the first
      incomplete item. */
  function FormatItems(items: seq<Item>): (r: Lines)
    ensures r.Formatted? <==> forall i :: 0 <= i < |items| ==> Complete(items[i])
    ensures r.Formatted? ==>
              |r.lines| == |items|
              && forall i :: 0 <= i < |items| ==> r.lines[i] == FormatLine(TitleOf(items[i]), VideoIdOf(items[i]))
    ensures r.MissingKey? ==>
              exists i :: 0 <= i < |items| && MissingKeyOf(items[i]) == Some(r.key)
                          && forall j :: 0 <= j < i ==> Complete(items[j])
  {
    if items == [] then Formatted([])
    else
      var p := items[..|items| - 1];
      assert forall j :: 0 <= j < |p| ==> p[j] == items[j];
      match FormatItems(p)
      case MissingKey(k) => MissingKey(k)
      case Formatted(lines) =>
        var item := items[|items| - 1];
        match MissingKeyOf(item)
        case Some(k) => MissingKey(k)
        case None => Formatted(lines + [FormatLine(TitleOf(item), VideoIdOf(item))])
  }

  /** What `search_youtube_reviews` returns for a key and an API outcome. */
  function SearchResult(apiKey: Option<string>, outcome: ApiOutcome): string {
    if apiKey.None? || apiKey.value == "" then MissingKeyText
    else
      match outcome
      case Raised(message) => ErrorPrefix + message
      case Response(Null) => ErrorPrefix + NotIterableText
      case Response(field) =>
        match FormatItems(ItemsOf(field))
        case MissingKey(k) => ErrorPrefix + KeyErrorText(k)
        case Formatted(lines) => if lines == [] then NoVideosText else Join(lines, "\n")
  }

  /** `search_youtube_reviews`: the loop appends one line per item; a missing
      key raises, which the `except` turns into an error string. */
  method SearchYoutubeReviews(apiKey: Option<string>, outcome: ApiOutcome) returns (s: string)
    ensures s == SearchResult(apiKey, outcome)
  {
    if apiKey.None? || apiKey.value == "" {
      return MissingKeyText;
    }
    if outcome.Raised? {
      return ErrorPrefix + outcome.message;
    }
    if outcome.items.Null? {
      return ErrorPrefix + NotIterableText;
    }
    var items := ItemsOf(outcome.items);
    var videos: seq<string> := [];
    var i := 0;
    while i < |items|
      invariant 0 <= i <= |items|
      invariant FormatItems(items[..i]) == Formatted(videos)
    {
      var item := items[i];
      assert items[..i + 1][..i] == items[..i];
      var missing: Option<string> := None;
      if item.snippet.None? {
        missing := Some("snippet");
      } else if item.snippet.value.title.None? {
        missing := Some("title");
      } else if item.id.None? {
        missing := Some("id");
      } else if item.id.value.videoId.None? {
        missing := Some("videoId");
      }
      if missing.Some? {
        MissingKeyPersists(items, i + 1);
        return ErrorPrefix + KeyErrorText(missing.value);
      }
      var title := item.snippet.value.title.value;
      var videoId := item.id.value.videoId.value;
      videos := videos + [FormatLine(title, videoId)];
      i := i + 1;
    }
    assert items[..i] == items;
    s := if videos != [] then Join(videos, "\n") else NoVideosText;
  }

  /** Once the loop has stopped on a missing key, the remaining items do
      not matter. */
  lemma {:induction false} MissingKeyPersists(items: seq<Item>, n: nat)
    requires n <= |items| && FormatItems(items[..n]).MissingKey?
    ensures FormatItems(items) == FormatItems(items[..n])
    decreases |items| - n
  {
    if n < |items| {
      assert items[..n + 1][..n] == items[..n];
      MissingKeyPersists(items, n + 1);
    } else {
      assert items[..n] == items;
    }
  }

  /** Every result is one of four kinds: the missing-key text, an error
      string, the no-videos text, or the lines of every item joined by
      newlines. A `null` item list and a missing key are both reported as
      error strings. */
  lemma ResultKinds(apiKey: Option<string>, outcome: ApiOutcome)
    ensures var s := SearchResult(apiKey, outcome);
      s == MissingKeyText
      || (|s| >= |ErrorPrefix| && s[..|ErrorPrefix|] == ErrorPrefix)
      || s == NoVideosText
      || (outcome.Response? && |ItemsOf(outcome.items)| > 0
          && s == Join(FormatItems(ItemsOf(outcome.items)).lines, "\n"))
    ensures apiKey.None? || apiKey == Some("") ==> SearchResult(apiKey, outcome) == MissingKeyText
    ensures apiKey.Some? && apiKey.value != "" && outcome == Response(Null) ==>
      SearchResult(apiKey, outcome) == ErrorPrefix + NotIterableText
    ensures apiKey.Some? && apiKey.value != "" && outcome.Response? && !outcome.items.Null?
            && FormatItems(ItemsOf(outcome.items)).MissingKey? ==>
      SearchResult(apiKey, outcome) == ErrorPrefix + KeyErrorText(FormatItems(ItemsOf(outcome.items)).key)
    ensures apiKey.Some? && apiKey.value != "" && outcome.Response? && !outcome.items.Null?
            && |ItemsOf(outcome.items)| == 0 ==>
      SearchResult(apiKey, outcome) == NoVideosText
  {
    var s := SearchResult(apiKey, outcome);
    if apiKey.Some? && apiKey.value != "" {
      if outcome.Raised? {
        assert s == ErrorPrefix + outcome.message;
        assert s[..|ErrorPrefix|] == ErrorPrefix;
      } else if outcome.items.Null? {
        assert s[..|ErrorPrefix|] == ErrorPrefix;
      } else if FormatItems(ItemsOf(outcome.items)).MissingKey? {
        assert s == ErrorPrefix + KeyErrorText(FormatItems(ItemsOf(outcome.items)).key);
        assert s[..|ErrorPrefix|] == ErrorPrefix;
      }
    }
  }

  /** Every formatted line holds `http`: the watch URL. */
  lemma LineHasHttp(title: string, videoId: string)
    ensures Contains(FormatLine(title, videoId), "http")
    ensures OccursAt(FormatLine(title, videoId), "http", |VideoMarker + " " + title + " - "|)
  {
    var pre := VideoMarker + " " + title + " - ";
    var url := WatchBase + videoId;
    assert url[..4] == "http";
    assert FormatLine(title, videoId) == pre + url;
    assert url == "http" + url[4..];
    assert FormatLine(title, videoId) == pre + "http" + url[4..];
    OccursBetween(pre, "http", url[4..]);
  }

  /** When no title contains a newline, splitting a successful result on
      newlines gives back exactly one line per item, in item order, and each
      of them contains `http`: every line passes the first check of the
      verifier that reads this text. */
  lemma ResultLines(apiKey: Option<string>, items: seq<Item>)
    requires apiKey.Some? && apiKey.value != ""
    requires |items| > 0
    requires forall i :: 0 <= i < |items| ==> Complete(items[i])
    requires forall i :: 0 <= i < |items| ==> '\n' !in TitleOf(items[i]) && '\n' !in VideoIdOf(items[i])
    ensures var parts := Split(SearchResult(apiKey, Response(Items(items))), '\n');
      |parts| == |items|
      && forall i :: 0 <= i < |items| ==>
           parts[i] == FormatLine(TitleOf(items[i]), VideoIdOf(items[i])) && Contains(parts[i], "http")
  {
    var lines := FormatItems(items).lines;
    forall k | 0 <= k < |lines| ensures '\n' !in lines[k] {
      var t := TitleOf(items[k]);
      var v := VideoIdOf(items[k]);
      assert lines[k] == VideoMarker + " " + t + " - " + WatchBase + v;
    }
    SplitJoin(lines, '\n');
    forall i | 0 <= i < |items| ensures Contains(lines[i], "http") {
      LineHasHttp(TitleOf(items[i]), VideoIdOf(items[i]));
    }
  }
}
