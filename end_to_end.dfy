/** How the pieces meet: the text the YouTube formatter of
    backend/app/tools/youtube_search.py produces is the `youtube_data` the
    verifier node of backend/app/agent_logic.py filters. */
module EndToEnd {
  import opened Wrappers
  import opened PyText
  import YoutubeSearch
  import AgentLogic

  /** The lines that mention one of the keywords, ignoring case, in order:
      the verifier's filter without its `"http"` check. */
  function Mentioning(lines: seq<string>, keywords: seq<string>): seq<string> {
    if lines == [] then []
    else Mentioning(lines[..|lines| - 1], keywords)
         + (if AgentLogic.AnyIn(Lower(lines[|lines| - 1]), keywords) then [lines[|lines| - 1]] else [])
  }

  /** On lines that all carry a link the `"http"` check removes nothing. */
  lemma {:induction false} LinkCheckRedundant(lines: seq<string>, keywords: seq<string>)
    requires forall i :: 0 <= i < |lines| ==> Contains(lines[i], "http")
    ensures AgentLogic.KeepValid(lines, keywords) == Mentioning(lines, keywords)
  {
    if lines != [] {
      LinkCheckRedundant(lines[..|lines| - 1], keywords);
    }
  }

  /** The empty text splits into one empty line, which has no link. */
  lemma EmptyHasNoLinkLine(data: string)
    requires |Split(data, '\n')| >= 1 && Contains(Split(data, '\n')[0], "http")
    ensures data != ""
  {
  }

  /** For a successful search with items that all have a title and an id
      (neither holding a line break), the verifier keeps exactly the
      formatted lines that mention a query word longer than three
      characters, in item order; its `"http"` check never rejects one. */
  lemma FormattedVideosFiltered(apiKey: Option<string>, items: seq<YoutubeSearch.Item>, query: string)
    requires apiKey.Some? && apiKey.value != ""
    requires |items| > 0
    requires forall i :: 0 <= i < |items| ==> YoutubeSearch.Complete(items[i])
    requires forall i :: 0 <= i < |items| ==> '\n' !in YoutubeSearch.TitleOf(items[i]) && '\n' !in YoutubeSearch.VideoIdOf(items[i])
    ensures var data := YoutubeSearch.SearchResult(apiKey, YoutubeSearch.Response(YoutubeSearch.Items(items)));
      var lines := Split(data, '\n');
      |lines| == |items|
      && (forall i :: 0 <= i < |items| ==> lines[i] == YoutubeSearch.FormatLine(YoutubeSearch.TitleOf(items[i]), YoutubeSearch.VideoIdOf(items[i])))
      && AgentLogic.ValidVideos(Some(data), query) == Mentioning(lines, AgentLogic.Keywords(query))
  {
    var data := YoutubeSearch.SearchResult(apiKey, YoutubeSearch.Response(YoutubeSearch.Items(items)));
    var lines := Split(data, '\n');
    YoutubeSearch.ResultLines(apiKey, items);
    EmptyHasNoLinkLine(data);
    assert AgentLogic.PyTruthy(Some(data));
    LinkCheckRedundant(lines, AgentLogic.Keywords(query));
  }
}
