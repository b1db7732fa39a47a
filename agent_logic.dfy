/** backend/app/agent_logic.py: the agent graph that answers a query. A
    router classifies the query; a general query gets a direct reply, any
    other goes through a retrieval agent, the verifier and the synthesizer.
    The LLM, the database and the web and video searches are inputs: each is
    a function from its request to its answer. For an LLM call `None` means
    the call raised; the other tools catch their own errors. */
module AgentLogic {
  import opened Wrappers
  import opened PyText
  import YoutubeSearch

  /** One history entry, `{"role": ..., "content": ...}`. */
  datatype Entry = Entry(role: string, content: string)

  /** A `{lat, lng}` pair, kept opaque. */
  datatype Coords = Coords(lat: real, lng: real)

  /** `AgentState`: every slot is `None` until a node sets it. */
  datatype AgentState = AgentState(
    query: string,
    chatHistory: seq<Entry>,
    intent: Option<string>,
    sqlData: Option<string>,
    ragData: Option<string>,
    webData: Option<string>,
    youtubeData: Option<string>,
    refinedContext: Option<string>,
    validVideos: Option<seq<string>>,
    coordinates: Option<Coords>,
    discoveryData: Option<seq<string>>,
    finalResponse: Option<string>)

  /** The input `ainvoke` starts from. */
  function InitialState(query: string, history: seq<Entry>): AgentState {
    AgentState(query, history, None, None, None, None, None, None, None, None, None, None)
  }

  /** Python truthiness of an optional string. */
  predicate PyTruthy(s: Option<string>) {
    s.Some? && s.value != ""
  }

  /** `run_sql_check`'s SQL text and coordinates (its URL is not used). */
  datatype SqlHit = SqlHit(sql: Option<string>, coordinates: Option<Coords>)

  /** What the synthesizer's system prompt is built from. */
  datatype SynthesisPrompt = SynthesisPrompt(intent: string, history: string, data: Option<string>)

  /** The outside world the nodes call. */
  datatype Tools = Tools(
    classify: string -> Option<string>,
    converse: string -> Option<string>,
    sqlCheck: string -> SqlHit,
    semantic: string -> Option<string>,
    webCheck: string -> Option<string>,
    youtubeKey: Option<string>,
    youtubeApi: string -> YoutubeSearch.ApiOutcome,
    extractNames: Option<string> -> Option<seq<string>>,
    lookupName: string -> Option<string>,
    sqlStats: string -> Option<string>,
    synthesize: (SynthesisPrompt, string) -> Option<string>)

  // ---------------------------------------------------------------------
  // The router and the edge table
  // ---------------------------------------------------------------------

  /** The graph's nodes, `router` to `synthesizer`, and `END`. */
  datatype Node = Router | Generalist | Specific | Discovery | Stats | Verifier | Synthesizer | End

  /** The name each node is registered under. */
  function NodeName(n: Node): string {
    match n
    case Router => "router"
    case Generalist => "generalist_agent"
    case Specific => "specific_agent"
    case Discovery => "discovery_agent"
    case Stats => "stats_agent"
    case Verifier => "verifier"
    case Synthesizer => "synthesizer"
    case End => "__end__"
  }

  /** The intent used when the classifying call raises. */
  const FallbackIntent := "DISCOVERY"

  /** `node_router`'s intent: the reply stripped and upper-cased, or
      `DISCOVERY` when the call raises. It never has a lowercase ASCII
      letter nor white space at either end. */
  function RouterIntent(reply: Option<string>): (intent: string)
    ensures reply.None? ==> intent == FallbackIntent
    ensures forall i :: 0 <= i < |intent| ==> !('a' <= intent[i] <= 'z')
    ensures intent != "" ==> !IsPySpace(intent[0]) && !IsPySpace(intent[|intent| - 1])
  {
    match reply
    case None => FallbackIntent
    case Some(text) => Upper(Strip(text))
  }

  /** `route(state)` */
  function Route(intent: string): string {
    Lower(intent) + "_agent"
  }

  lemma AppendCancel(a: string, b: string, c: string)
    requires a + c == b + c
    ensures a == b
  {
    assert a == (a + c)[..|a|];
    assert b == (b + c)[..|b|];
  }

  /** Two intents share a route key only when they agree once lower-cased. */
  lemma RouteInjective(a: string, b: string)
    requires Route(a) == Route(b)
    ensures Lower(a) == Lower(b)
  {
    AppendCancel(Lower(a), Lower(b), "_agent");
  }

  /** An intent has an edge exactly when, lower-cased, it is one of the four
      categories; the four upper-case answers reach their own agents. */
  lemma RouteTableSpec(intent: string)
    ensures Route(intent) in RouteTable <==>
      Lower(intent) in {"general", "specific", "discovery", "stats"}
    ensures Lower(intent) == "general" ==> RouteTable[Route(intent)] == Generalist
    ensures Lower(intent) == "specific" ==> RouteTable[Route(intent)] == Specific
    ensures Lower(intent) == "discovery" ==> RouteTable[Route(intent)] == Discovery
    ensures Lower(intent) == "stats" ==> RouteTable[Route(intent)] == Stats
  {
    var l := Lower(intent);
    assert "general" + "_agent" == "general_agent";
    assert "specific" + "_agent" == "specific_agent";
    assert "discovery" + "_agent" == "discovery_agent";
    assert "stats" + "_agent" == "stats_agent";
    if Route(intent) in RouteTable {
      if Route(intent) == "general_agent" {
        AppendCancel(l, "general", "_agent");
      } else if Route(intent) == "specific_agent" {
        AppendCancel(l, "specific", "_agent");
      } else if Route(intent) == "discovery_agent" {
        AppendCancel(l, "discovery", "_agent");
      } else {
        AppendCancel(l, "stats", "_agent");
      }
    }
  }

  /** The classifier's four answers, and the fallback, route as intended. */
  lemma KnownIntentsRoute()
    ensures Route("GENERAL") == "general_agent"
    ensures Route("SPECIFIC") == "specific_agent"
    ensures Route("STATS") == "stats_agent"
    ensures Route(FallbackIntent) == "discovery_agent"
  {
    assert Lower("GENERAL") == "general";
    assert Lower("SPECIFIC") == "specific";
    assert Lower("STATS") == "stats";
    assert Lower("DISCOVERY") == "discovery";
  }

  /** Whatever the classifier replies, the route key is the reply stripped
      and lower-cased with `_agent` appended, and it has an edge exactly when
      that text is one of the four categories: a reply such as `" general\n"`
      reaches the general agent. */
  lemma RouterReplyRoutes(reply: string)
    ensures Route(RouterIntent(Some(reply))) == Lower(Strip(reply)) + "_agent"
    ensures Route(RouterIntent(Some(reply))) in RouteTable <==>
      Lower(Strip(reply)) in {"general", "specific", "discovery", "stats"}
  {
    LowerUpper(Strip(reply));
    RouteTableSpec(RouterIntent(Some(reply)));
  }

  /** A reply padded with white space and in mixed case still reaches the
      general agent. */
  /** A reply that strips to `General` reaches the general agent. */
  lemma StrippedGeneralRoutes(reply: string)
    requires Strip(reply) == "General"
    ensures Route(RouterIntent(Some(reply))) == "general_agent"
  {
    RouterReplyRoutes(reply);
    assert Lower("General") == "general";
  }

  /** A classifier reply padded with white space on either side, such as
      `" General\n"`, reaches the general agent. */
  lemma PaddedReplyRoutes(pre: string, post: string)
    requires forall k :: 0 <= k < |pre| ==> IsPySpace(pre[k])
    requires forall k :: 0 <= k < |post| ==> IsPySpace(post[k])
    ensures Route(RouterIntent(Some(pre + "General" + post))) == "general_agent"
  {
    StripPadded(pre, "General", post);
    StrippedGeneralRoutes(pre + "General" + post);
  }

  // ---------------------------------------------------------------------
  // The verifier
  // ---------------------------------------------------------------------

  /** The words of `ws` longer than three characters, in order. */
  function LongWords(ws: seq<string>): seq<string> {
    if ws == [] then []
    else LongWords(ws[..|ws| - 1]) + (if |ws[|ws| - 1]| > 3 then [ws[|ws| - 1]] else [])
  }

  /** The keywords are exactly the words longer than three characters. */
  lemma {:induction false} LongWordsSpec(ws: seq<string>)
    ensures forall k :: k in LongWords(ws) <==> k in ws && |k| > 3
  {
    if ws != [] {
      LongWordsSpec(ws[..|ws| - 1]);
      assert ws == ws[..|ws| - 1] + [ws[|ws| - 1]];
    }
  }

  /** `[k for k in q_lower.split() if len(k) > 3]` */
  function Keywords(query: string): seq<string> {
    LongWords(Words(Lower(query)))
  }

  /** `any(k in text for k in keywords)` */
  predicate AnyIn(text: string, keywords: seq<string>) {
    keywords != [] && (Contains(text, keywords[0]) || AnyIn(text, keywords[1..]))
  }

  /** `any` holds exactly when some keyword occurs in the text. */
  lemma {:induction false} AnyInSpec(text: string, keywords: seq<string>)
    ensures AnyIn(text, keywords) <==> exists k :: k in keywords && Contains(text, k)
  {
    if keywords != [] {
      AnyInSpec(text, keywords[1..]);
      assert forall k :: k in keywords <==> k == keywords[0] || k in keywords[1..];
    }
  }

  /** `"http" in line` and some keyword in `line.lower()`. */
  predicate IsValidVideo(line: string, keywords: seq<string>) {
    Contains(line, "http") && AnyIn(Lower(line), keywords)
  }

  /** The lines that pass both checks, in order. */
  function KeepValid(lines: seq<string>, keywords: seq<string>): seq<string> {
    if lines == [] then []
    else KeepValid(lines[..|lines| - 1], keywords)
         + (if IsValidVideo(lines[|lines| - 1], keywords) then [lines[|lines| - 1]] else [])
  }

  /** `valid_vids` */
  function ValidVideos(youtubeData: Option<string>, query: string): seq<string> {
    if !PyTruthy(youtubeData) then [] else KeepValid(Split(youtubeData.value, '\n'), Keywords(query))
  }

  /** The filter keeps exactly the lines that pass both checks, and keeps
      them in order: filtering two pieces one after the other is filtering
      their concatenation. */
  lemma {:induction false} KeepValidSpec(lines: seq<string>, keywords: seq<string>)
    ensures forall l :: l in KeepValid(lines, keywords) <==> l in lines && IsValidVideo(l, keywords)
    ensures |KeepValid(lines, keywords)| <= |lines|
  {
    if lines != [] {
      KeepValidSpec(lines[..|lines| - 1], keywords);
      assert lines == lines[..|lines| - 1] + [lines[|lines| - 1]];
    }
  }

  lemma {:induction false} KeepValidConcat(a: seq<string>, b: seq<string>, keywords: seq<string>)
    ensures KeepValid(a + b, keywords) == KeepValid(a, keywords) + KeepValid(b, keywords)
  {
    if b == [] {
      assert a + b == a;
    } else {
      var c := b[..|b| - 1];
      KeepValidConcat(a, c, keywords);
      assert (a + b)[..|a + b| - 1] == a + c;
    }
  }

  /** Absent or empty video text, or a query without a word longer than
      three characters, keeps nothing. */
  lemma NothingToKeep(youtubeData: Option<string>, query: string)
    requires !PyTruthy(youtubeData) || Keywords(query) == []
    ensures ValidVideos(youtubeData, query) == []
  {
    if PyTruthy(youtubeData) {
      KeepNothing(Split(youtubeData.value, '\n'));
    }
  }

  lemma {:induction false} KeepNothing(lines: seq<string>)
    ensures KeepValid(lines, []) == []
  {
    if lines != [] {
      KeepNothing(lines[..|lines| - 1]);
    }
  }

  const DbHeader := "\U{1F525} OFFICIAL DB:\n"
  const VibeHeader := "\U{2728} VIBE MATCHES:\n"
  const WebHeader := "\U{1F30D} WEB RESULTS:\n"

  function DbSection(sql: Option<string>): string {
    if PyTruthy(sql) then DbHeader + sql.value + "\n\n" else ""
  }

  function VibeSection(rag: Option<string>): string {
    if PyTruthy(rag) then VibeHeader + rag.value + "\n\n" else ""
  }

  function WebSection(web: Option<string>): string {
    if PyTruthy(web) then WebHeader + web.value + "\n" else ""
  }

  /** `refined_context`: the database, vibe and web sections, in that order. */
  function RefinedContext(sql: Option<string>, rag: Option<string>, web: Option<string>): string {
    DbSection(sql) + VibeSection(rag) + WebSection(web)
  }

  /** The context is empty exactly when all three slots are falsy. */
  lemma ContextEmpty(sql: Option<string>, rag: Option<string>, web: Option<string>)
    ensures RefinedContext(sql, rag, web) == "" <==> !PyTruthy(sql) && !PyTruthy(rag) && !PyTruthy(web)
  {
    if PyTruthy(sql) {
      assert |RefinedContext(sql, rag, web)| >= |DbHeader|;
    } else if PyTruthy(rag) {
      assert |RefinedContext(sql, rag, web)| >= |VibeHeader|;
    } else if PyTruthy(web) {
      assert |RefinedContext(sql, rag, web)| >= |WebHeader|;
    }
  }

  /** The database text, when there is one, opens the context under its
      header. */
  lemma ContextOpensWithDb(sql: Option<string>, rag: Option<string>, web: Option<string>)
    requires PyTruthy(sql)
    ensures OccursAt(RefinedContext(sql, rag, web), DbHeader, 0)
    ensures OccursAt(RefinedContext(sql, rag, web), sql.value, |DbHeader|)
  {
    var v := VibeSection(rag);
    var w := WebSection(web);
    var rest := "\n\n" + v + w;
    var c := RefinedContext(sql, rag, web);
    assert c == DbSection(sql) + v + w;
    assert DbSection(sql) == DbHeader + sql.value + "\n\n";
    assert c == DbHeader + sql.value + rest;
    HeadedText(DbHeader, sql.value, rest);
  }

  /** Without database text, the vibe text, when there is one, opens the
      context under its header. */
  lemma ContextOpensWithVibes(sql: Option<string>, rag: Option<string>, web: Option<string>)
    requires !PyTruthy(sql) && PyTruthy(rag)
    ensures OccursAt(RefinedContext(sql, rag, web), VibeHeader, 0)
    ensures OccursAt(RefinedContext(sql, rag, web), rag.value, |VibeHeader|)
  {
    var w := WebSection(web);
    var rest := "\n\n" + w;
    var c := RefinedContext(sql, rag, web);
    assert DbSection(sql) == "";
    assert c == VibeSection(rag) + w;
    assert VibeSection(rag) == VibeHeader + rag.value + "\n\n";
    assert c == VibeHeader + rag.value + rest;
    HeadedText(VibeHeader, rag.value, rest);
  }

  lemma HeadedText(header: string, text: string, rest: string)
    ensures OccursAt(header + text + rest, header, 0)
    ensures OccursAt(header + text + rest, text, |header|)
  {
    OccursBetween("", header, text + rest);
    assert "" + header + (text + rest) == header + text + rest;
    OccursBetween(header, text, rest);
  }

  /** The web text, when there is one, closes the context under its header. */
  lemma ContextCloses(sql: Option<string>, rag: Option<string>, web: Option<string>)
    requires PyTruthy(web)
    ensures var c := RefinedContext(sql, rag, web);
      var tail := WebHeader + web.value + "\n";
      |c| >= |tail| && OccursAt(c, tail, |c| - |tail|)
  {
    var head := DbSection(sql) + VibeSection(rag);
    OccursBetween(head, WebSection(web), "");
    assert head + WebSection(web) + "" == RefinedContext(sql, rag, web);
  }

  /** `node_verifier`: the loop over the lines of the video text, then the
      context built section by section. */
  method NodeVerifier(state: AgentState) returns (validVids: seq<string>, context: string)
    ensures validVids == ValidVideos(state.youtubeData, state.query)
    ensures context == RefinedContext(state.sqlData, state.ragData, state.webData)
  {
    var qLower := Lower(state.query);
    var rawVids := if PyTruthy(state.youtubeData) then state.youtubeData.value else "";
    validVids := [];
    if rawVids != "" {
      var lines := Split(rawVids, '\n');
      var keywords := LongWords(Words(qLower));
      var i := 0;
      while i < |lines|
        invariant 0 <= i <= |lines|
        invariant validVids == KeepValid(lines[..i], keywords)
      {
        assert lines[..i + 1][..i] == lines[..i];
        if Contains(lines[i], "http") {
          if AnyIn(Lower(lines[i]), keywords) {
            validVids := validVids + [lines[i]];
          }
        }
        i := i + 1;
      }
      assert lines[..i] == lines;
    }
    context := "";
    if PyTruthy(state.sqlData) {
      context := context + DbHeader + state.sqlData.value + "\n\n";
    }
    assert context == DbSection(state.sqlData);
    if PyTruthy(state.ragData) {
      context := context + VibeHeader + state.ragData.value + "\n\n";
    }
    assert context == DbSection(state.sqlData) + VibeSection(state.ragData);
    if PyTruthy(state.webData) {
      context := context + WebHeader + state.webData.value + "\n";
    }
  }

  // ---------------------------------------------------------------------
  // The synthesizer's history
  // ---------------------------------------------------------------------

  /** `xs[-n:]` */
  function LastN<T>(xs: seq<T>, n: nat): (r: seq<T>)
    ensures |r| == if |xs| <= n then |xs| else n
  {
    if |xs| <= n then xs else xs[|xs| - n..]
  }

  /** `f"{m['role'].upper()}: {m['content']}"` */
  function HistoryLine(e: Entry): string {
    Upper(e.role) + ": " + e.content
  }

  function HistoryLines(entries: seq<Entry>): seq<string> {
    seq(|entries|, i requires 0 <= i < |entries| => HistoryLine(entries[i]))
  }

  /** `history_str`: the last five entries, one line each. */
  function HistoryString(history: seq<Entry>): string {
    Join(HistoryLines(LastN(history, 5)), "\n")
  }

  /** Only the last five entries count: anything before them leaves the
      history text unchanged. */
  lemma HistoryWindow(older: seq<Entry>, recent: seq<Entry>)
    requires |recent| >= 5
    ensures HistoryString(older + recent) == HistoryString(recent)
  {
    assert LastN(older + recent, 5) == LastN(recent, 5);
  }

  /** When no role or content holds a newline, the history text splits back
      into one line per entry of the window: at most five, the newest last. */
  lemma HistoryLinesBack(history: seq<Entry>)
    requires |history| > 0
    requires forall i :: 0 <= i < |history| ==> '\n' !in history[i].role && '\n' !in history[i].content
    ensures Split(HistoryString(history), '\n') == HistoryLines(LastN(history, 5))
    ensures |Split(HistoryString(history), '\n')| == if |history| < 5 then |history| else 5
    ensures Split(HistoryString(history), '\n')[|Split(HistoryString(history), '\n')| - 1] == HistoryLine(history[|history| - 1])
  {
    var w := LastN(history, 5);
    var lines := HistoryLines(w);
    forall k | 0 <= k < |lines| ensures '\n' !in lines[k] {
      var e := w[k];
      assert e == history[|history| - |w| + k];
      assert lines[k] == Upper(e.role) + ": " + e.content;
    }
    SplitJoin(lines, '\n');
  }

  // ---------------------------------------------------------------------
  // The nodes
  // ---------------------------------------------------------------------

  /** The video text a retrieval agent stores: `search_youtube_reviews(q)`. */
  function YoutubeData(tools: Tools, query: string): string {
    YoutubeSearch.SearchResult(tools.youtubeKey, tools.youtubeApi(YoutubeSearch.SearchQuery(query)))
  }

  /** The enrichment loop of `node_discovery`, as a value: the database
      entries of the extracted names that have one, in order, and the
      coordinates of the first such name for which the check returns any. */
  function Enrich(names: seq<string>, tools: Tools): (r: (seq<string>, Option<Coords>))
    ensures |r.0| <= |names|
    ensures forall f :: f in r.0 ==> f != ""
    ensures r.0 == [] ==> r.1.None?
  {
    if names == [] then ([], None)
    else
      var (enriched, coords) := Enrich(names[..|names| - 1], tools);
      var name := names[|names| - 1];
      var found := tools.lookupName(name);
      if PyTruthy(found) then
        (enriched + [found.value], if coords.None? then tools.sqlCheck(name).coordinates else coords)
      else (enriched, coords)
  }

  /** A name the database knows. */
  predicate Known(name: string, tools: Tools) {
    PyTruthy(tools.lookupName(name))
  }

  /** The entries are exactly the lookups of the known names; the
      coordinates are those the check gives for the first known name whose
      check gives any, and `None` when no known name's check gives any. */
  lemma {:induction false} EnrichSpec(names: seq<string>, tools: Tools)
    ensures forall f :: f in Enrich(names, tools).0 <==>
      exists i :: 0 <= i < |names| && Known(names[i], tools) && tools.lookupName(names[i]).value == f
    ensures Enrich(names, tools).1.None? <==>
      forall i :: 0 <= i < |names| && Known(names[i], tools) ==> tools.sqlCheck(names[i]).coordinates.None?
    ensures Enrich(names, tools).1.Some? ==>
      exists i :: 0 <= i < |names| && Known(names[i], tools) && tools.sqlCheck(names[i]).coordinates == Enrich(names, tools).1
        && forall j :: 0 <= j < i && Known(names[j], tools) ==> tools.sqlCheck(names[j]).coordinates.None?
  {
    if names != [] {
      var p := names[..|names| - 1];
      EnrichSpec(p, tools);
      assert forall i :: 0 <= i < |p| ==> p[i] == names[i];
      assert names == p + [names[|names| - 1]];
    }
  }

  /** A single name adds its entry, and its coordinates, exactly when the
      database knows it. */
  lemma EnrichSingle(name: string, tools: Tools)
    ensures Enrich([name], tools) ==
      if Known(name, tools) then ([tools.lookupName(name).value], tools.sqlCheck(name).coordinates) else ([], None)
  {
    assert [name][..0] == [];
    assert Enrich([], tools) == ([], None);
    if Known(name, tools) {
      assert [] + [tools.lookupName(name).value] == [tools.lookupName(name).value];
    }
  }

  /** The loop runs name by name: the entries of `a + b` are those of `a`
      followed by those of `b`, and the coordinates come from `a` when it
      has any. */
  lemma {:induction false} EnrichConcat(a: seq<string>, b: seq<string>, tools: Tools)
    ensures Enrich(a + b, tools).0 == Enrich(a, tools).0 + Enrich(b, tools).0
    ensures Enrich(a + b, tools).1 == if Enrich(a, tools).1.Some? then Enrich(a, tools).1 else Enrich(b, tools).1
    decreases |b|
  {
    if b == [] {
      assert a + b == a;
    } else {
      var p := b[..|b| - 1];
      assert (a + b)[..|a + b| - 1] == a + p;
      assert (a + b)[|a + b| - 1] == b[|b| - 1];
      EnrichConcat(a, p, tools);
      var name := b[|b| - 1];
      if Known(name, tools) {
        var u, v := Enrich(a, tools).0, Enrich(p, tools).0;
        assert u + v + [tools.lookupName(name).value] == u + (v + [tools.lookupName(name).value]);
      }
    }
  }

  /** The `for name in names` loop of `node_discovery`. */
  method EnrichNames(names: seq<string>, tools: Tools) returns (enriched: seq<string>, coords: Option<Coords>)
    ensures (enriched, coords) == Enrich(names, tools)
  {
    enriched := [];
    coords := None;
    var i := 0;
    while i < |names|
      invariant 0 <= i <= |names|
      invariant (enriched, coords) == Enrich(names[..i], tools)
    {
      assert names[..i + 1][..i] == names[..i];
      var name := names[i];
      var found := tools.lookupName(name);
      if PyTruthy(found) {
        enriched := enriched + [found.value];
        if coords.None? {
          coords := tools.sqlCheck(name).coordinates;
        }
      }
      i := i + 1;
    }
    assert names[..i] == names;
  }

  /** `node_specific`, `node_discovery` and `node_stats`: the retrieval
      agents' updates. None of them raises. */
  function AgentUpdate(agent: Node, s: AgentState, tools: Tools): AgentState {
    var q := s.query;
    match agent
    case Specific =>
      var hit := tools.sqlCheck(q);
      s.(sqlData := hit.sql, coordinates := hit.coordinates, ragData := tools.semantic(q),
         webData := tools.webCheck(q), youtubeData := Some(YoutubeData(tools, q)))
    case Discovery =>
      var web := tools.webCheck(q);
      var (enriched, coords) := Enrich(tools.extractNames(web).GetOr([]), tools);
      s.(webData := web, ragData := tools.semantic(q), discoveryData := Some(enriched),
         coordinates := coords, youtubeData := Some(YoutubeData(tools, q)))
    case _ => s.(sqlData := tools.sqlStats(q))
  }

  /** `node_verifier`'s update. */
  function VerifierUpdate(s: AgentState): AgentState {
    s.(validVideos := Some(ValidVideos(s.youtubeData, s.query)),
       refinedContext := Some(RefinedContext(s.sqlData, s.ragData, s.webData)))
  }

  /** `node_synthesize`'s update, or `None` when its LLM call raises. */
  function SynthesizerUpdate(s: AgentState, tools: Tools): Option<AgentState> {
    var prompt := SynthesisPrompt(s.intent.GetOr(""), HistoryString(s.chatHistory), s.refinedContext);
    match tools.synthesize(prompt, s.query)
    case None => None
    case Some(reply) => Some(s.(finalResponse := Some(reply)))
  }

  /** Each node's update merged into the state, or `None` when the node
      raises (only the LLM calls of the generalist and the synthesizer can;
      the router and the name extraction catch theirs). */
  function Apply(node: Node, s: AgentState, tools: Tools): Option<AgentState> {
    match node
    case Router => Some(s.(intent := Some(RouterIntent(tools.classify(s.query)))))
    case Generalist =>
      (match tools.converse(s.query)
       case None => None
       case Some(reply) => Some(s.(finalResponse := Some(reply))))
    case Specific => Some(AgentUpdate(node, s, tools))
    case Discovery => Some(AgentUpdate(node, s, tools))
    case Stats => Some(AgentUpdate(node, s, tools))
    case Verifier => Some(VerifierUpdate(s))
    case Synthesizer => SynthesizerUpdate(s, tools)
    case End => None
  }

  /** What each retrieval agent sets: the specific and discovery agents
      store the video text for the query, only the discovery agent a
      discovery list, the stats agent only the statistics text. None of them
      touches the query, the history, the intent nor the response. */
  lemma AgentFields(agent: Node, s: AgentState, tools: Tools)
    requires agent in {Specific, Discovery, Stats}
    ensures var s2 := AgentUpdate(agent, s, tools);
      s2.query == s.query && s2.chatHistory == s.chatHistory
      && s2.intent == s.intent && s2.finalResponse == s.finalResponse
      && (agent != Stats ==> s2.youtubeData == Some(YoutubeData(tools, s.query)))
      && (agent == Discovery ==> s2.discoveryData.Some?)
      && (agent != Discovery ==> s2.discoveryData == s.discoveryData)
      && (agent == Stats ==>
            s2.youtubeData == s.youtubeData && s2.coordinates == s.coordinates && s2.sqlData == tools.sqlStats(s.query))
  {
  }

  /** The verifier sets its two slots and nothing else. */
  lemma VerifierFields(s: AgentState)
    ensures VerifierUpdate(s).(validVideos := s.validVideos, refinedContext := s.refinedContext) == s
  {
  }

  // ---------------------------------------------------------------------
  // The graph
  // ---------------------------------------------------------------------

  /** The path map of the router's conditional edges. */
  const RouteTable := map[
    "general_agent" := Generalist,
    "specific_agent" := Specific,
    "discovery_agent" := Discovery,
    "stats_agent" := Stats]

  /** A compiled graph: its nodes, its entry point, its fixed edges and, per
      node, the path map of a conditional edge decided by `route`. */
  datatype Graph = Graph(
    nodes: set<Node>,
    entry: Node,
    edges: map<Node, Node>,
    branches: map<Node, map<string, Node>>)

  /** The graph `workflow.compile()` yields. */
  const Workflow := Graph(
    {Router, Generalist, Specific, Discovery, Stats, Verifier, Synthesizer},
    Router,
    map[Generalist := End, Specific := Verifier, Discovery := Verifier, Stats := Verifier,
        Verifier := Synthesizer, Synthesizer := End],
    map[Router := RouteTable])

  /** The node after `node` in state `s`, or `None` when the route has no
      entry in the path map (or the node no outgoing edge). */
  function Successor(g: Graph, node: Node, s: AgentState): Option<Node> {
    if node in g.branches then
      var key := Route(s.intent.GetOr(""));
      if key in g.branches[node] then Some(g.branches[node][key]) else None
    else if node in g.edges then Some(g.edges[node])
    else None
  }

  /** A run ends at `END` with a final state, or fails; either way with the
      nodes it executed, in order. */
  datatype RunResult = Finished(state: AgentState, path: seq<Node>) | Failed(path: seq<Node>)

  function Prepend(node: Node, r: RunResult): RunResult {
    match r
    case Finished(s, p) => Finished(s, [node] + p)
    case Failed(p) => Failed([node] + p)
  }

  /** The node functions a compiled graph calls: each node's update, or
      `None` when it raises. */
  type NodeStep = (Node, AgentState) -> Option<AgentState>

  /** LangGraph's default recursion limit: at most 25 node executions. */
  const RecursionLimit := 25

  /** Executing the graph from `node` with `budget` executions left. */
  function RunFrom(g: Graph, node: Node, s: AgentState, step: NodeStep, budget: nat): RunResult
    decreases budget
  {
    if budget == 0 then Failed([])
    else
      match step(node, s)
      case None => Failed([node])
      case Some(s2) =>
        match Successor(g, node, s2)
        case None => Failed([node])
        case Some(next) =>
          if next == End then Finished(s2, [node])
          else Prepend(node, RunFrom(g, next, s2, step, budget - 1))
  }

  /** This module's node functions. */
  function NodeFunctions(tools: Tools): NodeStep {
    (node: Node, s: AgentState) => Apply(node, s, tools)
  }

  /** `app_graph.ainvoke({"query": ..., "chat_history": ...})` */
  function Run(query: string, history: seq<Entry>, tools: Tools): RunResult {
    RunFrom(Workflow, Workflow.entry, InitialState(query, history), NodeFunctions(tools), RecursionLimit)
  }

  /** Whatever the node functions: after the router, an intent without an
      edge fails the run; any other continues at the agent the path map
      names. */
  lemma RouterShape(step: NodeStep, s: AgentState, budget: nat)
    requires budget >= 1 && step(Router, s).Some?
    ensures var s1 := step(Router, s).value;
      var key := Route(s1.intent.GetOr(""));
      RunFrom(Workflow, Router, s, step, budget)
      == if key in RouteTable then Prepend(Router, RunFrom(Workflow, RouteTable[key], s1, step, budget - 1))
         else Failed([Router])
  {
    var s1 := step(Router, s).value;
    var key := Route(s1.intent.GetOr(""));
    if key in RouteTable {
      RouteTargets(key);
    }
  }

  lemma RouteTargets(key: string)
    requires key in RouteTable
    ensures RouteTable[key] in {Generalist, Specific, Discovery, Stats}
    ensures RouteTable[key] == Generalist <==> key == "general_agent"
  {
  }

  /** Whatever the node functions: the generalist and the synthesizer
      answer and end the run, or raise. */
  lemma LastShape(step: NodeStep, node: Node, s: AgentState, budget: nat)
    requires node in {Generalist, Synthesizer} && budget >= 1
    ensures RunFrom(Workflow, node, s, step, budget)
      == (match step(node, s)
          case None => Failed([node])
          case Some(s2) => Finished(s2, [node]))
  {
  }

  /** Whatever the node functions: a retrieval agent that does not raise
      hands over to the verifier, and a verifier that does not raise to the
      synthesizer. */
  lemma RetrievalShape(step: NodeStep, agent: Node, s: AgentState, budget: nat)
    requires agent in {Specific, Discovery, Stats} && budget >= 3
    requires step(agent, s).Some? && step(Verifier, step(agent, s).value).Some?
    ensures RunFrom(Workflow, agent, s, step, budget)
      == Prepend(agent, Prepend(Verifier,
           RunFrom(Workflow, Synthesizer, step(Verifier, step(agent, s).value).value, step, budget - 2)))
  {
    var s2 := step(agent, s).value;
    assert Successor(Workflow, agent, s2) == Some(Verifier);
    assert Successor(Workflow, Verifier, step(Verifier, s2).value) == Some(Synthesizer);
  }

  /** `node` never raises. */
  ghost predicate Total(step: NodeStep, node: Node) {
    forall s :: step(node, s).Some?
  }

  /** Whatever the node functions, as long as the retrieval agents and the
      verifier never raise, a run from the router takes one of two paths:
      router and generalist for the key `general_agent`; router, the agent
      the path map names, verifier and synthesizer for the three other keys;
      any other key fails right after the router. */
  lemma RunShape(step: NodeStep, s0: AgentState)
    requires step(Router, s0).Some?
    requires Total(step, Specific) && Total(step, Discovery) && Total(step, Stats) && Total(step, Verifier)
    ensures var s1 := step(Router, s0).value;
      var key := Route(s1.intent.GetOr(""));
      var r := RunFrom(Workflow, Router, s0, step, RecursionLimit);
      (key !in RouteTable ==> r == Failed([Router]))
      && (key == "general_agent" ==>
            r == match step(Generalist, s1)
                 case None => Failed([Router, Generalist])
                 case Some(s2) => Finished(s2, [Router, Generalist]))
      && (key in RouteTable && key != "general_agent" ==>
            var s3 := step(Verifier, step(RouteTable[key], s1).value).value;
            r == match step(Synthesizer, s3)
                 case None => Failed([Router, RouteTable[key], Verifier, Synthesizer])
                 case Some(s4) => Finished(s4, [Router, RouteTable[key], Verifier, Synthesizer]))
  {
    var s1 := step(Router, s0).value;
    var key := Route(s1.intent.GetOr(""));
    RouterShape(step, s0, RecursionLimit);
    if key in RouteTable {
      RouteTargets(key);
      var agent := RouteTable[key];
      if key == "general_agent" {
        LastShape(step, Generalist, s1, RecursionLimit - 1);
      } else {
        assert step(agent, s1).Some?;
        assert step(Verifier, step(agent, s1).value).Some?;
        RetrievalShape(step, agent, s1, RecursionLimit - 1);
        LastShape(step, Synthesizer, step(Verifier, step(agent, s1).value).value, RecursionLimit - 3);
      }
    }
  }

  /** The state after the router, and the key its conditional edge looks up. */
  function RoutedState(query: string, history: seq<Entry>, tools: Tools): AgentState {
    InitialState(query, history).(intent := Some(RouterIntent(tools.classify(query))))
  }

  function RouteKey(query: string, tools: Tools): string {
    Route(RouterIntent(tools.classify(query)))
  }

  /** The state the synthesizer receives on a retrieval path. */
  function Retrieved(query: string, history: seq<Entry>, tools: Tools): AgentState
    requires RouteKey(query, tools) in RouteTable
  {
    VerifierUpdate(AgentUpdate(RouteTable[RouteKey(query, tools)], RoutedState(query, history, tools), tools))
  }

  /** This module's node functions, node by node. */
  lemma RouterApplies(tools: Tools, s: AgentState)
    ensures NodeFunctions(tools)(Router, s) == Some(s.(intent := Some(RouterIntent(tools.classify(s.query)))))
  {
  }

  lemma GeneralistApplies(tools: Tools, s: AgentState)
    ensures NodeFunctions(tools)(Generalist, s)
      == match tools.converse(s.query)
         case None => None
         case Some(reply) => Some(s.(finalResponse := Some(reply)))
  {
  }

  lemma AgentApplies(tools: Tools, agent: Node, s: AgentState)
    requires agent in {Specific, Discovery, Stats}
    ensures NodeFunctions(tools)(agent, s) == Some(AgentUpdate(agent, s, tools))
  {
  }

  lemma VerifierApplies(tools: Tools, s: AgentState)
    ensures NodeFunctions(tools)(Verifier, s) == Some(VerifierUpdate(s))
  {
  }

  lemma SynthesizerApplies(tools: Tools, s: AgentState)
    ensures NodeFunctions(tools)(Synthesizer, s) == SynthesizerUpdate(s, tools)
  {
  }

  /** The retrieval agents and the verifier never raise. */
  lemma RetrieversTotal(tools: Tools)
    ensures Total(NodeFunctions(tools), Specific) && Total(NodeFunctions(tools), Discovery)
    ensures Total(NodeFunctions(tools), Stats) && Total(NodeFunctions(tools), Verifier)
  {
    forall s: AgentState
      ensures NodeFunctions(tools)(Specific, s).Some? && NodeFunctions(tools)(Discovery, s).Some?
      ensures NodeFunctions(tools)(Stats, s).Some? && NodeFunctions(tools)(Verifier, s).Some?
    {
      AgentApplies(tools, Specific, s);
      AgentApplies(tools, Discovery, s);
      AgentApplies(tools, Stats, s);
      VerifierApplies(tools, s);
    }
  }

  /** `app_graph.ainvoke` for a query: `RunShape` for this module's nodes. */
  lemma RunOf(query: string, history: seq<Entry>, tools: Tools)
    ensures var key := RouteKey(query, tools);
      var s1 := RoutedState(query, history, tools);
      var r := Run(query, history, tools);
      (key !in RouteTable ==> r == Failed([Router]))
      && (key == "general_agent" ==>
            r == match tools.converse(query)
                 case None => Failed([Router, Generalist])
                 case Some(reply) => Finished(s1.(finalResponse := Some(reply)), [Router, Generalist]))
      && (key in RouteTable && key != "general_agent" ==>
            r == match SynthesizerUpdate(Retrieved(query, history, tools), tools)
                 case None => Failed([Router, RouteTable[key], Verifier, Synthesizer])
                 case Some(s4) => Finished(s4, [Router, RouteTable[key], Verifier, Synthesizer]))
  {
    var step := NodeFunctions(tools);
    var s0 := InitialState(query, history);
    var s1 := RoutedState(query, history, tools);
    var key := RouteKey(query, tools);
    RouterApplies(tools, s0);
    RetrieversTotal(tools);
    RunShape(step, s0);
    GeneralistApplies(tools, s1);
    if key in RouteTable && key != "general_agent" {
      var agent := RouteTable[key];
      AgentApplies(tools, agent, s1);
      VerifierApplies(tools, AgentUpdate(agent, s1, tools));
      SynthesizerApplies(tools, Retrieved(query, history, tools));
    }
  }

  /** A synthesizer that answers sets the final response and nothing else. */
  lemma SynthesizerAnswers(s: AgentState, tools: Tools)
    ensures SynthesizerUpdate(s, tools).Some? ==>
      SynthesizerUpdate(s, tools).value == s.(finalResponse := SynthesizerUpdate(s, tools).value.finalResponse)
      && SynthesizerUpdate(s, tools).value.finalResponse.Some?
  {
  }

  /** Every run takes one of two paths: router, generalist for a general
      intent; router, one retrieval agent, verifier, synthesizer for the
      three others; an intent without an edge fails right after the router.
      A finished run always has a final response, and the verifier runs
      exactly when the intent is not general. */
  lemma RunPaths(query: string, history: seq<Entry>, tools: Tools)
    ensures RouteKey(query, tools) !in RouteTable ==> Run(query, history, tools) == Failed([Router])
    ensures RouteKey(query, tools) == "general_agent" ==> Run(query, history, tools).path == [Router, Generalist]
    ensures RouteKey(query, tools) in RouteTable && RouteKey(query, tools) != "general_agent" ==>
      Run(query, history, tools).path == [Router, RouteTable[RouteKey(query, tools)], Verifier, Synthesizer]
    ensures Run(query, history, tools).Finished? ==>
      Run(query, history, tools).state.finalResponse.Some? && RouteKey(query, tools) in RouteTable
    ensures Run(query, history, tools).Finished? ==>
      (Verifier in Run(query, history, tools).path <==> RouteKey(query, tools) != "general_agent")
  {
    RunOf(query, history, tools);
    var key := RouteKey(query, tools);
    if key in RouteTable && key != "general_agent" {
      SynthesizerAnswers(Retrieved(query, history, tools), tools);
    }
  }

  // ---------------------------------------------------------------------
  // The response mapping
  // ---------------------------------------------------------------------

  /** The dictionary `process_user_query` returns. `youtube` is the raw
      video text; there is no `web`, `rag` nor `valid_videos` entry. */
  datatype ApiResult = ApiResult(
    response: string,
    intent: Option<string>,
    latency: real,
    sql: Option<string>,
    coordinates: Option<Coords>,
    youtube: Option<string>,
    discovery: Option<seq<string>>)

  /** The mapping of the final state, or `None` when `res['final_response']`
      raises a KeyError. `latency` is the measured time, already rounded. */
  function ResponseOf(res: AgentState, latency: real): (r: Option<ApiResult>)
    ensures r.Some? <==> res.finalResponse.Some?
    ensures r.Some? ==>
      r.value.response == res.finalResponse.value && r.value.intent == res.intent
      && r.value.youtube == res.youtubeData && r.value.latency == latency
    ensures r.Some? ==>
      r.value.sql == res.sqlData && r.value.coordinates == res.coordinates
      && r.value.discovery == res.discoveryData
  {
    if res.finalResponse.None? then None
    else Some(ApiResult(res.finalResponse.value, res.intent, latency, res.sqlData,
                        res.coordinates, res.youtubeData, res.discoveryData))
  }

  /** `process_user_query`: `None` when the run raises. */
  function ProcessUserQuery(query: string, sessionId: string, history: seq<Entry>, tools: Tools, latency: real): Option<ApiResult> {
    match Run(query, history, tools)
    case Failed(_) => None
    case Finished(res, _) => ResponseOf(res, latency)
  }

  /** What the frontend receives on the general path: the intent and the
      reply, and no data. */
  lemma GeneralResult(query: string, sessionId: string, history: seq<Entry>, tools: Tools, latency: real)
    requires RouteKey(query, tools) == "general_agent"
    ensures var r := ProcessUserQuery(query, sessionId, history, tools, latency);
      (r.Some? <==> tools.converse(query).Some?)
      && (r.Some? ==>
            r.value.response == tools.converse(query).value
            && r.value.intent == Some(RouterIntent(tools.classify(query)))
            && r.value.sql.None? && r.value.youtube.None? && r.value.coordinates.None? && r.value.discovery.None?)
  {
    RunOf(query, history, tools);
  }

  /** What the frontend receives on the other paths: the synthesizer's
      reply; for a specific or discovery query the formatter's video text
      verbatim (not the verifier's filtered list); a discovery list only for
      a discovery query; for a stats query the statistics text, and no
      video text nor coordinates. */
  lemma RetrievalResult(query: string, sessionId: string, history: seq<Entry>, tools: Tools, latency: real)
    requires RouteKey(query, tools) in RouteTable && RouteKey(query, tools) != "general_agent"
    ensures var r := ProcessUserQuery(query, sessionId, history, tools, latency);
      var agent := RouteTable[RouteKey(query, tools)];
      (r.Some? ==> r.value.intent == Some(RouterIntent(tools.classify(query))) && r.value.latency == latency)
      && (r.Some? && agent != Stats ==> r.value.youtube == Some(YoutubeData(tools, query)))
      && (r.Some? && agent == Discovery ==> r.value.discovery.Some?)
      && (r.Some? && agent != Discovery ==> r.value.discovery.None?)
      && (r.Some? && agent == Stats ==>
            r.value.youtube.None? && r.value.coordinates.None? && r.value.sql == tools.sqlStats(query))
  {
    RunOf(query, history, tools);
    var key := RouteKey(query, tools);
    RouteTargets(key);
    var agent := RouteTable[key];
    var s2 := AgentUpdate(agent, RoutedState(query, history, tools), tools);
    AgentFields(agent, RoutedState(query, history, tools), tools);
    VerifierFields(s2);
    SynthesizerAnswers(VerifierUpdate(s2), tools);
  }

  // ---------------------------------------------------------------------
  // Building the graph
  // ---------------------------------------------------------------------

  /** `StateGraph(AgentState)` as it is built up by `add_node`,
      `set_entry_point`, `add_conditional_edges` and `add_edge`. */
  class StateGraph {
    var nodes: set<Node>
    var entry: Option<Node>
    var edges: map<Node, Node>
    var branches: map<Node, map<string, Node>>

    constructor ()
      ensures nodes == {} && entry.None? && edges == map[] && branches == map[]
    {
      nodes := {};
      entry := None;
      edges := map[];
      branches := map[];
    }

    method AddNode(name: Node)
      modifies this`nodes
      ensures nodes == old(nodes) + {name}
    {
      nodes := nodes + {name};
    }

    method SetEntryPoint(name: Node)
      modifies this`entry
      ensures entry == Some(name)
    {
      entry := Some(name);
    }

    method AddEdge(source: Node, target: Node)
      modifies this`edges
      ensures edges == old(edges)[source := target]
    {
      edges := edges[source := target];
    }

    method AddConditionalEdges(source: Node, pathMap: map<string, Node>)
      modifies this`branches
      ensures branches == old(branches)[source := pathMap]
    {
      branches := branches[source := pathMap];
    }

    /** `compile()`: refuses a graph without an entry point, or with an edge
        that leaves or enters a node never added. */
    function Compile(): (g: Option<Graph>)
      reads this
      ensures g.Some? ==> g.value.entry in g.value.nodes && End !in g.value.nodes
      ensures g.Some? ==> forall n :: n in g.value.edges ==> n in g.value.nodes
      ensures g.Some? ==> forall n :: n in g.value.branches ==> n in g.value.nodes
    {
      if entry.Some? && entry.value in nodes && End !in nodes
         && (forall n :: n in edges ==> n in nodes && (edges[n] in nodes || edges[n] == End))
         && (forall n :: n in branches ==> n in nodes && forall k :: k in branches[n] ==> branches[n][k] in nodes)
      then Some(Graph(nodes, entry.value, edges, branches))
      else None
    }
  }

  /** The module-level construction of `workflow`, which compiles to
      exactly the graph the runs above execute. */
  method BuildWorkflow() returns (workflow: StateGraph)
    ensures fresh(workflow)
    ensures workflow.Compile() == Some(Workflow)
  {
    workflow := new StateGraph();
    workflow.AddNode(Router);
    workflow.AddNode(Generalist);
    workflow.AddNode(Specific);
    workflow.AddNode(Discovery);
    workflow.AddNode(Stats);
    workflow.AddNode(Verifier);
    workflow.AddNode(Synthesizer);
    assert workflow.nodes == Workflow.nodes;
    workflow.SetEntryPoint(Router);
    workflow.AddConditionalEdges(Router, RouteTable);
    workflow.AddEdge(Generalist, End);
    workflow.AddEdge(Specific, Verifier);
    workflow.AddEdge(Discovery, Verifier);
    workflow.AddEdge(Stats, Verifier);
    workflow.AddEdge(Verifier, Synthesizer);
    workflow.AddEdge(Synthesizer, End);
    assert workflow.edges == Workflow.edges;
    assert workflow.branches == Workflow.branches;
    CompilesToWorkflow(workflow);
  }

  /** A builder holding exactly `Workflow`'s parts compiles to it. */
  lemma CompilesToWorkflow(g: StateGraph)
    requires g.nodes == Workflow.nodes && g.entry == Some(Workflow.entry)
    requires g.edges == Workflow.edges && g.branches == Workflow.branches
    ensures g.Compile() == Some(Workflow)
  {
    WorkflowWellFormed();
  }

  /** Every edge of `Workflow` joins added nodes (or ends the run). */
  lemma WorkflowWellFormed()
    ensures forall n :: n in Workflow.edges ==> n in Workflow.nodes && (Workflow.edges[n] in Workflow.nodes || Workflow.edges[n] == End)
    ensures forall n :: n in Workflow.branches ==>
      n in Workflow.nodes && forall k :: k in Workflow.branches[n] ==> Workflow.branches[n][k] in Workflow.nodes
  {
    forall n | n in Workflow.branches
      ensures forall k :: k in Workflow.branches[n] ==> Workflow.branches[n][k] in Workflow.nodes
    {
      assert n == Router;
      forall k | k in RouteTable ensures RouteTable[k] in Workflow.nodes {
        assert k in {"general_agent", "specific_agent", "discovery_agent", "stats_agent"};
      }
    }
  }
}
