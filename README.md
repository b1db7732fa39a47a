# Munchy Mumbai, modelled in Dafny

Munchy Mumbai is a chat guide to Mumbai's restaurants. A user types a
question in a web page. The page posts it to a FastAPI backend. The backend
runs an agent graph: a router classifies the query; a general query gets a
direct reply; any other query goes through a retrieval agent (database, web,
vector and YouTube lookups), a verifier that filters the videos and builds
the context, and a synthesizer that writes the answer. The page turns the
loosely-typed JSON answer into a chat message: it extracts YouTube video ids,
labels the sources that answered, and updates a dashboard with a map, videos
and metrics.

This project models that core and proves what it promises:

| module | file | models |
|---|---|---|
| `Wrappers` | wrappers.dfy | `Option` |
| `JsValues` | js_values.dfy | JSON values as JavaScript sees them: truthiness, `\|\|`, `??`, `?.`, member access that throws on `null`, `trim`, `[...new Set(xs)]` |
| `PyText` | py_text.dfy | the Python string operations the backend uses: `in`, `lower`/`upper`, `strip`, `split()`, `split(sep)`, `sep.join` |
| `YoutubeSearch` | youtube_search.dfy | backend/app/tools/youtube_search.py |
| `AgentLogic` | agent_logic.dfy | backend/app/agent_logic.py: the nodes, the graph as it is built and compiled, its runs, and `process_user_query` |
| `Server` | chat_server.dfy | backend/app/main.py: the `chat_histories` store, `POST /chat` and `POST /suggest` |
| `Chat` | chat_interface.dfy | frontend/src/components/ChatInterface.tsx: `extractYoutubeIds`, `determineSources`, the assistant message and the panel's state |
| `PipelineVisualization` | pipeline_visualization.dfy | frontend/src/components/PipelineVisualization.tsx |
| `MediaGrid` | media_grid.dfy | frontend/src/components/MediaGrid.tsx, and the round trip of its links through the extractor |
| `IndexPage` | index_page.dfy | frontend/src/pages/Index.tsx: how each assistant message updates the dashboard |
| `DashboardPage` | dashboard_page.dfy | frontend/app/page.tsx: `generateUUID`, the metrics marquee, the inspector deck and `handleSend` |
| `EndToEnd` | end_to_end.dfy | how the text the YouTube formatter writes meets the verifier's filter |

Code that changes state step by step is modelled as such. The React
components' state is a class: `Chat.ChatInterface`,
`DashboardPage.MumbaiMunchDashboard` and `IndexPage.MumbaiMunchPage`. So are
the backend's `chat_histories` dictionary (`Server.ChatApp`) and the
LangGraph builder (`AgentLogic.StateGraph`). The source's loops are methods
with loop invariants, each proved equal to a function that specifies it:
`Chat.ExtractYoutubeIds`, `YoutubeSearch.SearchYoutubeReviews`,
`AgentLogic.EnrichNames` and `AgentLogic.NodeVerifier`. Everything else is
functions and lemmas.

The outside world is passed in as values:

- the LLM, the SQL database, the web and vector searches, and the YouTube
  API are fields of `AgentLogic.Tools`, each a function from its request to
  its answer. For the LLM calls (`classify`, `extractNames`, `converse`,
  `synthesize`), `None` means the call raised: the router and
  `node_discovery` catch it, while the generalist and the synthesizer let it
  escape. The vector search, the web search and the statistics query catch
  their own errors and return text, so for them `None` is only a value
  stored in the state slot;
- the agent the `/chat` endpoint calls is a parameter of type
  `Server.Agent`, and `Server.AgentOf` builds it from `AgentLogic.ProcessUserQuery`;
- what `fetch` and `response.json()` produced is a `Chat.FetchOutcome`;
- random draws (`Math.random`) and measured times are parameters.

Three behaviours of the code a reader may not expect:

- On a string the extractor scans only for `v=` and `youtu.be/`. `embed/` is recognised only
  in list elements (`Chat.EmbedLinkOnlyInLists`).
- The extractor can throw. A list element that is an object whose
  `url`/`link`/`href` is truthy but not a string (`{url: 5}`) has no
  `.match` method. The resulting TypeError is caught by `handleSubmit`, which
  shows the offline message (`Chat.ExtractedIds`, `Chat.ReplyMessage`).
- The backend's answer has no `web` or `rag` key. So the panel never shows
  "Reddit" for a real answer. Its `youtube` entry is the formatter's raw text,
  not the verifier's filtered list (`AgentLogic.RetrievalResult`).

## Model

| member | source | states |
|---|---|---|
| JsValues.Member | frontend/src/components/ChatInterface.tsx:143 | `data.youtube` throws exactly on `null`/`undefined` and otherwise reads the key |
| JsValues.LeadingSpaces | frontend/src/components/ChatInterface.tsx:110 | counts exactly the white space `trim` removes at the front: all of it is white space and the next character is not |
| JsValues.TrailingSpaces | frontend/src/components/ChatInterface.tsx:110 | the same at the end |
| JsValues.TrimSpec | frontend/src/components/ChatInterface.tsx:110 | `trim` is a slice of the input with only white space cut off on either side and none left at its ends; it is empty exactly when the input is all white space, which is when the submit guard refuses |
| JsValues.FirstIndex | frontend/src/components/ChatInterface.tsx:52 | the position of the first occurrence: it holds the element and no earlier position does |
| JsValues.DedupSpec | frontend/src/components/ChatInterface.tsx:52 | `[...new Set(xs)]` keeps exactly the elements of `xs`, each once, ordered by first occurrence |
| JsValues.FirstIndexPrefix | frontend/src/components/ChatInterface.tsx:52 | appending elements does not move an element's first occurrence |
| JsValues.FirstIndexLast | frontend/src/components/ChatInterface.tsx:52 | a new element appended last first occurs at the end |
| JsValues.DedupConstant | frontend/src/components/ChatInterface.tsx:52 | a non-empty list of one repeated id deduplicates to that id alone |
| JsValues.DedupOfDistinct | frontend/src/components/ChatInterface.tsx:52 | a duplicate-free list is unchanged by deduplication |
| PyText.OccursBetween | backend/app/agent_logic.py:126 | a string is `in` any text built around it |
| PyText.Lower | backend/app/agent_logic.py:119 | `lower()` turns each upper-case ASCII letter into its lower-case form, leaves every other character as it is, and leaves no upper-case ASCII letter |
| PyText.Upper | backend/app/agent_logic.py:57 | `upper()` turns each lower-case ASCII letter into its upper-case form, leaves every other character as it is, and leaves no lower-case ASCII letter; white space and line breaks stay where they were |
| PyText.LowerUpper | backend/app/agent_logic.py:170 | lower-casing the upper-cased intent gives the lower-cased reply |
| PyText.LeadingSpaces | backend/app/agent_logic.py:57 | counts exactly the white space `strip()` removes at the front |
| PyText.TrailingSpaces | backend/app/agent_logic.py:57 | counts exactly the white space `strip()` removes at the end |
| PyText.Strip | backend/app/agent_logic.py:57 | `strip()` is a slice of the input with only white space cut off on either side, and neither starts nor ends with white space |
| PyText.StripPadded | backend/app/agent_logic.py:57 | `strip()` removes exactly the white-space padding around a text whose ends are not white space |
| PyText.WordLength | backend/app/agent_logic.py:128 | the length of the leading run of non-space characters, which is followed by white space or the end |
| PyText.Words | backend/app/agent_logic.py:128 | `split()` yields non-empty words without white space |
| PyText.WordsSplitAt | backend/app/agent_logic.py:128 | `split()` of a text cut at a white-space character is the words before it followed by the words after it |
| PyText.WordsSingle | backend/app/agent_logic.py:128 | `split()` of a non-empty text without white space is that text alone |
| PyText.Split | backend/app/agent_logic.py:125 | `split('\n')` always yields at least one piece |
| PyText.SplitWithoutSeparator | backend/app/agent_logic.py:125 | a text without the separator splits into itself alone |
| PyText.SplitAfterPiece | backend/app/agent_logic.py:125 | splitting `a + sep + b` yields `a` and then the pieces of `b` |
| PyText.SplitJoin | backend/app/tools/youtube_search.py:34 | splitting `"\n".join(parts)` on newlines gives back `parts` when no part holds a newline |
| PyText.JoinSplit | backend/app/agent_logic.py:125 | no piece of `split(sep)` holds the separator, and joining the pieces with it gives back the text |
| YoutubeSearch.FormatItems | backend/app/tools/youtube_search.py:27-32 | when every item has `snippet.title` and `id.videoId`, the loop yields one line per item in item order, each the title and watch URL; otherwise it stops on the key missing from the first incomplete item, read in the order `snippet`, `title`, `id`, `videoId` |
| YoutubeSearch.SearchYoutubeReviews | backend/app/tools/youtube_search.py:11-37 | the loop with its early exits computes exactly `SearchResult` |
| YoutubeSearch.MissingKeyPersists | backend/app/tools/youtube_search.py:28-30 | once an item lacks a key, the items after it do not change the result |
| YoutubeSearch.ResultKinds | backend/app/tools/youtube_search.py:13-37 | every result is the missing-key text, an error string, the no-videos text, or the item lines joined by newlines; no key gives the missing-key text, a `null` item list gives the not-iterable error, a missing key gives the error naming that key in quotes, and no items give the no-videos text |
| YoutubeSearch.LineHasHttp | backend/app/tools/youtube_search.py:31-32 | every formatted line holds `http`, at the start of its URL |
| YoutubeSearch.ResultLines | backend/app/tools/youtube_search.py:27-34 | a successful result splits back into one line per item, in item order, each holding `http` |
| AgentLogic.RouterIntent | backend/app/agent_logic.py:56-58 | the intent is `DISCOVERY` when the LLM call raises; otherwise it has no lowercase letter and no white space at either end |
| AgentLogic.RouteInjective | backend/app/agent_logic.py:170 | two intents with the same `_agent` key have the same lower-case form |
| AgentLogic.RouteTableSpec | backend/app/agent_logic.py:170-176 | an intent has an edge exactly when, lower-cased, it is one of the four categories, and each category reaches its own agent |
| AgentLogic.KnownIntentsRoute | backend/app/agent_logic.py:170-176 | `GENERAL`, `SPECIFIC`, `STATS` and the fallback `DISCOVERY` route to their agents |
| AgentLogic.RouterReplyRoutes | backend/app/agent_logic.py:57 | whatever the classifier replies, the route key is the reply stripped and lower-cased plus `_agent`, and it has an edge exactly when that text is one of the four categories |
| AgentLogic.StrippedGeneralRoutes | backend/app/agent_logic.py:57 | a reply that strips to `General` routes to `general_agent` |
| AgentLogic.PaddedReplyRoutes | backend/app/agent_logic.py:57 | a reply `General` padded with white space on either side routes to `general_agent` |
| AgentLogic.LongWordsSpec | backend/app/agent_logic.py:128 | the keywords are exactly the query words longer than three characters |
| AgentLogic.AnyInSpec | backend/app/agent_logic.py:128 | `any(k in line ...)` holds exactly when some keyword occurs in the line |
| AgentLogic.KeepValidSpec | backend/app/agent_logic.py:124-129 | the verifier keeps exactly the lines that hold `http` and a keyword, and never more lines than it was given |
| AgentLogic.KeepValidConcat | backend/app/agent_logic.py:125-129 | the filter works line by line: filtering a concatenation concatenates the filtered parts |
| AgentLogic.NothingToKeep | backend/app/agent_logic.py:122-129 | absent or empty video text, or a query with no word longer than three characters, keeps no video |
| AgentLogic.KeepNothing | backend/app/agent_logic.py:128 | with no keywords no line is kept |
| AgentLogic.ContextEmpty | backend/app/agent_logic.py:132-135 | the context is empty exactly when the SQL, RAG and web slots are all falsy |
| AgentLogic.ContextOpensWithDb | backend/app/agent_logic.py:133 | a database text opens the context under its header |
| AgentLogic.ContextOpensWithVibes | backend/app/agent_logic.py:134 | without database text, a vibe text opens the context under its header |
| AgentLogic.HeadedText | backend/app/agent_logic.py:133-134 | a section starts with its header followed by its text |
| AgentLogic.ContextCloses | backend/app/agent_logic.py:135 | a web text closes the context under its header, with one newline |
| AgentLogic.NodeVerifier | backend/app/agent_logic.py:117-137 | the verifier's loop and its section-by-section context compute exactly `ValidVideos` and `RefinedContext` |
| AgentLogic.LastN | backend/app/main.py:37 | `xs[-n:]` has `n` elements, or all of `xs` when it is shorter |
| AgentLogic.HistoryWindow | backend/app/agent_logic.py:140-141 | entries older than the last five do not change the history text |
| AgentLogic.HistoryLinesBack | backend/app/agent_logic.py:141 | the history text splits back into one `ROLE: content` line per entry of the last five, at most five, the newest last |
| AgentLogic.Enrich | backend/app/agent_logic.py:99-104 | every kept entry is non-empty, there are no more entries than names, and no coordinates are found when nothing is kept |
| AgentLogic.EnrichSpec | backend/app/agent_logic.py:99-104 | the entries are exactly the lookups of the names the database knows; the coordinates are the first ones the check gives for a known name, and `None` exactly when no known name's check gives any |
| AgentLogic.EnrichSingle | backend/app/agent_logic.py:100-102 | one name adds its lookup and its check's coordinates exactly when the database knows it |
| AgentLogic.EnrichConcat | backend/app/agent_logic.py:99-104 | the entries of two runs of names are those of the first followed by those of the second, and the coordinates come from the first run when it finds any |
| AgentLogic.EnrichNames | backend/app/agent_logic.py:99-104 | the `for name in names` loop computes exactly `Enrich` |
| AgentLogic.AgentFields | backend/app/agent_logic.py:78-115 | the specific and discovery agents store the video text for the query, only discovery a discovery list, stats only the statistics text; none touches the query, history, intent or response |
| AgentLogic.VerifierFields | backend/app/agent_logic.py:117-137 | the verifier sets its two slots and nothing else |
| AgentLogic.RouterShape | backend/app/agent_logic.py:168-176 | whatever the node functions, a run from the router continues at the agent its route key names, or fails after the router when the key has no edge |
| AgentLogic.RouteTargets | backend/app/agent_logic.py:171-176 | every edge of the router leads to one of the four agents, and only `general_agent` to the generalist |
| AgentLogic.LastShape | backend/app/agent_logic.py:178-183 | the generalist and the synthesizer end the run, or it fails there when they raise |
| AgentLogic.RetrievalShape | backend/app/agent_logic.py:179-182 | a retrieval agent passes to the verifier and then to the synthesizer |
| AgentLogic.RunShape | backend/app/agent_logic.py:158-185 | with total retrieval agents, a run is router then generalist, or router, agent, verifier and synthesizer, or fails right after the router on an unknown key; it ends exactly when the last node answers |
| AgentLogic.RouterApplies | backend/app/agent_logic.py:44-60 | the router node sets only the intent, from the LLM's reply |
| AgentLogic.GeneralistApplies | backend/app/agent_logic.py:62-76 | the generalist sets the reply as final response, or raises with the LLM |
| AgentLogic.AgentApplies | backend/app/agent_logic.py:78-115 | the retrieval agents never raise and apply their updates |
| AgentLogic.VerifierApplies | backend/app/agent_logic.py:117-137 | the verifier never raises and applies its update |
| AgentLogic.SynthesizerApplies | backend/app/agent_logic.py:139-156 | the synthesizer answers from the intent, history text and context, or raises with the LLM |
| AgentLogic.RetrieversTotal | backend/app/agent_logic.py:78-137 | the retrieval agents and the verifier never raise |
| AgentLogic.RunOf | backend/app/agent_logic.py:190 | `ainvoke` on a query follows the general path, a retrieval path, or fails after the router, with the states each node produces |
| AgentLogic.SynthesizerAnswers | backend/app/agent_logic.py:155-156 | an answering synthesizer sets the final response and nothing else |
| AgentLogic.RunPaths | backend/app/agent_logic.py:168-185 | the nodes a run executes, per route key; a finished run has a response and passed the verifier exactly when the intent is not general |
| AgentLogic.ResponseOf | backend/app/agent_logic.py:191-199 | the result exists exactly when the final response does, and carries it with the intent, the latency, the SQL text, the coordinates, the raw video text and the discovery list of the final state |
| AgentLogic.GeneralResult | backend/app/agent_logic.py:188-199 | on the general path the result is the generalist's reply and intent with no data, and exists exactly when the LLM answers |
| AgentLogic.RetrievalResult | backend/app/agent_logic.py:188-199 | on the other paths the result carries the intent and latency, the raw video text for specific and discovery queries, a discovery list only for discovery, and for stats the statistics text with no video text or coordinates |
| AgentLogic.StateGraph.constructor | backend/app/agent_logic.py:159 | a new builder has no nodes, entry or edges |
| AgentLogic.StateGraph.AddNode | backend/app/agent_logic.py:160-166 | adds the node and changes nothing else |
| AgentLogic.StateGraph.SetEntryPoint | backend/app/agent_logic.py:168 | sets the entry point |
| AgentLogic.StateGraph.AddEdge | backend/app/agent_logic.py:178-183 | records the fixed edge from the source |
| AgentLogic.StateGraph.AddConditionalEdges | backend/app/agent_logic.py:171-176 | records the path map of the source |
| AgentLogic.StateGraph.Compile | backend/app/agent_logic.py:185 | a compiled graph has its entry among its nodes and only edges that leave added nodes |
| AgentLogic.BuildWorkflow | backend/app/agent_logic.py:159-185 | the module-level construction compiles to exactly the graph the runs execute |
| AgentLogic.CompilesToWorkflow | backend/app/agent_logic.py:185 | a builder holding the workflow's parts compiles to it |
| AgentLogic.WorkflowWellFormed | backend/app/agent_logic.py:159-183 | every edge of the workflow joins added nodes or ends the run |
| Server.ChatAnswer | backend/app/main.py:37-50 | the answer is the agent's result whenever it returns and HTTP 500 exactly when it raises; the agent gets the session's newest six entries, none for a new session |
| Server.ChatAppends | backend/app/main.py:42-46 | a successful call appends exactly the user query and then the reply to its session, keeping the earlier entries |
| Server.ChatFailureKeeps | backend/app/main.py:35-36 | a failing call appends nothing; its only change is the empty list of a new session |
| Server.ChatIsolates | backend/app/main.py:28-50 | other sessions are the same before and after a call |
| Server.TurnAlternates | backend/app/main.py:43-44 | an alternating history stays alternating when a user and an assistant entry are appended |
| Server.ChatKeepsAlternation | backend/app/main.py:28-50 | every call keeps every session a strict alternation of user and assistant entries |
| Server.WindowsAgree | backend/app/main.py:37 | the six entries the server passes contain the five the synthesizer shows, so the window does not change the history text |
| Server.ChatApp.constructor | backend/app/main.py:22 | the store starts empty and well formed |
| Server.ChatApp.ChatEndpoint | backend/app/main.py:28-50 | the endpoint's steps leave the store and return the answer `Chat` specifies, and keep the store well formed |
| Server.Suggest | backend/app/main.py:57-68 | `/suggest` returns the database rows, or `[]` when the lookup raises |
| Chat.MatchAllSound | frontend/src/components/ChatInterface.tsx:29-30 | every capture of a global search is an eleven-character id that stands in the text right after the prefix |
| Chat.FirstMatchIsFirstOfAll | frontend/src/components/ChatInterface.tsx:18-21 | the single search finds the first capture of the global one |
| Chat.MatchAllSkip | frontend/src/components/ChatInterface.tsx:29-30 | positions where the pattern does not match can be skipped |
| Chat.MatchAllEnd | frontend/src/components/ChatInterface.tsx:29-30 | no match starts past the last position with room for one |
| Chat.MatchAllNone | frontend/src/components/ChatInterface.tsx:29-30 | a pattern that matches nowhere yields no capture |
| Chat.MismatchAt | frontend/src/components/ChatInterface.tsx:13-15 | the pattern cannot match where a prefix character differs from the text |
| Chat.MatchAfter | frontend/src/components/ChatInterface.tsx:13-15 | the pattern matches where the prefix is followed by an id |
| Chat.ParseString | frontend/src/components/ChatInterface.tsx:18-24 | `parseString` returns only valid ids |
| Chat.FirstMatchSpec | frontend/src/components/ChatInterface.tsx:20 | `str.match(pattern)` finds nothing exactly when the pattern matches nowhere, and otherwise captures the leftmost match |
| Chat.ParseStringSpec | frontend/src/components/ChatInterface.tsx:18-24 | `parseString` returns nothing exactly when no pattern matches; otherwise the capture of the leftmost match of the first pattern, in the order `v=`, `youtu.be/`, `embed/`, that matches at all |
| Chat.ItemId | frontend/src/components/ChatInterface.tsx:36-48 | a string element yields `parseString` of itself; an object's truthy string link yields `parseString` of the link; a falsy link, null, numbers and booleans yield nothing; an element throws exactly when it is an object with a truthy non-string link |
| Chat.ListIdsSpec | frontend/src/components/ChatInterface.tsx:35-50 | the list case throws exactly when some element throws; otherwise every id comes from an element and every element's id is there |
| Chat.ListIdsSingle | frontend/src/components/ChatInterface.tsx:36-49 | a one-element list yields that element's id, nothing, or the throw |
| Chat.ListIdsConcat | frontend/src/components/ChatInterface.tsx:36-49 | the list throws when either part throws, and otherwise its ids are those of the first part followed by those of the second |
| Chat.ListIdsThrownPersists | frontend/src/components/ChatInterface.tsx:36-49 | once an element throws, the whole call throws |
| Chat.ExtractedFromList | frontend/src/components/ChatInterface.tsx:35-52 | a list whose elements yield `ids` extracts to those ids without repeats |
| Chat.ExtractedIds | frontend/src/components/ChatInterface.tsx:8-53 | falsy input and values that are neither string nor list give `[]`; only a list with a throwing element throws; the ids are valid and distinct |
| Chat.ExtractYoutubeIds | frontend/src/components/ChatInterface.tsx:8-53 | the function with its `forEach` loop computes exactly `ExtractedIds` |
| Chat.StringInputSpec | frontend/src/components/ChatInterface.tsx:27-32 | on a string the ids are exactly the `v=` and `youtu.be/` captures, each once, in order of first occurrence |
| Chat.SameIdEverywhere | frontend/src/components/ChatInterface.tsx:29-31 | a text that refers to one id however many times gives that id once |
| Chat.RepeatedReferenceOnce | frontend/src/components/ChatInterface.tsx:29-31 | a `v=` link, a `youtu.be/` link and the `v=` link again give the id once |
| Chat.RepeatedWatchMatches | frontend/src/components/ChatInterface.tsx:29 | that text has two `v=` captures, both the id |
| Chat.RepeatedShortMatches | frontend/src/components/ChatInterface.tsx:30 | that text has one `youtu.be/` capture, the id |
| Chat.EmbedLinkOnlyInLists | frontend/src/components/ChatInterface.tsx:15-40 | an embed link gives nothing as a string and its id as a list element |
| Chat.EmbedHasNoWatchOrShortMatch | frontend/src/components/ChatInterface.tsx:29-30 | an embed link has no `v=` and no `youtu.be/` match |
| Chat.EmbedParses | frontend/src/components/ChatInterface.tsx:18-24 | `parseString` of an embed link is its id |
| Chat.FirstMatchSkip | frontend/src/components/ChatInterface.tsx:20 | the single search can skip positions where the pattern does not match |
| Chat.DetermineSources | frontend/src/components/ChatInterface.tsx:55-62 | each label is present exactly when its field (`rag` or `discovery` for Vector Search) is truthy; a `null` payload gives no label |
| Chat.SourcesOrdered | frontend/src/components/ChatInterface.tsx:55-62 | the labels are among the four, in the fixed order, none twice |
| Chat.AssistantMessage | frontend/src/components/ChatInterface.tsx:143-155 | building the message throws exactly on a `null` payload or a throwing extraction; otherwise it holds the response (or the fallback text, so never empty), the truthy coordinates, the extracted ids, the labels and the latency |
| Chat.ReplyMessage | frontend/src/components/ChatInterface.tsx:135-174 | the reply appended is the assembled message on success and the offline message exactly on failure |
| Chat.ChatInterface.constructor | frontend/src/components/ChatInterface.tsx:81-85 | the panel starts with no messages, empty input, not thinking, at step 0 |
| Chat.ChatInterface.SetInput | frontend/src/components/ChatInterface.tsx:238 | the input box holds what was typed |
| Chat.ChatInterface.SimulatePipeline | frontend/src/components/ChatInterface.tsx:98-106 | the indicator goes through steps 1, 2, 3 and back to 0 |
| Chat.ChatInterface.Submit | frontend/src/components/ChatInterface.tsx:108-133 | a refused submit changes nothing; an accepted one appends the trimmed text, clears the input, raises the flag, runs the indicator and posts the text with the fixed session id |
| Chat.ChatInterface.Receive | frontend/src/components/ChatInterface.tsx:135-177 | the reply is appended, the parent is notified exactly on success, and the flag drops |
| Chat.ChatInterface.HandleSubmit | frontend/src/components/ChatInterface.tsx:108-178 | an accepted submit appends exactly the user's trimmed text and the reply and leaves the panel ready; a refused one changes and sends nothing |
| PipelineVisualization.Render | frontend/src/components/PipelineVisualization.tsx:14-59 | nothing at step 0; otherwise the three steps in order, the current one active, those below completed, those above pending, and a filled connector after every step that is not pending |
| PipelineVisualization.ActiveStepCounts | frontend/src/components/PipelineVisualization.tsx:20-22 | during steps 1 to 3 exactly one step is active and the steps before it are completed; other step numbers show no active step |
| PipelineVisualization.CountOfThree | frontend/src/components/PipelineVisualization.tsx:8-12 | a count over the three steps is the sum over each |
| PipelineVisualization.SubmitDrivesIndicator | frontend/src/components/ChatInterface.tsx:98-106 | the steps a submit sets show Routing, Retrieving and Synthesizing active in turn, and the final 0 hides the indicator |
| MediaGrid.SourceColor | frontend/src/components/MediaGrid.tsx:9-13 | Local DB, Reddit and YouTube get their colour and every other label, Vector Search included, none |
| MediaGrid.Render | frontend/src/components/MediaGrid.tsx:15-85 | absent lists render as empty; the placeholder shows exactly when both are empty; each section shows exactly when its list is non-empty, one chip or card per element in order, with the watch link and thumbnail |
| MediaGrid.LinksCarryId | frontend/src/components/MediaGrid.tsx:57-67 | the id stands in the href after `v=` and in the thumbnail path |
| MediaGrid.WatchUrlWatchMatches | frontend/src/components/MediaGrid.tsx:57 | scanning an href for `v=` finds exactly its id |
| MediaGrid.WatchUrlNoShortMatch | frontend/src/components/MediaGrid.tsx:57 | an href holds no `youtu.be/` link |
| MediaGrid.WatchUrlRoundTrip | frontend/src/components/MediaGrid.tsx:57 | an href, as a string, a one-element list or an object's `url`, extracts to exactly its id |
| MediaGrid.HrefsAt | frontend/src/components/MediaGrid.tsx:54-57 | the cards' hrefs are the watch links of the ids, in order |
| MediaGrid.RenderedHrefsRoundTrip | frontend/src/components/MediaGrid.tsx:54-57 | the hrefs of the rendered cards, given back to the extractor as a list, yield exactly the rendered ids |
| MediaGrid.HrefsListIds | frontend/src/components/MediaGrid.tsx:54-57 | the list case reads each href back to its id, in order |
| MediaGrid.HrefItemId | frontend/src/components/MediaGrid.tsx:57 | one href as a list element yields its id |
| IndexPage.NextContext | frontend/src/pages/Index.tsx:19-33 | a message that is not an assistant message with a location or videos changes nothing; otherwise the videos and sources are replaced and the location kept unless a new one came; a location is never lost |
| IndexPage.MumbaiMunchPage.constructor | frontend/src/pages/Index.tsx:8-16 | the context starts with no location, videos or sources |
| IndexPage.MumbaiMunchPage.HandleNewMessage | frontend/src/pages/Index.tsx:19-33 | the handler moves the context to `NextContext` |
| IndexPage.MumbaiMunchPage.Submit | frontend/src/components/ChatInterface.tsx:157-162 | a submit the backend answers moves the dashboard on with the delivered message, a refused or failed one leaves it; the panel is untouched by a refused submit, and an accepted one appends the user's trimmed text and the reply and leaves the panel ready again |
| IndexPage.LocationSticks | frontend/src/pages/Index.tsx:27 | once the map has a location, no later message removes it |
| IndexPage.NoUpdateNoChange | frontend/src/pages/Index.tsx:20-25 | messages that do not update leave the context as it was |
| IndexPage.MediaOfLastUpdate | frontend/src/pages/Index.tsx:26-30 | the videos and sources shown are those of the last updating message |
| IndexPage.LocationOfLastUpdate | frontend/src/pages/Index.tsx:27 | the location shown is that of the last updating message that had one |
| IndexPage.DeliveredUpdates | frontend/src/pages/Index.tsx:22-25 | the offline message never updates; a delivered answer updates exactly when it brings a location or a video |
| DashboardPage.SlotValueY | frontend/app/page.tsx:28-34 | the `y` digit keeps the low two bits of its draw and sets the top one |
| DashboardPage.HexRoundTrip | frontend/app/page.tsx:28-34 | each digit written is a lowercase hex digit that reads back as its value |
| DashboardPage.UuidLayout | frontend/app/page.tsx:28-34 | every id has the version-4 layout of RFC 4122: dashes, the version digit 4, a variant digit 8, 9, a or b, and lowercase hex elsewhere |
| DashboardPage.UuidKeepsDraws | frontend/app/page.tsx:28-34 | equal ids come from equal draws at every `x` and draws agreeing in their low bits at `y` |
| DashboardPage.ActiveCount | frontend/app/page.tsx:161-162 | the marquee's count is at most 4, 0 exactly when no source is lit, 4 exactly when all are |
| DashboardPage.FlagsAgreeWithLabels | frontend/app/page.tsx:271-276 | each source flag is lit exactly when the chat panel's classifier names that source, so the count equals the number of labels |
| DashboardPage.ReportedLatency | frontend/app/page.tsx:267-268 | the backend's latency when it sent one, even 0, the measured round trip otherwise; never nullish |
| DashboardPage.RestaurantOf | frontend/app/page.tsx:284-290 | a restaurant exactly when the coordinates are truthy, located there, with the SQL and web data, no vectors, named after the first suggestion or "Result" |
| DashboardPage.Answer | frontend/app/page.tsx:264-294 | reading the payload throws exactly on `null`; otherwise the message's text is `data.response`, or "No response." when that is falsy, with the latency, the mock timings and the restaurant, and metrics with the sources and cost 0.004 |
| DashboardPage.LatestRestaurantSpec | frontend/app/page.tsx:303 | the inspector shows the restaurant of the most recent message that has one, and none when none does |
| DashboardPage.LatestAfterExchange | frontend/app/page.tsx:250-294 | one exchange moves the inspector to the reply's restaurant if it has one and leaves it otherwise |
| DashboardPage.InspectorLocation | frontend/app/page.tsx:195 | the map shows the restaurant's location, or the default one in Mumbai |
| DashboardPage.InspectorTitle | frontend/app/page.tsx:207 | the caption is the restaurant's name, or "Mumbai Munch HQ" |
| DashboardPage.TabView | frontend/app/page.tsx:61-110 | the SQL tab shows the restaurant's `sqlQuery` when truthy and "No SQL executed" otherwise; the web tab shows its `scrapedData` when truthy and "No data scraped" otherwise; the vectors tab shows the vectors, or its placeholder when there are none |
| DashboardPage.InspectorOfAnswer | frontend/app/page.tsx:193-225 | the inspector of an answer shows its location, its SQL and web data or their placeholders when falsy, and the vectors placeholder always |
| DashboardPage.MumbaiMunchDashboard.constructor | frontend/app/page.tsx:230-241 | a fresh page has a random session id, no messages, and every source lit |
| DashboardPage.MumbaiMunchDashboard.SetInput | frontend/app/page.tsx:368 | the input holds what was typed |
| DashboardPage.MumbaiMunchDashboard.Send | frontend/app/page.tsx:247-262 | a refused send changes nothing; an accepted one appends the untrimmed text, clears the input, raises the flag and posts with the session id |
| DashboardPage.MumbaiMunchDashboard.Receive | frontend/app/page.tsx:264-300 | the answer and new metrics, or the error message with the metrics untouched; then the flag drops |
| DashboardPage.MumbaiMunchDashboard.HandleSend | frontend/app/page.tsx:247-301 | an accepted send appends the user's text and the reply and leaves the page ready; a refused one changes nothing |
| DashboardPage.OutcomeSpec | frontend/app/page.tsx:264-297 | an answer is shown exactly for an OK reply with a parsed, non-null body; its text is `data.response`, or "No response." when falsy; it costs 0.004 and lights the sources its payload names; a network error or a failed status shows the error |
| EndToEnd.LinkCheckRedundant | backend/app/agent_logic.py:126-129 | on lines that all carry a link, the `http` check removes nothing |
| EndToEnd.FormattedVideosFiltered | backend/app/agent_logic.py:122-129 | the verifier keeps exactly the formatter's lines that mention a query word longer than three characters, in item order |

## Left out

- The LLM, the SQL and vector databases, the web search and the YouTube client are not modelled: they are inputs (`AgentLogic.Tools`). The prompts' wording is not modelled; only what they are built from is (`AgentLogic.SynthesisPrompt`).
- `node_discovery` parses the LLM's JSON list of names. The model takes the outcome of that parse as an input (`extractNames`): a list of names, or nothing when the parse raises. A parse that succeeds with something other than a list is not modelled: a JSON string, which the loop would walk character by character; an object, walked by its keys; or a number, on which the `for` loop raises.
- The tools are assumed total: every `Tools` field returns an answer. `run_sql_check` and `run_sql_stats` build their LLM client with `get_llm()` outside their `try` (backend/app/tools/sql_search.py:36, :102). If that raises, the exception leaves `node_specific` or `node_stats`, which the model does not capture (`AgentLogic.AgentApplies`, `AgentLogic.RetrieversTotal` rely on it).
- YoutubeSearch.Item: `snippet` and `id` are modelled as present dicts or missing keys. A `snippet` or `id` that is present but not a dict, and a title that is not a string, are not modelled.
- Python's and JavaScript's case mapping are modelled on ASCII letters only.
- Time is not modelled: `time.time()`, `Date.now()` and the `setTimeout` delays of `simulatePipeline` are left out. The measured latencies are parameters. Only the sequence of steps the indicator shows is recorded.
- Message ids and timestamps (`Date.now`, `generateUUID` for messages) are left out of the messages. The page's session id is modelled.
- Logging (`print`, `console.log`), the `/health` endpoint, CORS, styling, animation, scrolling and the map and dashboard components are left out: they compute nothing the core uses.
- Concurrency is not modelled. Each `/chat` call runs to completion before the next one. Each submit's `fetch` settles before the next submit.
- The graph's run uses LangGraph's default recursion limit of 25 steps (`AgentLogic.RecursionLimit`). The workflow never needs more than four, so this bound changes nothing.
- The suggestion query of `/suggest` is a database call. Its outcome is an input.
- The data scripts under backend/data and the tools of backend/app/tools other than youtube_search.py are not part of this model.
- AgentLogic.LastN: states only the length of `xs[-n:]`. That its elements are the last ones is used in the proofs (`Server.WindowsAgree`) but not stated in its contract.
- EndToEnd.FormattedVideosFiltered: covers only successful results with at least one item and no newline in any title or id. The other results (the missing-key text, the no-videos text, an error message) are not related to the filter by a lemma.
- JSON numbers are reals: there is no NaN, infinity or floating-point rounding.
- MediaGrid.SourceColor: labels that name members of `Object.prototype` (`constructor`, `toString`, `__proto__` and the like) are not modelled. In JavaScript `sourceColors[source]` finds such an inherited member, so the class would not be `''`. The app only ever passes the four labels `determineSources` emits.
