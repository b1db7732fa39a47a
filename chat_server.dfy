/*
 * The FastAPI application of backend/app/main.py: the per-session chat
 * history store behind `POST /chat`, and the fallback of `POST /suggest`.
 * The agent itself is `AgentLogic.ProcessUserQuery`; the suggestion query
 * is a database call and arrives here as its outcome.
 */
module Server {
  import opened Wrappers
  import AgentLogic

  type Entry = AgentLogic.Entry

  /** The session a request without `session_id` belongs to. */
  const DefaultSession: string := "default"

  /** How many of the session's newest entries the agent is given. */
  const AgentWindow: nat := 6

  const UserRole: string := "user"
  const AssistantRole: string := "assistant"

  /** `QueryRequest`; an absent `session_id` takes its default. */
  datatype QueryRequest = QueryRequest(query: string, sessionId: Option<string>)

  function SessionOf(request: QueryRequest): string {
    request.sessionId.GetOr(DefaultSession)
  }

  /** What `/chat` answers: the agent's dictionary, or HTTP 500 when the
      agent raised. */
  datatype HttpResponse = Ok(result: AgentLogic.ApiResult) | InternalError

  /** The pair of entries one answered query adds to its session. */
  function Turn(query: string, response: string): seq<Entry> {
    [AgentLogic.Entry(UserRole, query), AgentLogic.Entry(AssistantRole, response)]
  }

  /** A session's history alternates user and assistant entries, starting
      with the user, and so has even length. */
  predicate Alternates(h: seq<Entry>) {
    |h| % 2 == 0
    && forall i :: 0 <= i < |h| ==> h[i].role == (if i % 2 == 0 then UserRole else AssistantRole)
  }

  /** The store invariant: every session alternates. */
  predicate WellFormed(store: map<string, seq<Entry>>) {
    forall id :: id in store ==> Alternates(store[id])
  }

  /** The history a session has before the call: empty when unknown. */
  function HistoryOf(store: map<string, seq<Entry>>, id: string): seq<Entry> {
    if id in store then store[id] else []
  }

  /** `process_user_query` as the endpoint sees it: query, session id and
      history window in, the result dictionary out, `None` when it raises.
      `AgentOf` fixes the agent's tools and measured latency. */
  type Agent = (string, string, seq<Entry>) -> Option<AgentLogic.ApiResult>

  function AgentOf(tools: AgentLogic.Tools, latency: real): Agent {
    (query: string, id: string, window: seq<Entry>) => AgentLogic.ProcessUserQuery(query, id, window, tools, latency)
  }

  /** The store after a call and the answer: the session's list exists
      afterwards in either case; it grows by one turn only on success. */
  datatype Outcome = Outcome(store: map<string, seq<Entry>>, response: HttpResponse)

  function Chat(store: map<string, seq<Entry>>, request: QueryRequest, agent: Agent): Outcome {
    var id := SessionOf(request);
    var h := HistoryOf(store, id);
    var r := agent(request.query, id, AgentLogic.LastN(h, AgentWindow));
    Outcome(store[id := Recorded(h, request.query, r)], Answer(r))
  }

  /** The session's history after the agent answered `r`. */
  function Recorded(h: seq<Entry>, query: string, r: Option<AgentLogic.ApiResult>): seq<Entry> {
    if r.Some? then h + Turn(query, r.value.response) else h
  }

  /** The HTTP answer for the agent's outcome `r`. */
  function Answer(r: Option<AgentLogic.ApiResult>): HttpResponse {
    if r.Some? then Ok(r.value) else InternalError
  }

  /** The answer is the agent's own result whenever it returns, and HTTP
      500 exactly when it raises; the agent is called with the session's
      newest six entries (none for an unknown session). */
  lemma ChatAnswer(store: map<string, seq<Entry>>, request: QueryRequest, agent: Agent)
    ensures var id := SessionOf(request);
      var window := if id in store then AgentLogic.LastN(store[id], 6) else [];
      var r := agent(request.query, id, window);
      var out := Chat(store, request, agent);
      (out.response.InternalError? <==> r.None?)
      && (r.Some? ==> out.response == Ok(r.value))
  {
  }

  /** A successful call appends exactly the user query and then the
      assistant's reply to its own session, leaving the earlier entries as
      they were and every other session untouched. */
  lemma ChatAppends(store: map<string, seq<Entry>>, request: QueryRequest, agent: Agent)
    ensures var out := Chat(store, request, agent);
      var id := SessionOf(request);
      var h := HistoryOf(store, id);
      out.response.Ok? ==>
        id in out.store
        && |out.store[id]| == |h| + 2
        && out.store[id][..|h|] == h
        && out.store[id][|h|] == AgentLogic.Entry(UserRole, request.query)
        && out.store[id][|h| + 1] == AgentLogic.Entry(AssistantRole, out.response.result.response)
  {
    var id := SessionOf(request);
    var h := HistoryOf(store, id);
    var r := agent(request.query, id, AgentLogic.LastN(h, AgentWindow));
    if r.Some? {
      var h' := Recorded(h, request.query, r);
      assert h' == h + Turn(request.query, r.value.response);
      assert h'[..|h|] == h;
    }
  }

  /** A failing call appends nothing: the only change it can make is the
      empty list of a session seen for the first time. */
  lemma ChatFailureKeeps(store: map<string, seq<Entry>>, request: QueryRequest, agent: Agent)
    ensures var out := Chat(store, request, agent);
      var id := SessionOf(request);
      out.response.InternalError? ==>
        (id in store ==> out.store == store)
        && (id !in store ==> out.store == store[id := []])
  {
  }

  /** Sessions other than the request's are the same before and after. */
  lemma ChatIsolates(store: map<string, seq<Entry>>, request: QueryRequest, agent: Agent, other: string)
    requires other != SessionOf(request)
    ensures var out := Chat(store, request, agent);
      (other in out.store <==> other in store)
      && (other in store ==> out.store[other] == store[other])
  {
  }

  /** An alternating history stays alternating when a turn is added. */
  lemma {:induction false} TurnAlternates(h: seq<Entry>, query: string, response: string)
    requires Alternates(h)
    ensures Alternates(h + Turn(query, response))
  {
    var h' := h + Turn(query, response);
    forall i | 0 <= i < |h'|
      ensures h'[i].role == (if i % 2 == 0 then UserRole else AssistantRole)
    {
      if i == |h| {
        assert i % 2 == 0;
      } else if i == |h| + 1 {
        assert i % 2 == 1;
      }
    }
  }

  /** Every call, whatever its outcome, keeps every session alternating. */
  lemma ChatKeepsAlternation(store: map<string, seq<Entry>>, request: QueryRequest, agent: Agent)
    requires WellFormed(store)
    ensures WellFormed(Chat(store, request, agent).store)
  {
    var id := SessionOf(request);
    var h := HistoryOf(store, id);
    var r := agent(request.query, id, AgentLogic.LastN(h, AgentWindow));
    assert Alternates(h);
    if r.Some? {
      TurnAlternates(h, request.query, r.value.response);
    }
    assert Alternates(Recorded(h, request.query, r));
  }

  /** The six entries the agent gets contain the five the synthesizer
      shows the model, so the server's window does not change the history
      text of the answer. */
  lemma {:induction false} WindowsAgree(h: seq<Entry>)
    ensures AgentLogic.HistoryString(AgentLogic.LastN(h, AgentWindow)) == AgentLogic.HistoryString(h)
  {
    if |h| > AgentWindow {
      var w := AgentLogic.LastN(h, AgentWindow);
      assert AgentLogic.LastN(w, 5) == h[|h| - 5..];
    }
  }

  /** The module-level `chat_histories` dictionary. */
  class ChatApp {
    var chatHistories: map<string, seq<Entry>>

    ghost predicate Valid()
      reads this
    {
      WellFormed(chatHistories)
    }

    constructor ()
      ensures chatHistories == map[] && Valid()
    {
      chatHistories := map[];
    }

    /** `chat_endpoint`: create the session's list if needed, pass its
        newest six entries to the agent, then append the user and the
        assistant entries; an exception becomes HTTP 500. */
    method ChatEndpoint(request: QueryRequest, agent: Agent) returns (resp: HttpResponse)
      modifies this
      ensures Chat(old(chatHistories), request, agent) == Outcome(chatHistories, resp)
      ensures old(Valid()) ==> Valid()
    {
      ghost var before := chatHistories;
      var id := SessionOf(request);
      if id !in chatHistories {
        chatHistories := chatHistories[id := []];
      }
      var current := AgentLogic.LastN(chatHistories[id], AgentWindow);
      var result := agent(request.query, id, current);
      if result.None? {
        resp := InternalError;
      } else {
        chatHistories := chatHistories[id := chatHistories[id] + [AgentLogic.Entry(UserRole, request.query)]];
        chatHistories := chatHistories[id := chatHistories[id] + [AgentLogic.Entry(AssistantRole, result.value.response)]];
        resp := Ok(result.value);
        assert chatHistories[id] == HistoryOf(before, id) + Turn(request.query, result.value.response);
      }
      if WellFormed(before) {
        ChatKeepsAlternation(before, request, agent);
      }
    }
  }

  /** One row of `get_restaurant_suggestions`. */
  datatype Suggestion = Suggestion(name: string, area: string, coordinates: Option<AgentLogic.Coords>)

  /** `/suggest`: the database rows, or `[]` when the lookup raises
      (`None` here). */
  function Suggest(lookup: Option<seq<Suggestion>>): (r: seq<Suggestion>)
    ensures lookup.None? ==> r == []
    ensures lookup.Some? ==> r == lookup.value
  {
    lookup.GetOr([])
  }
}
