/** frontend/app/page.tsx: the dashboard variant of the chat page. It keeps a
    random session id, a message log, a loading flag and the metrics shown in
    the marquee; each answer may carry a restaurant that the inspector deck
    shows on a map with three tabs. */
module DashboardPage {
  import opened Wrappers
  import opened JsValues
  import Chat

  // ---------------------------------------------------------------------
  // generateUUID
  // ---------------------------------------------------------------------

  const UuidTemplate := "xxxxxxxx-xxxx-4xxx-yxxx-xxxxxxxxxxxx"

  /** `(Math.random() * 16) | 0`: a random integer from 0 to 15. */
  type Nibble = n: int | 0 <= n < 16

  /** `v.toString(16)` for a single hexadecimal digit. */
  function HexDigit(v: Nibble): char {
    if v < 10 then ('0' as int + v) as char else ('a' as int + v - 10) as char
  }

  predicate IsLowerHex(c: char) {
    '0' <= c <= '9' || 'a' <= c <= 'f'
  }

  /** The value of a lowercase hexadecimal digit. */
  function HexValue(c: char): int {
    if '0' <= c <= '9' then c as int - '0' as int else c as int - 'a' as int + 10
  }

  /** The digit written for template character `c` and random draw `r`:
      `r` for `x`, `(r & 0x3) | 0x8` for `y`. */
  function SlotValue(c: char, r: Nibble): Nibble {
    if c == 'x' then r else (((r as bv8) & 0x3) | 0x8) as int
  }

  /** `generateUUID()`: every `x` or `y` of the template replaced by a digit
      made from the random draw for that position (the draws at other
      positions are not used). */
  function GenerateUUID(draws: seq<Nibble>): string
    requires |draws| == |UuidTemplate|
  {
    seq(|UuidTemplate|, p requires 0 <= p < |UuidTemplate| =>
      if UuidTemplate[p] == 'x' || UuidTemplate[p] == 'y' then HexDigit(SlotValue(UuidTemplate[p], draws[p]))
      else UuidTemplate[p])
  }

  /** The `y` digit keeps the low two bits of the draw and sets the top one. */
  lemma SlotValueY(r: Nibble)
    ensures SlotValue('y', r) == r % 4 + 8
  {
  }

  lemma HexRoundTrip(v: Nibble)
    ensures IsLowerHex(HexDigit(v)) && HexValue(HexDigit(v)) == v
  {
  }

  /** Every id has the RFC 4122 version-4 layout: 36 characters, dashes at
      8, 13, 18 and 23, the version digit `4` at 14, the variant digit (one
      of 8, 9, a, b) at 19 and a lowercase hex digit everywhere else. */
  lemma UuidLayout(draws: seq<Nibble>)
    requires |draws| == |UuidTemplate|
    ensures var u := GenerateUUID(draws);
      |u| == 36
      && u[8] == '-' && u[13] == '-' && u[18] == '-' && u[23] == '-'
      && u[14] == '4'
      && (u[19] == '8' || u[19] == '9' || u[19] == 'a' || u[19] == 'b')
      && forall p :: 0 <= p < 36 && p != 8 && p != 13 && p != 14 && p != 18 && p != 19 && p != 23 ==> IsLowerHex(u[p])
  {
    var u := GenerateUUID(draws);
    SlotValueY(draws[19]);
    forall p | 0 <= p < 36 && p != 8 && p != 13 && p != 14 && p != 18 && p != 19 && p != 23
      ensures IsLowerHex(u[p])
    {
      assert UuidTemplate[p] == 'x';
      HexRoundTrip(draws[p]);
    }
  }

  /** The id keeps the randomness: two ids are equal only if the draws at
      every `x` position are equal and those at the `y` position agree in
      their low two bits. */
  lemma UuidKeepsDraws(a: seq<Nibble>, b: seq<Nibble>)
    requires |a| == |b| == |UuidTemplate|
    requires GenerateUUID(a) == GenerateUUID(b)
    ensures forall p :: 0 <= p < |UuidTemplate| && UuidTemplate[p] == 'x' ==> a[p] == b[p]
    ensures a[19] % 4 == b[19] % 4
  {
    forall p | 0 <= p < |UuidTemplate| && (UuidTemplate[p] == 'x' || UuidTemplate[p] == 'y')
      ensures SlotValue(UuidTemplate[p], a[p]) == SlotValue(UuidTemplate[p], b[p])
    {
      assert GenerateUUID(a)[p] == GenerateUUID(b)[p];
      HexRoundTrip(SlotValue(UuidTemplate[p], a[p]));
      HexRoundTrip(SlotValue(UuidTemplate[p], b[p]));
    }
    SlotValueY(a[19]);
    SlotValueY(b[19]);
  }

  // ---------------------------------------------------------------------
  // Messages and metrics
  // ---------------------------------------------------------------------

  /** The per-stage timings each answer carries; the page fills them with a
      fixed mock breakdown. */
  datatype StageTimes = StageTimes(sqlTime: real, vectorTime: real, webTime: real, llmTime: real)

  const MockStageTimes := StageTimes(0.1, 0.2, 0.5, 0.8)

  /** The restaurant an answer with coordinates carries. `vectors` is always
      empty as the page builds it. */
  datatype Restaurant = Restaurant(name: Json, location: Json, sqlQuery: Json, scrapedData: Json, vectors: seq<string>)

  /** The page's `Message`, without the random id. */
  datatype Message = Message(
    role: Chat.Role,
    content: Json,
    latency: Option<Json>,
    metrics: Option<StageTimes>,
    restaurant: Option<Restaurant>)

  /** Which retrieval sources answered: `sql`, `vector`, `web`, `yt`. */
  datatype SourceFlags = SourceFlags(sql: bool, vector: bool, web: bool, yt: bool)

  /** The marquee's state. `latency` is whatever the backend reported (or
      the measured round trip), so it is kept as a JSON value. */
  datatype Metrics = Metrics(latency: Json, cacheHit: bool, sources: SourceFlags, cost: real)

  /** Before the first answer every source is lit. */
  const InitialMetrics := Metrics(Num(0.0), false, SourceFlags(true, true, true, true), 0.0)

  /** The cost the page shows after every answer. */
  const AnswerCost := 0.004

  const NoResponseReply := "No response."
  const ErrorText := "Error connecting to server."
  const DefaultRestaurantName := "Result"

  const ErrorMessage := Message(Chat.Assistant, Str(ErrorText), None, None, None)

  function UserMessage(text: string): Message {
    Message(Chat.User, Str(text), None, None, None)
  }

  /** The `sources` object built from a payload: `Boolean(...)` of each field. */
  function SourceFlagsOf(data: Json): SourceFlags {
    SourceFlags(
      Truthy(Get(data, "sql")),
      Truthy(Get(data, "rag")) || Truthy(Get(data, "discovery")),
      Truthy(Get(data, "web")),
      Truthy(Get(data, "youtube")))
  }

  /** `Object.values(sources).filter(Boolean).length` */
  function ActiveCount(flags: SourceFlags): (n: nat)
    ensures n <= 4
    ensures n == 0 <==> !flags.sql && !flags.vector && !flags.web && !flags.yt
    ensures n == 4 <==> flags.sql && flags.vector && flags.web && flags.yt
  {
    (if flags.sql then 1 else 0) + (if flags.vector then 1 else 0)
    + (if flags.web then 1 else 0) + (if flags.yt then 1 else 0)
  }

  /** The dashboard's source flags light up exactly the sources the chat
      panel's classifier names, so the marquee's count is the number of
      labels the panel would show for the same payload. */
  lemma FlagsAgreeWithLabels(data: Json)
    ensures SourceFlagsOf(data).sql <==> Chat.LocalDb in Chat.DetermineSources(data)
    ensures SourceFlagsOf(data).vector <==> Chat.VectorSearch in Chat.DetermineSources(data)
    ensures SourceFlagsOf(data).web <==> Chat.Reddit in Chat.DetermineSources(data)
    ensures SourceFlagsOf(data).yt <==> Chat.YouTube in Chat.DetermineSources(data)
    ensures ActiveCount(SourceFlagsOf(data)) == |Chat.DetermineSources(data)|
  {
  }

  /** `data.metrics?.latency ?? latency`: the backend's figure when it sent
      one (even `0`), the measured round trip otherwise. */
  function ReportedLatency(data: Json, roundTrip: real): (l: Json)
    ensures !Nullish(Get(Get(data, "metrics"), "latency")) ==> l == Get(Get(data, "metrics"), "latency")
    ensures Nullish(Get(Get(data, "metrics"), "latency")) ==> l == Num(roundTrip)
    ensures !Nullish(l)
  {
    Coalesce(Get(Get(data, "metrics"), "latency"), Num(roundTrip))
  }

  /** The `restaurant` of the answer: present exactly when `data.coordinates`
      is truthy; named after the first suggestion, or "Result". */
  function RestaurantOf(data: Json): (r: Option<Restaurant>)
    ensures r.Some? <==> Truthy(Get(data, "coordinates"))
    ensures r.Some? ==> Truthy(r.value.name) && Truthy(r.value.location) && r.value.vectors == []
    ensures r.Some? ==> r.value.location == Get(data, "coordinates")
    ensures r.Some? ==> r.value.sqlQuery == Get(data, "sql") && r.value.scrapedData == Get(data, "web")
    ensures r.Some? && Truthy(Get(First(Get(data, "suggestions")), "name")) ==> r.value.name == Get(First(Get(data, "suggestions")), "name")
    ensures r.Some? && !Truthy(Get(First(Get(data, "suggestions")), "name")) ==> r.value.name == Str(DefaultRestaurantName)
  {
    if Truthy(Get(data, "coordinates")) then
      Some(Restaurant(
        Or(Get(First(Get(data, "suggestions")), "name"), Str(DefaultRestaurantName)),
        Get(data, "coordinates"),
        Get(data, "sql"),
        Get(data, "web"),
        []))
    else None
  }

  /** The answer and the new marquee state built from a parsed payload, or
      `Thrown` when reading `data.metrics` throws (a `null` payload). */
  function Answer(data: Json, roundTrip: real): (r: Completion<(Message, Metrics)>)
    ensures r.Thrown? <==> Nullish(data)
    ensures r.Normal? ==> var (m, metrics) := r.value;
      m.role == Chat.Assistant && Truthy(m.content)
      && m.content == (if Truthy(Get(data, "response")) then Get(data, "response") else Str(NoResponseReply))
      && m.latency == Some(metrics.latency) && m.metrics == Some(MockStageTimes)
      && m.restaurant == RestaurantOf(data)
      && metrics == Metrics(ReportedLatency(data, roundTrip), false, SourceFlagsOf(data), AnswerCost)
  {
    match Member(data, "metrics")
    case Thrown => Thrown
    case Normal(_) =>
      var latency := ReportedLatency(data, roundTrip);
      Normal((
        Message(Chat.Assistant, Or(Get(data, "response"), Str(NoResponseReply)), Some(latency), Some(MockStageTimes), RestaurantOf(data)),
        Metrics(latency, false, SourceFlagsOf(data), AnswerCost)))
  }

  /** What a settled `fetch` gives the page: the answer and new metrics, or
      `None` on any failure (network, non-OK status, unparsable body, a
      payload that throws). */
  function Outcome(reply: Chat.FetchOutcome, roundTrip: real): Option<(Message, Metrics)> {
    match reply
    case NetworkError => None
    case Answered(ok, body) =>
      if !ok || body.None? then None
      else
        match Answer(body.value, roundTrip)
        case Normal(v) => Some(v)
        case Thrown => None
  }

  // ---------------------------------------------------------------------
  // The inspector deck
  // ---------------------------------------------------------------------

  /** `[...messages].reverse().find((m) => m.restaurant)?.restaurant` */
  function LatestRestaurant(msgs: seq<Message>): Option<Restaurant> {
    if msgs == [] then None
    else if msgs[|msgs| - 1].restaurant.Some? then msgs[|msgs| - 1].restaurant
    else LatestRestaurant(msgs[..|msgs| - 1])
  }

  /** The inspector shows the restaurant of the most recent message that has
      one, and nothing when no message has one. */
  lemma {:induction false} LatestRestaurantSpec(msgs: seq<Message>)
    ensures LatestRestaurant(msgs).None? <==> forall i :: 0 <= i < |msgs| ==> msgs[i].restaurant.None?
    ensures LatestRestaurant(msgs).Some? ==>
      exists i :: 0 <= i < |msgs| && msgs[i].restaurant == LatestRestaurant(msgs)
        && forall j :: i < j < |msgs| ==> msgs[j].restaurant.None?
  {
    if msgs != [] {
      var p := msgs[..|msgs| - 1];
      LatestRestaurantSpec(p);
      assert forall i :: 0 <= i < |p| ==> p[i] == msgs[i];
      if msgs[|msgs| - 1].restaurant.None? && LatestRestaurant(p).Some? {
        var i :| 0 <= i < |p| && p[i].restaurant == LatestRestaurant(p)
          && forall j :: i < j < |p| ==> p[j].restaurant.None?;
        assert msgs[i].restaurant == LatestRestaurant(msgs);
      }
    }
  }

  /** One exchange (a user message, which never carries a restaurant, and
      the reply) moves the inspector to the reply's restaurant if it has
      one and leaves it where it was otherwise. */
  lemma LatestAfterExchange(msgs: seq<Message>, text: string, reply: Message)
    ensures LatestRestaurant(msgs + [UserMessage(text), reply])
      == if reply.restaurant.Some? then reply.restaurant else LatestRestaurant(msgs)
  {
    var all := msgs + [UserMessage(text), reply];
    assert all[..|all| - 1] == msgs + [UserMessage(text)];
    assert (msgs + [UserMessage(text)])[..|msgs|] == msgs;
  }

  const DefaultLocation := Obj(map["lat" := Num(19.076), "lng" := Num(72.8777)])
  const DefaultTitle := "Mumbai Munch HQ"
  const NoSqlText := "No SQL executed"
  const NoScrapeText := "No data scraped"
  const NoVectorsText := "No vectors found"

  datatype Tab = SqlTab | ScrapedTab | VectorsTab

  /** What the tabs show: a text, or the list of vectors. */
  datatype TabContent = Text(text: Json) | Vectors(items: seq<string>)

  /** The map's location: the restaurant's, or the default one in Mumbai. */
  function InspectorLocation(r: Option<Restaurant>): (l: Json)
    ensures Truthy(l)
    ensures r.None? ==> l == DefaultLocation
    ensures r.Some? && Truthy(r.value.location) ==> l == r.value.location
  {
    if r.Some? then Or(r.value.location, DefaultLocation) else DefaultLocation
  }

  /** The map's caption: the restaurant's name, or "Mumbai Munch HQ". */
  function InspectorTitle(r: Option<Restaurant>): (t: Json)
    ensures Truthy(t)
    ensures r.None? ==> t == Str(DefaultTitle)
    ensures r.Some? && Truthy(r.value.name) ==> t == r.value.name
  {
    if r.Some? then Or(r.value.name, Str(DefaultTitle)) else Str(DefaultTitle)
  }

  /** `SimpleTabs` over `restaurant || {}`: the SQL text, the scraped text,
      or the vectors, each with its placeholder when empty. */
  function TabView(r: Option<Restaurant>, tab: Tab): (c: TabContent)
    ensures tab == SqlTab ==> c.Text? && Truthy(c.text)
    ensures tab == ScrapedTab ==> c.Text? && Truthy(c.text)
    ensures r.None? && tab == SqlTab ==> c == Text(Str(NoSqlText))
    ensures r.None? && tab == ScrapedTab ==> c == Text(Str(NoScrapeText))
    ensures r.Some? && tab == SqlTab && Truthy(r.value.sqlQuery) ==> c == Text(r.value.sqlQuery)
    ensures r.Some? && tab == SqlTab && !Truthy(r.value.sqlQuery) ==> c == Text(Str(NoSqlText))
    ensures r.Some? && tab == ScrapedTab && Truthy(r.value.scrapedData) ==> c == Text(r.value.scrapedData)
    ensures r.Some? && tab == ScrapedTab && !Truthy(r.value.scrapedData) ==> c == Text(Str(NoScrapeText))
    ensures tab == VectorsTab && (r.None? || r.value.vectors == []) ==> c == Text(Str(NoVectorsText))
    ensures tab == VectorsTab && r.Some? && r.value.vectors != [] ==> c == Vectors(r.value.vectors)
  {
    match tab
    case SqlTab => Text(Or(if r.Some? then r.value.sqlQuery else Undefined, Str(NoSqlText)))
    case ScrapedTab => Text(Or(if r.Some? then r.value.scrapedData else Undefined, Str(NoScrapeText)))
    case VectorsTab =>
      if r.None? || r.value.vectors == [] then Text(Str(NoVectorsText)) else Vectors(r.value.vectors)
  }

  /** The inspector of an answer shows its backend's SQL and web data, and
      its RAG tab is always the placeholder, since the page never fills
      `vectors`. */
  lemma InspectorOfAnswer(data: Json)
    requires Truthy(Get(data, "coordinates"))
    ensures InspectorLocation(RestaurantOf(data)) == Get(data, "coordinates")
    ensures Truthy(Get(data, "sql")) ==> TabView(RestaurantOf(data), SqlTab) == Text(Get(data, "sql"))
    ensures !Truthy(Get(data, "sql")) ==> TabView(RestaurantOf(data), SqlTab) == Text(Str(NoSqlText))
    ensures Truthy(Get(data, "web")) ==> TabView(RestaurantOf(data), ScrapedTab) == Text(Get(data, "web"))
    ensures !Truthy(Get(data, "web")) ==> TabView(RestaurantOf(data), ScrapedTab) == Text(Str(NoScrapeText))
    ensures TabView(RestaurantOf(data), VectorsTab) == Text(Str(NoVectorsText))
  {
  }

  // ---------------------------------------------------------------------
  // The page's state
  // ---------------------------------------------------------------------

  class MumbaiMunchDashboard {
    /** `useState(() => generateUUID())`: drawn once per page. */
    const sessionId: string
    var messages: seq<Message>
    var input: string
    var isLoading: bool
    var currentMetrics: Metrics

    constructor (draws: seq<Nibble>)
      requires |draws| == |UuidTemplate|
      ensures sessionId == GenerateUUID(draws)
      ensures messages == [] && input == "" && !isLoading && currentMetrics == InitialMetrics
    {
      sessionId := GenerateUUID(draws);
      messages := [];
      input := "";
      isLoading := false;
      currentMetrics := InitialMetrics;
    }

    /** The guard of `handleSend`. */
    predicate CanSend()
      reads this
    {
      Trim(input) != "" && !isLoading
    }

    method SetInput(text: string)
      modifies this`input
      ensures input == text
    {
      input := text;
    }

    /** The synchronous part of `handleSend`: the guard, the user message
        (the input as typed, not trimmed), clearing the input and raising
        the loading flag. Returns the request body posted. */
    method Send() returns (request: Option<Chat.ChatRequest>)
      modifies this`messages, this`input, this`isLoading
      ensures !old(CanSend()) ==> request == None && unchanged(this)
      ensures old(CanSend()) ==> request == Some(Chat.ChatRequest(old(input), sessionId))
      ensures old(CanSend()) ==> messages == old(messages) + [UserMessage(old(input))]
      ensures old(CanSend()) ==> input == "" && isLoading
      ensures currentMetrics == old(currentMetrics)
    {
      if Trim(input) == "" || isLoading {
        return None;
      }
      var text := input;
      messages := messages + [UserMessage(text)];
      input := "";
      isLoading := true;
      request := Some(Chat.ChatRequest(text, sessionId));
    }

    /** The continuation once `fetch` settles, `roundTrip` seconds after the
        send: the answer and the new metrics, or the error message with the
        metrics untouched; then the loading flag drops. */
    method Receive(reply: Chat.FetchOutcome, roundTrip: real)
      requires isLoading
      modifies this`messages, this`isLoading, this`currentMetrics
      ensures Outcome(reply, roundTrip).Some? ==>
        messages == old(messages) + [Outcome(reply, roundTrip).value.0] && currentMetrics == Outcome(reply, roundTrip).value.1
      ensures Outcome(reply, roundTrip).None? ==>
        messages == old(messages) + [ErrorMessage] && currentMetrics == old(currentMetrics)
      ensures !isLoading
    {
      var failed := true;
      if reply.Answered? && reply.ok && reply.body.Some? {
        var data := reply.body.value;
        if !Nullish(data) {
          var backendLatency := Coalesce(Get(Get(data, "metrics"), "latency"), Num(roundTrip));
          var sources := SourceFlags(
            Truthy(Get(data, "sql")),
            Truthy(Get(data, "rag")) || Truthy(Get(data, "discovery")),
            Truthy(Get(data, "web")),
            Truthy(Get(data, "youtube")));
          var restaurant := None;
          if Truthy(Get(data, "coordinates")) {
            restaurant := Some(Restaurant(
              Or(Get(First(Get(data, "suggestions")), "name"), Str(DefaultRestaurantName)),
              Get(data, "coordinates"), Get(data, "sql"), Get(data, "web"), []));
          }
          var assistantMsg := Message(Chat.Assistant, Or(Get(data, "response"), Str(NoResponseReply)),
                                      Some(backendLatency), Some(MockStageTimes), restaurant);
          messages := messages + [assistantMsg];
          currentMetrics := Metrics(backendLatency, false, sources, AnswerCost);
          failed := false;
        }
      }
      if failed {
        messages := messages + [ErrorMessage];
      }
      isLoading := false;
    }

    /** `handleSend` run to completion. A refused send changes nothing; an
        accepted one appends the user's text and then the reply, and leaves
        the page ready for the next send. */
    method HandleSend(reply: Chat.FetchOutcome, roundTrip: real) returns (request: Option<Chat.ChatRequest>)
      modifies this`messages, this`input, this`isLoading, this`currentMetrics
      ensures !old(CanSend()) ==> request == None && unchanged(this)
      ensures old(CanSend()) ==> request == Some(Chat.ChatRequest(old(input), sessionId))
      ensures old(CanSend()) && Outcome(reply, roundTrip).Some? ==>
        messages == old(messages) + [UserMessage(old(input)), Outcome(reply, roundTrip).value.0]
        && currentMetrics == Outcome(reply, roundTrip).value.1
      ensures old(CanSend()) && Outcome(reply, roundTrip).None? ==>
        messages == old(messages) + [UserMessage(old(input)), ErrorMessage] && currentMetrics == old(currentMetrics)
      ensures old(CanSend()) ==> input == "" && !isLoading
    {
      request := Send();
      if request.Some? {
        Receive(reply, roundTrip);
      }
    }
  }

  /** Every answer the page shows is the payload's `response`, or
      "No response." when that is falsy; it costs 0.004 and lights the
      sources its payload names. An answer comes exactly from an OK reply
      with a parsed, non-null body; a failure shows the fixed error text. */
  lemma OutcomeSpec(reply: Chat.FetchOutcome, roundTrip: real)
    ensures Outcome(reply, roundTrip).Some? <==>
      reply.Answered? && reply.ok && reply.body.Some? && !Nullish(reply.body.value)
    ensures Outcome(reply, roundTrip).Some? ==>
      var response := Get(reply.body.value, "response");
      Truthy(Outcome(reply, roundTrip).value.0.content)
      && Outcome(reply, roundTrip).value.0.content == (if Truthy(response) then response else Str(NoResponseReply))
      && Outcome(reply, roundTrip).value.1.cost == AnswerCost
      && ActiveCount(Outcome(reply, roundTrip).value.1.sources) == |Chat.DetermineSources(reply.body.value)|
    ensures reply.NetworkError? || (reply.Answered? && !reply.ok) ==> Outcome(reply, roundTrip).None?
  {
    if Outcome(reply, roundTrip).Some? {
      FlagsAgreeWithLabels(reply.body.value);
    }
  }
}
