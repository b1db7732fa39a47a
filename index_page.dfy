/** frontend/src/pages/Index.tsx: the page that pairs the chat panel with the
    context dashboard, and the rule by which each assistant message updates
    the dashboard's context. */
module IndexPage {
  import opened Wrappers
  import opened JsValues
  import opened Chat

  /** `currentContext`: the location, videos and sources on display. */
  datatype Context = Context(coordinates: Json, youtube: seq<string>, sources: seq<string>)

  const InitialContext := Context(Null, [], [])

  /** `hasNewLocation || hasNewMedia` for an assistant message. */
  predicate Updates(msg: Message) {
    msg.role == Assistant
    && (Truthy(msg.coordinates) || (msg.youtube.Some? && |msg.youtube.value| > 0))
  }

  /** The context after `handleNewMessage(msg)`. */
  function NextContext(ctx: Context, msg: Message): (r: Context)
    ensures !Updates(msg) ==> r == ctx
    ensures Updates(msg) ==> r.youtube == msg.youtube.GetOr([]) && r.sources == msg.sources.GetOr([])
    ensures Truthy(msg.coordinates) && Updates(msg) ==> r.coordinates == msg.coordinates
    ensures !Truthy(msg.coordinates) ==> r.coordinates == ctx.coordinates
    ensures Truthy(ctx.coordinates) ==> Truthy(r.coordinates)
  {
    if Updates(msg) then
      Context(Or(msg.coordinates, ctx.coordinates), msg.youtube.GetOr([]), msg.sources.GetOr([]))
    else ctx
  }

  /** The context after a sequence of messages, in order. */
  function ContextAfter(ctx: Context, msgs: seq<Message>): Context {
    if msgs == [] then ctx else NextContext(ContextAfter(ctx, msgs[..|msgs| - 1]), msgs[|msgs| - 1])
  }

  class MumbaiMunchPage {
    var currentContext: Context

    constructor ()
      ensures currentContext == InitialContext
    {
      currentContext := InitialContext;
    }

    /** `handleNewMessage` */
    method HandleNewMessage(msg: Message)
      modifies this
      ensures currentContext == NextContext(old(currentContext), msg)
    {
      if msg.role == Assistant {
        var hasNewLocation := Truthy(msg.coordinates);
        var hasNewMedia := msg.youtube.Some? && |msg.youtube.value| > 0;
        if hasNewLocation || hasNewMedia {
          currentContext := Context(
            Or(msg.coordinates, currentContext.coordinates),
            msg.youtube.GetOr([]),
            msg.sources.GetOr([]));
        }
      }
    }

    /** The page's wiring: the chat panel is given `handleNewMessage` as its
        `onNewMessage`, so a submit that the backend answers moves the
        dashboard on, and a refused or failed one leaves it as it was. The
        panel changes as its own submit says: a refused submit leaves it
        untouched, an accepted one appends the user's trimmed text and the
        reply and leaves the panel ready again. */
    method Submit(panel: ChatInterface, reply: FetchOutcome) returns (request: Option<ChatRequest>)
      modifies this, panel
      ensures request == (if old(panel.CanSubmit()) then Some(ChatRequest(Trim(old(panel.input)), PanelSessionId)) else None)
      ensures currentContext == (if old(panel.CanSubmit()) && Delivered(reply).Some?
                                 then NextContext(old(currentContext), Delivered(reply).value)
                                 else old(currentContext))
      ensures !old(panel.CanSubmit()) ==> unchanged(panel)
      ensures old(panel.CanSubmit()) ==>
        panel.messages == old(panel.messages) + [UserMessage(Trim(old(panel.input))), ReplyMessage(reply)]
      ensures old(panel.CanSubmit()) ==>
        panel.input == "" && !panel.isThinking && panel.pipelineStep == 0
        && panel.pipelineTrace == old(panel.pipelineTrace) + PipelineSteps
    {
      var notified;
      request, notified := panel.HandleSubmit(reply);
      if notified.Some? {
        HandleNewMessage(notified.value);
      }
    }
  }

  /** Once the map has a location it never loses it, whatever messages
      follow. */
  lemma {:induction false} LocationSticks(ctx: Context, msgs: seq<Message>)
    requires Truthy(ctx.coordinates)
    ensures Truthy(ContextAfter(ctx, msgs).coordinates)
  {
    if msgs != [] {
      LocationSticks(ctx, msgs[..|msgs| - 1]);
    }
  }

  /** Messages that do not update leave the context as it was. */
  lemma {:induction false} NoUpdateNoChange(ctx: Context, msgs: seq<Message>)
    requires forall i :: 0 <= i < |msgs| ==> !Updates(msgs[i])
    ensures ContextAfter(ctx, msgs) == ctx
  {
    if msgs != [] {
      NoUpdateNoChange(ctx, msgs[..|msgs| - 1]);
    }
  }

  /** The videos and sources on display are those of the last message that
      updated the context. */
  lemma {:induction false} MediaOfLastUpdate(ctx: Context, msgs: seq<Message>, i: nat)
    requires i < |msgs| && Updates(msgs[i])
    requires forall j :: i < j < |msgs| ==> !Updates(msgs[j])
    ensures ContextAfter(ctx, msgs).youtube == msgs[i].youtube.GetOr([])
    ensures ContextAfter(ctx, msgs).sources == msgs[i].sources.GetOr([])
  {
    if i < |msgs| - 1 {
      var p := msgs[..|msgs| - 1];
      MediaOfLastUpdate(ctx, p, i);
    }
  }

  /** The location on display is that of the last updating message that
      carried one. */
  lemma {:induction false} LocationOfLastUpdate(ctx: Context, msgs: seq<Message>, i: nat)
    requires i < |msgs| && Updates(msgs[i]) && Truthy(msgs[i].coordinates)
    requires forall j :: i < j < |msgs| ==> !Truthy(msgs[j].coordinates)
    ensures ContextAfter(ctx, msgs).coordinates == msgs[i].coordinates
  {
    if i < |msgs| - 1 {
      var p := msgs[..|msgs| - 1];
      LocationOfLastUpdate(ctx, p, i);
    }
  }

  /** The panel's failure message never touches the dashboard, and a
      delivered answer updates it exactly when it brings a location or at
      least one video; one with only sources is ignored. */
  lemma DeliveredUpdates(reply: FetchOutcome)
    ensures !Updates(OfflineMessage)
    ensures Delivered(reply).Some? ==>
      (Updates(Delivered(reply).value) <==> Truthy(Delivered(reply).value.coordinates) || |Delivered(reply).value.youtube.value| > 0)
  {
  }
}
