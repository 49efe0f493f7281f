/**
 * One `processMessages` call as an object: the two transcripts and the
 * three text accumulators are fields that each event handler updates in
 * place, and the stream's frames are handled one after another.
 */
module TurnProcessor {
  import opened Wrappers
  import opened JsonValues
  import opened Transcript
  import opened TurnEvents
  import opened TurnFold
  import StreamFrames

  class Processor {
    const env: Env
    var chatMessages: seq<Item>
    var conversationItems: seq<ConversationItem>
    var assistantMessageContent: string
    var functionArguments: string
    var mcpArguments: string
    /** The follow-up `processMessages()` calls requested so far. */
    var nextTurns: nat

    /** The fields as the value the handlers are specified on. */
    function Snapshot(): State
      reads this
    {
      State(chatMessages, conversationItems, assistantMessageContent, functionArguments, mcpArguments, nextTurns)
    }

    /** A call starts from the store's transcripts with empty accumulators. */
    constructor(env: Env, chat: seq<Item>, conversation: seq<ConversationItem>)
      ensures this.env == env
      ensures Snapshot() == State(chat, conversation, "", "", "", 0)
    {
      this.env := env;
      chatMessages := chat;
      conversationItems := conversation;
      assistantMessageContent := "";
      functionArguments := "";
      mcpArguments := "";
      nextTurns := 0;
    }

    method HandleTextDelta(data: Option<Json>)
      modifies this
      ensures Snapshot() == OnTextDelta(old(Snapshot()), data)
    {
      if Nullish(data) {
        return;
      }
      var d := data.value;
      assistantMessageContent := assistantMessageContent + DeltaText(d);
      var id := d.Field("item_id");
      if NeedsNewMessage(chatMessages, id) {
        chatMessages := chatMessages + [NewAssistantMessage(id, assistantMessageContent)];
      } else {
        var last := |chatMessages| - 1;
        chatMessages := chatMessages[last := UpdateMessage(chatMessages[last], assistantMessageContent, d.Field("annotation"))];
      }
    }

    method HandleItemAdded(data: Option<Json>)
      modifies this
      ensures Snapshot() == OnItemAdded(env, old(Snapshot()), data)
    {
      var item := if IsTruthy(data) then data.value.Field("item") else None;
      if !IsTruthy(item) || !IsTruthy(item.value.Field("type")) {
        return;
      }
      var it := item.value;
      if HasType(it, "message") {
        var annotations := MessageAnnotations(it);
        if annotations.Some? {
          var kept := if |annotations.value| > 0 then annotations else None;
          var text := MessageText(it);
          chatMessages := chatMessages + [Message("assistant", None, [ContentItem("output_text", text, kept)])];
          conversationItems := conversationItems + [AssistantText(text, kept)];
        }
      } else if HasType(it, "function_call") {
        var arguments := Or(it.Field("arguments"), JStr(""));
        functionArguments := functionArguments + ToJsString(arguments);
        chatMessages := chatMessages + [ToolCall(FunctionCall, InProgress, it.Field("id"), None, it.Field("name"),
                                                 Some(arguments), Some(JObj(map[])), Some(JNull), None)];
      } else if HasType(it, "web_search_call") {
        chatMessages := chatMessages + [SearchCallItem(WebSearchCall, it)];
      } else if HasType(it, "file_search_call") {
        chatMessages := chatMessages + [SearchCallItem(FileSearchCall, it)];
      } else if HasType(it, "mcp_call") {
        mcpArguments := OrEmpty(it.Field("arguments"));
        var call := McpCallItem(env, it);
        if call.Some? {
          chatMessages := chatMessages + [call.value];
        }
      } else if HasType(it, "code_interpreter_call") {
        chatMessages := chatMessages + [ToolCall(CodeInterpreterCall, Or(it.Field("status"), InProgress), it.Field("id"), None,
                                                 None, None, None, None, Some(JStr("")))];
      }
    }

    method HandleItemDone(data: Option<Json>)
      modifies this
      ensures Snapshot() == OnItemDone(env, old(Snapshot()), data)
    {
      var item := DoneItem(data);
      if Nullish(item) {
        return;
      }
      var it := item.value;
      var chat := WithWidget(env, chatMessages, it);
      if chat.None? {
        return;
      }
      chatMessages := chat.value;
      conversationItems := conversationItems + [WireItem(it)];
      var k := FirstWithId(chatMessages, it.Field("id"));
      if k.Some? && chatMessages[k.value].ToolCall? {
        var call := chatMessages[k.value].(callId := it.Field("call_id"));
        if call.toolType == FunctionCall {
          var result := env.runTool(call.name, call.parsedArguments);
          chatMessages := chatMessages[k.value := call.(output := Some(JStr(result)))];
          conversationItems := conversationItems + [FunctionCallOutput(call.callId, result)];
          nextTurns := nextTurns + 1;
        } else if call.toolType == McpCall {
          chatMessages := chatMessages[k.value := call.(output := it.Field("output"), status := Completed)];
        } else {
          chatMessages := chatMessages[k.value := call];
        }
      }
    }

    method HandleFunctionArgumentsDelta(data: Option<Json>)
      modifies this
      ensures Snapshot() == OnFunctionArgumentsDelta(env, old(Snapshot()), data)
    {
      if Nullish(data) {
        return;
      }
      functionArguments := functionArguments + OrEmpty(data.value.Field("delta"));
      chatMessages := ShowArguments(env, chatMessages, data.value.Field("item_id"), functionArguments);
    }

    method HandleFunctionArgumentsDone(data: Option<Json>)
      modifies this
      ensures Snapshot() == OnFunctionArgumentsDone(env, old(Snapshot()), data)
    {
      if Nullish(data) {
        return;
      }
      var arguments := data.value.Field("arguments");
      functionArguments := JsString(arguments);
      chatMessages := FinishArguments(env, chatMessages, data.value.Field("item_id"), arguments);
    }

    method HandleMcpArgumentsDelta(data: Option<Json>)
      modifies this
      ensures Snapshot() == OnMcpArgumentsDelta(env, old(Snapshot()), data)
    {
      if Nullish(data) {
        return;
      }
      mcpArguments := mcpArguments + OrEmpty(data.value.Field("delta"));
      chatMessages := ShowArguments(env, chatMessages, data.value.Field("item_id"), mcpArguments);
    }

    method HandleMcpArgumentsDone(data: Option<Json>)
      modifies this
      ensures Snapshot() == OnMcpArgumentsDone(env, old(Snapshot()), data)
    {
      if Nullish(data) {
        return;
      }
      var arguments := data.value.Field("arguments");
      mcpArguments := JsString(arguments);
      chatMessages := FinishArguments(env, chatMessages, data.value.Field("item_id"), arguments);
    }

    method HandleSearchCompleted(data: Option<Json>)
      modifies this
      ensures Snapshot() == OnSearchCompleted(old(Snapshot()), data)
    {
      if Nullish(data) {
        return;
      }
      chatMessages := CompleteSearch(chatMessages, data.value.Field("item_id"), data.value.Field("output"));
    }

    method HandleCodeDelta(data: Option<Json>)
      modifies this
      ensures Snapshot() == OnCodeDelta(old(Snapshot()), data)
    {
      if Nullish(data) {
        return;
      }
      var k := LastOpenCodeCall(chatMessages, data.value.Field("item_id"));
      if k.Some? {
        var call := chatMessages[k.value];
        chatMessages := chatMessages[k.value := call.(code := Some(JStr(GrownCode(call.code, data.value.Field("delta")))))];
      }
    }

    method HandleCodeDone(data: Option<Json>)
      modifies this
      ensures Snapshot() == OnCodeDone(old(Snapshot()), data)
    {
      if Nullish(data) {
        return;
      }
      var k := LastOpenCodeCall(chatMessages, data.value.Field("item_id"));
      if k.Some? {
        chatMessages := chatMessages[k.value := chatMessages[k.value].(code := data.value.Field("code"), status := Completed)];
      }
    }

    method HandleCodeCompleted(data: Option<Json>)
      modifies this
      ensures Snapshot() == OnCodeCompleted(old(Snapshot()), data)
    {
      if Nullish(data) {
        return;
      }
      var k := FirstToolCallWithId(chatMessages, data.value.Field("item_id"));
      if k.Some? {
        chatMessages := chatMessages[k.value := chatMessages[k.value].(status := Completed)];
      }
    }

    method HandleResponseCompleted(data: Option<Json>)
      modifies this
      ensures Snapshot() == OnResponseCompleted(old(Snapshot()), data)
    {
      var output := ResponseOutput(data);
      if output.Some? {
        chatMessages := chatMessages + McpPushes(output.value);
      }
    }

    /** The handler an event name selects. */
    method HandleEvent(kind: EventKind, data: Option<Json>)
      modifies this
      ensures Snapshot() == Apply(env, old(Snapshot()), kind, data)
    {
      match kind
      case TextDelta => HandleTextDelta(data);
      case AnnotationAdded => HandleTextDelta(data);
      case ItemAdded => HandleItemAdded(data);
      case ItemDone => HandleItemDone(data);
      case FunctionArgumentsDelta => HandleFunctionArgumentsDelta(data);
      case FunctionArgumentsDone => HandleFunctionArgumentsDone(data);
      case McpArgumentsDelta => HandleMcpArgumentsDelta(data);
      case McpArgumentsDone => HandleMcpArgumentsDone(data);
      case WebSearchCompleted => HandleSearchCompleted(data);
      case FileSearchCompleted => HandleSearchCompleted(data);
      case CodeDelta => HandleCodeDelta(data);
      case CodeDone => HandleCodeDone(data);
      case CodeCompleted => HandleCodeCompleted(data);
      case ResponseCompleted => HandleResponseCompleted(data);
    }

    /** The callback handed to `handleTurn`: a frame naming no handled event is ignored. */
    method OnMessage(frame: Json)
      modifies this
      ensures Snapshot() == Step(env, old(Snapshot()), frame)
    {
      var kind := KindOf(frame);
      if kind.Some? {
        HandleEvent(kind.value, frame.Field("data"));
      }
    }

    /**
     * The frames handled in order. The accumulated text is every text
     * delta among them, and the replay history only grows.
     */
    method HandleFrames(frames: seq<Json>)
      modifies this
      ensures Snapshot() == Fold(env, old(Snapshot()), frames)
      ensures assistantMessageContent == old(assistantMessageContent) + StreamedText(frames)
      ensures Extends(old(conversationItems), conversationItems)
    {
      ghost var start := Snapshot();
      var i := 0;
      while i < |frames|
        invariant 0 <= i <= |frames|
        invariant Snapshot() == Fold(env, start, frames[..i])
      {
        FoldSnoc(env, start, frames[..i], frames[i]);
        assert frames[..i + 1] == frames[..i] + [frames[i]];
        OnMessage(frames[i]);
        i := i + 1;
      }
      assert frames[..i] == frames;
      FoldText(env, start, frames);
      FoldExtendsHistory(env, start, frames);
    }

    /**
     * `await handleTurn(..., callback)`: the frames the response stream
     * delivers, each handled as it arrives.
     */
    method ProcessMessages(ok: bool, chunks: seq<string>) returns (frames: seq<Json>)
      modifies this
      ensures !ok ==> frames == [] && Snapshot() == old(Snapshot())
      ensures ok ==>
        var text := StreamFrames.Concat(chunks);
        var d := StreamFrames.DeliverLines(StreamFrames.CompleteFrames(text), env.parseJson);
        d.status == StreamFrames.Running ==> frames == d.events + StreamFrames.LeftoverEvents(StreamFrames.PartialFrame(text), env.parseJson)
      ensures Snapshot() == Fold(env, old(Snapshot()), frames)
      ensures assistantMessageContent == old(assistantMessageContent) + StreamedText(frames)
    {
      frames := StreamFrames.HandleTurn(ok, chunks, env.parseJson);
      HandleFrames(frames);
    }
  }
}
