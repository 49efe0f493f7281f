/**
 * The `processMessages` callback as a fold over the delivered frames:
 * each `{event, data}` frame goes to the handler its event names.
 */
module TurnFold {
  import opened Wrappers
  import opened JsonValues
  import opened Transcript
  import opened TurnEvents

  datatype EventKind =
    | TextDelta | AnnotationAdded | ItemAdded | ItemDone
    | FunctionArgumentsDelta | FunctionArgumentsDone | McpArgumentsDelta | McpArgumentsDone
    | WebSearchCompleted | FileSearchCompleted | CodeDelta | CodeDone | CodeCompleted | ResponseCompleted

  function EventName(kind: EventKind): string {
    match kind
    case TextDelta => "response.output_text.delta"
    case AnnotationAdded => "response.output_text.annotation.added"
    case ItemAdded => "response.output_item.added"
    case ItemDone => "response.output_item.done"
    case FunctionArgumentsDelta => "response.function_call_arguments.delta"
    case FunctionArgumentsDone => "response.function_call_arguments.done"
    case McpArgumentsDelta => "response.mcp_call_arguments.delta"
    case McpArgumentsDone => "response.mcp_call_arguments.done"
    case WebSearchCompleted => "response.web_search_call.completed"
    case FileSearchCompleted => "response.file_search_call.completed"
    case CodeDelta => "response.code_interpreter_call_code.delta"
    case CodeDone => "response.code_interpreter_call_code.done"
    case CodeCompleted => "response.code_interpreter_call.completed"
    case ResponseCompleted => "response.completed"
  }

  /** `switch (event)`; any other event, or a frame without one, is ignored. */
  function KindOf(frame: Json): (r: Option<EventKind>)
    ensures r.Some? ==> frame.Field("event") == Some(JStr(EventName(r.value)))
    ensures r.None? ==> forall kind: EventKind :: frame.Field("event") != Some(JStr(EventName(kind)))
  {
    match frame.Field("event")
    case Some(JStr(name)) => KindNamed(name)
    case _ => None
  }

  function KindNamed(name: string): (r: Option<EventKind>)
    ensures r.Some? ==> name == EventName(r.value)
    ensures r.None? ==> forall kind: EventKind :: name != EventName(kind)
  {
    if name == "response.output_text.delta" then Some(TextDelta)
    else if name == "response.output_text.annotation.added" then Some(AnnotationAdded)
    else if name == "response.output_item.added" then Some(ItemAdded)
    else if name == "response.output_item.done" then Some(ItemDone)
    else if name == "response.function_call_arguments.delta" then Some(FunctionArgumentsDelta)
    else if name == "response.function_call_arguments.done" then Some(FunctionArgumentsDone)
    else if name == "response.mcp_call_arguments.delta" then Some(McpArgumentsDelta)
    else if name == "response.mcp_call_arguments.done" then Some(McpArgumentsDone)
    else if name == "response.web_search_call.completed" then Some(WebSearchCompleted)
    else if name == "response.file_search_call.completed" then Some(FileSearchCompleted)
    else if name == "response.code_interpreter_call_code.delta" then Some(CodeDelta)
    else if name == "response.code_interpreter_call_code.done" then Some(CodeDone)
    else if name == "response.code_interpreter_call.completed" then Some(CodeCompleted)
    else if name == "response.completed" then Some(ResponseCompleted)
    else None
  }

  predicate IsTextEvent(kind: EventKind) {
    kind == TextDelta || kind == AnnotationAdded
  }

  /** The text an event contributes to `assistantMessageContent`. */
  function EventText(kind: EventKind, data: Option<Json>): string {
    if IsTextEvent(kind) && !Nullish(data) then DeltaText(data.value) else ""
  }

  /**
   * The handler for one event. Only text events change the accumulated
   * text, the replay history only grows, and only `output_item.done`
   * requests a follow-up turn.
   */
  function Apply(env: Env, s: State, kind: EventKind, data: Option<Json>): (r: State)
    ensures r.text == s.text + EventText(kind, data)
    ensures Extends(s.conversation, r.conversation)
    ensures kind != ItemDone ==> r.nextTurns == s.nextTurns
  {
    match kind
    case TextDelta => OnTextDelta(s, data)
    case AnnotationAdded => OnTextDelta(s, data)
    case ItemAdded => OnItemAdded(env, s, data)
    case ItemDone => OnItemDone(env, s, data)
    case FunctionArgumentsDelta => OnFunctionArgumentsDelta(env, s, data)
    case FunctionArgumentsDone => OnFunctionArgumentsDone(env, s, data)
    case McpArgumentsDelta => OnMcpArgumentsDelta(env, s, data)
    case McpArgumentsDone => OnMcpArgumentsDone(env, s, data)
    case WebSearchCompleted => OnSearchCompleted(s, data)
    case FileSearchCompleted => OnSearchCompleted(s, data)
    case CodeDelta => OnCodeDelta(s, data)
    case CodeDone => OnCodeDone(s, data)
    case CodeCompleted => OnCodeCompleted(s, data)
    case ResponseCompleted => OnResponseCompleted(s, data)
  }

  /** The text a frame contributes. */
  function FrameText(frame: Json): string {
    match KindOf(frame)
    case None => ""
    case Some(kind) => EventText(kind, frame.Field("data"))
  }

  function Step(env: Env, s: State, frame: Json): (r: State)
    ensures r.text == s.text + FrameText(frame)
    ensures Extends(s.conversation, r.conversation)
    ensures KindOf(frame) != Some(ItemDone) ==> r.nextTurns == s.nextTurns
  {
    match KindOf(frame)
    case None => s
    case Some(kind) => Apply(env, s, kind, frame.Field("data"))
  }

  /** The frames handled one after another, in order of delivery. */
  function Fold(env: Env, s: State, frames: seq<Json>): State
    decreases |frames|
  {
    if frames == [] then s
    else Step(env, Fold(env, s, frames[..|frames| - 1]), frames[|frames| - 1])
  }

  /** The concatenation of every text delta among the frames. */
  function StreamedText(frames: seq<Json>): string
    decreases |frames|
  {
    if frames == [] then "" else StreamedText(frames[..|frames| - 1]) + FrameText(frames[|frames| - 1])
  }

  /** `assistantMessageContent` is the concatenation of every string delta seen so far. */
  lemma {:induction false} FoldText(env: Env, s: State, frames: seq<Json>)
    ensures Fold(env, s, frames).text == s.text + StreamedText(frames)
    decreases |frames|
  {
    if frames != [] {
      var init := frames[..|frames| - 1];
      var last := frames[|frames| - 1];
      FoldText(env, s, init);
      var mid := Fold(env, s, init);
      assert Fold(env, s, frames).text == mid.text + FrameText(last);
      assert StreamedText(frames) == StreamedText(init) + FrameText(last);
      ConcatAssoc(s.text, StreamedText(init), FrameText(last));
    }
  }

  lemma ConcatAssoc(a: string, b: string, c: string)
    ensures a + b + c == a + (b + c)
  {
  }

  /** The replay history only grows: every item once replayed stays, in place. */
  lemma {:induction false} FoldExtendsHistory(env: Env, s: State, frames: seq<Json>)
    ensures Extends(s.conversation, Fold(env, s, frames).conversation)
    decreases |frames|
  {
    if frames != [] {
      var mid := Fold(env, s, frames[..|frames| - 1]);
      FoldExtendsHistory(env, s, frames[..|frames| - 1]);
      var r := Fold(env, s, frames);
      assert r.conversation[..|mid.conversation|] == mid.conversation;
      assert r.conversation[..|s.conversation|] == mid.conversation[..|s.conversation|];
    }
  }

  /** A frame after `frames` is handled in the state `frames` leave. */
  lemma FoldSnoc(env: Env, s: State, frames: seq<Json>, frame: Json)
    ensures Fold(env, s, frames + [frame]) == Step(env, Fold(env, s, frames), frame)
  {
    assert (frames + [frame])[..|frames|] == frames;
  }

  /**
   * After a text event the message on screen shows the whole text
   * streamed so far, unless it continues a message whose first entry is
   * not output text.
   */
  lemma ShownTextIsStreamedText(env: Env, s: State, frames: seq<Json>, frame: Json)
    requires KindOf(frame).Some? && IsTextEvent(KindOf(frame).value) && !Nullish(frame.Field("data"))
    requires var mid := Fold(env, s, frames);
      NeedsNewMessage(mid.chat, frame.Field("data").value.Field("item_id")) || OpensWithOutputText(mid.chat[|mid.chat| - 1])
    ensures var r := Fold(env, s, frames + [frame]); ShowsText(r.chat[|r.chat| - 1], s.text + StreamedText(frames + [frame]))
  {
    FoldSnoc(env, s, frames, frame);
    FoldText(env, s, frames + [frame]);
    TextDeltaEffect(Fold(env, s, frames), frame.Field("data"));
  }

  /** A frame that names no handled event changes nothing. */
  lemma UnknownEventIgnored(env: Env, s: State, frame: Json)
    requires forall kind: EventKind :: frame.Field("event") != Some(JStr(EventName(kind)))
    ensures Step(env, s, frame) == s
  {
  }

  /**
   * A concrete transcript shows the as-written `output_item.done` never
   * running a local function tool that the intended handler runs: the
   * display holds the function call `fc_1`, and the API completes it as a
   * `function_call` item.
   */
  lemma LocalToolRunsOnlyWhenCorrected(env: Env)
    ensures var call := ToolCall(FunctionCall, InProgress, Some(JStr("fc_1")), None, Some(JStr("get_weather")),
                                 Some(JStr("{}")), Some(JObj(map[])), Some(JNull), None);
      var s := State([call], [], "", "", "", 0);
      var item := JObj(map["type" := JStr("function_call"), "id" := JStr("fc_1"), "call_id" := JStr("call_1")]);
      var data := Some(JObj(map["item" := item]));
      OnItemDoneAsWritten(env, s, data) == s.(conversation := [WireItem(item)])
      && OnItemDone(env, s, data).nextTurns == 1
      && OnItemDone(env, s, data).conversation
         == [WireItem(item), FunctionCallOutput(Some(JStr("call_1")), env.runTool(Some(JStr("get_weather")), Some(JObj(map[]))))]
  {
    var call := ToolCall(FunctionCall, InProgress, Some(JStr("fc_1")), None, Some(JStr("get_weather")),
                         Some(JStr("{}")), Some(JObj(map[])), Some(JNull), None);
    var item := JObj(map["type" := JStr("function_call"), "id" := JStr("fc_1"), "call_id" := JStr("call_1")]);
    var data := Some(JObj(map["item" := item]));
    assert DoneItem(data) == Some(item);
    assert item.Field("type") == Some(JStr("function_call"));
    assert item.Field("id") == Some(JStr("fc_1"));
    assert item.Field("call_id") == Some(JStr("call_1"));
    assert FirstWithId([call], item.Field("id")) == Some(0);
  }
}
