/**
 * What each streamed event does to the variables of one
 * `processMessages` call: the display transcript, the replay history and
 * the three text accumulators. A handler that throws keeps the effects it
 * made before the throw and none after; the stream goes on with the next
 * event.
 */
module TurnEvents {
  import opened Wrappers
  import opened JsonValues
  import opened Transcript
  import opened ToolOutputs

  /**
   * The foreign calls: `JSON.parse`, partial-json's `parse` and
   * `handleTool` followed by `JSON.stringify`; `None` is a throw.
   */
  datatype Env = Env(parseJson: string -> Option<Json>, parsePartial: string -> Option<Json>,
                     runTool: (Option<Json>, Option<Json>) -> string)

  /**
   * `chatMessages`, `conversationItems`, `assistantMessageContent`,
   * `functionArguments`, `mcpArguments`, and the number of follow-up turns
   * requested with `processMessages()`. The argument buffers hold the
   * string a later `+=` turns them into.
   */
  datatype State = State(chat: seq<Item>, conversation: seq<ConversationItem>, text: string,
                         functionArguments: string, mcpArguments: string, nextTurns: nat)

  /** `null` or `undefined`: destructuring it throws. */
  predicate Nullish(v: Option<Json>) {
    v.None? || v.value == JNull
  }

  /** `"" + v`, with `undefined` spelled out. */
  function JsString(v: Option<Json>): string {
    if v.None? then "undefined" else ToJsString(v.value)
  }

  /** `v || ""` appended to a string. */
  function OrEmpty(v: Option<Json>): string {
    ToJsString(Or(v, JStr("")))
  }

  /** `b` is `a` followed by new entries. */
  predicate Extends<T(==)>(a: seq<T>, b: seq<T>) {
    |a| <= |b| && b[..|a|] == a
  }

  // ---------------------------------------------------------------------
  // response.output_text.delta, response.output_text.annotation.added
  // ---------------------------------------------------------------------

  /** The text an event adds: its `delta` when that is a string. */
  function DeltaText(data: Json): string {
    match data.Field("delta")
    case Some(JStr(d)) => d
    case _ => ""
  }

  /** The last item is absent, is not an assistant message, or carries another id. */
  predicate NeedsNewMessage(chat: seq<Item>, itemId: Option<Json>) {
    |chat| == 0 || !chat[|chat| - 1].Message? || chat[|chat| - 1].role != "assistant"
    || (IsTruthy(chat[|chat| - 1].id) && !StrictEquals(chat[|chat| - 1].id, itemId))
  }

  function NewAssistantMessage(id: Option<Json>, text: string): Item {
    Message("assistant", id, [ContentItem("output_text", JStr(text), None)])
  }

  predicate OpensWithOutputText(m: Item) {
    m.Message? && |m.content| > 0 && m.content[0].kind == "output_text"
  }

  /** The message shows `text` in its first content entry. */
  predicate ShowsText(m: Item, text: string) {
    OpensWithOutputText(m) && m.content[0].text == JStr(text)
  }

  /** The update branch: the first content entry, when output text, takes the text and the annotation. */
  function UpdateMessage(m: Item, text: string, annotation: Option<Json>): Item
    requires m.Message?
  {
    if OpensWithOutputText(m) then
      var c := m.content[0];
      var shown := c.(text := JStr(text));
      var annotated :=
        if IsTruthy(annotation) then shown.(annotations := Some(c.annotations.GetOr([]) + [NormalizeAnnotation(annotation.value)]))
        else shown;
      m.(content := m.content[0 := annotated])
    else m
  }

  function OnTextDelta(s: State, data: Option<Json>): (r: State)
    ensures r.conversation == s.conversation && r.nextTurns == s.nextTurns
    ensures r.functionArguments == s.functionArguments && r.mcpArguments == s.mcpArguments
  {
    if Nullish(data) then s
    else
      var d := data.value;
      var text := s.text + DeltaText(d);
      var id := d.Field("item_id");
      if NeedsNewMessage(s.chat, id) then s.(text := text, chat := s.chat + [NewAssistantMessage(id, text)])
      else
        var last := |s.chat| - 1;
        s.(text := text, chat := s.chat[last := UpdateMessage(s.chat[last], text, d.Field("annotation"))])
  }

  /**
   * The accumulated text grows by the delta; a message is pushed exactly
   * when the last item is not this assistant message, and otherwise only
   * the last item changes. Either way the current message shows the whole
   * accumulated text when its first entry is output text.
   */
  lemma TextDeltaEffect(s: State, data: Option<Json>)
    requires !Nullish(data)
    ensures var r := OnTextDelta(s, data); var id := data.value.Field("item_id");
      r.text == s.text + DeltaText(data.value)
      && (|r.chat| == |s.chat| + 1 <==> NeedsNewMessage(s.chat, id))
      && (NeedsNewMessage(s.chat, id) ==> r.chat == s.chat + [NewAssistantMessage(id, r.text)])
      && (!NeedsNewMessage(s.chat, id) ==>
            |r.chat| == |s.chat| && r.chat[..|s.chat| - 1] == s.chat[..|s.chat| - 1]
            && (OpensWithOutputText(s.chat[|s.chat| - 1]) ==> ShowsText(r.chat[|r.chat| - 1], r.text))
            && (!OpensWithOutputText(s.chat[|s.chat| - 1]) ==> r.chat == s.chat))
  {
  }

  /**
   * Annotations reach only an existing message: a pushed message has
   * none, and the update branch appends the normalised annotation to the
   * first entry's list.
   */
  lemma AnnotationsOnlyOnUpdate(s: State, data: Option<Json>)
    requires !Nullish(data)
    ensures var r := OnTextDelta(s, data); var d := data.value;
      (NeedsNewMessage(s.chat, d.Field("item_id")) ==> r.chat[|r.chat| - 1].content[0].annotations.None?)
      && (!NeedsNewMessage(s.chat, d.Field("item_id")) && OpensWithOutputText(s.chat[|s.chat| - 1]) ==>
            var before := s.chat[|s.chat| - 1].content[0].annotations;
            r.chat[|r.chat| - 1].content[0].annotations ==
              if IsTruthy(d.Field("annotation")) then Some(before.GetOr([]) + [NormalizeAnnotation(d.Field("annotation").value)])
              else before)
  {
  }

  // ---------------------------------------------------------------------
  // response.output_item.added
  // ---------------------------------------------------------------------

  /** `item.content?.text || ""`. */
  function MessageText(item: Json): Json {
    var content := item.Field("content");
    if Nullish(content) then JStr("") else Or(content.value.Field("text"), JStr(""))
  }

  /** `item.content?.annotations?.map(normalizeAnnotation) || []`; `None` when it throws. */
  function MessageAnnotations(item: Json): Option<seq<Json>> {
    var content := item.Field("content");
    if Nullish(content) then Some([])
    else
      var annotations := content.value.Field("annotations");
      if Nullish(annotations) then Some([])
      else if annotations.value.JArr? then NormalizeAll(annotations.value.items)
      else None
  }

  /** A new assistant message, on screen and in the replay history, with annotations only when there are some. */
  function AddMessage(s: State, item: Json): (r: State)
    ensures r.text == s.text && r.nextTurns == s.nextTurns && Extends(s.conversation, r.conversation)
    ensures r.functionArguments == s.functionArguments && r.mcpArguments == s.mcpArguments
  {
    match MessageAnnotations(item)
    case None => s
    case Some(annotations) =>
      var kept := if |annotations| > 0 then Some(annotations) else None;
      var text := MessageText(item);
      s.(chat := s.chat + [Message("assistant", None, [ContentItem("output_text", text, kept)])],
         conversation := s.conversation + [AssistantText(text, kept)])
  }

  /** A running MCP call; `None` when the partial parse of its arguments throws. */
  function McpCallItem(env: Env, item: Json): Option<Item> {
    var arguments := Or(item.Field("arguments"), JStr(""));
    var parsed := if IsTruthy(item.Field("arguments")) then env.parsePartial(ToJsString(arguments)) else Some(JObj(map[]));
    if parsed.None? then None
    else Some(ToolCall(McpCall, InProgress, item.Field("id"), None, item.Field("name"), Some(arguments), parsed, Some(JNull), None))
  }

  /** A search call as it starts: its own status or `in_progress`. */
  function SearchCallItem(toolType: ToolType, item: Json): Item {
    ToolCall(toolType, Or(item.Field("status"), InProgress), item.Field("id"), None, None, None, None, None, None)
  }

  function OnTypedItemAdded(env: Env, s: State, item: Json): (r: State)
    ensures r.text == s.text && r.nextTurns == s.nextTurns && Extends(s.conversation, r.conversation)
  {
    if HasType(item, "message") then AddMessage(s, item)
    else if HasType(item, "function_call") then
      var arguments := Or(item.Field("arguments"), JStr(""));
      s.(functionArguments := s.functionArguments + ToJsString(arguments),
         chat := s.chat + [ToolCall(FunctionCall, InProgress, item.Field("id"), None, item.Field("name"),
                                    Some(arguments), Some(JObj(map[])), Some(JNull), None)])
    else if HasType(item, "web_search_call") then s.(chat := s.chat + [SearchCallItem(WebSearchCall, item)])
    else if HasType(item, "file_search_call") then s.(chat := s.chat + [SearchCallItem(FileSearchCall, item)])
    else if HasType(item, "mcp_call") then
      var reset := s.(mcpArguments := OrEmpty(item.Field("arguments")));
      match McpCallItem(env, item)
      case None => reset
      case Some(call) => reset.(chat := s.chat + [call])
    else if HasType(item, "code_interpreter_call") then
      s.(chat := s.chat + [ToolCall(CodeInterpreterCall, Or(item.Field("status"), InProgress), item.Field("id"), None,
                                    None, None, None, None, Some(JStr("")))])
    else s
  }

  function OnItemAdded(env: Env, s: State, data: Option<Json>): (r: State)
    ensures r.text == s.text && r.nextTurns == s.nextTurns && Extends(s.conversation, r.conversation)
  {
    var item := if IsTruthy(data) then data.value.Field("item") else None;
    if !IsTruthy(item) || !IsTruthy(item.value.Field("type")) then s
    else OnTypedItemAdded(env, s, item.value)
  }

  /**
   * The argument buffers on `added`: a function call appends its
   * arguments to `functionArguments`, an MCP call resets `mcpArguments` to
   * its own, and each pushes one in-progress tool call with its id.
   */
  lemma AddedArgumentBuffers(env: Env, s: State, item: Json)
    requires IsTruthy(item.Field("type"))
    ensures var r := OnItemAdded(env, s, Some(JObj(map["item" := item])));
      (HasType(item, "function_call") ==>
         r.functionArguments == s.functionArguments + OrEmpty(item.Field("arguments")) && r.mcpArguments == s.mcpArguments
         && |r.chat| == |s.chat| + 1 && r.chat[..|s.chat|] == s.chat
         && r.chat[|s.chat|].ToolCall? && r.chat[|s.chat|].toolType == FunctionCall && r.chat[|s.chat|].status == InProgress
         && r.chat[|s.chat|].id == item.Field("id"))
      && (HasType(item, "mcp_call") ==>
         r.mcpArguments == OrEmpty(item.Field("arguments")) && r.functionArguments == s.functionArguments
         && (McpCallItem(env, item).Some? ==> r.chat == s.chat + [McpCallItem(env, item).value])
         && (McpCallItem(env, item).None? ==> r.chat == s.chat))
  {
    assert JObj(map["item" := item]).Field("item") == Some(item);
  }

  // ---------------------------------------------------------------------
  // response.output_item.done
  // ---------------------------------------------------------------------

  /** `value.key = v` on an object. */
  function SetField(value: Json, key: string, v: Json): Json {
    if value.JObj? then JObj(value.fields[key := v]) else value
  }

  /** `item.type === "tool_call" && item.tool_type === t`. */
  predicate IsDisplayToolCall(item: Json, t: string) {
    HasType(item, "tool_call") && item.Field("tool_type") == Some(JStr(t))
  }

  /** The `mcp_call` widget dispatch; `None` when it throws. */
  function WithWidget(env: Env, chat: seq<Item>, item: Json): Option<seq<Item>> {
    var dispatch := if HasType(item, "mcp_call") then WidgetFor(env.parseJson, item) else NoWidget;
    match dispatch
    case Aborted => None
    case NoWidget => Some(chat)
    case NewWidget(widget) => Some(chat + [widget])
  }

  /**
   * The handler as written: the completion branches test the wire item,
   * which the API sends as `function_call` or `mcp_call`, for the display
   * type `tool_call`. The wire item is pushed first and then changed in
   * place, so its final value is what the history holds.
   */
  function OnItemDoneAsWritten(env: Env, s: State, data: Option<Json>): (r: State)
    ensures r.text == s.text && r.functionArguments == s.functionArguments && r.mcpArguments == s.mcpArguments
  {
    var item := if IsTruthy(data) then data.value.Field("item") else None;
    if Nullish(item) then s
    else
      var it := item.value;
      match WithWidget(env, s.chat, it)
      case None => s
      case Some(chat) =>
        if IsDisplayToolCall(it, "function_call") then
          var result := env.runTool(it.Field("name"), it.Field("parsedArguments"));
          s.(chat := chat, nextTurns := s.nextTurns + 1,
             conversation := s.conversation + [WireItem(SetField(it, "output", JStr(result))), FunctionCallOutput(it.Field("call_id"), result)])
        else if IsDisplayToolCall(it, "mcp_call") then
          s.(chat := chat, conversation := s.conversation + [WireItem(SetField(it, "status", Completed))])
        else s.(chat := chat, conversation := s.conversation + [WireItem(it)])
  }

  /**
   * The handler as intended: the display tool call with the item's id
   * takes the item's `call_id`; a function call then runs its tool, shows
   * the result and replays it as a `function_call_output` before a
   * follow-up turn, and an MCP call shows the item's output as completed.
   */
  function OnItemDone(env: Env, s: State, data: Option<Json>): (r: State)
    ensures r.text == s.text && r.functionArguments == s.functionArguments && r.mcpArguments == s.mcpArguments
    ensures Extends(s.conversation, r.conversation)
  {
    var item := if IsTruthy(data) then data.value.Field("item") else None;
    if Nullish(item) then s
    else
      var it := item.value;
      match WithWidget(env, s.chat, it)
      case None => s
      case Some(chat) =>
        var conversation := s.conversation + [WireItem(it)];
        var k := FirstWithId(chat, it.Field("id"));
        if k.None? || !chat[k.value].ToolCall? then s.(chat := chat, conversation := conversation)
        else
          var call := chat[k.value].(callId := it.Field("call_id"));
          if call.toolType == FunctionCall then
            var result := env.runTool(call.name, call.parsedArguments);
            s.(chat := chat[k.value := call.(output := Some(JStr(result)))], nextTurns := s.nextTurns + 1,
               conversation := conversation + [FunctionCallOutput(call.callId, result)])
          else if call.toolType == McpCall then
            s.(chat := chat[k.value := call.(output := it.Field("output"), status := Completed)], conversation := conversation)
          else s.(chat := chat[k.value := call], conversation := conversation)
  }

  /** The wire item of a `response.output_item.done` event. */
  function DoneItem(data: Option<Json>): Option<Json> {
    if IsTruthy(data) then data.value.Field("item") else None
  }

  /**
   * Every completed item that reaches the push is appended to the replay
   * history, right after the old history; the widget dispatch is the only
   * way the push is missed.
   */
  lemma DoneItemReplayed(env: Env, s: State, data: Option<Json>)
    requires !Nullish(DoneItem(data)) && WithWidget(env, s.chat, DoneItem(data).value).Some?
    ensures var r := OnItemDone(env, s, data);
      |r.conversation| > |s.conversation| && r.conversation[..|s.conversation|] == s.conversation
      && r.conversation[|s.conversation|] == WireItem(DoneItem(data).value)
  {
  }

  /**
   * A follow-up turn is requested exactly when the item's id first names
   * a display function call; its tool runs once on that call's name and
   * parsed arguments, and the result is both shown and replayed under the
   * item's `call_id`.
   */
  lemma DoneRunsFunctionTool(env: Env, s: State, data: Option<Json>)
    requires !Nullish(DoneItem(data)) && WithWidget(env, s.chat, DoneItem(data).value).Some?
    ensures var it := DoneItem(data).value; var chat := WithWidget(env, s.chat, it).value;
      var k := FirstWithId(chat, it.Field("id")); var r := OnItemDone(env, s, data);
      var runs := k.Some? && chat[k.value].ToolCall? && chat[k.value].toolType == FunctionCall;
      (r.nextTurns == if runs then s.nextTurns + 1 else s.nextTurns)
      && (runs ==>
            var result := env.runTool(chat[k.value].name, chat[k.value].parsedArguments);
            r.conversation == s.conversation + [WireItem(it), FunctionCallOutput(it.Field("call_id"), result)]
            && r.chat[k.value].output == Some(JStr(result)) && |r.chat| == |chat|)
      && (!runs ==> r.conversation == s.conversation + [WireItem(it)])
  {
  }

  /**
   * As written, a wire item the API sends for a function call never runs
   * its tool: no `function_call_output` is replayed and no follow-up turn
   * starts; an MCP call's display item does not receive its output.
   */
  lemma WireFunctionCallIgnoredAsWritten(env: Env, s: State, data: Option<Json>)
    requires !Nullish(DoneItem(data))
    requires HasType(DoneItem(data).value, "function_call") || HasType(DoneItem(data).value, "mcp_call")
    requires WithWidget(env, s.chat, DoneItem(data).value).Some?
    ensures var it := DoneItem(data).value; var r := OnItemDoneAsWritten(env, s, data);
      r.nextTurns == s.nextTurns && r.conversation == s.conversation + [WireItem(it)]
      && r.chat == WithWidget(env, s.chat, it).value
  {
  }

  // ---------------------------------------------------------------------
  // Argument, search and code events: a change to one found item
  // ---------------------------------------------------------------------

  /** `chat[k]` may change and nothing else does. */
  predicate OnlyAt(chat: seq<Item>, r: seq<Item>, k: Option<nat>) {
    |r| == |chat| && forall j :: 0 <= j < |chat| && Some(j) != k ==> r[j] == chat[j]
  }

  /** `*_arguments.delta` on the display items: the first item with the id, when a tool call, shows the buffer. */
  function ShowArguments(env: Env, chat: seq<Item>, id: Option<Json>, buffer: string): (r: seq<Item>)
    ensures OnlyAt(chat, r, FirstWithId(chat, id))
  {
    var k := FirstWithId(chat, id);
    if k.None? || !chat[k.value].ToolCall? then chat
    else
      var parsed := if |buffer| > 0 then env.parsePartial(buffer) else Some(JObj(map[]));
      var call := chat[k.value].(arguments := Some(JStr(buffer)));
      chat[k.value := if parsed.Some? then call.(parsedArguments := parsed) else call]
  }

  /**
   * The found tool call shows the whole buffer; its parsed arguments
   * change only when the partial parse succeeds (an empty buffer parses as
   * `{}`); an id that names no tool call changes nothing.
   */
  lemma ShowArgumentsEffect(env: Env, chat: seq<Item>, id: Option<Json>, buffer: string)
    ensures var k := FirstWithId(chat, id); var r := ShowArguments(env, chat, id, buffer);
      (k.None? || !chat[k.value].ToolCall? ==> r == chat)
      && (k.Some? && chat[k.value].ToolCall? ==>
            var parsed := if |buffer| > 0 then env.parsePartial(buffer) else Some(JObj(map[]));
            r[k.value].ToolCall? && r[k.value].arguments == Some(JStr(buffer))
            && r[k.value].parsedArguments == (if parsed.Some? then parsed else chat[k.value].parsedArguments)
            && r[k.value].status == chat[k.value].status && r[k.value].output == chat[k.value].output)
  {
  }

  /** `*_arguments.done` on the display items: final arguments, their parse and `completed`. */
  function FinishArguments(env: Env, chat: seq<Item>, id: Option<Json>, arguments: Option<Json>): (r: seq<Item>)
    ensures OnlyAt(chat, r, FirstWithId(chat, id))
  {
    var k := FirstWithId(chat, id);
    if k.None? || !chat[k.value].ToolCall? then chat
    else
      var call := chat[k.value].(arguments := arguments);
      var parsed := if arguments.Some? && arguments.value.JStr? then env.parsePartial(arguments.value.s) else None;
      chat[k.value := if parsed.Some? then call.(parsedArguments := parsed, status := Completed) else call]
  }

  /**
   * The found tool call takes the final arguments; it is completed with
   * their parse when that succeeds, and otherwise the throw leaves its
   * parsed arguments and status as they were.
   */
  lemma FinishArgumentsEffect(env: Env, chat: seq<Item>, id: Option<Json>, arguments: Option<Json>)
    ensures var k := FirstWithId(chat, id); var r := FinishArguments(env, chat, id, arguments);
      (k.None? || !chat[k.value].ToolCall? ==> r == chat)
      && (k.Some? && chat[k.value].ToolCall? ==>
            var parsed := if arguments.Some? && arguments.value.JStr? then env.parsePartial(arguments.value.s) else None;
            r[k.value].ToolCall? && r[k.value].arguments == arguments
            && (parsed.Some? ==> r[k.value].parsedArguments == parsed && r[k.value].status == Completed)
            && (parsed.None? ==> r[k.value].parsedArguments == chat[k.value].parsedArguments
                                 && r[k.value].status == chat[k.value].status))
  {
  }

  function OnFunctionArgumentsDelta(env: Env, s: State, data: Option<Json>): (r: State)
    ensures r.text == s.text && r.conversation == s.conversation && r.nextTurns == s.nextTurns
    ensures r.mcpArguments == s.mcpArguments
    ensures !Nullish(data) ==> r.functionArguments == s.functionArguments + OrEmpty(data.value.Field("delta"))
  {
    if Nullish(data) then s
    else
      var buffer := s.functionArguments + OrEmpty(data.value.Field("delta"));
      s.(functionArguments := buffer, chat := ShowArguments(env, s.chat, data.value.Field("item_id"), buffer))
  }

  function OnFunctionArgumentsDone(env: Env, s: State, data: Option<Json>): (r: State)
    ensures r.text == s.text && r.conversation == s.conversation && r.nextTurns == s.nextTurns
    ensures r.mcpArguments == s.mcpArguments
  {
    if Nullish(data) then s
    else
      var arguments := data.value.Field("arguments");
      s.(functionArguments := JsString(arguments), chat := FinishArguments(env, s.chat, data.value.Field("item_id"), arguments))
  }

  function OnMcpArgumentsDelta(env: Env, s: State, data: Option<Json>): (r: State)
    ensures r.text == s.text && r.conversation == s.conversation && r.nextTurns == s.nextTurns
    ensures r.functionArguments == s.functionArguments
    ensures !Nullish(data) ==> r.mcpArguments == s.mcpArguments + OrEmpty(data.value.Field("delta"))
  {
    if Nullish(data) then s
    else
      var buffer := s.mcpArguments + OrEmpty(data.value.Field("delta"));
      s.(mcpArguments := buffer, chat := ShowArguments(env, s.chat, data.value.Field("item_id"), buffer))
  }

  function OnMcpArgumentsDone(env: Env, s: State, data: Option<Json>): (r: State)
    ensures r.text == s.text && r.conversation == s.conversation && r.nextTurns == s.nextTurns
    ensures r.functionArguments == s.functionArguments
  {
    if Nullish(data) then s
    else
      var arguments := data.value.Field("arguments");
      s.(mcpArguments := JsString(arguments), chat := FinishArguments(env, s.chat, data.value.Field("item_id"), arguments))
  }

  /** `*_search_call.completed`: the first item with the id, when a tool call, takes the output and `completed`. */
  function CompleteSearch(chat: seq<Item>, id: Option<Json>, output: Option<Json>): (r: seq<Item>)
    ensures OnlyAt(chat, r, FirstWithId(chat, id))
    ensures var k := FirstWithId(chat, id);
      (k.None? || !chat[k.value].ToolCall? ==> r == chat)
      && (k.Some? && chat[k.value].ToolCall? ==>
            r[k.value].ToolCall? && r[k.value].output == output && r[k.value].status == Completed
            && r[k.value].arguments == chat[k.value].arguments && r[k.value].code == chat[k.value].code)
  {
    var k := FirstWithId(chat, id);
    if k.None? || !chat[k.value].ToolCall? then chat
    else chat[k.value := chat[k.value].(output := output, status := Completed)]
  }

  function OnSearchCompleted(s: State, data: Option<Json>): (r: State)
    ensures r.text == s.text && r.conversation == s.conversation && r.nextTurns == s.nextTurns
    ensures r.functionArguments == s.functionArguments && r.mcpArguments == s.mcpArguments
  {
    if Nullish(data) then s
    else s.(chat := CompleteSearch(s.chat, data.value.Field("item_id"), data.value.Field("output")))
  }

  /** `(code || "") + delta`. */
  function GrownCode(code: Option<Json>, delta: Option<Json>): string {
    OrEmpty(code) + JsString(delta)
  }

  function OnCodeDelta(s: State, data: Option<Json>): (r: State)
    ensures r.text == s.text && r.conversation == s.conversation && r.nextTurns == s.nextTurns
    ensures r.functionArguments == s.functionArguments && r.mcpArguments == s.mcpArguments
    ensures !Nullish(data) ==> OnlyAt(s.chat, r.chat, LastOpenCodeCall(s.chat, data.value.Field("item_id")))
  {
    if Nullish(data) then s
    else
      var k := LastOpenCodeCall(s.chat, data.value.Field("item_id"));
      if k.None? then s
      else
        var call := s.chat[k.value];
        s.(chat := s.chat[k.value := call.(code := Some(JStr(GrownCode(call.code, data.value.Field("delta")))))])
  }

  function OnCodeDone(s: State, data: Option<Json>): (r: State)
    ensures r.text == s.text && r.conversation == s.conversation && r.nextTurns == s.nextTurns
    ensures r.functionArguments == s.functionArguments && r.mcpArguments == s.mcpArguments
    ensures !Nullish(data) ==> OnlyAt(s.chat, r.chat, LastOpenCodeCall(s.chat, data.value.Field("item_id")))
  {
    if Nullish(data) then s
    else
      var k := LastOpenCodeCall(s.chat, data.value.Field("item_id"));
      if k.None? then s
      else s.(chat := s.chat[k.value := s.chat[k.value].(code := data.value.Field("code"), status := Completed)])
  }

  /**
   * A code delta appends to, and `code.done` replaces, the code of the
   * last running code-interpreter call with the id, which `done` also
   * completes.
   */
  lemma CodeEventsEffect(s: State, data: Option<Json>)
    requires !Nullish(data)
    ensures var k := LastOpenCodeCall(s.chat, data.value.Field("item_id"));
      var grown := OnCodeDelta(s, data); var done := OnCodeDone(s, data);
      (k.None? ==> grown == s && done == s)
      && (k.Some? ==>
            grown.chat[k.value].code == Some(JStr(GrownCode(s.chat[k.value].code, data.value.Field("delta"))))
            && grown.chat[k.value].status == s.chat[k.value].status
            && done.chat[k.value].code == data.value.Field("code") && done.chat[k.value].status == Completed)
  {
  }

  /**
   * Once `code.done` has completed the only running call with an id, a
   * later delta for that id changes nothing.
   */
  lemma CodeDeltaAfterDoneIsIgnored(s: State, done: Option<Json>, delta: Option<Json>)
    requires !Nullish(done) && !Nullish(delta)
    requires done.value.Field("item_id") == delta.value.Field("item_id")
    requires var id := done.value.Field("item_id"); var k := LastOpenCodeCall(s.chat, id);
      k.Some? && forall j :: 0 <= j < |s.chat| && j != k.value ==> !OpenCodeCall(s.chat[j], id)
    ensures var t := OnCodeDone(s, done); OnCodeDelta(t, delta) == t
  {
    var id := done.value.Field("item_id");
    var k := LastOpenCodeCall(s.chat, id).value;
    var t := OnCodeDone(s, done);
    forall j | 0 <= j < |t.chat| ensures !OpenCodeCall(t.chat[j], id) {
      if j == k {
        assert t.chat[j].status == Completed;
      } else {
        assert t.chat[j] == s.chat[j];
      }
    }
  }

  function OnCodeCompleted(s: State, data: Option<Json>): (r: State)
    ensures r.text == s.text && r.conversation == s.conversation && r.nextTurns == s.nextTurns
    ensures r.functionArguments == s.functionArguments && r.mcpArguments == s.mcpArguments
    ensures !Nullish(data) ==> var k := FirstToolCallWithId(s.chat, data.value.Field("item_id"));
      OnlyAt(s.chat, r.chat, k) && (k.Some? ==> r.chat[k.value].ToolCall? && r.chat[k.value].status == Completed && r.chat[k.value].code == s.chat[k.value].code)
  {
    if Nullish(data) then s
    else
      var k := FirstToolCallWithId(s.chat, data.value.Field("item_id"));
      if k.None? then s
      else s.(chat := s.chat[k.value := s.chat[k.value].(status := Completed)])
  }

  // ---------------------------------------------------------------------
  // response.completed
  // ---------------------------------------------------------------------

  function ListToolsItem(m: Json): Item {
    McpListTools(m.Field("id"), m.Field("server_label"), Or(m.Field("tools"), JArr([])))
  }

  function ApprovalItem(m: Json): Item {
    McpApprovalRequest(m.Field("id"), m.Field("server_label"), m.Field("name"), m.Field("arguments"))
  }

  /** The pushes for the first `mcp_list_tools` and the first `mcp_approval_request` of the output. */
  function McpPushes(output: seq<Json>): seq<Item> {
    match FindByType(output, "mcp_list_tools")
    case Throws => []
    case NotFound => ApprovalPush(output)
    case Found(_, m) => [ListToolsItem(m)] + ApprovalPush(output)
  }

  function ApprovalPush(output: seq<Json>): seq<Item> {
    match FindByType(output, "mcp_approval_request")
    case Found(_, m) => [ApprovalItem(m)]
    case _ => []
  }

  /** The output list, when the event has one; reading it from anything else throws. */
  function ResponseOutput(data: Option<Json>): Option<seq<Json>> {
    if Nullish(data) then None
    else
      var response := data.value.Field("response");
      if Nullish(response) then None
      else match response.value.Field("output")
        case Some(JArr(output)) => Some(output)
        case _ => None
  }

  function OnResponseCompleted(s: State, data: Option<Json>): (r: State)
    ensures r.text == s.text && r.conversation == s.conversation && r.nextTurns == s.nextTurns
    ensures r.functionArguments == s.functionArguments && r.mcpArguments == s.mcpArguments
  {
    match ResponseOutput(data)
    case None => s
    case Some(output) => s.(chat := s.chat + McpPushes(output))
  }

  /**
   * `response.completed` appends at most two items after the old
   * transcript: the first `mcp_list_tools` entry (its tools defaulting to
   * `[]`) and then the first `mcp_approval_request` entry.
   */
  lemma ResponseCompletedPushes(s: State, data: Option<Json>, output: seq<Json>, i: nat, j: nat)
    requires ResponseOutput(data) == Some(output)
    requires i < |output| && HasType(output[i], "mcp_list_tools")
    requires forall k :: 0 <= k < i ==> output[k] != JNull && !HasType(output[k], "mcp_list_tools")
    requires j < |output| && HasType(output[j], "mcp_approval_request")
    requires forall k :: 0 <= k < j ==> output[k] != JNull && !HasType(output[k], "mcp_approval_request")
    ensures OnResponseCompleted(s, data).chat == s.chat + [ListToolsItem(output[i]), ApprovalItem(output[j])]
  {
    FindFirst(output, "mcp_list_tools", i);
    FindFirst(output, "mcp_approval_request", j);
  }

  /** The tools list defaults to `[]` when the entry has none. */
  lemma ListToolsDefault(m: Json)
    requires !IsTruthy(m.Field("tools"))
    ensures ListToolsItem(m).tools == JArr([])
  {
  }

  /** An output without either entry adds nothing. */
  lemma ResponseCompletedWithoutMcp(s: State, data: Option<Json>, output: seq<Json>)
    requires ResponseOutput(data) == Some(output)
    requires forall k :: 0 <= k < |output| ==> output[k] != JNull && !HasType(output[k], "mcp_list_tools") && !HasType(output[k], "mcp_approval_request")
    ensures OnResponseCompleted(s, data) == s
  {
  }
}
