/**
 * The two transcripts the chat keeps: the display items (`chatMessages`)
 * and the replay history sent back to the model (`conversationItems`).
 */
module Transcript {
  import opened Wrappers
  import opened JsonValues

  datatype ToolType = FileSearchCall | WebSearchCall | FunctionCall | McpCall | CodeInterpreterCall

  /** One entry of a message's `content`; `kind` is its `type`. */
  datatype ContentItem = ContentItem(kind: string, text: Json, annotations: Option<seq<Json>>)

  /**
   * A display item. Ids, names, statuses and the other fields copied from
   * the wire are kept as the JSON values they arrived as; `None` is
   * `undefined`.
   */
  datatype Item =
    | Message(role: string, id: Option<Json>, content: seq<ContentItem>)
    | ToolCall(toolType: ToolType, status: Json, id: Option<Json>, callId: Option<Json>, name: Option<Json>,
               arguments: Option<Json>, parsedArguments: Option<Json>, output: Option<Json>, code: Option<Json>)
    | McpListTools(id: Option<Json>, serverLabel: Option<Json>, tools: Json)
    | McpApprovalRequest(id: Option<Json>, serverLabel: Option<Json>, toolName: Option<Json>, toolArguments: Option<Json>)
    | HotelList(id: Option<Json>, hotels: seq<Json>)
    | PriceComparisonList(id: Option<Json>, hotelName: Json, location: Json, checkIn: Json, checkOut: Json, prices: seq<Json>)
    | DestinationList(id: Option<Json>, destinations: seq<Json>)
    | SocialMediaFeed(id: Option<Json>, posts: seq<Json>)
    | HotelRooms(id: Option<Json>, rooms: seq<Json>)
  {
    function Id(): Option<Json> {
      match this
      case Message(_, id, _) => id
      case ToolCall(_, _, id, _, _, _, _, _, _) => id
      case McpListTools(id, _, _) => id
      case McpApprovalRequest(id, _, _, _) => id
      case HotelList(id, _) => id
      case PriceComparisonList(id, _, _, _, _, _) => id
      case DestinationList(id, _) => id
      case SocialMediaFeed(id, _) => id
      case HotelRooms(id, _) => id
    }
  }

  /** An entry of the replay history. */
  datatype ConversationItem =
    | AssistantText(text: Json, annotations: Option<seq<Json>>)
    | WireItem(item: Json)
    | FunctionCallOutput(callId: Option<Json>, output: string)

  const Completed: Json := JStr("completed")
  const InProgress: Json := JStr("in_progress")

  // ---------------------------------------------------------------------
  // Annotations
  // ---------------------------------------------------------------------

  /** `a ?? b`: `a` unless it is `null` or `undefined`. */
  function Coalesce(a: Option<Json>, b: Option<Json>): (r: Option<Json>)
    ensures a.Some? && a.value != JNull ==> r == a
    ensures a.None? || a.value == JNull ==> r == b
  {
    if a.Some? && a.value != JNull then a else b
  }

  /** Sets a key, or removes it when the value is `undefined`. */
  function SetKey(fields: map<string, Json>, key: string, value: Option<Json>): (r: map<string, Json>)
    ensures value.Some? ==> r == fields[key := value.value]
    ensures value.None? ==> r == fields - {key}
  {
    if value.Some? then fields[key := value.value] else fields - {key}
  }

  /** The own fields an object spread copies. */
  function SpreadFields(value: Json): map<string, Json> {
    if value.JObj? then value.fields else map[]
  }

  /**
   * `normalizeAnnotation`: the annotation's fields, with `fileId` and
   * `containerId` taken from the snake_case field when it is set and from
   * the camelCase one otherwise.
   */
  function NormalizeAnnotation(annotation: Json): (r: Json)
    ensures r.JObj?
  {
    var fields := SpreadFields(annotation);
    var withFile := SetKey(fields, "fileId", Coalesce(annotation.Field("file_id"), annotation.Field("fileId")));
    JObj(SetKey(withFile, "containerId", Coalesce(annotation.Field("container_id"), annotation.Field("containerId"))))
  }

  /** The snake_case identifiers win, the camelCase ones fill in, and every other field is kept. */
  lemma NormalizeAnnotationFields(annotation: Json, key: string)
    ensures var r := NormalizeAnnotation(annotation);
      (key != "fileId" && key != "containerId" ==> r.Field(key) == annotation.Field(key))
      && r.Field("fileId") == Coalesce(annotation.Field("file_id"), annotation.Field("fileId"))
      && r.Field("containerId") == Coalesce(annotation.Field("container_id"), annotation.Field("containerId"))
  {
  }

  /** Normalising twice is normalising once. */
  lemma NormalizeAnnotationIdempotent(annotation: Json)
    ensures NormalizeAnnotation(NormalizeAnnotation(annotation)) == NormalizeAnnotation(annotation)
  {
    var r := NormalizeAnnotation(annotation);
    var rr := NormalizeAnnotation(r);
    forall key | true
      ensures rr.Field(key) == r.Field(key)
    {
      NormalizeAnnotationFields(annotation, key);
      NormalizeAnnotationFields(r, key);
      NormalizeAnnotationFields(annotation, "file_id");
      NormalizeAnnotationFields(annotation, "container_id");
    }
    assert rr.fields.Keys == r.fields.Keys by {
      forall key | true ensures key in rr.fields <==> key in r.fields {
        assert rr.Field(key) == r.Field(key);
      }
    }
    forall key | key in r.fields ensures rr.fields[key] == r.fields[key] {
      assert rr.Field(key) == r.Field(key);
    }
  }

  /**
   * `annotations.map(normalizeAnnotation)`: reading `file_id` of a `null`
   * annotation throws, so the result is `None` once a `null` is met.
   */
  function NormalizeAll(annotations: seq<Json>): (r: Option<seq<Json>>)
    ensures r.Some? <==> forall i :: 0 <= i < |annotations| ==> annotations[i] != JNull
    ensures r.Some? ==> |r.value| == |annotations|
    ensures r.Some? ==> forall i :: 0 <= i < |annotations| ==> r.value[i] == NormalizeAnnotation(annotations[i])
  {
    if annotations == [] then Some([])
    else if annotations[0] == JNull then None
    else match NormalizeAll(annotations[1..])
      case None => None
      case Some(rest) => Some([NormalizeAnnotation(annotations[0])] + rest)
  }

  // ---------------------------------------------------------------------
  // Searches over the display items
  // ---------------------------------------------------------------------

  /** `chatMessages.find((m) => m.id === id)`: the index of the first item with that id. */
  function FirstWithId(items: seq<Item>, id: Option<Json>): (r: Option<nat>)
    ensures r.Some? ==> r.value < |items| && StrictEquals(items[r.value].Id(), id)
    ensures r.Some? ==> forall j :: 0 <= j < r.value ==> !StrictEquals(items[j].Id(), id)
    ensures r.None? ==> forall j :: 0 <= j < |items| ==> !StrictEquals(items[j].Id(), id)
  {
    if items == [] then None
    else if StrictEquals(items[0].Id(), id) then Some(0)
    else match FirstWithId(items[1..], id)
      case None => None
      case Some(k) => Some(k + 1)
  }

  /** `find((m) => m.type === "tool_call" && m.id === id)`. */
  function FirstToolCallWithId(items: seq<Item>, id: Option<Json>): (r: Option<nat>)
    ensures r.Some? ==> r.value < |items| && items[r.value].ToolCall? && StrictEquals(items[r.value].Id(), id)
    ensures r.Some? ==> forall j :: 0 <= j < r.value ==> !(items[j].ToolCall? && StrictEquals(items[j].Id(), id))
    ensures r.None? ==> forall j :: 0 <= j < |items| ==> !(items[j].ToolCall? && StrictEquals(items[j].Id(), id))
  {
    if items == [] then None
    else if items[0].ToolCall? && StrictEquals(items[0].Id(), id) then Some(0)
    else match FirstToolCallWithId(items[1..], id)
      case None => None
      case Some(k) => Some(k + 1)
  }

  /** A code-interpreter call with that id that is still running. */
  predicate OpenCodeCall(item: Item, id: Option<Json>) {
    item.ToolCall? && item.toolType == CodeInterpreterCall && !StrictEquals(Some(item.status), Some(Completed))
    && StrictEquals(item.id, id)
  }

  /** `[...chatMessages].reverse().find(...)`: the last open code-interpreter call with that id. */
  function LastOpenCodeCall(items: seq<Item>, id: Option<Json>): (r: Option<nat>)
    ensures r.Some? ==> r.value < |items| && OpenCodeCall(items[r.value], id)
    ensures r.Some? ==> forall j :: r.value < j < |items| ==> !OpenCodeCall(items[j], id)
    ensures r.None? ==> forall j :: 0 <= j < |items| ==> !OpenCodeCall(items[j], id)
    decreases |items|
  {
    if items == [] then None
    else if OpenCodeCall(items[|items| - 1], id) then Some(|items| - 1)
    else LastOpenCodeCall(items[..|items| - 1], id)
  }
}
