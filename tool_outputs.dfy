/**
 * The widget a completed MCP tool call adds to the display transcript:
 * the tool's output, given as a string, as an MCP result
 * `{content: [{type: "text", text}]}` or as a plain array, is read into a
 * list, and a non-empty list becomes one typed item.
 */
module ToolOutputs {
  import opened Wrappers
  import opened JsonValues
  import opened Transcript

  /** The five tools whose output has a widget. */
  datatype Tool = FindHotelByQuery | BookHotel | FindDestinationByQuery | GetSocialMediaFeed | ShowHotelRoomsAtHotel

  function ToolName(tool: Tool): string {
    match tool
    case FindHotelByQuery => "find_hotel_by_query"
    case BookHotel => "book_hotel"
    case FindDestinationByQuery => "find_destination_by_query"
    case GetSocialMediaFeed => "get_social_media_feed"
    case ShowHotelRoomsAtHotel => "show_hotel_rooms_at_hotel"
  }

  /** `switch (item.name)` over the handled names. */
  function ToolNamed(name: Option<Json>): (r: Option<Tool>)
    ensures r.Some? ==> name == Some(JStr(ToolName(r.value)))
    ensures r.None? ==> forall tool: Tool :: name != Some(JStr(ToolName(tool)))
  {
    if name == Some(JStr("find_hotel_by_query")) then Some(FindHotelByQuery)
    else if name == Some(JStr("book_hotel")) then Some(BookHotel)
    else if name == Some(JStr("find_destination_by_query")) then Some(FindDestinationByQuery)
    else if name == Some(JStr("get_social_media_feed")) then Some(GetSocialMediaFeed)
    else if name == Some(JStr("show_hotel_rooms_at_hotel")) then Some(ShowHotelRoomsAtHotel)
    else None
  }

  /**
   * The branch's local variables once the output is read: the list
   * (`hotels`, `priceComparisons`, ...) and, for `book_hotel`, the hotel
   * name, location and dates.
   */
  datatype Payload = Payload(list: Json, hotelName: Json, location: Json, checkIn: Json, checkOut: Json)

  /** The variables' initial values. */
  const Initial: Payload := Payload(JArr([]), JStr("Hotel"), JStr(""), JStr(""), JStr(""))

  /**
   * The `try` block around `JSON.parse`: a parse failure leaves the
   * initial values. `book_hotel` reads a structured object when its
   * `priceComparisons` is an array, and otherwise takes the parsed value
   * itself; reading a field of `null` throws inside the `try`.
   */
  function Interpret(tool: Tool, parsed: Option<Json>): Payload {
    if parsed.None? then Initial
    else if tool != BookHotel then Initial.(list := parsed.value)
    else if parsed.value == JNull then Initial
    else match parsed.value.Field("priceComparisons")
      case Some(JArr(prices)) =>
        var p := parsed.value;
        Payload(JArr(prices), Or(p.Field("hotelName"), JStr("Hotel")), Or(p.Field("hotelLocation"), JStr("")),
                Or(p.Field("checkInDate"), JStr("")), Or(p.Field("checkOutDate"), JStr("")))
      case _ => Initial.(list := parsed.value)
  }

  /**
   * Reading `item.output`; `None` when the search for the text entry of
   * an MCP result throws, which happens outside the `try`.
   */
  function Extract(parse: string -> Option<Json>, tool: Tool, output: Option<Json>): Option<Payload> {
    if !IsTruthy(output) then Some(Initial)
    else match output.value
      case JStr(s) => Some(Interpret(tool, parse(s)))
      case JObj(_) => ExtractContent(parse, tool, output.value)
      case JArr(_) => ExtractContent(parse, tool, output.value)
      case _ => Some(Initial)
  }

  /** An object output: an MCP `content` array first, a plain array second. */
  function ExtractContent(parse: string -> Option<Json>, tool: Tool, output: Json): Option<Payload> {
    match output.Field("content")
    case Some(JArr(content)) =>
      (match FindByType(content, "text")
       case Throws => None
       case NotFound => Some(Initial)
       case Found(_, entry) =>
         if IsTruthy(entry.Field("text")) then Some(Interpret(tool, parse(ToJsString(entry.Field("text").value))))
         else Some(Initial))
    case _ => if output.JArr? then Some(Initial.(list := output)) else Some(Initial)
  }

  /** The typed widget item for a tool. */
  function WidgetItem(tool: Tool, id: Option<Json>, p: Payload, rows: seq<Json>): Item {
    match tool
    case FindHotelByQuery => HotelList(id, rows)
    case BookHotel => PriceComparisonList(id, p.hotelName, p.location, p.checkIn, p.checkOut, rows)
    case FindDestinationByQuery => DestinationList(id, rows)
    case GetSocialMediaFeed => SocialMediaFeed(id, rows)
    case ShowHotelRoomsAtHotel => HotelRooms(id, rows)
  }

  /** The list a widget item carries. */
  function Rows(item: Item): seq<Json> {
    match item
    case HotelList(_, rows) => rows
    case PriceComparisonList(_, _, _, _, _, rows) => rows
    case DestinationList(_, rows) => rows
    case SocialMediaFeed(_, rows) => rows
    case HotelRooms(_, rows) => rows
    case _ => []
  }

  /** What the `mcp_call` branch of `output_item.done` does to the display transcript. */
  datatype Dispatch = Aborted | NoWidget | NewWidget(widget: Item)

  function WidgetFor(parse: string -> Option<Json>, item: Json): (r: Dispatch)
    ensures r.NewWidget? <==>
      ToolNamed(item.Field("name")).Some?
      && var p := Extract(parse, ToolNamed(item.Field("name")).value, item.Field("output"));
         p.Some? && p.value.list.JArr? && |p.value.list.items| > 0
    ensures r.NewWidget? ==>
      var p := Extract(parse, ToolNamed(item.Field("name")).value, item.Field("output")).value;
      r.widget.Id() == item.Field("id") && Rows(r.widget) == p.list.items
    ensures r.Aborted? ==> ToolNamed(item.Field("name")).Some?
  {
    match ToolNamed(item.Field("name"))
    case None => NoWidget
    case Some(tool) =>
      match Extract(parse, tool, item.Field("output"))
      case None => Aborted
      case Some(p) =>
        if p.list.JArr? && |p.list.items| > 0 then NewWidget(WidgetItem(tool, item.Field("id"), p, p.list.items))
        else NoWidget
  }

  /** An unknown tool name adds nothing and cannot fail. */
  lemma UnknownToolNoWidget(parse: string -> Option<Json>, item: Json)
    requires forall tool: Tool :: item.Field("name") != Some(JStr(ToolName(tool)))
    ensures WidgetFor(parse, item) == NoWidget
  {
  }

  /** A string output that does not parse adds nothing. */
  lemma ParseFailureNoWidget(parse: string -> Option<Json>, item: Json, s: string)
    requires item.Field("output") == Some(JStr(s)) && parse(s).None?
    ensures !WidgetFor(parse, item).NewWidget? && !WidgetFor(parse, item).Aborted?
  {
  }

  /** A list tool's string output yields a widget exactly when it parses to a non-empty array, holding that array. */
  lemma StringOutputWidget(parse: string -> Option<Json>, item: Json, tool: Tool, s: string)
    requires tool != BookHotel && item.Field("name") == Some(JStr(ToolName(tool)))
    requires item.Field("output") == Some(JStr(s)) && s != ""
    ensures WidgetFor(parse, item).NewWidget? <==> parse(s).Some? && parse(s).value.JArr? && |parse(s).value.items| > 0
    ensures WidgetFor(parse, item).NewWidget? ==>
      WidgetFor(parse, item).widget == WidgetItem(tool, item.Field("id"), Initial, parse(s).value.items)
  {
  }

  /** An MCP result is read through the text of its first `text` entry. */
  lemma ContentOutputWidget(parse: string -> Option<Json>, item: Json, tool: Tool, content: seq<Json>, k: nat, text: Json)
    requires tool != BookHotel && item.Field("name") == Some(JStr(ToolName(tool)))
    requires item.Field("output").Some? && item.Field("output").value.JObj?
    requires item.Field("output").value.Field("content") == Some(JArr(content))
    requires k < |content| && HasType(content[k], "text") && content[k].Field("text") == Some(text) && text.Truthy()
    requires forall j :: 0 <= j < k ==> content[j] != JNull && !HasType(content[j], "text")
    ensures var parsed := parse(ToJsString(text));
      WidgetFor(parse, item).NewWidget? <==> parsed.Some? && parsed.value.JArr? && |parsed.value.items| > 0
  {
    FindFirst(content, "text", k);
  }

  /** A `null` entry before the first `text` entry makes the event fail: the search throws outside the `try`. */
  lemma NullContentAborts(parse: string -> Option<Json>, item: Json, tool: Tool, content: seq<Json>, k: nat)
    requires item.Field("name") == Some(JStr(ToolName(tool)))
    requires item.Field("output").Some? && item.Field("output").value.JObj?
    requires item.Field("output").value.Field("content") == Some(JArr(content))
    requires k < |content| && content[k] == JNull
    requires forall j :: 0 <= j < k ==> content[j] != JNull && !HasType(content[j], "text")
    ensures WidgetFor(parse, item) == Aborted
  {
    FindHitsNull(content, "text", k);
  }

  /** A non-empty plain array output is the list itself, for every tool. */
  lemma ArrayOutputWidget(parse: string -> Option<Json>, item: Json, tool: Tool, rows: seq<Json>)
    requires item.Field("name") == Some(JStr(ToolName(tool)))
    requires item.Field("output") == Some(JArr(rows)) && |rows| > 0
    ensures WidgetFor(parse, item) == NewWidget(WidgetItem(tool, item.Field("id"), Initial, rows))
  {
  }

  /** A falsy output adds nothing. */
  lemma FalsyOutputNoWidget(parse: string -> Option<Json>, item: Json)
    requires !IsTruthy(item.Field("output"))
    ensures WidgetFor(parse, item) == NoWidget
  {
  }

  /**
   * `book_hotel` with a structured payload: the prices, and the hotel,
   * location and dates from the payload, with `"Hotel"` and `""` for
   * falsy fields.
   */
  lemma BookHotelStructured(parse: string -> Option<Json>, item: Json, s: string, fields: map<string, Json>, prices: seq<Json>)
    requires item.Field("name") == Some(JStr("book_hotel"))
    requires item.Field("output") == Some(JStr(s)) && s != ""
    requires parse(s) == Some(JObj(fields)) && "priceComparisons" in fields && fields["priceComparisons"] == JArr(prices)
    requires |prices| > 0
    ensures var p := JObj(fields);
      WidgetFor(parse, item) == NewWidget(PriceComparisonList(item.Field("id"),
        Or(p.Field("hotelName"), JStr("Hotel")), Or(p.Field("hotelLocation"), JStr("")),
        Or(p.Field("checkInDate"), JStr("")), Or(p.Field("checkOutDate"), JStr("")), prices))
  {
  }

  /** `book_hotel` with a bare array payload: that array, under the default hotel name and empty location and dates. */
  lemma BookHotelFallback(parse: string -> Option<Json>, item: Json, s: string, prices: seq<Json>)
    requires item.Field("name") == Some(JStr("book_hotel"))
    requires item.Field("output") == Some(JStr(s)) && s != ""
    requires parse(s) == Some(JArr(prices)) && |prices| > 0
    ensures WidgetFor(parse, item) == NewWidget(PriceComparisonList(item.Field("id"), JStr("Hotel"), JStr(""), JStr(""), JStr(""), prices))
  {
  }

  lemma {:induction false} FindFirst(xs: seq<Json>, t: string, k: nat)
    requires k < |xs| && HasType(xs[k], t)
    requires forall j :: 0 <= j < k ==> xs[j] != JNull && !HasType(xs[j], t)
    ensures FindByType(xs, t) == Found(k, xs[k])
  {
    if k > 0 {
      FindFirst(xs[1..], t, k - 1);
    }
  }

  lemma {:induction false} FindHitsNull(xs: seq<Json>, t: string, k: nat)
    requires k < |xs| && xs[k] == JNull
    requires forall j :: 0 <= j < k ==> xs[j] != JNull && !HasType(xs[j], t)
    ensures FindByType(xs, t) == Throws
  {
    if k > 0 {
      FindHitsNull(xs[1..], t, k - 1);
    }
  }
}
