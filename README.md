# kismet-chatbot-mcp, modelled in Dafny

kismet-chatbot-mcp is a Next.js hotel-booking chat assistant. The model covers four parts of it.

**The turn loop.** On the client, `lib/assistant.ts` posts the conversation to the route `/api/turn_response`. It reads the server-sent event stream back in chunks and cuts the stream into `data: …` frames separated by blank lines. Each frame is a JSON `{event, data}` pair. The `processMessages` callback folds every frame into two transcripts:
- the display items (`chatMessages`);
- the replay history sent back to the model (`conversationItems`).

Along the way it accumulates the streamed assistant text and the streamed tool-call arguments. The source means to run a completed local function tool and start another turn. As written, its `output_item.done` handler never does this (see "## Findings"). The fold and the processor are built on the corrected handler.

**The tool declarations.** `lib/tools/tools.ts` builds the list of tools the model may call from the tool settings.

**The widgets.** Tool outputs become widgets: hotel carousels with loyalty badges, destination carousels, room carousels, social-media feeds and a price comparison with booking links. Their navigation state and their pure helpers are modelled:
- image proxying;
- the loyalty-badge table;
- booking URL construction;
- sorting and highlighting of OTA (online travel agency) prices.

**How it is written.**
- The stream reader and the handlers that update objects in place are imperative Dafny:
  - `StreamFrames.HandleTurn` and `StreamFrames.DeliverFrames` are loops;
  - `TurnProcessor.Processor` holds the accumulators of one `processMessages` call as fields;
  - the widgets are classes with their React state as fields.
- Each method is proved against a pure function:
  - the frame delivery `StreamFrames.DeliverLines`;
  - the per-event handlers of `TurnEvents`;
  - the fold `TurnFold.Fold`.
- The properties the application relies on are lemmas about those functions.

**JavaScript semantics are written out where they matter:**
- truthiness, `||`, `??` and `===`;
- `Array.prototype.find` throwing when its callback reads a field of `null`;
- `%` truncating toward zero;
- `String()` of a JSON value;
- a thrown exception aborting only the current callback, with earlier in-place effects kept.

Files, in dependency order:
- `wrappers`, `strings`, `json_values`: Option, string search/split/join/trim/replace, and the JSON value type.
- `uri_encoding`, `image_proxy`, `loyalty_badges`, `badge_cycler`, `carousel_index`, `hotel_carousel`, `destination_carousel`, `hotel_rooms`, `social_feed`, `booking_url`, `price_comparison`: the widgets.
- `tool_declarations`: `getTools`.
- `transcript`, `tool_outputs`, `turn_events`, `turn_fold`, `stream_frames`, `turn_processor`: the turn loop.

## Model

| member | source | states |
|---|---|---|
| Transcript.NormalizeAnnotation | lib/assistant.ts:12-16 | the result is always an object |
| Transcript.NormalizeAnnotationFields | lib/assistant.ts:12-16 | every field other than `fileId`/`containerId` is kept as it was; `fileId` is `file_id ?? fileId` and `containerId` is `container_id ?? containerId` |
| Transcript.NormalizeAnnotationIdempotent | lib/assistant.ts:12-16 | normalising an annotation twice gives the same object as normalising it once |
| Transcript.NormalizeAll | lib/assistant.ts:333-335 | mapping over the annotations succeeds exactly when none is `null`; it then yields one normalised annotation per input, position by position |
| Transcript.Coalesce | lib/assistant.ts:14-15 | `a ?? b` is `a` unless `a` is null or undefined, in which case it is `b` |
| Transcript.FirstWithId | lib/assistant.ts:756 | the index found holds an item whose id is `===` the wanted id and no earlier item's is; no index means no item matches |
| Transcript.FirstToolCallWithId | lib/assistant.ts:886-888 | the first tool call with that id, and no earlier one; none when no tool call matches |
| Transcript.LastOpenCodeCall | lib/assistant.ts:846-854 | the last code-interpreter call with that id that is not completed, and no later one; none when there is none |
| JsonValues.Or | lib/assistant.ts:361-368 | `v \|\| fallback` is `v` when it is truthy and the fallback otherwise |
| JsonValues.FindByType | lib/assistant.ts:449 | `find(c => c.type === t)`: the first element of that type with no earlier match. It throws when a `null` comes before any match. It finds nothing exactly when no element is `null` or of that type |
| ToolOutputs.ToolNamed | lib/assistant.ts:434-706 | the tool recognised is the one whose name the item carries; an unrecognised name names none of the five display tools |
| ToolOutputs.WidgetFor | lib/assistant.ts:430-706 | a widget is pushed exactly when the tool is known and its output yields a non-empty array. The widget carries the item's id and exactly those rows. An abort happens only for a known tool |
| ToolOutputs.UnknownToolNoWidget | lib/assistant.ts:703-706 | an MCP tool with an unhandled name adds no widget |
| ToolOutputs.ParseFailureNoWidget | lib/assistant.ts:440-446 | a string output that fails to parse adds no widget and does not abort |
| ToolOutputs.StringOutputWidget | lib/assistant.ts:440-474 | a string output gives a widget exactly when it parses to a non-empty array, and the widget holds those rows |
| ToolOutputs.ContentOutputWidget | lib/assistant.ts:447-459 | an output with a `content` list is read through its first `text` entry; a widget appears exactly when that text parses to a non-empty array |
| ToolOutputs.NullContentAborts | lib/assistant.ts:449 | a `null` content entry before any `text` entry makes `find` throw, so the event is aborted |
| ToolOutputs.ArrayOutputWidget | lib/assistant.ts:460-462 | an output that is already a non-empty array becomes the widget's rows unchanged |
| ToolOutputs.FalsyOutputNoWidget | lib/assistant.ts:438 | a falsy output adds no widget |
| ToolOutputs.BookHotelStructured | lib/assistant.ts:488-503 | a `book_hotel` output with `priceComparisons` gives a price widget. The widget takes the hotel name (default "Hotel"), location and dates from the object, each with its default |
| ToolOutputs.BookHotelFallback | lib/assistant.ts:492-503 | a `book_hotel` output that is a bare array gives a price widget with the default name and empty location and dates |
| TurnEvents.OnTextDelta | lib/assistant.ts:275-320 | a text delta leaves the replay history, the follow-up count and both argument buffers unchanged |
| TurnEvents.TextDeltaEffect | lib/assistant.ts:277-315 | the text grows by the string delta. A new assistant message showing the whole text is pushed exactly when the last display item is not an assistant message with the same or no id. Otherwise only the last item changes, and it shows the whole text when its first entry is output text |
| TurnEvents.AnnotationsOnlyOnUpdate | lib/assistant.ts:293-315 | a pushed message has no annotations; an updated one gains the normalised annotation when one is present and keeps its list otherwise |
| TurnEvents.AddMessage | lib/assistant.ts:331-358 | an added message item leaves the text, the follow-up count and both argument buffers unchanged, and only appends to the replay history |
| TurnEvents.OnTypedItemAdded | lib/assistant.ts:329-423 | any added item leaves the text and the follow-up count unchanged and only appends to the replay history |
| TurnEvents.OnItemAdded | lib/assistant.ts:322-424 | the same holds for any `output_item.added` payload, including a missing or untyped item |
| TurnEvents.AddedArgumentBuffers | lib/assistant.ts:360-409 | an added function call appends its arguments to the function buffer and pushes one in-progress tool call with the item's id. An added MCP call resets the MCP buffer to its arguments and pushes the MCP tool call when one is built |
| TurnEvents.OnItemDoneAsWritten | lib/assistant.ts:426-749 | the handler as written leaves the text and both argument buffers unchanged |
| TurnEvents.WireFunctionCallIgnoredAsWritten | lib/assistant.ts:714-747 | as written, a completed `function_call` or `mcp_call` item only adds its widget and is replayed. No local tool runs and no follow-up turn starts, because the wire item's type is never "tool_call" |
| TurnEvents.OnItemDone | lib/assistant.ts:426-749 | the corrected handler leaves the text and both buffers unchanged, and the replay history only grows |
| TurnEvents.DoneItemReplayed | lib/assistant.ts:712-713 | a completed item that does not abort is appended to the replay history, after everything already there |
| TurnEvents.DoneRunsFunctionTool | lib/assistant.ts:714-747 | a follow-up turn is requested exactly when the display item with that id is a function tool call. The tool's result is then stored on the item and replayed as a `function_call_output` with the item's call id. Otherwise only the item itself is replayed |
| TurnEvents.ShowArguments | lib/assistant.ts:751-770 | streaming arguments changes at most the first display item with the event's id |
| TurnEvents.ShowArgumentsEffect | lib/assistant.ts:756-768 | when that item is a tool call it shows the whole buffer; its parsed arguments become the partial parse when that succeeds (`{}` for an empty buffer) and stay as they were otherwise; no other item and no status changes |
| TurnEvents.FinishArguments | lib/assistant.ts:772-787 | finishing arguments changes at most the first display item with the event's id |
| TurnEvents.FinishArgumentsEffect | lib/assistant.ts:779-786 | that tool call shows the final arguments. When they parse, it takes the parse and "completed". When they do not, its parsed arguments and status stay |
| TurnEvents.OnFunctionArgumentsDelta | lib/assistant.ts:751-770 | only the function buffer grows, by the delta, and the display items change; text, history and MCP buffer stay |
| TurnEvents.OnFunctionArgumentsDone | lib/assistant.ts:772-787 | text, history, follow-up count and MCP buffer stay |
| TurnEvents.OnMcpArgumentsDelta | lib/assistant.ts:789-807 | only the MCP buffer grows, by the delta, and the display items change; text, history and function buffer stay |
| TurnEvents.OnMcpArgumentsDone | lib/assistant.ts:808-820 | text, history, follow-up count and function buffer stay |
| TurnEvents.CompleteSearch | lib/assistant.ts:822-842 | a completed search changes at most the first item with that id. When it is a tool call, it takes the event's output and "completed" and keeps its arguments and code |
| TurnEvents.OnSearchCompleted | lib/assistant.ts:822-842 | a completed web or file search leaves text, history, follow-up count and buffers unchanged |
| TurnEvents.OnCodeDelta | lib/assistant.ts:844-861 | a code delta changes at most the last open code call with that id, and nothing outside the display items |
| TurnEvents.OnCodeDone | lib/assistant.ts:863-882 | finished code changes at most the last open code call with that id, and nothing outside the display items |
| TurnEvents.CodeEventsEffect | lib/assistant.ts:844-882 | with no open call nothing changes. A delta appends to the call's code and keeps its status. Done sets the final code and "completed" |
| TurnEvents.CodeDeltaAfterDoneIsIgnored | lib/assistant.ts:844-882 | once the only open call with that id is done, a later delta for it changes nothing |
| TurnEvents.OnCodeCompleted | lib/assistant.ts:884-894 | a completed code call changes only the first tool call with that id, marking it "completed" with its code kept |
| TurnEvents.OnResponseCompleted | lib/assistant.ts:896-933 | a completed response leaves text, history, follow-up count and buffers unchanged |
| TurnEvents.ResponseCompletedPushes | lib/assistant.ts:901-930 | with an `mcp_list_tools` and an `mcp_approval_request` entry in the output, exactly those two items are pushed, in that order |
| TurnEvents.ListToolsDefault | lib/assistant.ts:910 | a tool listing without tools shows an empty list |
| TurnEvents.ResponseCompletedWithoutMcp | lib/assistant.ts:896-933 | an output with neither entry changes nothing |
| TurnFold.KindOf | lib/assistant.ts:274 | a frame is dispatched to the handler whose event name it carries, and to none when its event names no handled event |
| TurnFold.KindNamed | lib/assistant.ts:274-896 | each handled event name selects its own handler; any other name selects none |
| TurnFold.Apply | lib/assistant.ts:274-934 | with the corrected `output_item.done` handler, every event adds its string delta (text events only) to the accumulated text. The replay history only grows. Only `output_item.done` requests a follow-up turn |
| TurnFold.Step | lib/assistant.ts:273-934 | the same for a whole frame, including an unrecognised one, again with the corrected `output_item.done` handler |
| TurnFold.FoldText | lib/assistant.ts:283 | after any sequence of frames the accumulated text is the old text followed by every text delta among them, in order |
| TurnFold.FoldExtendsHistory | lib/assistant.ts:712 | after any sequence of frames the replay history still begins with everything it held before |
| TurnFold.FoldSnoc | lib/assistant.ts:231 | a frame arriving after others is handled in the state they leave |
| TurnFold.ShownTextIsStreamedText | lib/assistant.ts:283-315 | after a text event the last display message shows the entire text streamed so far (when it is the message receiving the text) |
| TurnFold.UnknownEventIgnored | lib/assistant.ts:274 | a frame naming no handled event changes nothing |
| TurnFold.LocalToolRunsOnlyWhenCorrected | lib/assistant.ts:714-738 | on a concrete transcript the handler as written only replays the completed `function_call`; the corrected one runs the tool, replays its output and requests exactly one follow-up turn |
| StreamFrames.ConcatAppend | lib/assistant.ts:217 | the text read from two runs of chunks is the text of the first followed by the text of the second |
| StreamFrames.DeliverLines | lib/assistant.ts:223-233 | a run of frames delivers at most one event per frame |
| StreamFrames.DeliverAppend | lib/assistant.ts:214-234 | frames delivered in two batches give what one batch gives. Once the first batch hit `[DONE]` or a parse error, the second delivers nothing |
| StreamFrames.DoneHidesLaterFrames | lib/assistant.ts:226-229 | a `data: [DONE]` frame stops delivery: nothing after it is delivered |
| StreamFrames.NonDataFramesSkipped | lib/assistant.ts:224 | frames that do not start with `data: ` deliver nothing and do not stop the stream |
| StreamFrames.LeftoverEvents | lib/assistant.ts:236-243 | the text left after the last separator yields at most one event |
| StreamFrames.CompleteFramesStay | lib/assistant.ts:218-221 | the frames complete after reading some chunks stay complete, unchanged and in place, after reading more |
| StreamFrames.CompleteFramesGrow | lib/assistant.ts:218-221 | appending text to the buffered stream keeps every frame already complete, unchanged and in place |
| StreamFrames.ReadPrefix | lib/assistant.ts:218-221 | the frames complete after the first reads are a prefix of those complete at the end of the stream |
| StreamFrames.ReadSplit | lib/assistant.ts:219-221 | cutting the buffer loses nothing: the complete frames and the kept tail rejoin to the buffer, and the tail holds no separator |
| StreamFrames.ReadNext | lib/assistant.ts:215-217 | each read appends exactly the next chunk (nothing after the last) to the text read so far |
| StreamFrames.SplitCarry | lib/assistant.ts:217-221 | cutting only the carried tail plus the new chunk gives the same frames as cutting all the text read so far |
| StreamFrames.ReadStep | lib/assistant.ts:214-234 | after each read the complete frames so far and the kept buffer are the split of the text read, and the complete frames are a prefix of the whole stream's |
| StreamFrames.Settled | lib/assistant.ts:226-233 | once delivery stopped, further frames change nothing |
| StreamFrames.DeliverSnoc | lib/assistant.ts:223-232 | one more frame is skipped when it is not data, stops delivery on `[DONE]` or a parse error, and otherwise delivers its parsed event |
| StreamFrames.DeliverFrames | lib/assistant.ts:223-233 | the loop over one read's frames delivers exactly what the frame delivery function gives, and reports how it stopped |
| StreamFrames.HandleTurn | lib/assistant.ts:187-247 | a non-OK response delivers nothing. Otherwise every complete frame is delivered in order until `[DONE]` or a parse error. When neither occurs, the leftover tail's event follows. A parse error ends the turn with what was delivered. After `[DONE]` the events are those before it, plus possibly one |
| StreamFrames.DataLines | app/api/turn_response/route.ts:34-38 | every event sent by the route becomes one `data: ` frame carrying its JSON, in order |
| StreamFrames.ServerStreamJoin | app/api/turn_response/route.ts:29-40 | the route's stream is its data frames joined by blank lines, ending in a separator |
| StreamFrames.DeliverDataLines | lib/assistant.ts:223-232 | data frames whose payloads parse deliver exactly those events, in order |
| StreamFrames.ServerFramingRoundTrip | app/api/turn_response/route.ts:29-40 | however the route's stream is chunked, the client delivers exactly the events the route sent, in order. Nothing is left in the buffer, and no leftover event follows |
| TurnProcessor.Processor.constructor | lib/assistant.ts:249-271 | a call starts from the store's two transcripts with empty text and argument accumulators |
| TurnProcessor.Processor.HandleTextDelta | lib/assistant.ts:275-320 | the new fields are the text-delta handler applied to the old ones |
| TurnProcessor.Processor.HandleItemAdded | lib/assistant.ts:322-424 | the new fields are the `output_item.added` handler applied to the old ones |
| TurnProcessor.Processor.HandleItemDone | lib/assistant.ts:426-749 | the new fields are the corrected `output_item.done` handler applied to the old ones |
| TurnProcessor.Processor.HandleFunctionArgumentsDelta | lib/assistant.ts:751-770 | the new fields are the function-arguments delta handler applied to the old ones |
| TurnProcessor.Processor.HandleFunctionArgumentsDone | lib/assistant.ts:772-787 | the new fields are the function-arguments done handler applied to the old ones |
| TurnProcessor.Processor.HandleMcpArgumentsDelta | lib/assistant.ts:789-807 | the new fields are the MCP-arguments delta handler applied to the old ones |
| TurnProcessor.Processor.HandleMcpArgumentsDone | lib/assistant.ts:808-820 | the new fields are the MCP-arguments done handler applied to the old ones |
| TurnProcessor.Processor.HandleSearchCompleted | lib/assistant.ts:822-842 | the new fields are the search-completed handler applied to the old ones |
| TurnProcessor.Processor.HandleCodeDelta | lib/assistant.ts:844-861 | the new fields are the code-delta handler applied to the old ones |
| TurnProcessor.Processor.HandleCodeDone | lib/assistant.ts:863-882 | the new fields are the code-done handler applied to the old ones |
| TurnProcessor.Processor.HandleCodeCompleted | lib/assistant.ts:884-894 | the new fields are the code-completed handler applied to the old ones |
| TurnProcessor.Processor.HandleResponseCompleted | lib/assistant.ts:896-933 | the new fields are the response-completed handler applied to the old ones |
| TurnProcessor.Processor.HandleEvent | lib/assistant.ts:274-934 | the event's handler, as the dispatch function selects it, is applied to the fields; for `output_item.done` it is the corrected handler |
| TurnProcessor.Processor.OnMessage | lib/assistant.ts:273-935 | one frame updates the fields as a step of the fold, with the corrected `output_item.done` handler, does |
| TurnProcessor.Processor.HandleFrames | lib/assistant.ts:231 | handling frames in order leaves the fields as the fold over them does, with the corrected `output_item.done` handler. The text grows by every streamed delta, and the replay history keeps its earlier entries |
| TurnProcessor.Processor.ProcessMessages | lib/assistant.ts:249-273 | a failed request changes nothing. Otherwise the frames the stream delivers are folded into the fields by the corrected fold, and the text grows by their text deltas |
| ToolDeclarations.WebSearchDeclaration | lib/tools/tools.ts:23-36 | a web search tool carries the user location exactly when one is set with a non-empty country, region or city |
| ToolDeclarations.Keys | lib/tools/tools.ts:60 | the required list is the parameter names, in order |
| ToolDeclarations.FunctionDeclaration | lib/tools/tools.ts:53-64 | a function tool carries the spec's name, description and parameters, requires every parameter, forbids additional properties and is strict |
| ToolDeclarations.FunctionDeclarations | lib/tools/tools.ts:50-67 | one function tool per entry of the tools list, in order |
| ToolDeclarations.NonEmpty | lib/tools/tools.ts:83 | the filter keeps exactly the non-empty names |
| ToolDeclarations.NonEmptyAppend | lib/tools/tools.ts:83 | filtering a concatenation is concatenating the filtered parts, so the names kept stay in order |
| ToolDeclarations.NonEmptySingle | lib/tools/tools.ts:83 | a single name is kept exactly when it is not empty |
| ToolDeclarations.AllowedTools | lib/tools/tools.ts:79-84 | `allowed_tools` is omitted exactly when the setting is missing or blank; otherwise it is the comma-separated pieces, trimmed, without empty ones |
| ToolDeclarations.AllowedToolTrimmed | lib/tools/tools.ts:80-83 | every allowed tool is non-empty and has no surrounding white space |
| ToolDeclarations.AllowedToolsCover | lib/tools/tools.ts:80-83 | every non-blank comma-separated piece appears, trimmed, among the allowed tools |
| ToolDeclarations.McpDeclaration | lib/tools/tools.ts:69-86 | an MCP tool is declared exactly when MCP is on and a server URL is set. Its label is the configured one or "mcp-server". It requires no approval exactly when approval is skipped or granted globally. Its allowed tools are as above |
| ToolDeclarations.WebSearchPart | lib/tools/tools.ts:23-36 | at most one web search declaration, present exactly when web search is on |
| ToolDeclarations.FileSearchPart | lib/tools/tools.ts:38-44 | at most one file search declaration, present exactly when file search is on, naming the vector store's id (or undefined) |
| ToolDeclarations.CodeInterpreterPart | lib/tools/tools.ts:46-48 | at most one code interpreter with an automatic container, present exactly when it is on |
| ToolDeclarations.FunctionsPart | lib/tools/tools.ts:50-67 | one function declaration per listed tool when functions are on, none otherwise |
| ToolDeclarations.McpPart | lib/tools/tools.ts:69-86 | at most one MCP declaration, present exactly when MCP is on with a server URL |
| ToolDeclarations.GetTools | lib/tools/tools.ts:8-98 | the list built step by step is the declarations the settings call for |
| ToolDeclarations.BuildWebSearchTool | lib/tools/tools.ts:24-34 | the object updated in place is the web search declaration |
| ToolDeclarations.BuildMcpTool | lib/tools/tools.ts:70-86 | the object updated in place is the MCP declaration |
| ToolDeclarations.DeclarationsInOrder | lib/tools/tools.ts:21-86 | the declarations come in the fixed order: web search, file search, code interpreter, functions, MCP |
| ToolDeclarations.Part | lib/tools/tools.ts:23-86 | each kind's block is non-empty exactly when that kind is enabled |
| ToolDeclarations.KindEnabled | lib/tools/tools.ts:23-86 | every declared tool's kind is enabled |
| ToolDeclarations.EnabledKindPresent | lib/tools/tools.ts:23-86 | every enabled kind is declared |
| ToolDeclarations.DeclarationsPresence | lib/tools/tools.ts:23-86 | a kind is declared if and only if it is enabled |
| Strings.JoinSplit | lib/assistant.ts:220 | splitting on the separator loses nothing: the pieces rejoin to the text |
| Strings.SplitJoin | app/api/turn_response/route.ts:38 | frames without separators, once joined, split back into themselves |
| Strings.Trim | lib/tools/tools.ts:79-82 | the result is the text with a white-space prefix and a white-space suffix removed. It is empty exactly for all-blank text and otherwise has no white space at either end |
| Strings.TrimUnique | lib/tools/tools.ts:79-82 | any stretch of the text between white space that neither starts nor ends with white space is the trimmed text, so those properties pin the result down |
| Strings.LeadingSpace | lib/tools/tools.ts:79-82 | the count is of white space only, and the character after it is not white space |
| Strings.TrailingSpace | lib/tools/tools.ts:79-82 | the count is of white space only, and the character before it is not white space |
| Strings.SubstitutionLiteral | components/customChatElements/priceComparison/bookingUrlUtils.ts:140-154 | a replacement string without `$` stands for itself at every match |
| Strings.ReplaceFromLiteral | components/customChatElements/priceComparison/bookingUrlUtils.ts:140-154 | with a replacement without `$`, the scan gives the pieces between the occurrences joined by the replacement |
| Strings.ReplaceFromMatch | components/customChatElements/priceComparison/bookingUrlUtils.ts:141 | with `$&` the scan puts every match back, so the text is unchanged |
| Strings.ReplaceFromStep | components/customChatElements/priceComparison/bookingUrlUtils.ts:140-154 | the scan keeps the text up to the leftmost occurrence, writes the replacement's substitution for it and goes on after it |
| Strings.ReplaceAll | components/customChatElements/priceComparison/bookingUrlUtils.ts:140-154 | a pattern that does not occur leaves the text unchanged. A replacement without `$` takes the place of every occurrence: the result is the pieces between them joined by it |
| Strings.ReplaceMatchReference | components/customChatElements/priceComparison/bookingUrlUtils.ts:141 | a replacement of `$&` leaves the text as it was |
| Strings.SubstitutionMatch | components/customChatElements/priceComparison/bookingUrlUtils.ts:141 | `$&` stands for the matched text |
| UriEncoding.EncodeUriComponent | components/customChatElements/priceComparison/bookingUrlUtils.ts:140-154 | encoding never shortens a value, uses only unreserved characters, `%` and hex digits, and leaves a value of unreserved characters unchanged |
| UriEncoding.EncodeAppend | lib/utils/imageProxy.ts:13-14 | encoding a concatenation is concatenating the encodings |
| UriEncoding.PercentBytes | components/customChatElements/priceComparison/bookingUrlUtils.ts:149 | three characters per byte, each `%` or an upper-case hexadecimal digit, with a `%` at the start of every byte |
| UriEncoding.FormEncodeChar | components/customChatElements/priceComparison/bookingUrlUtils.ts:122 | a safe character is kept, a space becomes `+`, and any other character becomes `%`-escapes |
| UriEncoding.FormEncode | components/customChatElements/priceComparison/bookingUrlUtils.ts:122 | form encoding never shortens a value, writes only safe characters, `+` and `%`, and leaves a value of safe characters unchanged |
| UriEncoding.FormEncodeAppend | components/customChatElements/priceComparison/bookingUrlUtils.ts:122 | form-encoding a concatenation is concatenating the encodings |
| UriEncoding.FormEncodeDiffers | components/customChatElements/priceComparison/bookingUrlUtils.ts:122 | a space is `+` in a rewritten query but `%20` from `encodeURIComponent`; `~` is `%7E` but kept |
| ImageProxy.ProxyImageUrl | lib/utils/imageProxy.ts:4-15 | an empty URL and a URL already local or proxied are returned as they are; any other URL becomes the proxy path with the URL encoded as its query |
| ImageProxy.ProxiedIsExempt | lib/utils/imageProxy.ts:4-15 | every result is empty or exempt from proxying |
| ImageProxy.ProxyIdempotent | lib/utils/imageProxy.ts:4-15 | proxying a proxied URL changes nothing |
| ImageProxy.ProxiedQueryIsOneParameter | lib/utils/imageProxy.ts:13-14 | the encoded URL cannot break out of the proxy's single `url` parameter: it contains no `&`, `#`, `?`, `=` or `/` |
| ImageProxy.ProxyImageUrls | lib/utils/imageProxy.ts:20-22 | a list is proxied element by element |
| LoyaltyBadges.GetLoyaltyBadgeUrl | components/customChatElements/hotelCarousel/loyaltyBadgeMapping.ts:26-28 | a badge URL exists exactly for programs in the table, and is the table's entry |
| LoyaltyBadges.HasLoyaltyBadge | components/customChatElements/hotelCarousel/loyaltyBadgeMapping.ts:33-35 | a program has a badge exactly when the lookup finds one |
| LoyaltyBadges.BadgeTable | components/customChatElements/hotelCarousel/loyaltyBadgeMapping.ts:14-20 | the table holds exactly the five programs, each with its image |
| LoyaltyBadges.LookupIsCaseSensitive | components/customChatElements/hotelCarousel/loyaltyBadgeMapping.ts:26-28 | program names match only in their exact spelling |
| BadgeCycling.FilterBadged | components/customChatElements/shared/LoyaltyBadgeCycler.tsx:15-17 | the filter keeps exactly the programs with a badge, and everything when all have one |
| BadgeCycling.FilterBadgedAppend | components/customChatElements/shared/LoyaltyBadgeCycler.tsx:15-17 | filtering a concatenation is concatenating the filtered parts |
| BadgeCycling.ValidAffiliations | components/customChatElements/shared/LoyaltyBadgeCycler.tsx:15-17 | every valid affiliation has a badge; none are valid when the hotel has no list |
| BadgeCycling.CycleStep | components/customChatElements/shared/LoyaltyBadgeCycler.tsx:20-28 | with one badge or none the index stays; otherwise it moves to the next badge and wraps to the first after the last |
| BadgeCycling.Displayed | components/customChatElements/shared/LoyaltyBadgeCycler.tsx:37-46 | nothing is shown without valid affiliations; otherwise the badge at the index, which always has an image |
| BadgeCycling.BadgeCycler.constructor | components/customChatElements/shared/LoyaltyBadgeCycler.tsx:10 | the cycler starts at the first badge |
| BadgeCycling.BadgeCycler.Tick | components/customChatElements/shared/LoyaltyBadgeCycler.tsx:20-31 | each timer tick advances the index by one cycle step and keeps it in range |
| BadgeCycling.BadgeCycler.Shown | components/customChatElements/shared/LoyaltyBadgeCycler.tsx:37-46 | a badge is shown exactly when there are valid affiliations, and it is one with an image |
| CarouselIndex.JsRem | components/customChatElements/hotelCarousel/HotelCarousel.tsx:25 | JavaScript's `%` agrees with the mathematical remainder on non-negative operands and is never positive for negative ones |
| CarouselIndex.NextIndex | components/customChatElements/hotelCarousel/HotelCarousel.tsx:24-26 | the next index stays in range, steps by one and wraps from the last to the first |
| CarouselIndex.PrevIndex | components/customChatElements/hotelCarousel/HotelCarousel.tsx:28-30 | the previous index stays in range, steps back by one and wraps from the first to the last |
| CarouselIndex.PrevUndoesNext | components/customChatElements/hotelCarousel/HotelCarousel.tsx:24-30 | previous undoes next and next undoes previous |
| CarouselIndex.AdvanceWithinLap | components/customChatElements/hotelCarousel/HotelCarousel.tsx:24-26 | k presses that do not reach the end move the index by k |
| CarouselIndex.AdvanceCompose | components/customChatElements/hotelCarousel/HotelCarousel.tsx:24-26 | a + b presses are a presses followed by b presses |
| CarouselIndex.FullCycle | components/customChatElements/hotelCarousel/HotelCarousel.tsx:24-26 | as many presses as there are slides return to the starting slide |
| HotelCarousels.View | components/customChatElements/hotelCarousel/HotelCarousel.tsx:36-52 | "No hotels found" exactly when there are no hotels; otherwise the card at the current index, with navigation exactly when there are several |
| HotelCarousels.HotelCarousel.constructor | components/customChatElements/hotelCarousel/HotelCarousel.tsx:21 | the carousel starts at the first hotel |
| HotelCarousels.HotelCarousel.NextHotel | components/customChatElements/hotelCarousel/HotelCarousel.tsx:24-26 | the index moves to the next hotel, wrapping |
| HotelCarousels.HotelCarousel.PrevHotel | components/customChatElements/hotelCarousel/HotelCarousel.tsx:28-30 | the index moves to the previous hotel, wrapping |
| HotelCarousels.HotelCarousel.GoToHotel | components/customChatElements/hotelCarousel/HotelCarousel.tsx:32-34 | the index becomes the chosen one |
| HotelCarousels.HotelCarousel.CurrentHotel | components/customChatElements/hotelCarousel/HotelCarousel.tsx:46 | a hotel is shown exactly when there are hotels and the index is within the list, and it is the hotel at the index |
| HotelCarousels.Browse | components/customChatElements/hotelCarousel/HotelCarousel.tsx:24-46 | whatever sequence of next/previous presses, the hotel shown is one of the hotels |
| DestinationCarousels.SafeIndex | components/customChatElements/destinationCarousel/DestinationCarousel.tsx:71-72 | the safe index is always in range, is the current index when that is in range, and is the last slide otherwise |
| DestinationCarousels.DestinationCarousel.constructor | components/customChatElements/destinationCarousel/DestinationCarousel.tsx:30 | the carousel starts at the first destination |
| DestinationCarousels.DestinationCarousel.Rerender | components/customChatElements/destinationCarousel/DestinationCarousel.tsx:30-72 | new destinations replace the old without resetting the index |
| DestinationCarousels.DestinationCarousel.NextSlide | components/customChatElements/destinationCarousel/DestinationCarousel.tsx:34-37 | with several destinations the index moves to the next, wrapping and staying in range; with one or none it stays |
| DestinationCarousels.DestinationCarousel.PrevSlide | components/customChatElements/destinationCarousel/DestinationCarousel.tsx:39-44 | with several destinations the index moves to the previous, wrapping and staying in range; with one or none it stays |
| DestinationCarousels.DestinationCarousel.SelectIndicator | components/customChatElements/destinationCarousel/DestinationCarousel.tsx:154-159 | clicking an indicator selects its slide |
| DestinationCarousels.DestinationCarousel.Shown | components/customChatElements/destinationCarousel/DestinationCarousel.tsx:57-72 | nothing is shown exactly when there are no destinations; otherwise the destination at the safe index, which is the current one when it is in range |
| HotelRooms.NoRoomsAvailable | components/customChatElements/hotelRooms/HotelRoomsCarousel.tsx:41-49 | the empty state appears exactly when the list is missing or empty |
| HotelRooms.HotelRoomsCarousel.constructor | components/customChatElements/hotelRooms/HotelRoomsCarousel.tsx:39 | the carousel starts at the first room |
| HotelRooms.HotelRoomsCarousel.NextSlide | components/customChatElements/hotelRooms/HotelRoomsCarousel.tsx:51-53 | the index moves to the next room, wrapping and staying in range |
| HotelRooms.HotelRoomsCarousel.PrevSlide | components/customChatElements/hotelRooms/HotelRoomsCarousel.tsx:55-57 | the index moves to the previous room, wrapping and staying in range |
| HotelRooms.RoomImages | components/customChatElements/hotelRooms/HotelRoomsCarousel.tsx:62-69 | an image list is proxied element by element; a single non-empty image gives one proxied image; no image or an empty one gives none |
| HotelRooms.ShownAmenities | components/customChatElements/hotelRooms/HotelRoomsCarousel.tsx:159-170 | at most the first three amenities are shown, in order, each followed by a separator except the last |
| HotelRooms.MoreAmenities | components/customChatElements/hotelRooms/HotelRoomsCarousel.tsx:171-175 | the "+n more" note appears exactly when there are more than three, and n counts the hidden ones |
| SocialFeed.PlaceholderCount | components/customChatElements/socialMediaFeed/SocialMediaFeed.tsx:113-119 | placeholders fill the grid to exactly nine cells, and there are none once nine posts exist |
| SocialFeed.Tile | components/customChatElements/socialMediaFeed/SocialMediaFeed.tsx:100-109 | a tile shows its post, with a proxied thumbnail exactly when the post has an image |
| SocialFeed.Grid | components/customChatElements/socialMediaFeed/SocialMediaFeed.tsx:92-119 | the grid has one tile per post, in order, then placeholders up to nine cells |
| SocialFeed.AppliedTheme | components/customChatElements/socialMediaFeed/SocialMediaFeed.tsx:24-29 | the applied theme has every default key and every given key; the given values win and the defaults fill in |
| SocialFeed.FalsyThemeValueWins | components/customChatElements/socialMediaFeed/SocialMediaFeed.tsx:24-29 | a given but falsy value still overrides the default |
| SocialFeed.SocialMediaFeed.constructor | components/customChatElements/socialMediaFeed/SocialMediaFeed.tsx:21 | the feed starts with no post expanded |
| SocialFeed.SocialMediaFeed.ClickPost | components/customChatElements/socialMediaFeed/SocialMediaFeed.tsx:96 | clicking a post with an image expands it; clicking one without changes nothing |
| SocialFeed.SocialMediaFeed.Close | components/customChatElements/socialMediaFeed/SocialMediaFeed.tsx:39 | closing leaves no post expanded |
| SocialFeed.SocialMediaFeed.ExpandedImage | components/customChatElements/socialMediaFeed/SocialMediaFeed.tsx:45-47 | an image is expanded exactly when the selected post has one, and it is shown through the proxy |
| SocialFeed.Interact | components/customChatElements/socialMediaFeed/SocialMediaFeed.tsx:39-111 | after any clicks and closes, an expanded image is the proxied image of one of the posts |
| BookingUrl.SetParamValues | components/customChatElements/priceComparison/bookingUrlUtils.ts:87-120 | `searchParams.set` leaves exactly one value for its name and every other name's values as they were |
| BookingUrl.SetIfValues | components/customChatElements/priceComparison/bookingUrlUtils.ts:87-120 | a guarded set does that when its guard holds and nothing otherwise |
| BookingUrl.DateParamsValues | components/customChatElements/priceComparison/bookingUrlUtils.ts:86-98 | `arrive`, `depart` and `promo` take the check-in date, check-out date and promo code when these are non-empty, and every other parameter keeps its values |
| BookingUrl.CountParamsValues | components/customChatElements/priceComparison/bookingUrlUtils.ts:101-111 | `adult`, `child` and `rooms` take the decimal count whenever it is given, zero included, and every other parameter keeps its values |
| BookingUrl.LocaleParamsValues | components/customChatElements/priceComparison/bookingUrlUtils.ts:113-119 | `currency` and `locale` take the given values when non-empty, and every other parameter keeps its values |
| BookingUrl.UpdatedQueryValues | components/customChatElements/priceComparison/bookingUrlUtils.ts:87-120 | after the updates every parameter holds the booking value when that value is given, and keeps its earlier values otherwise |
| BookingUrl.FormSerializeSplits | components/customChatElements/priceComparison/bookingUrlUtils.ts:122 | a non-empty list's form-urlencoded serialisation splits at `&` back into its encoded pairs |
| BookingUrl.PairWithoutAmpersand | components/customChatElements/priceComparison/bookingUrlUtils.ts:122 | an encoded `name=value` pair holds no `&` |
| BookingUrl.SerializedQuery | components/customChatElements/priceComparison/bookingUrlUtils.ts:87-120 | the update steps of `set`: the query becomes the list's serialisation, and is absent exactly when the list is empty |
| BookingUrl.SetUrlIfShape | components/customChatElements/priceComparison/bookingUrlUtils.ts:87-120 | a guarded `set` changes only the list and the query; once it has run the query is the serialised list; without it the URL is unchanged |
| BookingUrl.ThreeSetsShape | components/customChatElements/priceComparison/bookingUrlUtils.ts:87-120 | the same for three guarded `set`s in a row |
| BookingUrl.DateUrlShape | components/customChatElements/priceComparison/bookingUrlUtils.ts:86-98 | the date and promotion updates change only the list and the query, and leave the URL unchanged when none runs |
| BookingUrl.CountUrlShape | components/customChatElements/priceComparison/bookingUrlUtils.ts:101-111 | the count updates change only the list and the query, and leave the URL unchanged when none runs |
| BookingUrl.LocaleUrlShape | components/customChatElements/priceComparison/bookingUrlUtils.ts:113-119 | the currency and locale updates change only the list and the query, and leave the URL unchanged when none runs |
| BookingUrl.UpdatedUrlShape | components/customChatElements/priceComparison/bookingUrlUtils.ts:83-122 | the updates change only the query. The list becomes the updated query, and the stored query text is its serialisation once any `set` ran. Without a `set` the URL is untouched |
| BookingUrl.UpdatedQueryPairs | components/customChatElements/priceComparison/bookingUrlUtils.ts:87-122 | after any `set` the list is non-empty and the rewritten query splits into its encoded pairs, in order |
| BookingUrl.UrlFromBase | components/customChatElements/priceComparison/bookingUrlUtils.ts:81-127 | an unparseable base URL is returned unchanged. Without a `set` the href keeps the query as parsed. After one, the query is the form-urlencoded serialisation of the updated list, and the rest of the URL is as parsed |
| BookingUrl.SetWhen | components/customChatElements/priceComparison/bookingUrlUtils.ts:87-120 | one guarded update gives the guarded `set` of the URL. SetIfValues and SetUrlIfShape state what that does |
| BookingUrl.BuildUrlFromBase | components/customChatElements/priceComparison/bookingUrlUtils.ts:81-127 | the URL object updated by each `set` in turn serialises to the URL that UrlFromBase describes |
| BookingUrl.PlaceholderAt | components/customChatElements/priceComparison/bookingUrlUtils.ts:157 | a placeholder found is a `{…}` run of at least one character with no `}` inside |
| BookingUrl.EraseBracesNoPlaceholder | components/customChatElements/priceComparison/bookingUrlUtils.ts:157 | after erasing no placeholder remains |
| BookingUrl.EraseKeepsEmptyBraces | components/customChatElements/priceComparison/bookingUrlUtils.ts:157 | an empty `{}` is not a placeholder and stays |
| BookingUrl.UrlFromTemplate | components/customChatElements/priceComparison/bookingUrlUtils.ts:136-160 | a URL built from a template contains no placeholder. The substitutions follow `String.replace`, `$` patterns included |
| BookingUrl.InterpolateNothing | components/customChatElements/priceComparison/bookingUrlUtils.ts:140-157 | without any value given, only the placeholders are erased |
| BookingUrl.PlainTemplate | components/customChatElements/priceComparison/bookingUrlUtils.ts:136-160 | a template without braces is the URL itself |
| BookingUrl.CheckInFillsEveryPlaceholder | components/customChatElements/priceComparison/bookingUrlUtils.ts:141-143 | a check-in date without `$` replaces every `{checkInDate}`, not only the first |
| BookingUrl.MatchReferenceDate | components/customChatElements/priceComparison/bookingUrlUtils.ts:140-157 | a check-in date of `$&` puts every `{checkInDate}` back, and the final erasure removes it, as if no date had been given |
| BookingUrl.RoomTypeInsertedEncoded | components/customChatElements/priceComparison/bookingUrlUtils.ts:148-150 | the encoded room type is inserted literally at every `{roomType}` |
| BookingUrl.EncodedValueHasNoBrace | components/customChatElements/priceComparison/bookingUrlUtils.ts:148-154 | an encoded value contains no brace, so substitution cannot create a placeholder, and no `$`, so it is inserted as it is |
| BookingUrl.BuildUrlFromTemplate | components/customChatElements/priceComparison/bookingUrlUtils.ts:136-160 | the string rewritten step by step is the template URL, with no placeholder left |
| BookingUrl.BookingUrlFor | components/customChatElements/priceComparison/bookingUrlUtils.ts:49-72 | the hotel base URL wins; otherwise the template; otherwise the direct URL. There is no URL exactly when none of them is given |
| BookingUrl.BuildBookingUrl | components/customChatElements/priceComparison/bookingUrlUtils.ts:49-72 | the URL chosen is the one the configuration calls for |
| BookingUrl.ValidateBookingUrlConfig | components/customChatElements/priceComparison/bookingUrlUtils.ts:168-182 | a configuration is invalid exactly when it gives no URL source or a hotel configuration with an empty base URL |
| BookingUrl.ValidConfigYieldsUrl | components/customChatElements/priceComparison/bookingUrlUtils.ts:49-72 | a valid configuration always yields a URL |
| BookingUrl.InvalidConfigMayStillYieldUrl | components/customChatElements/priceComparison/bookingUrlUtils.ts:168-182 | an empty base URL with a template or direct URL is called invalid although a URL is built |
| BookingUrl.FormatDateForUrl | components/customChatElements/priceComparison/bookingUrlUtils.ts:190-202 | an empty date gives nothing; any other is handed to the date formatter |
| PriceComparisons.GetSiteLogo | components/customChatElements/priceComparison/PriceComparison.tsx:13-25 | a logo exists exactly for the sites in the table, and is the table's entry |
| PriceComparisons.SiteLogos | components/customChatElements/priceComparison/PriceComparison.tsx:6-11 | the table holds the four OTA logos and matches names exactly |
| PriceComparisons.NextOrderEffect | components/customChatElements/priceComparison/PriceComparison.tsx:144-151 | clicking a column sorts by it; clicking the current column flips the direction, and a new column starts ascending |
| PriceComparisons.TwoClicks | components/customChatElements/priceComparison/PriceComparison.tsx:144-151 | clicking the current column twice restores the order; clicking a new one twice sorts it descending |
| PriceComparisons.SortState.constructor | components/customChatElements/priceComparison/PriceComparison.tsx:76-77 | the table starts sorted by price, ascending |
| PriceComparisons.SortState.HandleSort | components/customChatElements/priceComparison/PriceComparison.tsx:144-151 | a click moves the sort state to the next order |
| PriceComparisons.Nights | components/customChatElements/priceComparison/PriceComparison.tsx:80-83 | without both dates the stay counts as one night; otherwise as the day difference |
| PriceComparisons.KeyOrdersByPrice | components/customChatElements/priceComparison/PriceComparison.tsx:154-163 | for a positive stay, ordering by price and by price per night agree |
| PriceComparisons.KeyReversedByNegativeStay | components/customChatElements/priceComparison/PriceComparison.tsx:154-156 | for a negative stay (check-out before check-in) the price per night orders the rows by price reversed |
| PriceComparisons.SortedComparisons | components/customChatElements/priceComparison/PriceComparison.tsx:154-163 | for any stay other than zero nights on the price column, the sorted rows are a permutation of the rows |
| PriceComparisons.SortedComparisonsSorted | components/customChatElements/priceComparison/PriceComparison.tsx:154-163 | the sorted rows are in the chosen order, for any stay other than zero nights on the price column |
| PriceComparisons.SortedComparisonsStable | components/customChatElements/priceComparison/PriceComparison.tsx:154-163 | the sort is stable: the rows with any one key keep their relative order |
| PriceComparisons.LowestPriceAsWritten | components/customChatElements/priceComparison/PriceComparison.tsx:166 | as written, the "lowest" price is the first row's, or 0 with no rows |
| PriceComparisons.DescendingHighlightsHighest | components/customChatElements/priceComparison/PriceComparison.tsx:166-249 | sorted descending, the first row, highlighted as lowest, is the most expensive |
| PriceComparisons.HighlightIndex | components/customChatElements/priceComparison/PriceComparison.tsx:249 | the highlighted row is the first row with the lowest price |
| PriceComparisons.LowestPrice | components/customChatElements/priceComparison/PriceComparison.tsx:166 | the lowest price is a row's price and no row is cheaper |
| PriceComparisons.HighlightFirstWhenAscending | components/customChatElements/priceComparison/PriceComparison.tsx:154-166 | sorted ascending, the corrected highlight is the first row, agreeing with the code as written |

## Left out

- Dates and floating point: `new Date`, the day counts, `toFixed` and number formatting are parameters or left out. Prices are Dafny `real`; `PriceComparisons.Nights` takes the day count as a parameter.
- PriceComparisons.SortedComparisons: requires a stay other than zero nights when sorting by the price column. There, every nightly price is `price / 0`, which is infinite or NaN, and the comparator's differences are then NaN, so the order `Array.prototype.sort` produces is not defined. The total column and any non-zero stay, negative ones included, are modelled.
- Reading the response: `fetch`, the stream reader and `TextDecoder` are left out. The body is the sequence of decoded text chunks, and the HTTP status is a boolean.
- Foreign calls are parameters of the model:
  - `JSON.parse`, the `partial-json` parser and `handleTool` (the local tools, `env.runTool`);
  - the URL parser, the ISO date formatter and the image proxy's route.
- UriEncoding.EncodeUriComponent: encodes code points as UTF-8. It does not model the `URIError` thrown on lone surrogates.
- Asynchrony: the follow-up `processMessages()` after a local tool is counted (`nextTurns`) rather than run. Interleaving of awaits is not modelled; each frame's handler runs to completion before the next.
- The store and rendering:
  - `setChatMessages`, `setConversationItems` and `setAssistantLoading` are the fields themselves;
  - the zustand store, console logging and all JSX rendering are left out;
  - `components/mcp-config.tsx`, `components/chat.tsx` and `HotelCard.tsx` are not part of this model.
- The route: `app/api/turn_response/route.ts` calls the OpenAI API, which is left out. Only its framing of events is modelled (`StreamFrames.ServerStream`). The route never sends `[DONE]`, so the client's `[DONE]` branch is modelled but unused by it.
- TurnEvents.OnTypedItemAdded: a code-interpreter call's `files: []` is not kept, since no handler reads it.
- TurnEvents.AnnotationsOnlyOnUpdate: a string or array annotation, spread into an object, is modelled as an object with no fields.
- LoyaltyBadges.GetLoyaltyBadgeUrl, LoyaltyBadges.HasLoyaltyBadge and PriceComparisons.GetSiteLogo: keys inherited from `Object.prototype` (`"constructor"`, `"toString"` and the like) are not modelled. In the source, `LOYALTY_BADGE_MAPPING[name]`, `name in LOYALTY_BADGE_MAPPING` (loyaltyBadgeMapping.ts:27,34) and `OTA_LOGOS[siteName]` (PriceComparison.tsx:15) find such a key on the prototype.
- Strings.Substitution: only the replacement patterns a pattern without capture groups can use are expanded: `$$`, `$&`, `` $` `` and `$'`. The regular expressions of bookingUrlUtils.ts:141-153 have no groups, so `$1` or `$<name>` stays literal there as in the source.
- TurnEvents.OnItemDone: `item.output = item.output` for MCP calls is modelled as keeping the wire item's output.
- TurnFold.Apply, TurnFold.Step, TurnProcessor.Processor.HandleEvent, TurnProcessor.Processor.OnMessage, TurnProcessor.Processor.HandleFrames and TurnProcessor.Processor.ProcessMessages: these are built on the corrected `output_item.done` handler (`TurnEvents.OnItemDone`), not the one as written (`TurnEvents.OnItemDoneAsWritten`), so they run completed local function tools. The code as written never does; see "## Findings".
- DestinationCarousels.DestinationCarousel: `destinations` is a list, never undefined. In the source an undefined list throws at `destinations.length` (DestinationCarousel.tsx:32), before the guard at line 57 that tests for it.
- BookingUrl.CountParams: a count is a defined integer or absent. A `null` count passes `!== undefined` (bookingUrlUtils.ts:102). Its `toString()` then throws, and the catch returns the base URL unchanged. A fractional count would be written in JavaScript's decimal form (`2.5`). Neither is modelled.
- BookingUrl.UrlFromBase: `parse` stands for the `URL` constructor. It must give the href prefix, the query text, the parsed list of pairs and the fragment; the WHATWG parser itself is left out.

## Findings

| source | as written | input that shows it | evidently intended | confidence | as-written member | corrected member |
|---|---|---|---|---|---|---|
| lib/assistant.ts:714-747 | `output_item.done` runs a local tool only when the completed wire item has type "tool_call" and `tool_type` "function_call". The API sends such items with type "function_call" or "mcp_call", so no local tool ever runs and no follow-up turn starts | the display holds the in-progress tool call `fc_1`; the event's item is `{type: "function_call", id: "fc_1", call_id: "call_1"}` | find the display tool call with the item's id. When it is a function call, run the tool, store and replay its output under the item's `call_id`, and start another turn; when it is an MCP call, mark it completed | not executed | TurnEvents.WireFunctionCallIgnoredAsWritten | TurnEvents.DoneRunsFunctionTool |
| components/customChatElements/priceComparison/PriceComparison.tsx:166,249 | the "lowest price" is the first sorted row's price, and row 0 is highlighted as the best deal. Under a descending price sort, that is the most expensive offer | two offers priced 100 and 200, sorted by price descending: the 200 offer is highlighted | highlight the row with the lowest price, whatever the sort order | not executed | PriceComparisons.DescendingHighlightsHighest | PriceComparisons.HighlightIndex |
