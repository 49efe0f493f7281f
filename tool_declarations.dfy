/** The tool declarations sent with every turn, built from the tools-panel settings. */
module ToolDeclarations {
  import opened Wrappers
  import opened Strings
  import opened JsonValues

  datatype UserLocation = UserLocation(country: Option<string>, region: Option<string>, city: Option<string>)
  datatype WebSearchConfig = WebSearchConfig(userLocation: Option<UserLocation>)
  datatype VectorStore = VectorStore(id: string, name: string)
  datatype McpConfig = McpConfig(serverLabel: string, serverUrl: string, allowedTools: Option<string>, skipApproval: bool)

  /** The fields of the tools store that `getTools` reads. */
  datatype ToolsSettings = ToolsSettings(
    webSearchEnabled: bool,
    fileSearchEnabled: bool,
    functionsEnabled: bool,
    codeInterpreterEnabled: bool,
    vectorStore: Option<VectorStore>,
    webSearchConfig: WebSearchConfig,
    mcpEnabled: bool,
    mcpConfig: McpConfig,
    globalApprovalGranted: bool)

  /** An entry of the configured function list; `parameters` keeps the keys in declaration order. */
  datatype FunctionSpec = FunctionSpec(name: string, description: string, parameters: seq<(string, Json)>)

  datatype ToolDeclaration =
    | WebSearchTool(userLocation: Option<UserLocation>)
    | FileSearchTool(vectorStoreIds: seq<Option<string>>)
    | CodeInterpreterTool(container: string)
    | FunctionTool(name: string, description: string, properties: seq<(string, Json)>,
                   required: seq<string>, additionalProperties: bool, strict: bool)
    | McpTool(serverLabel: string, serverUrl: string, requireApproval: Option<string>,
              allowedTools: Option<seq<string>>)
  {
    function Kind(): ToolKind {
      match this
      case WebSearchTool(_) => WebSearchKind
      case FileSearchTool(_) => FileSearchKind
      case CodeInterpreterTool(_) => CodeInterpreterKind
      case FunctionTool(_, _, _, _, _, _) => FunctionKind
      case McpTool(_, _, _, _) => McpKind
    }

    function Rank(): nat {
      Kind().Rank()
    }
  }

  datatype ToolKind = WebSearchKind | FileSearchKind | CodeInterpreterKind | FunctionKind | McpKind {
    /** The position of the kind in the fixed order of the list. */
    function Rank(): nat {
      match this
      case WebSearchKind => 0
      case FileSearchKind => 1
      case CodeInterpreterKind => 2
      case FunctionKind => 3
      case McpKind => 4
    }
  }

  /** The setting that switches a kind on; functions also need a non-empty list. */
  predicate Enabled(s: ToolsSettings, toolsList: seq<FunctionSpec>, k: ToolKind) {
    match k
    case WebSearchKind => s.webSearchEnabled
    case FileSearchKind => s.fileSearchEnabled
    case CodeInterpreterKind => s.codeInterpreterEnabled
    case FunctionKind => s.functionsEnabled && |toolsList| > 0
    case McpKind => s.mcpEnabled && s.mcpConfig.serverUrl != ""
  }

  /**
   * The location is attached when at least one field differs from the
   * empty string; a missing field differs from it too.
   */
  predicate AttachLocation(location: Option<UserLocation>) {
    location.Some? &&
    (location.value.country != Some("") || location.value.region != Some("") || location.value.city != Some(""))
  }

  function WebSearchDeclaration(config: WebSearchConfig): (t: ToolDeclaration)
    ensures t.WebSearchTool?
    ensures t.userLocation.Some? <==> AttachLocation(config.userLocation)
    ensures t.userLocation.Some? ==> t.userLocation == config.userLocation
  {
    if AttachLocation(config.userLocation) then WebSearchTool(config.userLocation) else WebSearchTool(None)
  }

  function Keys(parameters: seq<(string, Json)>): (ks: seq<string>)
    ensures |ks| == |parameters|
    ensures forall i :: 0 <= i < |ks| ==> ks[i] == parameters[i].0
  {
    if parameters == [] then [] else [parameters[0].0] + Keys(parameters[1..])
  }

  /** One function declaration: every parameter required, no extra properties, strict mode. */
  function FunctionDeclaration(spec: FunctionSpec): (t: ToolDeclaration)
    ensures t.FunctionTool? && t.name == spec.name && t.description == spec.description
    ensures t.properties == spec.parameters && t.required == Keys(spec.parameters)
    ensures !t.additionalProperties && t.strict
  {
    FunctionTool(spec.name, spec.description, spec.parameters, Keys(spec.parameters), false, true)
  }

  function FunctionDeclarations(toolsList: seq<FunctionSpec>): (ts: seq<ToolDeclaration>)
    ensures |ts| == |toolsList|
    ensures forall i :: 0 <= i < |ts| ==> ts[i] == FunctionDeclaration(toolsList[i])
  {
    if toolsList == [] then [] else [FunctionDeclaration(toolsList[0])] + FunctionDeclarations(toolsList[1..])
  }

  /** `.map(t => t.trim())`. */
  function TrimAll(pieces: seq<string>): seq<string> {
    seq(|pieces|, i requires 0 <= i < |pieces| => Trim(pieces[i]))
  }

  /** `.filter(t => t)`: the non-empty entries, in order. */
  function NonEmpty(xs: seq<string>): (r: seq<string>)
    ensures |r| <= |xs|
    ensures forall t :: t in r <==> t in xs && t != ""
  {
    if xs == [] then []
    else
      assert xs == [xs[0]] + xs[1..];
      (if xs[0] != "" then [xs[0]] else []) + NonEmpty(xs[1..])
  }

  /** Filtering distributes over concatenation, so the kept entries stay in their order. */
  lemma {:induction false} NonEmptyAppend(a: seq<string>, b: seq<string>)
    ensures NonEmpty(a + b) == NonEmpty(a) + NonEmpty(b)
  {
    if a == [] {
      assert a + b == b;
    } else {
      assert (a + b)[0] == a[0];
      assert (a + b)[1..] == a[1..] + b;
      NonEmptyAppend(a[1..], b);
    }
  }

  /** A single entry is kept exactly when it is not empty. */
  lemma NonEmptySingle(x: string)
    ensures NonEmpty([x]) == if x != "" then [x] else []
  {
    assert [x][1..] == [];
  }

  /**
   * `allowed_tools`: absent when the setting is missing or blank after
   * trimming; otherwise the comma-separated entries, trimmed, empty ones dropped.
   */
  function AllowedTools(setting: Option<string>): (r: Option<seq<string>>)
    ensures r.None? <==> setting.None? || Trim(setting.value) == ""
    ensures r.Some? ==> r.value == NonEmpty(TrimAll(Split(setting.value, ",")))
  {
    if setting.None? || Trim(setting.value) == "" then None
    else Some(NonEmpty(TrimAll(Split(setting.value, ","))))
  }

  /** Trimming every piece and dropping the empty ones leaves only non-empty, trimmed entries. */
  lemma TrimmedEntry(pieces: seq<string>, t: string)
    requires t in NonEmpty(TrimAll(pieces))
    ensures t != "" && !IsJsSpace(t[0]) && !IsJsSpace(t[|t| - 1])
  {
    var k :| 0 <= k < |pieces| && TrimAll(pieces)[k] == t;
    TrimmedShape(pieces[k]);
  }

  /** What `Trim` promises about the ends of a non-blank result, stated on its own. */
  lemma TrimmedShape(piece: string)
    ensures var t := Trim(piece); t != "" ==> !IsJsSpace(t[0]) && !IsJsSpace(t[|t| - 1])
  {
  }

  /** Every piece that is not blank survives, trimmed. */
  lemma PieceKept(pieces: seq<string>, k: nat)
    requires k < |pieces| && Trim(pieces[k]) != ""
    ensures Trim(pieces[k]) in NonEmpty(TrimAll(pieces))
  {
    var trimmed := TrimAll(pieces);
    assert trimmed[k] == Trim(pieces[k]);
    assert Trim(pieces[k]) in trimmed;
  }

  /** Every allowed tool is non-empty and neither starts nor ends with whitespace. */
  lemma AllowedToolTrimmed(setting: string, t: string)
    requires Trim(setting) != "" && t in AllowedTools(Some(setting)).value
    ensures t != "" && !IsJsSpace(t[0]) && !IsJsSpace(t[|t| - 1])
  {
    TrimmedEntry(Split(setting, ","), t);
  }

  /** Every comma-separated entry that is not blank is among the allowed tools, trimmed. */
  lemma AllowedToolsCover(setting: string, piece: string)
    requires Trim(setting) != "" && piece in Split(setting, ",") && Trim(piece) != ""
    ensures Trim(piece) in AllowedTools(Some(setting)).value
  {
    var pieces := Split(setting, ",");
    assert Trim(piece) in NonEmpty(TrimAll(pieces)) by {
      var k :| 0 <= k < |pieces| && pieces[k] == piece;
      PieceKept(pieces, k);
    }
    assert AllowedTools(Some(setting)).value == NonEmpty(TrimAll(pieces));
  }

  /** The MCP declaration, present only when enabled with a non-empty server URL. */
  function McpDeclaration(settings: ToolsSettings): (t: Option<ToolDeclaration>)
    ensures t.Some? <==> settings.mcpEnabled && settings.mcpConfig.serverUrl != ""
    ensures t.Some? ==> t.value.McpTool? && t.value.serverUrl == settings.mcpConfig.serverUrl
    ensures t.Some? ==>
      t.value.serverLabel == if settings.mcpConfig.serverLabel == "" then "mcp-server" else settings.mcpConfig.serverLabel
    ensures t.Some? ==>
      (t.value.requireApproval == Some("never") <==> settings.mcpConfig.skipApproval || settings.globalApprovalGranted)
    ensures t.Some? ==>
      (t.value.requireApproval.None? <==> !settings.mcpConfig.skipApproval && !settings.globalApprovalGranted)
    ensures t.Some? ==> t.value.allowedTools == AllowedTools(settings.mcpConfig.allowedTools)
  {
    var c := settings.mcpConfig;
    if !(settings.mcpEnabled && c.serverUrl != "") then None
    else
      Some(McpTool(
        if c.serverLabel == "" then "mcp-server" else c.serverLabel,
        c.serverUrl,
        if c.skipApproval || settings.globalApprovalGranted then Some("never") else None,
        AllowedTools(c.allowedTools)))
  }

  predicate RanksBetween(tools: seq<ToolDeclaration>, lo: nat, hi: nat) {
    forall i :: 0 <= i < |tools| ==> lo <= tools[i].Rank() <= hi
  }

  /** The web-search entry: present exactly when web search is on. */
  function WebSearchPart(s: ToolsSettings): (r: seq<ToolDeclaration>)
    ensures |r| <= 1 && RanksBetween(r, 0, 0)
    ensures |r| > 0 <==> s.webSearchEnabled
  {
    if s.webSearchEnabled then [WebSearchDeclaration(s.webSearchConfig)] else []
  }

  /** The file-search entry: present exactly when file search is on; its one store id may be missing. */
  function FileSearchPart(s: ToolsSettings): (r: seq<ToolDeclaration>)
    ensures |r| <= 1 && RanksBetween(r, 1, 1)
    ensures |r| > 0 <==> s.fileSearchEnabled
    ensures |r| > 0 ==> r[0].vectorStoreIds == [if s.vectorStore.Some? then Some(s.vectorStore.value.id) else None]
  {
    if s.fileSearchEnabled then [FileSearchTool([if s.vectorStore.Some? then Some(s.vectorStore.value.id) else None])] else []
  }

  /** The code-interpreter entry, with an automatic container. */
  function CodeInterpreterPart(s: ToolsSettings): (r: seq<ToolDeclaration>)
    ensures |r| <= 1 && RanksBetween(r, 2, 2)
    ensures |r| > 0 <==> s.codeInterpreterEnabled
    ensures |r| > 0 ==> r[0].container == "auto"
  {
    if s.codeInterpreterEnabled then [CodeInterpreterTool("auto")] else []
  }

  /** One function declaration per configured function when functions are on. */
  function FunctionsPart(s: ToolsSettings, toolsList: seq<FunctionSpec>): (r: seq<ToolDeclaration>)
    ensures RanksBetween(r, 3, 3)
    ensures |r| == if s.functionsEnabled then |toolsList| else 0
  {
    if s.functionsEnabled then FunctionDeclarations(toolsList) else []
  }

  function McpPart(s: ToolsSettings): (r: seq<ToolDeclaration>)
    ensures |r| <= 1 && RanksBetween(r, 4, 4)
    ensures |r| > 0 <==> s.mcpEnabled && s.mcpConfig.serverUrl != ""
    ensures |r| > 0 ==> McpDeclaration(s) == Some(r[0])
  {
    match McpDeclaration(s) case Some(t) => [t] case None => []
  }

  /** The declarations each setting contributes, in the order of the list. */
  function Declarations(s: ToolsSettings, toolsList: seq<FunctionSpec>): seq<ToolDeclaration> {
    WebSearchPart(s) + FileSearchPart(s) + CodeInterpreterPart(s) + FunctionsPart(s, toolsList) + McpPart(s)
  }

  /**
   * `getTools`: the list is built by conditional pushes; the declaration
   * kinds appear in the fixed order web search, file search, code
   * interpreter, functions, MCP.
   */
  method GetTools(settings: ToolsSettings, toolsList: seq<FunctionSpec>) returns (tools: seq<ToolDeclaration>)
    ensures tools == Declarations(settings, toolsList)
  {
    tools := [];
    if settings.webSearchEnabled {
      var webSearchTool := BuildWebSearchTool(settings.webSearchConfig);
      tools := tools + [webSearchTool];
    }
    assert tools == WebSearchPart(settings);
    if settings.fileSearchEnabled {
      var id := if settings.vectorStore.Some? then Some(settings.vectorStore.value.id) else None;
      tools := tools + [FileSearchTool([id])];
    }
    assert tools == WebSearchPart(settings) + FileSearchPart(settings);
    if settings.codeInterpreterEnabled {
      tools := tools + [CodeInterpreterTool("auto")];
    }
    assert tools == WebSearchPart(settings) + FileSearchPart(settings) + CodeInterpreterPart(settings);
    if settings.functionsEnabled {
      tools := tools + FunctionDeclarations(toolsList);
    }
    ghost var beforeMcp := tools;
    assert beforeMcp == WebSearchPart(settings) + FileSearchPart(settings) + CodeInterpreterPart(settings)
      + FunctionsPart(settings, toolsList);
    var mcp := BuildMcpTool(settings);
    if mcp.Some? {
      tools := tools + [mcp.value];
    }
    assert tools == beforeMcp + McpPart(settings);
  }

  /** The web-search entry of `getTools`: the location is set on the object after it is created. */
  method BuildWebSearchTool(config: WebSearchConfig) returns (t: ToolDeclaration)
    ensures t == WebSearchDeclaration(config)
  {
    t := WebSearchTool(None);
    if AttachLocation(config.userLocation) {
      t := t.(userLocation := config.userLocation);
    }
  }

  /** The MCP entry of `getTools`: the object is created, then optional keys are set on it. */
  method BuildMcpTool(settings: ToolsSettings) returns (t: Option<ToolDeclaration>)
    ensures t == McpDeclaration(settings)
  {
    var c := settings.mcpConfig;
    if !(settings.mcpEnabled && c.serverUrl != "") {
      return None;
    }
    var serverLabel := if c.serverLabel == "" then "mcp-server" else c.serverLabel;
    var mcpTool := McpTool(serverLabel, c.serverUrl, None, None);
    if c.skipApproval || settings.globalApprovalGranted {
      mcpTool := mcpTool.(requireApproval := Some("never"));
    }
    if c.allowedTools.Some? {
      var v := c.allowedTools.value;
      var trimmed := Trim(v);
      if trimmed != "" {
        mcpTool := mcpTool.(allowedTools := Some(NonEmpty(TrimAll(Split(v, ",")))));
      }
    }
    t := Some(mcpTool);
  }

  predicate InKindOrder(tools: seq<ToolDeclaration>) {
    forall i, j :: 0 <= i < j < |tools| ==> tools[i].Rank() <= tools[j].Rank()
  }

  /** The ranks never decrease and none is below `lo`, stated one step at a time. */
  predicate AscendingFrom(tools: seq<ToolDeclaration>, lo: nat)
    decreases |tools|
  {
    |tools| == 0 || (lo <= tools[0].Rank() && AscendingFrom(tools[1..], tools[0].Rank()))
  }

  lemma {:induction false} SameRankAscending(tools: seq<ToolDeclaration>, rank: nat)
    requires RanksBetween(tools, rank, rank)
    ensures AscendingFrom(tools, rank)
    decreases |tools|
  {
    if |tools| > 0 {
      assert RanksBetween(tools[1..], rank, rank) by {
        forall i | 0 <= i < |tools| - 1 ensures tools[1..][i].Rank() == rank {
          assert tools[1..][i] == tools[i + 1];
        }
      }
      SameRankAscending(tools[1..], rank);
    }
  }

  lemma {:induction false} AscendingAppend(x: seq<ToolDeclaration>, y: seq<ToolDeclaration>, lo: nat, mid: nat)
    requires lo <= mid && AscendingFrom(x, lo) && RanksBetween(x, 0, mid) && AscendingFrom(y, mid)
    ensures AscendingFrom(x + y, lo)
    decreases |x|
  {
    if |x| == 0 {
      assert x + y == y;
    } else {
      assert (x + y)[0] == x[0];
      assert (x + y)[1..] == x[1..] + y;
      assert RanksBetween(x[1..], 0, mid) by {
        forall i | 0 <= i < |x| - 1 ensures x[1..][i].Rank() <= mid {
          assert x[1..][i] == x[i + 1];
        }
      }
      AscendingAppend(x[1..], y, x[0].Rank(), mid);
    }
  }

  lemma RanksAppend(x: seq<ToolDeclaration>, y: seq<ToolDeclaration>, hx: nat, hi: nat)
    requires hx <= hi && RanksBetween(x, 0, hx) && RanksBetween(y, 0, hi)
    ensures RanksBetween(x + y, 0, hi)
  {
  }

  /** The one-step form gives the pairwise order. */
  lemma {:induction false} AscendingOrdered(tools: seq<ToolDeclaration>, lo: nat)
    requires AscendingFrom(tools, lo)
    ensures InKindOrder(tools)
    ensures forall i :: 0 <= i < |tools| ==> lo <= tools[i].Rank()
    decreases |tools|
  {
    if |tools| > 0 {
      var rest := tools[1..];
      AscendingOrdered(rest, tools[0].Rank());
      forall i, j | 0 <= i < j < |tools| ensures tools[i].Rank() <= tools[j].Rank() {
        assert tools[j] == rest[j - 1];
        if i > 0 {
          assert tools[i] == rest[i - 1];
        }
      }
      forall i | 0 <= i < |tools| ensures lo <= tools[i].Rank() {
        if i > 0 {
          assert tools[i] == rest[i - 1];
        }
      }
    }
  }

  /** Blocks of single ranks 0 to 4, concatenated in that order, are in kind order. */
  lemma BlocksInOrder(a: seq<ToolDeclaration>, b: seq<ToolDeclaration>, c: seq<ToolDeclaration>,
                      f: seq<ToolDeclaration>, m: seq<ToolDeclaration>)
    requires RanksBetween(a, 0, 0) && RanksBetween(b, 1, 1) && RanksBetween(c, 2, 2)
    requires RanksBetween(f, 3, 3) && RanksBetween(m, 4, 4)
    ensures InKindOrder(a + b + c + f + m)
  {
    SameRankAscending(a, 0);
    SameRankAscending(b, 1);
    SameRankAscending(c, 2);
    SameRankAscending(f, 3);
    SameRankAscending(m, 4);
    AscendingAppend(a, b, 0, 1);
    RanksAppend(a, b, 0, 1);
    AscendingAppend(a + b, c, 0, 2);
    RanksAppend(a + b, c, 1, 2);
    AscendingAppend(a + b + c, f, 0, 3);
    RanksAppend(a + b + c, f, 2, 3);
    AscendingAppend(a + b + c + f, m, 0, 4);
    AscendingOrdered(a + b + c + f + m, 0);
  }

  /** The kinds appear in the fixed order web search, file search, code interpreter, functions, MCP. */
  lemma DeclarationsInOrder(s: ToolsSettings, toolsList: seq<FunctionSpec>)
    ensures InKindOrder(Declarations(s, toolsList))
  {
    BlocksInOrder(WebSearchPart(s), FileSearchPart(s), CodeInterpreterPart(s), FunctionsPart(s, toolsList), McpPart(s));
  }

  /** In a concatenation of single-rank blocks, a declaration of rank `k` comes from block `k`. */
  lemma BlockOfRank(a: seq<ToolDeclaration>, b: seq<ToolDeclaration>, c: seq<ToolDeclaration>,
                    f: seq<ToolDeclaration>, m: seq<ToolDeclaration>, t: ToolDeclaration)
    requires RanksBetween(a, 0, 0) && RanksBetween(b, 1, 1) && RanksBetween(c, 2, 2)
    requires RanksBetween(f, 3, 3) && RanksBetween(m, 4, 4)
    requires t in a + b + c + f + m
    ensures t.Rank() == 0 ==> t in a
    ensures t.Rank() == 1 ==> t in b
    ensures t.Rank() == 2 ==> t in c
    ensures t.Rank() == 3 ==> t in f
    ensures t.Rank() == 4 ==> t in m
  {
    assert t in a || t in b || t in c || t in f || t in m;
  }

  /** The block of `Declarations` that holds the declarations of kind `k`. */
  function Part(s: ToolsSettings, toolsList: seq<FunctionSpec>, k: ToolKind): (r: seq<ToolDeclaration>)
    ensures RanksBetween(r, k.Rank(), k.Rank())
    ensures |r| > 0 <==> Enabled(s, toolsList, k)
  {
    match k
    case WebSearchKind => WebSearchPart(s)
    case FileSearchKind => FileSearchPart(s)
    case CodeInterpreterKind => CodeInterpreterPart(s)
    case FunctionKind => FunctionsPart(s, toolsList)
    case McpKind => McpPart(s)
  }

  lemma PartIn(s: ToolsSettings, toolsList: seq<FunctionSpec>, k: ToolKind, t: ToolDeclaration)
    requires t in Part(s, toolsList, k)
    ensures t in Declarations(s, toolsList)
  {
  }

  /** A declaration of kind `k` in the list comes from the block of kind `k`. */
  lemma InPart(s: ToolsSettings, toolsList: seq<FunctionSpec>, k: ToolKind, t: ToolDeclaration)
    requires t in Declarations(s, toolsList) && t.Kind() == k
    ensures t in Part(s, toolsList, k)
  {
    BlockOfRank(WebSearchPart(s), FileSearchPart(s), CodeInterpreterPart(s), FunctionsPart(s, toolsList), McpPart(s), t);
    assert t.Rank() == k.Rank();
  }

  lemma RankDeterminesKind(t: ToolDeclaration, k: ToolKind)
    requires t.Rank() == k.Rank()
    ensures t.Kind() == k
  {
  }

  /** Every declaration in the list belongs to a kind whose setting is on. */
  lemma KindEnabled(s: ToolsSettings, toolsList: seq<FunctionSpec>, t: ToolDeclaration)
    requires t in Declarations(s, toolsList)
    ensures Enabled(s, toolsList, t.Kind())
  {
    InPart(s, toolsList, t.Kind(), t);
  }

  /** A kind whose setting is on has a declaration in the list. */
  lemma EnabledKindPresent(s: ToolsSettings, toolsList: seq<FunctionSpec>, k: ToolKind)
    requires Enabled(s, toolsList, k)
    ensures exists t :: t in Declarations(s, toolsList) && t.Kind() == k
  {
    var p := Part(s, toolsList, k);
    PartIn(s, toolsList, k, p[0]);
    RankDeterminesKind(p[0], k);
  }

  /** A kind appears in the list exactly when its setting is on (and, for functions, the list is non-empty). */
  lemma DeclarationsPresence(s: ToolsSettings, toolsList: seq<FunctionSpec>, k: ToolKind)
    ensures (exists t :: t in Declarations(s, toolsList) && t.Kind() == k) <==> Enabled(s, toolsList, k)
  {
    if exists t :: t in Declarations(s, toolsList) && t.Kind() == k {
      var t :| t in Declarations(s, toolsList) && t.Kind() == k;
      KindEnabled(s, toolsList, t);
    }
    if Enabled(s, toolsList, k) {
      EnabledKindPresent(s, toolsList, k);
    }
  }
}
