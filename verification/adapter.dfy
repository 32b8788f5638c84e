/**
 * The tool adapter: turns an MCP tool descriptor into a proxy callable for
 * the agent framework. The proxy's name is the tool's name cleaned into an
 * identifier, its docstring carries the schema, and calling it strips the
 * framework's `tool_context` argument, routes the call through the manager
 * and flattens the result into one text.
 */
module Adapter {
  import opened Wrappers
  import opened OrderedMaps
  import opened McpTypes
  import opened McpManager

  // ---------------------------------------------------------------------
  // Name cleaning
  // ---------------------------------------------------------------------

  predicate IsAsciiLetter(c: char) { 'a' <= c <= 'z' || 'A' <= c <= 'Z' }

  predicate IsAsciiDigit(c: char) { '0' <= c <= '9' }

  /** The class `[a-zA-Z0-9_]`. */
  predicate IsWordChar(c: char) { IsAsciiLetter(c) || IsAsciiDigit(c) || c == '_' }

  /** What the framework accepts as a name: word characters, not starting with a digit. */
  predicate IsIdentifier(s: string) {
    |s| > 0 && (IsAsciiLetter(s[0]) || s[0] == '_') && forall i :: 0 <= i < |s| ==> IsWordChar(s[i])
  }

  /** `re.sub(r'[^a-zA-Z0-9_]', '_', s)`: every other character becomes `_`. */
  function ReplaceDisallowed(s: string): (r: string)
    ensures |r| == |s|
    ensures forall i :: 0 <= i < |s| ==> r[i] == (if IsWordChar(s[i]) then s[i] else '_')
    decreases |s|
  {
    if s == [] then [] else [if IsWordChar(s[0]) then s[0] else '_'] + ReplaceDisallowed(s[1..])
  }

  /**
   * The proxy's `__name__`: the name with disallowed characters replaced,
   * with `_` put in front when it would start with a digit. On a replaced
   * name the test `isalpha()` holds exactly for ASCII letters.
   */
  function SanitizeName(name: string): (r: string)
    requires |name| > 0
    ensures IsIdentifier(r)
    ensures |r| == (if IsAsciiDigit(name[0]) then |name| + 1 else |name|)
  {
    var replaced := ReplaceDisallowed(name);
    if !IsAsciiLetter(replaced[0]) && replaced[0] != '_' then "_" + replaced else replaced
  }

  /**
   * Cleaning keeps every allowed character in place and puts `_` where a
   * disallowed one was, after the optional leading `_`.
   */
  lemma SanitizeCharwise(name: string, k: nat)
    requires k < |name|
    ensures var shift := if IsAsciiDigit(name[0]) then 1 else 0;
            SanitizeName(name)[k + shift] == (if IsWordChar(name[k]) then name[k] else '_')
    ensures IsAsciiDigit(name[0]) ==> SanitizeName(name)[0] == '_'
  {
  }

  /** A name that is already an identifier is left as it is, and only such a name. */
  lemma {:induction false} SanitizeFixedPoints(name: string)
    requires |name| > 0
    ensures SanitizeName(name) == name <==> IsIdentifier(name)
  {
    if IsIdentifier(name) {
      var replaced := ReplaceDisallowed(name);
      assert replaced == name by {
        forall i | 0 <= i < |name| ensures replaced[i] == name[i] {
          assert IsWordChar(name[i]);
        }
      }
    }
  }

  /** Cleaning twice is cleaning once. */
  lemma SanitizeIdempotent(name: string)
    requires |name| > 0
    ensures SanitizeName(SanitizeName(name)) == SanitizeName(name)
  {
    SanitizeFixedPoints(SanitizeName(name));
  }

  /** A space becomes an underscore. */
  lemma SanitizeExampleSpace()
    ensures SanitizeName("get time") == "get_time"
  {
    var s := SanitizeName("get time");
    assert |s| == 8;
    forall k | 0 <= k < 8 ensures s[k] == "get_time"[k] {
      SanitizeCharwise("get time", k);
    }
  }

  /** A leading digit gets an underscore in front of it. */
  lemma SanitizeExampleDigit()
    ensures SanitizeName("2fa") == "_2fa"
  {
    var t := SanitizeName("2fa");
    assert |t| == 4;
    SanitizeCharwise("2fa", 0);
    forall j | 1 <= j < 4 ensures t[j] == "_2fa"[j] {
      SanitizeCharwise("2fa", j - 1);
    }
  }


  // ---------------------------------------------------------------------
  // Docstring
  // ---------------------------------------------------------------------

  const SchemaHeader: string := "\n\nParameters Schema:\n"

  /** The proxy's `__doc__`: the description (or `""` when it has none), a header, the schema. */
  function Docstring(description: Option<string>, schemaText: string): (doc: string)
  {
    description.GetOr("") + SchemaHeader + schemaText
  }

  /**
   * The docstring splits back into its parts: the description first, then
   * the header, then the schema text; so the schema can be read back from it.
   */
  lemma DocstringParts(description: Option<string>, schemaText: string)
    ensures var d := description.GetOr("");
            var doc := Docstring(description, schemaText);
            |doc| == |d| + |SchemaHeader| + |schemaText| &&
            doc[..|d|] == d &&
            doc[|d|..|d| + |SchemaHeader|] == SchemaHeader &&
            doc[|d| + |SchemaHeader|..] == schemaText
  {
  }

  /** A missing description and an empty one give the same docstring. */
  lemma DocstringMissingDescription(schemaText: string)
    ensures Docstring(None, schemaText) == Docstring(Some(""), schemaText) == SchemaHeader + schemaText
  {
  }

  // ---------------------------------------------------------------------
  // The adapted tool
  // ---------------------------------------------------------------------

  /**
   * What `create_adk_tool` returns, apart from the behaviour of the call:
   * the cleaned name, the docstring, and the original name it calls with.
   */
  datatype AdkTool = AdkTool(name: string, doc: string, originalName: string)

  /** `create_adk_tool`; an empty tool name makes `[0]` raise, so it is excluded. */
  function CreateAdkTool(tool: Tool): (adapted: AdkTool)
    requires |tool.name| > 0
    ensures adapted.name == SanitizeName(tool.name) && IsIdentifier(adapted.name)
    ensures adapted.doc == Docstring(tool.description, tool.schemaText)
    ensures adapted.originalName == tool.name
  {
    AdkTool(SanitizeName(tool.name), Docstring(tool.description, tool.schemaText), tool.name)
  }

  /** `adapt_tools`: one proxy per tool, same length, same order. */
  function AdaptTools(tools: seq<Tool>): (adapted: seq<AdkTool>)
    requires forall i :: 0 <= i < |tools| ==> |tools[i].name| > 0
    ensures |adapted| == |tools|
    ensures forall i :: 0 <= i < |tools| ==> adapted[i] == CreateAdkTool(tools[i])
    decreases |tools|
  {
    if tools == [] then [] else [CreateAdkTool(tools[0])] + AdaptTools(tools[1..])
  }

  // ---------------------------------------------------------------------
  // Calling the proxy
  // ---------------------------------------------------------------------

  const ToolContextKey: string := "tool_context"

  /** `kwargs.pop('tool_context', None)` */
  function StripToolContext(kwargs: Arguments): (forwarded: Arguments)
    ensures ToolContextKey !in forwarded
    ensures forall k :: k in kwargs && k != ToolContextKey ==> k in forwarded && forwarded[k] == kwargs[k]
    ensures forall k :: k in forwarded ==> k in kwargs
  {
    kwargs - {ToolContextKey}
  }

  /** What one content block adds to the response text. */
  function BlockText(block: ContentBlock): string {
    match block
    case TextContent(text) => text.GetOr("")
    case EmbeddedResource(uri) => "\n[Resource: " + uri.GetOr("unknown") + "]"
    case OtherContent(_) => ""
  }

  /** The response text for a list of blocks: each block's text, in order. */
  function Flattened(blocks: seq<ContentBlock>): string
    decreases |blocks|
  {
    if blocks == [] then "" else Flattened(blocks[..|blocks| - 1]) + BlockText(blocks[|blocks| - 1])
  }

  /** Flattening works block by block: the text of a concatenation is the concatenation of the texts. */
  lemma {:induction false} FlattenedAppend(a: seq<ContentBlock>, b: seq<ContentBlock>)
    ensures Flattened(a + b) == Flattened(a) + Flattened(b)
    decreases |b|
  {
    if b == [] {
      assert a + b == a;
    } else {
      var init, last := b[..|b| - 1], b[|b| - 1];
      assert (a + b)[..|a + b| - 1] == a + init;
      assert (a + b)[|a + b| - 1] == last;
      FlattenedAppend(a, init);
      AppendAssociative(Flattened(a), Flattened(init), BlockText(last));
    }
  }

  /** The blocks that are text or resource blocks, in order. */
  function Rendered(blocks: seq<ContentBlock>): seq<ContentBlock>
    decreases |blocks|
  {
    if blocks == [] then []
    else Rendered(blocks[..|blocks| - 1]) +
         (if blocks[|blocks| - 1].OtherContent? then [] else [blocks[|blocks| - 1]])
  }

  /** Blocks that are neither text nor resource are dropped without a trace. */
  lemma {:induction false} FlattenedIgnoresOther(blocks: seq<ContentBlock>)
    ensures Flattened(blocks) == Flattened(Rendered(blocks))
    ensures forall i :: 0 <= i < |Rendered(blocks)| ==> !Rendered(blocks)[i].OtherContent?
    decreases |blocks|
  {
    if blocks != [] {
      var init, last := blocks[..|blocks| - 1], blocks[|blocks| - 1];
      FlattenedIgnoresOther(init);
      var kept := if last.OtherContent? then [] else [last];
      FlattenedAppend(Rendered(init), kept);
      assert Flattened(kept) == BlockText(last) by {
        if kept != [] { assert kept[..0] == []; }
      }
    }
  }

  /** A text block `"42"` then a resource block whose own `uri` attribute is `file://a`. */
  lemma FlattenedExample()
    ensures Flattened([TextContent(Some("42")), EmbeddedResource(Some("file://a"))]) == "42\n[Resource: file://a]"
  {
    var blocks := [TextContent(Some("42")), EmbeddedResource(Some("file://a"))];
    assert blocks[..1] == [TextContent(Some("42"))];
    assert blocks[..1][..0] == [];
  }

  /**
   * A standard embedded-resource block has no `uri` of its own, so it
   * flattens to the `unknown` placeholder.
   */
  lemma FlattenedStandardResource()
    ensures Flattened([EmbeddedResource(None)]) == "\n[Resource: unknown]"
  {
    assert [EmbeddedResource(None)][..0] == [];
  }

  /** The loop over `result.content` that builds `response_text`. */
  method FlattenContent(blocks: seq<ContentBlock>) returns (responseText: string)
    ensures responseText == Flattened(blocks)
  {
    responseText := "";
    var i := 0;
    while i < |blocks|
      invariant 0 <= i <= |blocks|
      invariant responseText == Flattened(blocks[..i])
    {
      var block := blocks[i];
      if block.TextContent? {
        responseText := responseText + block.text.GetOr("");
      } else if block.EmbeddedResource? {
        responseText := responseText + "\n[Resource: " + block.uri.GetOr("unknown") + "]";
      }
      assert blocks[..i + 1][..i] == blocks[..i];
      i := i + 1;
    }
    assert blocks[..i] == blocks;
  }

  /** The proxy's return value: `{"result": text}` or `{"error": str(e)}`. */
  datatype ProxyResponse = ResultText(result: string) | ErrorText(error: string)

  /** The response for what `call_tool` returned or raised. */
  function Respond(outcome: Result<seq<ContentBlock>, CallError>): ProxyResponse {
    match outcome
    case Success(content) => ResultText(Flattened(content))
    case Failure(e) => ErrorText(McpManager.ErrorText(e))
  }

  /**
   * `mcp_proxy_tool(**kwargs)`: strips `tool_context`, calls the manager
   * under the original name, and turns the outcome into a response; it never
   * raises.
   */
  method InvokeProxy(tool: AdkTool, manager: ClientManager, kwargs: Arguments,
                     listTools: ListOracle, callTool: CallOracle)
    returns (response: ProxyResponse)
    requires manager.Valid()
    ensures response == Respond(Dispatch(Route(manager.SessionHandles(), listTools, tool.originalName),
                                         tool.originalName, StripToolContext(kwargs), callTool))
  {
    var arguments := StripToolContext(kwargs);
    var outcome := manager.CallTool(tool.originalName, arguments, listTools, callTool);
    if outcome.Failure? {
      return ErrorText(McpManager.ErrorText(outcome.error));
    }
    var responseText := FlattenContent(outcome.value);
    return ResultText(responseText);
  }

  /**
   * A tool that every session answers without (in particular with no sessions at all) gives the
   * error response "Tool <name> not found on any server".
   */
  lemma ProxyToolNotFound(hs: seq<Handle>, listTools: ListOracle, callTool: CallOracle,
                          tool: AdkTool, kwargs: Arguments)
    requires AllMiss(hs, listTools, tool.originalName)
    ensures Respond(Dispatch(Route(hs, listTools, tool.originalName), tool.originalName,
                             StripToolContext(kwargs), callTool))
            == ErrorText("Tool " + tool.originalName + " not found on any server")
  {
    RouteNotFound(hs, listTools, tool.originalName);
  }

  /**
   * When the owning session's call succeeds, the proxy answers with the
   * flattened content, called under the original name with the stripped
   * arguments.
   */
  lemma ProxyForwards(hs: seq<Handle>, listTools: ListOracle, callTool: CallOracle,
                      tool: AdkTool, kwargs: Arguments, i: nat)
    requires i < |hs|
    requires AllMiss(hs[..i], listTools, tool.originalName)
    requires listTools(hs[i]).Success? && HasTool(listTools(hs[i]).value, tool.originalName)
    requires callTool(hs[i], tool.originalName, StripToolContext(kwargs)).Success?
    ensures Respond(Dispatch(Route(hs, listTools, tool.originalName), tool.originalName,
                             StripToolContext(kwargs), callTool))
            == ResultText(Flattened(callTool(hs[i], tool.originalName, StripToolContext(kwargs)).value))
  {
    RouteFirstMatch(hs, listTools, tool.originalName, i);
  }
}
