/**
 * The parts of the Model Context Protocol's "Tools" messages that the client
 * reads: tool descriptors from `tools/list` and content blocks from
 * `tools/call`. The protocol itself is implemented by the SDK, not here.
 */
module McpTypes {
  import opened Wrappers

  /**
   * A tool descriptor. `schemaText` stands for the input schema already
   * serialised with `json.dumps(inputSchema, indent=2)`.
   */
  datatype Tool = Tool(name: string, description: Option<string>, schemaText: string)

  /** Argument values passed through to a tool. */
  datatype JsonValue =
    | JNull
    | JBool(b: bool)
    | JNumber(n: int)
    | JString(s: string)
    | JArray(items: seq<JsonValue>)
    | JObject(fields: map<string, JsonValue>)

  /** Keyword arguments of a tool call. */
  type Arguments = map<string, JsonValue>

  /**
   * One block of a call result, by its `type` tag: `"text"` (with its
   * optional `text` attribute), `"resource"` (with an optional `uri`
   * attribute on the block itself) or any other tag (image, audio,
   * resource_link, ...). A standard MCP embedded-resource block keeps its
   * location under `resource.uri`, not on the block, so for such a block
   * `uri` is `None`.
   */
  datatype ContentBlock =
    | TextContent(text: Option<string>)
    | EmbeddedResource(uri: Option<string>)
    | OtherContent(kind: string)
}
