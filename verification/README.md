# MCP client manager, tool adapter and echo tool — a Dafny model

This project models the core of a small Model Context Protocol (MCP) client
written in Python:

- `MCPClientManager` (`02_mcp_adk_client/mcp_client/manager.py`) keeps a pool of
  stdio sessions to tool servers. It loads server launch parameters from a
  configuration document into a name-keyed table and connects to each server in
  order. One server's failure stays with that server. It builds the tool catalogue
  by concatenating every session's `tools/list` answer. It routes a `tools/call`
  to the first session whose current list has the tool. On shutdown it unwinds
  its exit stack.
- The tool adapter (`02_mcp_adk_client/mcp_client/adapter.py`) turns each MCP
  tool into a proxy callable for the agent framework. The proxy's name is the
  tool name cleaned into an identifier. Its docstring is the description followed
  by the schema. Calling it removes `tool_context`, routes through the manager
  under the original name, and flattens the result's content blocks into one
  text. Failures come back as an error value, never as an exception.
- The echo server's tool (`02_mcp_adk_client/servers/echo_server/tools.py`).

Files:

- `wrappers.dfy`: `Option` and `Result`.
- `ordered_maps.dfy`: an insertion-ordered dictionary, as Python's `dict` is.
- `mcp_types.dfy`: tool descriptors, argument values and content blocks.
- `manager.dfy`: the class `ClientManager` and the functions that specify its
  methods.
- `adapter.dfy`: name cleaning, docstring, argument stripping, flattening and
  the proxy call.
- `echo_tools.dfy`: `Echo`.

The manager is a class. Its fields are the source's `sessions` and
`_server_params` (both ordered maps), the exit stack (a sequence of entered
contexts) and an attempt counter. The counter gives each connection attempt its
own handle. Each method is proved against a function of the old state:
`LoadEntries`, `ConnectAll`, `AllTools`, `Route` with `Dispatch`, and
`Reversed`. The lemmas next to those functions state what the source promises.

Server behaviour is an input. A `ConnectOracle` says how far a server's
connection attempt gets: transport, session, `initialize`, or all the way. A
`ListOracle` gives each session's `list_tools` answer: a tool list, or the text
of the exception it raised. A `CallOracle` gives the `call_tool` answer. Every
`await` is treated as a plain sequential step.

In these places the code behaves differently from what a reader might expect,
and the model follows the code:

- `call_tool` does not catch an exception from `list_tools` during its search,
  although `list_all_tools` catches it and skips that session. In `call_tool`
  the failure ends the search and reaches the caller (`RouteFailurePropagates`).
- `load_config` is not all-or-nothing. Entries stored before the first entry
  without a `command` stay stored when it raises (`LoadEntriesStoresPrefix`,
  `LoadNotAllOrNothing`).
- A standard MCP embedded-resource block keeps its location under
  `resource.uri`, but the code reads `uri` from the block itself. So such a
  block flattens to `"\n[Resource: unknown]"` (`FlattenedStandardResource`).
  Only a block that carries its own `uri` attribute shows its location.
- Content blocks that are neither `text` nor `resource` are dropped without a
  placeholder (`FlattenedIgnoresOther`). That includes `resource_link` blocks.
- `shutdown` closes the contexts but leaves `self.sessions` as it was.
- `manager.py:21` builds the stack with `asyncio.ExitStack()`. `asyncio` has no
  such class, so as written the constructor would raise `AttributeError`. The
  model gives the stack the behaviour of `contextlib.AsyncExitStack`: contexts
  are pushed as they are entered, and `aclose` closes them last-in first-out and
  empties the stack.

## Model

| member | source | states |
|---|---|---|
| `McpManager.ClientManager.constructor` | 02_mcp_adk_client/mcp_client/manager.py:18-22 | a new manager has no sessions, no server parameters and an empty exit stack |
| `McpManager.ParamsOf` | 02_mcp_adk_client/mcp_client/manager.py:31-35 | the stored parameters take the entry's command; `args` defaults to `[]` and `env` to None |
| `McpManager.ClientManager.LoadConfig` | 02_mcp_adk_client/mcp_client/manager.py:24-38 | an unreadable file raises and changes nothing; a document without `mcpServers` adds nothing; otherwise the table and the error are those of the entry-by-entry loop, and the session invariant still holds |
| `McpManager.FirstMissing` | 02_mcp_adk_client/mcp_client/manager.py:30-32 | the index returned is that of the first entry without a `command`, or the number of entries when every entry has one |
| `McpManager.LoadEntriesError` | 02_mcp_adk_client/mcp_client/manager.py:30-38 | loading raises exactly when some entry lacks a command, and it raises at the first such entry; the source's `KeyError('command')` names no server, so the server name the model's error carries is the model's own bookkeeping |
| `McpManager.LoadEntriesStoresPrefix` | 02_mcp_adk_client/mcp_client/manager.py:30-38 | every entry before the first one without a command is stored under its name with its parameters, even when loading then raises |
| `McpManager.LoadEntriesKeepsOthers` | 02_mcp_adk_client/mcp_client/manager.py:30-38 | a name that no entry before the first one without a command carries keeps its old presence and parameters, even when an entry after that one carries it |
| `McpManager.LoadEntriesOnlyPrefix` | 02_mcp_adk_client/mcp_client/manager.py:29-38 | afterwards a name is in the table exactly when it was before or belongs to an entry before the first one without a command |
| `McpManager.LoadEntriesDocumentOrder` | 02_mcp_adk_client/mcp_client/manager.py:29-38 | when the entries' names are distinct and new to the table, the keys afterwards are the old keys followed by the names of the loaded entries in document order, so connecting follows the configuration document |
| `McpManager.LoadEntriesKeepsOrder` | 02_mcp_adk_client/mcp_client/manager.py:29-38 | loading only appends to the table: the names already there keep their places at the front, in order |
| `McpManager.LoadNotAllOrNothing` | 02_mcp_adk_client/mcp_client/manager.py:30-38 | a good first entry and a second entry without a command: loading raises for the second and the first stays stored |
| `McpManager.Acquired` | 02_mcp_adk_client/mcp_client/manager.py:45-49 | an attempt leaves its transport on the stack exactly when entering it succeeded, and its session context exactly when that was entered too; the transport is pushed first, so on shutdown the session closes before its transport |
| `McpManager.ClientManager.ConnectOne` | 02_mcp_adk_client/mcp_client/manager.py:43-53 | one server's attempt: the new state is that of `Attempt`, and the pool invariant is kept |
| `McpManager.AttemptFits` | 02_mcp_adk_client/mcp_client/manager.py:42-50 | an attempt on a configured name keeps session keys among the configured names, each session under its own server's name |
| `McpManager.ClientManager.ConnectToAll` | 02_mcp_adk_client/mcp_client/manager.py:40-53 | the new state is one attempt per configured name in configuration order; the server table is unchanged and the pool invariant holds |
| `McpManager.ConnectAllMembership` | 02_mcp_adk_client/mcp_client/manager.py:42-53 | a name has a session afterwards exactly when it had one before or its own attempt got through `initialize`, whatever the other servers did |
| `McpManager.ConnectAllKeepsEarlier` | 02_mcp_adk_client/mcp_client/manager.py:42-53 | sessions recorded earlier are never removed or moved, and one not attempted again keeps its handle |
| `McpManager.ConnectAllOrder` | 02_mcp_adk_client/mcp_client/manager.py:42-50 | the new session keys are the names that connected, in configuration order, after the keys already there |
| `McpManager.ConnectAllHandle` | 02_mcp_adk_client/mcp_client/manager.py:45-50 | a name that connected is stored with the handle of its own attempt |
| `McpManager.ConnectAllStack` | 02_mcp_adk_client/mcp_client/manager.py:45-47 | the exit stack only grows, by exactly what the attempts entered, attempt by attempt |
| `McpManager.AcquiredAllSerials` | 02_mcp_adk_client/mcp_client/manager.py:45-47 | every context pushed in a run belongs to one of that run's attempts |
| `McpManager.AcquiredAllHolds` | 02_mcp_adk_client/mcp_client/manager.py:45-49 | an attempt's transport is on the stack exactly when entering it succeeded, even if the session or `initialize` failed later, so nothing is leaked |
| `McpManager.TwoServerScenario` | 02_mcp_adk_client/mcp_client/manager.py:40-75 | with `alpha` connecting and `beta` failing to start, only alpha has a session, the catalogue is alpha's list alone, and a name alpha lacks is not found |
| `McpManager.ClientManager.ListAllTools` | 02_mcp_adk_client/mcp_client/manager.py:55-66 | the result is the catalogue of the sessions in insertion order, as `AllTools` defines it |
| `McpManager.AllToolsAppend` | 02_mcp_adk_client/mcp_client/manager.py:57-66 | the catalogue of two runs of sessions is the first run's catalogue followed by the second's |
| `McpManager.AllToolsSplit` | 02_mcp_adk_client/mcp_client/manager.py:58-65 | each session's own list appears in place and in its own order between the earlier and later sessions' tools; a session whose query raised adds nothing |
| `McpManager.AllToolsLength` | 02_mcp_adk_client/mcp_client/manager.py:57-63 | the catalogue's length is the sum of the answering sessions' list lengths, so duplicate names across servers are kept |
| `McpManager.ClientManager.CallTool` | 02_mcp_adk_client/mcp_client/manager.py:68-75 | the outcome is that of the search over the sessions in insertion order, then the owning session's call or the not-found error |
| `McpManager.RouteSkipsMisses` | 02_mcp_adk_client/mcp_client/manager.py:70-72 | sessions that answer without the name are passed over |
| `McpManager.RouteFirstMatch` | 02_mcp_adk_client/mcp_client/manager.py:70-73 | the call goes to the first session listing the name when all earlier ones answered without it; on a clash the earlier-connected server wins |
| `McpManager.RouteFailurePropagates` | 02_mcp_adk_client/mcp_client/manager.py:70-71 | a `list_tools` failure met during the search ends it and is raised, even if a later session lists the name |
| `McpManager.RouteNotFound` | 02_mcp_adk_client/mcp_client/manager.py:70-75 | the name is not found exactly when every session answered without it, which includes an empty pool |
| `McpManager.RouteOwnerLists` | 02_mcp_adk_client/mcp_client/manager.py:72-73 | a chosen session is in the pool, and its current answer lists the name |
| `McpManager.ClientManager.Shutdown` | 02_mcp_adk_client/mcp_client/manager.py:77-79 | every entered context is closed in reverse entry order and the stack is left empty, so a second call closes nothing; the session and server tables are unchanged |
| `McpManager.ClosingOrder` | 02_mcp_adk_client/mcp_client/manager.py:79 | the k-th context closed is the k-th from the top of the stack, and each is closed once |
| `McpManager.ReversedLength` | 02_mcp_adk_client/mcp_client/manager.py:79 | closing closes as many contexts as the stack held |
| `Adapter.ReplaceDisallowed` | 02_mcp_adk_client/mcp_client/adapter.py:20 | the length is kept; each `[A-Za-z0-9_]` character stays and every other character becomes `_` |
| `Adapter.SanitizeName` | 02_mcp_adk_client/mcp_client/adapter.py:20-22 | the cleaned name has only `[A-Za-z0-9_]` and starts with a letter or `_`; it is one longer exactly when the name starts with a digit |
| `Adapter.SanitizeCharwise` | 02_mcp_adk_client/mcp_client/adapter.py:20-22 | after the optional leading `_`, each character of the name is kept in place or replaced by `_` |
| `Adapter.SanitizeFixedPoints` | 02_mcp_adk_client/mcp_client/adapter.py:20-22 | cleaning leaves a name unchanged exactly when it is already an identifier |
| `Adapter.SanitizeIdempotent` | 02_mcp_adk_client/mcp_client/adapter.py:20-22 | cleaning twice gives the same as cleaning once |
| `Adapter.SanitizeExampleSpace` | 02_mcp_adk_client/mcp_client/adapter.py:20-22 | `"get time"` becomes `"get_time"` |
| `Adapter.SanitizeExampleDigit` | 02_mcp_adk_client/mcp_client/adapter.py:20-22 | `"2fa"` becomes `"_2fa"` |
| `Adapter.DocstringParts` | 02_mcp_adk_client/mcp_client/adapter.py:52 | the docstring is the description, then `"\n\nParameters Schema:\n"`, then the schema text, and each part can be read back |
| `Adapter.DocstringMissingDescription` | 02_mcp_adk_client/mcp_client/adapter.py:16 | a missing description counts as `""` |
| `Adapter.CreateAdkTool` | 02_mcp_adk_client/mcp_client/adapter.py:15-22 | the proxy's `__name__` is the cleaned tool name (an identifier, by `SanitizeName`), its `__doc__` is the docstring that `DocstringParts` splits back into description and schema, and it keeps the original name to call with |
| `Adapter.AdaptTools` | 02_mcp_adk_client/mcp_client/adapter.py:56-60 | one proxy per tool, with the same length and order |
| `Adapter.StripToolContext` | 02_mcp_adk_client/mcp_client/adapter.py:32 | only `tool_context` is removed, present or not; every other argument is forwarded unchanged |
| `Adapter.FlattenContent` | 02_mcp_adk_client/mcp_client/adapter.py:37-43 | the loop's text is the flattening of the blocks, block by block |
| `Adapter.FlattenedAppend` | 02_mcp_adk_client/mcp_client/adapter.py:37-43 | flattening keeps block order: the text of concatenated blocks is the concatenation of their texts |
| `Adapter.FlattenedIgnoresOther` | 02_mcp_adk_client/mcp_client/adapter.py:38-43 | blocks that are neither text nor resource add nothing: flattening only the text and resource blocks gives the same text |
| `Adapter.FlattenedExample` | 02_mcp_adk_client/mcp_client/adapter.py:37-44 | a text block `"42"` then a resource block carrying a top-level `uri` attribute `file://a` flatten to `"42\n[Resource: file://a]"` |
| `Adapter.FlattenedStandardResource` | 02_mcp_adk_client/mcp_client/adapter.py:41-43 | a resource block without a top-level `uri` (the standard MCP shape, which keeps it under `resource.uri`) flattens to `"\n[Resource: unknown]"` |
| `Adapter.InvokeProxy` | 02_mcp_adk_client/mcp_client/adapter.py:27-46 | the proxy calls the manager under the original name with `tool_context` removed; it answers with the flattened content or with the error's text, and never raises |
| `Adapter.ProxyToolNotFound` | 02_mcp_adk_client/mcp_client/adapter.py:34-46 | a tool that every session answers without (no session's `list_tools` raised, none listed it) gives the error response "Tool <name> not found on any server" |
| `Adapter.ProxyForwards` | 02_mcp_adk_client/mcp_client/adapter.py:34-44 | when the first listing session's call succeeds, the response is its flattened content |
| `EchoTools.Echo` | 02_mcp_adk_client/servers/echo_server/tools.py:8 | the result is `"Echo: "` followed by the text; it is six characters longer than the text |
| `EchoTools.EchoInjective` | 02_mcp_adk_client/servers/echo_server/tools.py:8 | different inputs give different outputs |

## Left out

- Reading and parsing `config.json`, JSON serialisation of the schema, the stdio transport, JSON-RPC framing and `ClientSession` are library code. The model starts from an already-parsed document or a read failure. The schema is its already-serialised text. Server behaviour comes from the oracles.
- Configuration documents whose values have the wrong JSON type are not modelled: `mcpServers` or an entry that is not an object, or an `args` that is `null`. In the source these raise from inside the loop, just as a missing `command` does.
- A connection attempt's outcome is an input keyed by server name. Within one `connect_to_all` call a name fixes its parameters; a later `load_config` may replace them. The subprocess launch itself is not modelled.
- `CallTool` does not look at the `isError` flag of a call result, and neither does the source. A tool-level error is flattened like any other content.
- An exception raised while a context closes is not modelled. `Shutdown` closes everything without error.
- Concurrency, timeouts and logging are not modelled. Logging has no effect on results. The manager takes no timeouts of its own.
- Python's `isalpha()` is tested only on a character already reduced to `[A-Za-z0-9_]`, where it means an ASCII letter. Unicode letters never get that far, because the replacement step has already turned them into `_`.
- Adapter.CreateAdkTool: an empty tool name is excluded by a precondition. In the source, indexing `[0]` raises `IndexError` there, so `adapt_tools` raises too.
- The order of keyword arguments is not kept. Arguments are a map, and removing `tool_context` leaves the other pairs as they were.
