/**
 * The MCP client connection manager: a pool of stdio sessions to tool
 * servers, the merged tool catalogue, and routing of a call to the first
 * server that lists the tool.
 *
 * Every `await` is a plain sequential step. What the servers do is an input:
 * a `ConnectOracle` says how far a connection attempt gets, a `ListOracle`
 * answers `list_tools` for a session, a `CallOracle` answers `call_tool`.
 */
module McpManager {
  import opened Wrappers
  import opened OrderedMaps
  import opened McpTypes

  // ---------------------------------------------------------------------
  // Configuration
  // ---------------------------------------------------------------------

  /** Launch parameters of one stdio server. */
  datatype ServerParams = ServerParams(command: string, args: seq<string>, env: Option<map<string, string>>)

  /** One entry under `mcpServers` in the parsed configuration document. */
  datatype ServerEntry = ServerEntry(
    name: string,
    command: Option<string>,
    args: Option<seq<string>>,
    env: Option<map<string, string>>)

  /** The parsed document; `mcpServers` is absent when the key is missing. */
  datatype ConfigDocument = ConfigDocument(mcpServers: Option<seq<ServerEntry>>)

  /** Why `load_config` raised. */
  datatype LoadError =
    | Unreadable(reason: string)    // the file could not be opened or parsed
    | MissingCommand(server: string) // `info["command"]` raised KeyError

  /** The entries of a JSON object have distinct names. */
  ghost predicate DistinctNames(entries: seq<ServerEntry>) {
    forall i, j :: 0 <= i < j < |entries| ==> entries[i].name != entries[j].name
  }

  /** `StdioServerParameters(command=..., args=info.get("args", []), env=info.get("env"))`. */
  function ParamsOf(e: ServerEntry): (p: ServerParams)
    requires e.command.Some?
    ensures p.command == e.command.value
    ensures e.args.None? ==> p.args == []
    ensures e.args.Some? ==> p.args == e.args.value
    ensures p.env == e.env
  {
    ServerParams(e.command.value, e.args.GetOr([]), e.env)
  }

  /** What the loading loop leaves behind: the table and the error it raised, if any. */
  datatype Loaded = Loaded(params: OrderedMap<string, ServerParams>, error: Option<LoadError>)

  /** The loop of `load_config` over the entries, storing each one as it goes. */
  function LoadEntries(params: OrderedMap<string, ServerParams>, entries: seq<ServerEntry>): (r: Loaded)
    requires params.Valid()
    ensures r.params.Valid()
    decreases |entries|
  {
    if entries == [] then Loaded(params, None)
    else if entries[0].command.None? then Loaded(params, Some(MissingCommand(entries[0].name)))
    else LoadEntries(params.Put(entries[0].name, ParamsOf(entries[0])), entries[1..])
  }

  /** Index of the first entry without a command, or `|entries|` when every entry has one. */
  function FirstMissing(entries: seq<ServerEntry>): (k: nat)
    ensures k <= |entries|
    ensures forall i :: 0 <= i < k ==> entries[i].command.Some?
    ensures k < |entries| ==> entries[k].command.None?
    decreases |entries|
  {
    if entries == [] || entries[0].command.None? then 0 else 1 + FirstMissing(entries[1..])
  }

  /**
   * Loading stops with an error exactly at the first entry that lacks a
   * command, and the error names that entry.
   */
  lemma {:induction false} LoadEntriesError(params: OrderedMap<string, ServerParams>, entries: seq<ServerEntry>)
    requires params.Valid()
    ensures var k := FirstMissing(entries);
            var r := LoadEntries(params, entries);
            (r.error.None? <==> k == |entries|) &&
            (k < |entries| ==> r.error == Some(MissingCommand(entries[k].name)))
    decreases |entries|
  {
    if entries != [] && entries[0].command.Some? {
      LoadEntriesError(params.Put(entries[0].name, ParamsOf(entries[0])), entries[1..]);
    }
  }

  /**
   * Every entry before the first one without a command is stored under its
   * name with its parameters, even when loading then fails: loading is not
   * all-or-nothing.
   */
  lemma {:induction false} LoadEntriesStoresPrefix(params: OrderedMap<string, ServerParams>, entries: seq<ServerEntry>, i: nat)
    requires params.Valid()
    requires DistinctNames(entries)
    requires i < FirstMissing(entries)
    ensures var r := LoadEntries(params, entries).params;
            entries[i].name in r.entries && r.entries[entries[i].name] == ParamsOf(entries[i])
    decreases |entries|
  {
    var next := params.Put(entries[0].name, ParamsOf(entries[0]));
    if i == 0 {
      LoadEntriesKeepsOthers(next, entries[1..], entries[0].name);
    } else {
      LoadEntriesStoresPrefix(next, entries[1..], i - 1);
    }
  }

  /** A name that no entry of the loaded prefix carries keeps its old state. */
  lemma {:induction false} LoadEntriesKeepsOthers(params: OrderedMap<string, ServerParams>, entries: seq<ServerEntry>, n: string)
    requires params.Valid()
    requires forall i :: 0 <= i < FirstMissing(entries) ==> entries[i].name != n
    ensures var r := LoadEntries(params, entries).params;
            (n in r.entries <==> n in params.entries) &&
            (n in params.entries ==> r.entries[n] == params.entries[n])
    decreases |entries|
  {
    if entries != [] && entries[0].command.Some? {
      assert entries[0].name != n;
      LoadEntriesKeepsOthers(params.Put(entries[0].name, ParamsOf(entries[0])), entries[1..], n);
    }
  }

  /**
   * Nothing but the loaded prefix is added: a name is in the table afterwards
   * exactly when it was there before or belongs to an entry before the first
   * one without a command.
   */
  lemma {:induction false} LoadEntriesOnlyPrefix(params: OrderedMap<string, ServerParams>, entries: seq<ServerEntry>, n: string)
    requires params.Valid()
    ensures var r := LoadEntries(params, entries).params;
            var k := FirstMissing(entries);
            n in r.entries <==> n in params.entries || exists i :: 0 <= i < k && entries[i].name == n
    decreases |entries|
  {
    if entries != [] && entries[0].command.Some? {
      var next := params.Put(entries[0].name, ParamsOf(entries[0]));
      LoadEntriesOnlyPrefix(next, entries[1..], n);
      var k := FirstMissing(entries);
      if exists i :: 0 <= i < k - 1 && entries[1..][i].name == n {
        var i :| 0 <= i < k - 1 && entries[1..][i].name == n;
        assert entries[i + 1].name == n;
      }
      if exists i :: 0 <= i < k && entries[i].name == n {
        var i :| 0 <= i < k && entries[i].name == n;
        if i > 0 {
          assert entries[1..][i - 1].name == n;
        }
      }
    }
  }

  /** Loading only appends: the names already in the table keep their places at the front. */
  lemma {:induction false} LoadEntriesKeepsOrder(params: OrderedMap<string, ServerParams>, entries: seq<ServerEntry>)
    requires params.Valid()
    ensures var r := LoadEntries(params, entries).params;
            |params.keys| <= |r.keys| && r.keys[..|params.keys|] == params.keys
    decreases |entries|
  {
    if entries != [] && entries[0].command.Some? {
      var next := params.Put(entries[0].name, ParamsOf(entries[0]));
      LoadEntriesKeepsOrder(next, entries[1..]);
      assert next.keys[..|params.keys|] == params.keys;
      PrefixTransitive(params.keys, next.keys, LoadEntries(next, entries[1..]).params.keys);
    }
  }

  /** The server names of a run of entries, in document order. */
  function EntryNames(entries: seq<ServerEntry>): (names: seq<string>)
    ensures |names| == |entries|
    ensures forall i :: 0 <= i < |entries| ==> names[i] == entries[i].name
    decreases |entries|
  {
    if entries == [] then [] else [entries[0].name] + EntryNames(entries[1..])
  }

  /** After storing the first of distinct new entries, the rest are still distinct and new. */
  lemma FreshDistinctTail(params: OrderedMap<string, ServerParams>, entries: seq<ServerEntry>, next: OrderedMap<string, ServerParams>)
    requires entries != [] && DistinctNames(entries)
    requires forall i :: 0 <= i < |entries| ==> entries[i].name !in params.entries
    requires next.entries.Keys == params.entries.Keys + {entries[0].name}
    ensures DistinctNames(entries[1..])
    ensures forall i :: 0 <= i < |entries[1..]| ==> entries[1..][i].name !in next.entries
  {
    var rest := entries[1..];
    forall i | 0 <= i < |rest| ensures rest[i].name !in next.entries {
      assert rest[i] == entries[i + 1];
    }
    forall i, j | 0 <= i < j < |rest| ensures rest[i].name != rest[j].name {
      assert rest[i] == entries[i + 1] && rest[j] == entries[j + 1];
    }
  }

  /**
   * Names new to the table are appended in the order of the document: the
   * keys afterwards are the old keys, then the names of the loaded prefix.
   */
  lemma {:induction false} LoadEntriesDocumentOrder(params: OrderedMap<string, ServerParams>, entries: seq<ServerEntry>)
    requires params.Valid()
    requires DistinctNames(entries)
    requires forall i :: 0 <= i < |entries| ==> entries[i].name !in params.entries
    ensures LoadEntries(params, entries).params.keys == params.keys + EntryNames(entries[..FirstMissing(entries)])
    decreases |entries|
  {
    var k := FirstMissing(entries);
    if entries != [] && entries[0].command.Some? {
      var next := params.Put(entries[0].name, ParamsOf(entries[0]));
      var rest := entries[1..];
      FreshDistinctTail(params, entries, next);
      LoadEntriesDocumentOrder(next, rest);
      assert next.keys == params.keys + [entries[0].name];
      assert entries[..k][1..] == rest[..k - 1];
      AppendAssociative(params.keys, [entries[0].name], EntryNames(rest[..k - 1]));
    } else {
      assert EntryNames(entries[..k]) == [];
      assert params.keys + [] == params.keys;
    }
  }

  /** Concretely: a bad second entry raises, but the first entry stays stored. */
  lemma LoadNotAllOrNothing()
    ensures var entries := [ServerEntry("alpha", Some("python"), None, None), ServerEntry("beta", None, None, None)];
            var r := LoadEntries(Empty(), entries);
            r.error == Some(MissingCommand("beta")) &&
            "alpha" in r.params.entries && r.params.entries["alpha"] == ServerParams("python", [], None)
  {
    var entries := [ServerEntry("alpha", Some("python"), None, None), ServerEntry("beta", None, None, None)];
    assert entries[1..] == [ServerEntry("beta", None, None, None)];
  }

  // ---------------------------------------------------------------------
  // Sessions and the exit stack
  // ---------------------------------------------------------------------

  /**
   * Identity of what one connection attempt opened: the server's name and
   * the number of the attempt (a server connected twice gets two handles).
   */
  datatype Handle = Handle(server: string, serial: nat)

  /** A context entered on the exit stack. */
  datatype Resource =
    | Transport(handle: Handle)            // `stdio_client(params)`
    | ClientSessionContext(handle: Handle) // `ClientSession(read, write)`

  /** How far one connection attempt gets before something raises. */
  datatype Stage =
    | TransportFails   // entering `stdio_client` raised
    | SessionFails     // entering `ClientSession` raised
    | InitializeFails  // `session.initialize()` raised
    | Ready            // all three steps succeeded

  type ConnectOracle = string -> Stage
  type ListOracle = Handle -> Result<seq<Tool>, string>
  type CallOracle = (Handle, string, Arguments) -> Result<seq<ContentBlock>, string>

  /** The contexts an attempt pushes on the exit stack, in order. */
  function Acquired(h: Handle, stage: Stage): (rs: seq<Resource>)
    ensures Transport(h) in rs <==> stage != TransportFails
    ensures ClientSessionContext(h) in rs <==> stage == InitializeFails || stage == Ready
    ensures forall r :: r in rs ==> r.handle == h
    ensures stage != TransportFails ==> rs[0] == Transport(h)
  {
    match stage
    case TransportFails => []
    case SessionFails => [Transport(h)]
    case InitializeFails => [Transport(h), ClientSessionContext(h)]
    case Ready => [Transport(h), ClientSessionContext(h)]
  }

  /** The manager's mutable state, as one value. */
  datatype PoolState = PoolState(sessions: OrderedMap<string, Handle>, stack: seq<Resource>, serial: nat)

  /** One iteration of the loop in `connect_to_all`. */
  function Attempt(p: PoolState, name: string, stage: Stage): (q: PoolState)
    requires p.sessions.Valid()
    ensures q.sessions.Valid()
  {
    var h := Handle(name, p.serial);
    PoolState(
      if stage == Ready then p.sessions.Put(name, h) else p.sessions,
      p.stack + Acquired(h, stage),
      p.serial + 1)
  }

  /**
   * The pool invariant: session keys are configured names, each session
   * belongs to the server it is stored under, and every session and every
   * context on the stack comes from an attempt already made.
   */
  ghost predicate Fits(p: PoolState, configured: set<string>) {
    p.sessions.Valid() &&
    (forall n :: n in p.sessions.entries ==>
       n in configured && p.sessions.entries[n].server == n && p.sessions.entries[n].serial < p.serial) &&
    (forall r :: r in p.stack ==> r.handle.serial < p.serial)
  }

  /** An attempt on a configured name keeps the pool invariant. */
  lemma AttemptFits(p: PoolState, name: string, stage: Stage, configured: set<string>)
    requires Fits(p, configured) && name in configured
    ensures Fits(Attempt(p, name, stage), configured)
  {
  }

  /** An attempt that connects a new name appends it to the session keys. */
  lemma AttemptKeys(p: PoolState, name: string, stage: Stage)
    requires p.sessions.Valid()
    ensures Attempt(p, name, stage).sessions.keys ==
            p.sessions.keys + (if stage == Ready && name !in p.sessions.keys then [name] else [])
  {
  }

  /** `connect_to_all`: one attempt per configured name, in order. */
  function ConnectAll(p: PoolState, names: seq<string>, connect: ConnectOracle): (q: PoolState)
    requires p.sessions.Valid()
    ensures q.sessions.Valid()
    decreases |names|
  {
    if names == [] then p
    else ConnectAll(Attempt(p, names[0], connect(names[0])), names[1..], connect)
  }

  /**
   * Failure isolation: afterwards a name has a session exactly when it had
   * one before or its own attempt got through `initialize`; what happened to
   * other servers does not matter.
   */
  lemma {:induction false} ConnectAllMembership(p: PoolState, names: seq<string>, connect: ConnectOracle, n: string)
    requires p.sessions.Valid()
    ensures n in ConnectAll(p, names, connect).sessions.entries <==>
            n in p.sessions.entries || (n in names && connect(n) == Ready)
    decreases |names|
  {
    if names != [] {
      ConnectAllMembership(Attempt(p, names[0], connect(names[0])), names[1..], connect, n);
      assert n in names <==> n == names[0] || n in names[1..];
    }
  }

  /**
   * Sessions recorded earlier are never removed or moved: the old keys stay
   * at the front in their order, and a session whose name is not attempted
   * again keeps its handle.
   */
  lemma {:induction false} ConnectAllKeepsEarlier(p: PoolState, names: seq<string>, connect: ConnectOracle, n: string)
    requires p.sessions.Valid()
    ensures var q := ConnectAll(p, names, connect).sessions;
            |p.sessions.keys| <= |q.keys| && q.keys[..|p.sessions.keys|] == p.sessions.keys &&
            (n in p.sessions.entries && n !in names ==> n in q.entries && q.entries[n] == p.sessions.entries[n])
    decreases |names|
  {
    if names != [] {
      var next := Attempt(p, names[0], connect(names[0]));
      ConnectAllKeepsEarlier(next, names[1..], connect, n);
      assert |p.sessions.keys| <= |next.sessions.keys| && next.sessions.keys[..|p.sessions.keys|] == p.sessions.keys;
    }
  }

  /** The names among `names` that connect and were not already in `known`, in order. */
  function NewlyConnected(names: seq<string>, connect: ConnectOracle, known: seq<string>): seq<string> {
    if names == [] then []
    else (if connect(names[0]) == Ready && names[0] !in known then [names[0]] else [])
         + NewlyConnected(names[1..], connect, known)
  }

  lemma {:induction false} NewlyConnectedIgnores(names: seq<string>, connect: ConnectOracle, known: seq<string>, x: string)
    requires x !in names
    ensures NewlyConnected(names, connect, known + [x]) == NewlyConnected(names, connect, known)
    decreases |names|
  {
    if names != [] {
      NewlyConnectedIgnores(names[1..], connect, known, x);
    }
  }

  /**
   * Insertion order follows configuration order: the new session keys are
   * the names that connected, in the order they were attempted, after the
   * keys that were already there.
   */
  lemma {:induction false} ConnectAllOrder(p: PoolState, names: seq<string>, connect: ConnectOracle)
    requires p.sessions.Valid()
    requires NoDuplicates(names)
    ensures ConnectAll(p, names, connect).sessions.keys ==
            p.sessions.keys + NewlyConnected(names, connect, p.sessions.keys)
    decreases |names|
  {
    if names != [] {
      var n, rest := names[0], names[1..];
      var known := p.sessions.keys;
      var next := Attempt(p, n, connect(n));
      var added := if connect(n) == Ready && n !in known then [n] else [];
      NoDuplicatesTail(names);
      ConnectAllOrder(next, rest, connect);
      AttemptKeys(p, n, connect(n));
      if added != [] {
        NewlyConnectedIgnores(rest, connect, known, n);
      }
      assert NewlyConnected(rest, connect, next.sessions.keys) == NewlyConnected(rest, connect, known);
      assert NewlyConnected(names, connect, known) == added + NewlyConnected(rest, connect, known);
      AppendAssociative(known, added, NewlyConnected(rest, connect, known));
    }
  }

  /**
   * A name that got through `initialize` is stored with the handle of its
   * own attempt (the i-th attempt of the run has serial `p.serial + i`).
   */
  lemma {:induction false} ConnectAllHandle(p: PoolState, names: seq<string>, connect: ConnectOracle, i: nat)
    requires p.sessions.Valid()
    requires NoDuplicates(names)
    requires i < |names| && connect(names[i]) == Ready
    ensures var q := ConnectAll(p, names, connect).sessions;
            names[i] in q.entries && q.entries[names[i]] == Handle(names[i], p.serial + i)
    decreases |names|
  {
    var next := Attempt(p, names[0], connect(names[0]));
    if i == 0 {
      assert names[0] !in names[1..];
      ConnectAllKeepsEarlier(next, names[1..], connect, names[0]);
    } else {
      assert NoDuplicates(names[1..]);
      ConnectAllHandle(next, names[1..], connect, i - 1);
    }
  }

  /** Closing the most recent resource keeps a pool consistent. */
  lemma FitsPop(p: PoolState, configured: set<string>)
    requires Fits(p, configured) && p.stack != []
    ensures Fits(p.(stack := p.stack[..|p.stack| - 1]), configured)
  {
  }

  /** The contexts pushed by a run of attempts, attempt by attempt. */
  function AcquiredAll(names: seq<string>, connect: ConnectOracle, serial: nat): seq<Resource>
    decreases |names|
  {
    if names == [] then []
    else Acquired(Handle(names[0], serial), connect(names[0])) + AcquiredAll(names[1..], connect, serial + 1)
  }

  /** The exit stack only grows, by exactly what the attempts acquired. */
  lemma {:induction false} ConnectAllStack(p: PoolState, names: seq<string>, connect: ConnectOracle)
    requires p.sessions.Valid()
    ensures ConnectAll(p, names, connect).stack == p.stack + AcquiredAll(names, connect, p.serial)
    ensures ConnectAll(p, names, connect).serial == p.serial + |names|
    decreases |names|
  {
    if names != [] {
      var next := Attempt(p, names[0], connect(names[0]));
      ConnectAllStack(next, names[1..], connect);
      AppendAssociative(p.stack, Acquired(Handle(names[0], p.serial), connect(names[0])),
                        AcquiredAll(names[1..], connect, p.serial + 1));
    }
  }

  lemma {:induction false} AcquiredAllSerials(names: seq<string>, connect: ConnectOracle, serial: nat, r: Resource)
    requires r in AcquiredAll(names, connect, serial)
    ensures serial <= r.handle.serial < serial + |names|
    decreases |names|
  {
    var h := Handle(names[0], serial);
    if r !in Acquired(h, connect(names[0])) {
      AcquiredAllSerials(names[1..], connect, serial + 1, r);
    }
  }

  /**
   * Nothing leaks on a partial failure: the i-th attempt's transport is on
   * the stack exactly when entering it succeeded, even if the session or
   * `initialize` failed afterwards; its session context exactly when that
   * was entered.
   */
  lemma {:induction false} AcquiredAllHolds(names: seq<string>, connect: ConnectOracle, serial: nat, i: nat)
    requires i < |names|
    ensures Transport(Handle(names[i], serial + i)) in AcquiredAll(names, connect, serial) <==>
            connect(names[i]) != TransportFails
    ensures ClientSessionContext(Handle(names[i], serial + i)) in AcquiredAll(names, connect, serial) <==>
            connect(names[i]) == InitializeFails || connect(names[i]) == Ready
    decreases |names|
  {
    var first := Acquired(Handle(names[0], serial), connect(names[0]));
    var rest := AcquiredAll(names[1..], connect, serial + 1);
    var t := Transport(Handle(names[i], serial + i));
    var c := ClientSessionContext(Handle(names[i], serial + i));
    if i == 0 {
      if t in rest { AcquiredAllSerials(names[1..], connect, serial + 1, t); }
      if c in rest { AcquiredAllSerials(names[1..], connect, serial + 1, c); }
    } else {
      AcquiredAllHolds(names[1..], connect, serial + 1, i - 1);
      assert t !in first && c !in first;
    }
  }

  // ---------------------------------------------------------------------
  // Tool catalogue and routing
  // ---------------------------------------------------------------------

  /** What one `list_tools` answer adds to the catalogue: nothing if it raised. */
  function Contribution(answer: Result<seq<Tool>, string>): seq<Tool> {
    if answer.Success? then answer.value else []
  }

  /** `list_all_tools` over the sessions `hs`, in order. */
  function AllTools(hs: seq<Handle>, listTools: ListOracle): seq<Tool>
    decreases |hs|
  {
    if hs == [] then []
    else AllTools(hs[..|hs| - 1], listTools) + Contribution(listTools(hs[|hs| - 1]))
  }

  /** The catalogue of two runs of sessions is the concatenation of theirs. */
  lemma {:induction false} AllToolsAppend(a: seq<Handle>, b: seq<Handle>, listTools: ListOracle)
    ensures AllTools(a + b, listTools) == AllTools(a, listTools) + AllTools(b, listTools)
    decreases |b|
  {
    if b == [] {
      assert a + b == a;
    } else {
      var last := b[|b| - 1];
      assert (a + b)[..|a + b| - 1] == a + b[..|b| - 1];
      AllToolsAppend(a, b[..|b| - 1], listTools);
    }
  }

  /**
   * Session order and each server's own order are kept: the catalogue is
   * the catalogue of the sessions before `hs[i]`, then `hs[i]`'s own list
   * (nothing if its query raised), then the rest.
   */
  lemma {:induction false} AllToolsSplit(hs: seq<Handle>, listTools: ListOracle, i: nat)
    requires i < |hs|
    ensures AllTools(hs, listTools) ==
            AllTools(hs[..i], listTools) + Contribution(listTools(hs[i])) + AllTools(hs[i + 1..], listTools)
  {
    var before, at, after := hs[..i], [hs[i]], hs[i + 1..];
    assert hs == (before + at) + after;
    AllToolsAppend(before + at, after, listTools);
    AllToolsAppend(before, at, listTools);
    AllToolsSingle(hs[i], listTools);
    var x, y, z := AllTools(before, listTools), Contribution(listTools(hs[i])), AllTools(after, listTools);
    assert AllTools(hs, listTools) == (x + y) + z;
  }

  /** One more session adds its own list (or nothing) at the end of the catalogue. */
  lemma {:induction false} AllToolsStep(hs: seq<Handle>, listTools: ListOracle, i: nat)
    requires i < |hs|
    ensures AllTools(hs[..i + 1], listTools) == AllTools(hs[..i], listTools) + Contribution(listTools(hs[i]))
  {
    assert hs[..i + 1][..i] == hs[..i];
  }

  lemma {:induction false} AllToolsSingle(h: Handle, listTools: ListOracle)
    ensures AllTools([h], listTools) == Contribution(listTools(h))
  {
    assert [h][..0] == [];
  }

  /** The catalogue's length is the sum of the answering sessions' list lengths: no de-duplication. */
  function TotalListed(hs: seq<Handle>, listTools: ListOracle): nat
    decreases |hs|
  {
    if hs == [] then 0 else |Contribution(listTools(hs[0]))| + TotalListed(hs[1..], listTools)
  }

  lemma {:induction false} AllToolsLength(hs: seq<Handle>, listTools: ListOracle)
    ensures |AllTools(hs, listTools)| == TotalListed(hs, listTools)
    decreases |hs|
  {
    if hs != [] {
      AllToolsSplit(hs, listTools, 0);
      assert hs[..0] == [];
      AllToolsLength(hs[1..], listTools);
    }
  }

  /** `any(t.name == tool_name for t in tools)` */
  predicate HasTool(tools: seq<Tool>, toolName: string) {
    exists t :: t in tools && t.name == toolName
  }

  /** A session answered its `list_tools` without the name. */
  predicate Misses(answer: Result<seq<Tool>, string>, toolName: string) {
    answer.Success? && !HasTool(answer.value, toolName)
  }

  /** Every session in `hs` answered without the name. */
  ghost predicate AllMiss(hs: seq<Handle>, listTools: ListOracle, toolName: string) {
    forall j :: 0 <= j < |hs| ==> Misses(listTools(hs[j]), toolName)
  }

  /** Outcome of the search loop of `call_tool`. */
  datatype Routing =
    | NotFound                                 // loop finished: ValueError
    | ListFailed(handle: Handle, message: string) // a `list_tools` raised
    | Owner(handle: Handle)                    // first session listing the name

  /** The search loop of `call_tool` over the sessions `hs`, in order. */
  function Route(hs: seq<Handle>, listTools: ListOracle, toolName: string): Routing
    decreases |hs|
  {
    if hs == [] then NotFound
    else match listTools(hs[0])
      case Failure(m) => ListFailed(hs[0], m)
      case Success(tools) =>
        if HasTool(tools, toolName) then Owner(hs[0]) else Route(hs[1..], listTools, toolName)
  }

  /** Sessions that answer without the name are passed over. */
  lemma {:induction false} RouteSkipsMisses(hs: seq<Handle>, listTools: ListOracle, toolName: string, i: nat)
    requires i <= |hs|
    requires AllMiss(hs[..i], listTools, toolName)
    ensures Route(hs, listTools, toolName) == Route(hs[i..], listTools, toolName)
    decreases i
  {
    if i > 0 {
      assert Misses(listTools(hs[..i][0]), toolName);
      var rest := hs[1..][..i - 1];
      assert AllMiss(rest, listTools, toolName) by {
        forall j | 0 <= j < |rest| ensures Misses(listTools(rest[j]), toolName) {
          assert rest[j] == hs[..i][j + 1];
        }
      }
      RouteSkipsMisses(hs[1..], listTools, toolName, i - 1);
      assert hs[1..][i - 1..] == hs[i..];
    }
  }

  /**
   * First match wins: the call goes to `hs[i]` when it lists the name and
   * every earlier session answered without it, whatever later sessions list.
   */
  lemma RouteFirstMatch(hs: seq<Handle>, listTools: ListOracle, toolName: string, i: nat)
    requires i < |hs|
    requires AllMiss(hs[..i], listTools, toolName)
    requires listTools(hs[i]).Success? && HasTool(listTools(hs[i]).value, toolName)
    ensures Route(hs, listTools, toolName) == Owner(hs[i])
  {
    RouteSkipsMisses(hs, listTools, toolName, i);
  }

  /**
   * A `list_tools` failure is not caught: it ends the search even if a later
   * session lists the name.
   */
  lemma RouteFailurePropagates(hs: seq<Handle>, listTools: ListOracle, toolName: string, i: nat)
    requires i < |hs|
    requires AllMiss(hs[..i], listTools, toolName)
    requires listTools(hs[i]).Failure?
    ensures Route(hs, listTools, toolName) == ListFailed(hs[i], listTools(hs[i]).error)
  {
    RouteSkipsMisses(hs, listTools, toolName, i);
  }

  /** The name is not found exactly when every session answered without it (so always in an empty pool). */
  lemma {:induction false} RouteNotFound(hs: seq<Handle>, listTools: ListOracle, toolName: string)
    ensures Route(hs, listTools, toolName) == NotFound <==> AllMiss(hs, listTools, toolName)
    decreases |hs|
  {
    if hs != [] {
      RouteNotFound(hs[1..], listTools, toolName);
      if Misses(listTools(hs[0]), toolName) && AllMiss(hs[1..], listTools, toolName) {
        forall j | 0 <= j < |hs| ensures Misses(listTools(hs[j]), toolName) {
          if j > 0 { assert hs[j] == hs[1..][j - 1]; }
        }
      }
      if AllMiss(hs, listTools, toolName) {
        assert Misses(listTools(hs[0]), toolName);
        forall j | 0 <= j < |hs| - 1 ensures Misses(listTools(hs[1..][j]), toolName) {
          assert hs[1..][j] == hs[j + 1];
        }
      }
    }
  }

  /** Only a session of the pool that lists the name can be chosen. */
  lemma {:induction false} RouteOwnerLists(hs: seq<Handle>, listTools: ListOracle, toolName: string)
    requires Route(hs, listTools, toolName).Owner?
    ensures var h := Route(hs, listTools, toolName).handle;
            h in hs && listTools(h).Success? && HasTool(listTools(h).value, toolName)
    decreases |hs|
  {
    if !HasTool(listTools(hs[0]).value, toolName) {
      RouteOwnerLists(hs[1..], listTools, toolName);
    }
  }

  /** Why `call_tool` raised. */
  datatype CallError =
    | ToolNotFound(toolName: string) // the ValueError at the end of the loop
    | Raised(message: string)        // an exception from the SDK, passed on

  /** `str(e)` of an exception that reaches the proxy. */
  function ErrorText(e: CallError): string {
    match e
    case ToolNotFound(n) => "Tool " + n + " not found on any server"
    case Raised(m) => m
  }

  /** What `call_tool` returns or raises once the search has ended. */
  function Dispatch(routing: Routing, toolName: string, arguments: Arguments, callTool: CallOracle)
    : Result<seq<ContentBlock>, CallError>
  {
    match routing
    case NotFound => Failure(ToolNotFound(toolName))
    case ListFailed(_, m) => Failure(Raised(m))
    case Owner(h) =>
      match callTool(h, toolName, arguments)
      case Success(content) => Success(content)
      case Failure(m) => Failure(Raised(m))
  }

  /** Closing a stack unwinds it: `Reversed(s)` lists `s` from its last element. */
  function Reversed(s: seq<Resource>): seq<Resource>
    decreases |s|
  {
    if s == [] then [] else [s[|s| - 1]] + Reversed(s[..|s| - 1])
  }

  /** The k-th context closed is the k-th from the top: reverse entry order, each one once. */
  lemma {:induction false} ClosingOrder(s: seq<Resource>, k: nat)
    requires k < |s|
    ensures |Reversed(s)| == |s| && Reversed(s)[k] == s[|s| - 1 - k]
    decreases |s|
  {
    ReversedLength(s);
    if k > 0 {
      ClosingOrder(s[..|s| - 1], k - 1);
    }
  }

  lemma {:induction false} ReversedLength(s: seq<Resource>)
    ensures |Reversed(s)| == |s|
    decreases |s|
  {
    if s != [] { ReversedLength(s[..|s| - 1]); }
  }

  /**
   * Two configured servers, `alpha` that starts and `beta` whose command
   * does not exist: only alpha gets a session, the catalogue is alpha's list
   * alone, and a name alpha does not list is not found.
   */
  lemma TwoServerScenario(listTools: ListOracle, toolName: string)
    requires Misses(listTools(Handle("alpha", 0)), toolName)
    ensures var q := ConnectAll(PoolState(Empty(), [], 0), ["alpha", "beta"], AlphaOnly);
            q.sessions.keys == ["alpha"] &&
            q.sessions.Values() == [Handle("alpha", 0)] &&
            q.stack == [Transport(Handle("alpha", 0)), ClientSessionContext(Handle("alpha", 0))] &&
            AllTools(q.sessions.Values(), listTools) == Contribution(listTools(Handle("alpha", 0))) &&
            Route(q.sessions.Values(), listTools, toolName) == NotFound
  {
    var h := Handle("alpha", 0);
    ScenarioPool();
    var hs := [h];
    assert hs[..0] == [] && hs[1..] == [];
  }

  /** `alpha` starts, every other server's transport fails. */
  function AlphaOnly(name: string): Stage {
    if name == "alpha" then Ready else TransportFails
  }

  /** The pool the scenario ends with. */
  lemma ScenarioPool()
    ensures var h := Handle("alpha", 0);
            var q := ConnectAll(PoolState(Empty(), [], 0), ["alpha", "beta"], AlphaOnly);
            q.sessions == OrderedMap(["alpha"], map["alpha" := h]) &&
            q.sessions.Values() == [h] &&
            q.stack == [Transport(h), ClientSessionContext(h)]
  {
    var names := ["alpha", "beta"];
    var h := Handle("alpha", 0);
    var p1 := ScenarioFirstAttempt();
    assert names[1..] == ["beta"];
    assert ConnectAll(PoolState(Empty(), [], 0), names, AlphaOnly) == ConnectAll(p1, ["beta"], AlphaOnly);
    ScenarioSecondAttempt(p1);
    assert p1.sessions.Values()[0] == h;
  }

  /** `beta`'s attempt fails before any context is entered and changes neither table nor stack. */
  lemma ScenarioSecondAttempt(p1: PoolState)
    requires p1.sessions.Valid()
    ensures ConnectAll(p1, ["beta"], AlphaOnly).sessions == p1.sessions
    ensures ConnectAll(p1, ["beta"], AlphaOnly).stack == p1.stack
  {
    assert ["beta"][1..] == [];
    assert Acquired(Handle("beta", p1.serial), TransportFails) == [];
  }

  /** After `alpha`'s attempt: one session and its two contexts. */
  lemma ScenarioFirstAttempt() returns (p1: PoolState)
    ensures p1 == Attempt(PoolState(Empty(), [], 0), "alpha", Ready)
    ensures p1.sessions == OrderedMap(["alpha"], map["alpha" := Handle("alpha", 0)])
    ensures p1.stack == [Transport(Handle("alpha", 0)), ClientSessionContext(Handle("alpha", 0))]
  {
    p1 := Attempt(PoolState(Empty(), [], 0), "alpha", Ready);
    assert p1.sessions.entries == map["alpha" := Handle("alpha", 0)];
  }

  // ---------------------------------------------------------------------
  // The manager
  // ---------------------------------------------------------------------

  /** `MCPClientManager` */
  class ClientManager {
    const configPath: string
    /** `self.sessions`: server name to its live session, in connection order. */
    var sessions: OrderedMap<string, Handle>
    /** `self._server_params`: server name to its launch parameters, in configuration order. */
    var serverParams: OrderedMap<string, ServerParams>
    /** `self.exit_stack`: the contexts entered so far, oldest first. */
    var exitStack: seq<Resource>
    /** Number of connection attempts so far; names the handles. */
    var nextSerial: nat

    /** The server table is a dictionary and the pool fits it. */
    ghost predicate Valid()
      reads this
    {
      serverParams.Valid() && Fits(State(), serverParams.entries.Keys)
    }

    /** The state `connect_to_all` acts on. */
    ghost function State(): PoolState
      reads this
    {
      PoolState(sessions, exitStack, nextSerial)
    }

    /** The live sessions in insertion order (`self.sessions.values()`). */
    function SessionHandles(): seq<Handle>
      reads this
      requires sessions.Valid()
    {
      sessions.Values()
    }

    /** `__init__`: no sessions, no server parameters, an empty exit stack. */
    constructor (configPath: string)
      ensures Valid()
      ensures this.configPath == configPath
      ensures sessions == Empty() && serverParams == Empty() && exitStack == []
    {
      this.configPath := configPath;
      sessions := Empty();
      serverParams := Empty();
      exitStack := [];
      nextSerial := 0;
    }

    /**
     * `load_config`, given the outcome of reading and parsing the file. A
     * document without `mcpServers` adds nothing; otherwise the entries are
     * stored one by one until one lacks a command.
     */
    method LoadConfig(source: Result<ConfigDocument, string>) returns (error: Option<LoadError>)
      requires Valid()
      modifies this
      ensures Valid()
      ensures sessions == old(sessions) && exitStack == old(exitStack) && nextSerial == old(nextSerial)
      ensures source.Failure? ==> error == Some(Unreadable(source.error)) && serverParams == old(serverParams)
      ensures source.Success? && source.value.mcpServers.None? ==>
                error.None? && serverParams == old(serverParams)
      ensures source.Success? ==>
                var entries := source.value.mcpServers.GetOr([]);
                Loaded(serverParams, error) == LoadEntries(old(serverParams), entries)
    {
      if source.Failure? {
        return Some(Unreadable(source.error));
      }
      var entries := source.value.mcpServers.GetOr([]);
      var i := 0;
      while i < |entries|
        invariant 0 <= i <= |entries|
        invariant Valid()
        invariant sessions == old(sessions) && exitStack == old(exitStack) && nextSerial == old(nextSerial)
        invariant LoadEntries(serverParams, entries[i..]) == LoadEntries(old(serverParams), entries)
        invariant old(serverParams).entries.Keys <= serverParams.entries.Keys
      {
        assert entries[i..][0] == entries[i] && entries[i..][1..] == entries[i + 1..];
        var entry := entries[i];
        if entry.command.None? {
          return Some(MissingCommand(entry.name));
        }
        serverParams := serverParams.Put(entry.name, ParamsOf(entry));
        i := i + 1;
      }
      return None;
    }

    /**
     * `connect_to_all`: one attempt per configured server, in configuration
     * order; a failure is contained to its own server.
     */
    method ConnectToAll(connect: ConnectOracle)
      requires Valid()
      modifies this
      ensures Valid()
      ensures serverParams == old(serverParams)
      ensures State() == ConnectAll(old(State()), serverParams.keys, connect)
    {
      var names := serverParams.keys;
      var i := 0;
      while i < |names|
        invariant 0 <= i <= |names|
        invariant Valid()
        invariant serverParams == old(serverParams)
        invariant ConnectAll(State(), names[i..], connect) == ConnectAll(old(State()), names, connect)
      {
        assert names[i..][0] == names[i] && names[i..][1..] == names[i + 1..];
        ConnectOne(names[i], connect(names[i]));
        i := i + 1;
      }
    }

    /**
     * The body of the `try` in `connect_to_all` for one server: enter the
     * transport, enter the session, initialise, record the session. Each
     * step runs only if the one before succeeded; whatever was entered stays
     * on the exit stack.
     */
    method ConnectOne(name: string, stage: Stage)
      requires Valid() && name in serverParams.entries
      modifies this
      ensures Valid()
      ensures serverParams == old(serverParams)
      ensures State() == Attempt(old(State()), name, stage)
    {
      ghost var before := State();
      var h := Handle(name, nextSerial);
      nextSerial := nextSerial + 1;
      if stage != TransportFails {
        exitStack := exitStack + [Transport(h)];
        if stage != SessionFails {
          exitStack := exitStack + [ClientSessionContext(h)];
          AppendAssociative(before.stack, [Transport(h)], [ClientSessionContext(h)]);
          if stage == Ready {
            sessions := sessions.Put(name, h);
          }
        }
      }
      assert exitStack == before.stack + Acquired(h, stage);
      AttemptFits(before, name, stage, serverParams.entries.Keys);
    }

    /**
     * `list_all_tools`: every answering session's tools, sessions in
     * insertion order; a session whose query raises adds nothing.
     */
    method ListAllTools(listTools: ListOracle) returns (allTools: seq<Tool>)
      requires Valid()
      ensures allTools == AllTools(SessionHandles(), listTools)
    {
      var hs := SessionHandles();
      allTools := [];
      var i := 0;
      while i < |sessions.keys|
        invariant 0 <= i <= |hs|
        invariant allTools == AllTools(hs[..i], listTools)
      {
        var session := sessions.entries[sessions.keys[i]];
        assert session == hs[i];
        var answer := listTools(session);
        ghost var earlier := allTools;
        if answer.Success? {
          var tools := answer.value;
          var j := 0;
          while j < |tools|
            invariant 0 <= j <= |tools|
            invariant allTools == earlier + tools[..j]
          {
            assert tools[..j + 1] == tools[..j] + [tools[j]];
            AppendAssociative(earlier, tools[..j], [tools[j]]);
            allTools := allTools + [tools[j]];
            j := j + 1;
          }
          assert tools[..j] == tools;
        }
        AllToolsStep(hs, listTools, i);
        i := i + 1;
      }
      assert hs[..i] == hs;
    }

    /**
     * `call_tool`: forwards to the first session, in insertion order, whose
     * current list has the name; raises ValueError when none has it.
     */
    method CallTool(toolName: string, arguments: Arguments, listTools: ListOracle, callTool: CallOracle)
      returns (outcome: Result<seq<ContentBlock>, CallError>)
      requires Valid()
      ensures outcome == Dispatch(Route(SessionHandles(), listTools, toolName), toolName, arguments, callTool)
    {
      var hs := SessionHandles();
      var i := 0;
      while i < |hs|
        invariant 0 <= i <= |hs|
        invariant Route(hs[i..], listTools, toolName) == Route(hs, listTools, toolName)
      {
        assert hs[i..][0] == hs[i] && hs[i..][1..] == hs[i + 1..];
        var session := hs[i];
        var toolsResult := listTools(session);
        if toolsResult.Failure? {
          return Failure(Raised(toolsResult.error));
        }
        if HasTool(toolsResult.value, toolName) {
          var result := callTool(session, toolName, arguments);
          if result.Failure? {
            return Failure(Raised(result.error));
          }
          return Success(result.value);
        }
        i := i + 1;
      }
      return Failure(ToolNotFound(toolName));
    }

    /**
     * `shutdown`: closes every context on the exit stack, most recent
     * first, and empties it; a second call closes nothing. The session table
     * is left as it is.
     */
    method Shutdown() returns (closed: seq<Resource>)
      requires Valid()
      modifies this
      ensures Valid()
      ensures closed == Reversed(old(exitStack)) && exitStack == []
      ensures sessions == old(sessions) && serverParams == old(serverParams) && nextSerial == old(nextSerial)
    {
      closed := [];
      while exitStack != []
        invariant Valid()
        invariant closed + Reversed(exitStack) == Reversed(old(exitStack))
        invariant sessions == old(sessions) && serverParams == old(serverParams) && nextSerial == old(nextSerial)
        decreases |exitStack|
      {
        var top, rest := exitStack[|exitStack| - 1], exitStack[..|exitStack| - 1];
        assert Reversed(exitStack) == [top] + Reversed(rest);
        AppendAssociative(closed, [top], Reversed(rest));
        FitsPop(State(), serverParams.entries.Keys);
        exitStack := rest;
        closed := closed + [top];
      }
    }
  }
}
