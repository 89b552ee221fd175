/** Tool dispatch: find the connection that provides a requested tool, in
    registry order, and turn what happens next into the reply the model
    sees: a not-found error, a missing-session error, an error carrying the
    text of a raised exception, or the tool's own result. */
module ToolDispatch {
  import opened Types
  import opened ToolRegistry
  import JsonText

  /** `any(tool.get("name") == tool_name for tool in tools)`. */
  predicate Provides(e: Entry, toolName: string)
  {
    exists i :: 0 <= i < |e.tools| && e.tools[i].name == toolName
  }

  /** The position of the first connection, in registry order, whose tool
      list holds a tool called `toolName`. */
  function FirstProvider(r: seq<Entry>, toolName: string): (k: Option<nat>)
    ensures k.Some? ==> k.value < |r| && Provides(r[k.value], toolName)
    ensures k.Some? ==> forall j :: 0 <= j < k.value ==> !Provides(r[j], toolName)
    ensures k.None? ==> forall j :: 0 <= j < |r| ==> !Provides(r[j], toolName)
  {
    if r == [] then None
    else if Provides(r[0], toolName) then Some(0)
    else match FirstProvider(r[1..], toolName)
      case None => None
      case Some(k) => Some(k + 1)
  }

  /** A live MCP client session, known only by its identity. */
  datatype McpSession = McpSession(id: nat)

  /** What `mcp_session.call_tool` does: it returns a result, given here as
      its `str()`, or it raises an `Exception`, given here as its `str()`. */
  datatype CallOutcome = Returned(rendered: string) | Raised(message: string)

  /** The MCP side, as inputs. `sessionOf(name)` is the first element of the
      pair stored for connection `name`, None when that element is falsy;
      `invoke(round, session, tool, input)` is what the call made in tool
      round `round` of a turn does. */
  datatype McpEnv = McpEnv(
    sessionOf: string -> Option<McpSession>,
    invoke: (nat, McpSession, string, string) -> CallOutcome)

  /** The value `call_tool` returns, before `str()`. */
  datatype ToolReply =
    | NotFound(toolName: string)
    | SessionMissing(connection: string)
    | Failed(message: string)
    | Succeeded(rendered: string)

  /** The message inside an error reply's {"error": ...} object. */
  function ErrorText(reply: ToolReply): string
    requires !reply.Succeeded?
  {
    match reply
    case NotFound(n) => "Tool " + n + " not found in any MCP connection"
    case SessionMissing(c) => "MCP " + c + " session not found"
    case Failed(e) => e
  }

  /** `str(tool_result)`: an error reply is the JSON text {"error": message},
      from which the message reads back; a successful call is its result's text. */
  function Render(reply: ToolReply): string
  {
    if reply.Succeeded? then reply.rendered else JsonText.ErrorObject(ErrorText(reply))
  }

  /** An error reply's text reads back as its message. */
  lemma RenderReadsBack(reply: ToolReply)
    requires !reply.Succeeded?
    ensures JsonText.ParseErrorObject(Render(reply)) == Some(ErrorText(reply))
  {
    JsonText.ErrorObjectRoundTrip(ErrorText(reply));
  }

  /** What `call_tool` returns for a request of tool `toolName` with
      arguments `input`, made in tool round `round`. */
  function Dispatch(r: Registry, toolName: string, input: string, round: nat, env: McpEnv): ToolReply
  {
    match FirstProvider(r, toolName)
    case None => NotFound(toolName)
    case Some(k) =>
      var mcpName := r[k].name;
      if mcpName == "" then NotFound(toolName)
      else
        match env.sessionOf(mcpName)
        case None => SessionMissing(mcpName)
        case Some(session) =>
          match env.invoke(round, session, toolName, input)
          case Returned(result) => Succeeded(result)
          case Raised(e) => Failed(e)
  }

  /** `call_tool`: the scan over the registry with its early exit, then the
      three checks in the order the source makes them. */
  method CallTool(r: Registry, toolName: string, input: string, round: nat, env: McpEnv)
    returns (reply: ToolReply)
    ensures reply == Dispatch(r, toolName, input, round, env)
  {
    var mcpName: Option<string> := None;
    ghost var at := 0;
    var i := 0;
    while i < |r|
      invariant i <= |r|
      invariant forall j :: 0 <= j < i ==> !Provides(r[j], toolName)
    {
      if Provides(r[i], toolName) {
        mcpName := Some(r[i].name);
        at := i;
        break;
      }
      i := i + 1;
    }
    assert mcpName.Some? ==> FirstProvider(r, toolName) == Some(at) && mcpName.value == r[at].name;
    if mcpName.None? || mcpName.value == "" {
      return NotFound(toolName);
    }
    var session := env.sessionOf(mcpName.value);
    if session.None? {
      return SessionMissing(mcpName.value);
    }
    var outcome := env.invoke(round, session.value, toolName, input);
    match outcome
    case Returned(result) =>
      reply := Succeeded(result);
    case Raised(e) =>
      reply := Failed(e);
  }

  // ---------------------------------------------------------------------
  // Properties

  /** Only a tool some connection provides reaches a session; any other
      name is answered with not-found. */
  lemma DispatchOnlyProvided(r: Registry, toolName: string, input: string, round: nat, env: McpEnv)
    ensures Dispatch(r, toolName, input, round, env).NotFound? ==>
            Dispatch(r, toolName, input, round, env).toolName == toolName
    ensures (forall i :: 0 <= i < |r| ==> !Provides(r[i], toolName)) ==>
            Dispatch(r, toolName, input, round, env) == NotFound(toolName)
    ensures !Dispatch(r, toolName, input, round, env).NotFound? ==>
            exists i :: 0 <= i < |r| && Provides(r[i], toolName)
  {
  }

  /** A tool can be resolved exactly when it is among the tools advertised
      to the model. */
  lemma ResolvableIffAdvertised(r: seq<Entry>, toolName: string)
    ensures FirstProvider(r, toolName).Some? <==>
            exists t :: t in Flatten(r) && t.name == toolName
  {
    if FirstProvider(r, toolName).Some? {
      var k := FirstProvider(r, toolName).value;
      var i :| 0 <= i < |r[k].tools| && r[k].tools[i].name == toolName;
      FlattenMembership(r, r[k].tools[i]);
    }
    if exists t :: t in Flatten(r) && t.name == toolName {
      var t :| t in Flatten(r) && t.name == toolName;
      FlattenMembership(r, t);
      var i :| 0 <= i < |r| && t in r[i].tools;
      var m :| 0 <= m < |r[i].tools| && r[i].tools[m] == t;
      assert Provides(r[i], toolName);
    }
  }

  /** A tool name that no connection advertises yields the not-found
      payload, and no session is consulted and no tool invoked. */
  lemma UnknownToolNotFound(r: Registry, toolName: string, input: string, round: nat, env: McpEnv)
    requires forall t :: t in Flatten(r) ==> t.name != toolName
    ensures Dispatch(r, toolName, input, round, env) == NotFound(toolName)
    ensures Render(Dispatch(r, toolName, input, round, env)) ==
            JsonText.ErrorObject("Tool " + toolName + " not found in any MCP connection")
  {
    ResolvableIffAdvertised(r, toolName);
  }

  /** Two connections connected in turn that both provide a tool: the one
      connected first serves it, whatever the later one offers. */
  lemma EarlierProviderWins(r: Registry, first: string, a: seq<ToolDescriptor>, second: string,
                            b: seq<ToolDescriptor>, toolName: string)
    requires first !in Names(r) && second !in Names(r) && first != second
    requires forall i :: 0 <= i < |r| ==> !Provides(r[i], toolName)
    requires exists t :: t in a && t.name == toolName
    ensures var r' := Set(Set(r, first, a), second, b);
      FirstProvider(r', toolName) == Some(|r|) && r'[|r|].name == first
  {
    var r1 := Set(r, first, a);
    assert r1 == r + [Entry(first, a)];
    assert second !in Names(r1);
    var r' := Set(r1, second, b);
    assert r' == r1 + [Entry(second, b)];
    var t :| t in a && t.name == toolName;
    var m :| 0 <= m < |a| && a[m] == t;
    assert r'[|r|] == Entry(first, a);
    assert Provides(r'[|r|], toolName);
    forall j | 0 <= j < |r| ensures !Provides(r'[j], toolName) {
      assert r'[j] == r[j];
    }
    FirstProviderIs(r', toolName, |r|);
  }

  /** The first providing position is determined by the two facts that
      characterise it. */
  lemma FirstProviderIs(r: seq<Entry>, toolName: string, k: nat)
    requires k < |r| && Provides(r[k], toolName)
    requires forall j :: 0 <= j < k ==> !Provides(r[j], toolName)
    ensures FirstProvider(r, toolName) == Some(k)
  {
  }

  /** A connection added later does not take a tool away from the
      connection that already provides it. */
  lemma ConnectKeepsResolution(r: Registry, name: string, tools: seq<ToolDescriptor>, toolName: string)
    requires name !in Names(r)
    requires FirstProvider(r, toolName).Some?
    ensures FirstProvider(Set(r, name, tools), toolName) == FirstProvider(r, toolName)
  {
    var r' := Set(r, name, tools);
    assert r' == r + [Entry(name, tools)];
    var k := FirstProvider(r, toolName).value;
    assert r'[k] == r[k];
    forall j | 0 <= j < k ensures !Provides(r'[j], toolName) {
      assert r'[j] == r[j];
    }
    FirstProviderIs(r', toolName, k);
  }

  /** The session used is the one of the first providing connection, and
      whatever that call does becomes the reply: a raised `Exception` is
      caught and its text comes back inside {"error": ...}. */
  lemma DispatchUsesFirstProvider(r: Registry, toolName: string, input: string, round: nat, env: McpEnv,
                                  k: nat, session: McpSession)
    requires k < |r| && Provides(r[k], toolName)
    requires forall j :: 0 <= j < k ==> !Provides(r[j], toolName)
    requires r[k].name != ""
    requires env.sessionOf(r[k].name) == Some(session)
    ensures env.invoke(round, session, toolName, input).Returned? ==>
            Dispatch(r, toolName, input, round, env) == Succeeded(env.invoke(round, session, toolName, input).rendered)
    ensures env.invoke(round, session, toolName, input).Raised? ==>
            && Dispatch(r, toolName, input, round, env) == Failed(env.invoke(round, session, toolName, input).message)
            && Render(Dispatch(r, toolName, input, round, env))
               == JsonText.ErrorObject(env.invoke(round, session, toolName, input).message)
    ensures env.invoke(round, session, toolName, input).Raised? ==>
            JsonText.ParseErrorObject(Render(Dispatch(r, toolName, input, round, env))) ==
            Some(env.invoke(round, session, toolName, input).message)
  {
    assert FirstProvider(r, toolName) == Some(k);
    if env.invoke(round, session, toolName, input).Raised? {
      RenderReadsBack(Dispatch(r, toolName, input, round, env));
    }
  }

  /** A providing connection whose session is gone yields the
      missing-session payload naming that connection. */
  lemma MissingSessionReported(r: Registry, toolName: string, input: string, round: nat, env: McpEnv, k: nat)
    requires k < |r| && Provides(r[k], toolName)
    requires forall j :: 0 <= j < k ==> !Provides(r[j], toolName)
    requires r[k].name != "" && env.sessionOf(r[k].name).None?
    ensures Dispatch(r, toolName, input, round, env) == SessionMissing(r[k].name)
    ensures JsonText.ParseErrorObject(Render(Dispatch(r, toolName, input, round, env))) ==
            Some("MCP " + r[k].name + " session not found")
  {
    assert FirstProvider(r, toolName) == Some(k);
    RenderReadsBack(Dispatch(r, toolName, input, round, env));
  }

  /** `if not mcp_name` also rejects a connection whose name is the empty
      string: its tools are advertised but never reached. */
  lemma EmptyConnectionNameNotFound(r: Registry, toolName: string, input: string, round: nat, env: McpEnv, k: nat)
    requires k < |r| && Provides(r[k], toolName)
    requires forall j :: 0 <= j < k ==> !Provides(r[j], toolName)
    requires r[k].name == ""
    ensures Dispatch(r, toolName, input, round, env) == NotFound(toolName)
  {
    assert FirstProvider(r, toolName) == Some(k);
  }
}
