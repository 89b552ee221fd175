/** The state one chat session keeps between events: the conversation
    history and the tool registry. Each event handler updates it in place. */
module Session {
  import opened Types
  import opened ToolRegistry
  import opened ToolDispatch
  import opened Conversation

  class ChatSession {
    /** `message_history`. */
    var messageHistory: seq<Message>
    /** `mcp_tools`. */
    var mcpTools: Registry

    /** Every tool result in the history answers the tool use right before it. */
    predicate Valid()
      reads this
    {
      WellPaired(messageHistory)
    }

    /** `start`: a new chat begins with no history and no tools. */
    constructor ()
      ensures messageHistory == [] && mcpTools == []
      ensures Valid()
    {
      messageHistory := [];
      mcpTools := [];
    }

    /** `on_mcp_connect`: store the connection's tools under its name. */
    method OnMcpConnect(name: string, tools: seq<ToolDescriptor>)
      requires Valid()
      modifies this
      ensures mcpTools == Set(old(mcpTools), name, tools)
      ensures messageHistory == old(messageHistory)
      ensures Valid()
    {
      mcpTools := Set(mcpTools, name, tools);
    }

    /** `on_mcp_disconnect`: forget the connection's tools, if it has any. */
    method OnMcpDisconnect(name: string)
      requires Valid()
      modifies this
      ensures mcpTools == Delete(old(mcpTools), name)
      ensures messageHistory == old(messageHistory)
      ensures Valid()
    {
      if name in Names(mcpTools) {
        mcpTools := Delete(mcpTools, name);
      }
    }

    /** `main`: one user message. The loop extends the stored history list
        itself, so whatever it appended stays even when the turn is cut
        short; the registry is read, not changed. */
    method OnMessage(text: string, responses: seq<Response>, env: McpEnv) returns (turn: Turn)
      requires Valid()
      modifies this
      ensures turn == Converse(old(messageHistory), text, old(mcpTools), responses, env)
      ensures messageHistory == turn.history
      ensures mcpTools == old(mcpTools)
      ensures Valid()
    {
      ConversePaired(messageHistory, text, mcpTools, responses, env);
      turn := HandleMessage(messageHistory, text, mcpTools, responses, env);
      messageHistory := turn.history;
    }
  }

  /** A session that connects a server and then disconnects it, with no
      other connection, ends with the registry it started with. */
  method ConnectThenDisconnect(s: ChatSession, name: string, tools: seq<ToolDescriptor>)
    requires s.Valid() && name !in Names(s.mcpTools)
    modifies s
    ensures s.mcpTools == old(s.mcpTools)
    ensures s.messageHistory == old(s.messageHistory)
  {
    s.OnMcpConnect(name, tools);
    s.OnMcpDisconnect(name);
    ConnectDisconnectRoundTrip(old(s.mcpTools), name, tools);
  }
}
