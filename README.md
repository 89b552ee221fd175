# ChainlitMCP chat session core, in Dafny

ChainlitMCP is a chat front end. A user chats with an Anthropic model, and
the model may call tools served by MCP (Model Context Protocol) servers that
the user connects. Its own logic lives in `app.py`, and this project models
that logic:

- **The tool registry** (`module ToolRegistry`). This is the per-session
  dictionary `mcp_tools`, from connection name to the list of tool
  descriptors that connection offers. A Python dictionary keeps insertion
  order, so the registry is a sequence of entries with distinct names:
  - assigning a present key keeps its position;
  - assigning a new key appends it;
  - deleting a key closes the gap.

  `flatten_tools` is `Flatten`, the concatenation of the lists in key order.
- **Tool dispatch** (`module ToolDispatch`). `call_tool` is the method
  `CallTool`, which has the source's scan with early exit. It is proved
  equal to the function `Dispatch`. `Dispatch` picks the first connection in
  registry order whose list has a tool of the requested name, then yields
  one of four replies:
  - not-found;
  - missing-session;
  - the text of a raised exception;
  - the tool's result.

  The MCP side is an input (`McpEnv`): the session stored for a connection
  name, and what a call on it returns or raises.
- **The error payloads** (`module JsonText`). These are
  `json.dumps({"error": message})` under Python's defaults:
  - `", "` and `": "` separators;
  - ASCII-only output with `\uXXXX` escapes;
  - surrogate pairs above the Basic Multilingual Plane.

  A decoder is given beside the encoder, with the proof that it reads back
  exactly the message.
- **The tool-use loop of `main`** (`module Conversation`). The method
  `HandleMessage` follows the source's `while` loop step by step. It is
  proved equal to the function `Converse`, and the shape of a turn is proved
  about `Converse`. The model's replies are an input: the finite sequence of
  responses its successive calls return. When that sequence runs out, the
  turn ends with status `Exhausted`. That stands for a model call that never
  returns. Each call's request is recorded (`BuildRequest`).
- **The session state** (`module Session`). `message_history` and
  `mcp_tools` are the fields of the class `ChatSession`:
  - `start` is its constructor;
  - `on_mcp_connect` and `on_mcp_disconnect` are methods that update the
    registry in place;
  - `main` (as `OnMessage`) replaces the history with the one the turn
    built.

  `main` extends the stored list itself, so what a turn appended stays even
  when the turn is cut short.

`ErrorText` reproduces the f-strings of app.py:72 and app.py:80.

The source executes only the first tool-use block of a response. Each
tool-result entry therefore carries exactly one result, for the id of that
first block (`ConverseRound`). A history built this way always has each tool
result right after the assistant entry that announced its id
(`ConversePaired`).

## Model

| member | source | states |
|---|---|---|
| ToolRegistry.Names | app.py:32-34 | The key view that `Set` and `Delete` are stated in: the keys in dictionary order, one per entry. Its ensures only spell out that definition; the key order is proved about it in `Set`, `Delete` and `ReconnectMovesToEnd`. |
| ToolRegistry.Lookup | app.py:33 | The list stored under `name`, present exactly when `name` is a key, and then that key's list. This is how the registry is read by key: through `mcp_tools[connection.name] = tools` here, `if name in mcp_tools` at app.py:48 and `.items()` at app.py:66-67. It is the view that `Set` and `Delete` are specified against. |
| ToolRegistry.Set | app.py:32-34 | After `mcp_tools[name] = tools`, looking up `name` gives `tools` and every other name looks up as before. The key order is unchanged when `name` was present; otherwise `name` is appended. |
| ToolRegistry.Delete | app.py:47-50 | After deleting, `name` looks up as absent and every other name as before. The remaining keys keep their relative order. An absent name leaves the registry identical. |
| ToolRegistry.ConnectTwice | app.py:32-34 | Connecting the same name twice equals connecting it once with the second list. |
| ToolRegistry.ReconnectMovesToEnd | app.py:32-50 | A key that is deleted and then assigned again moves to the end of the key order and holds the new list. The same holds for a key assigned for the first time. |
| ToolRegistry.ConnectDisconnectRoundTrip | app.py:32-50 | Connecting a new name and then disconnecting it gives back the original registry, and so the original flattening. |
| ToolRegistry.Flatten | app.py:95-97 | `flatten_tools`. It has no ensures of its own; its properties are stated by `FlattenAt`, `FlattenConcat`, `FlattenLength` and `FlattenMembership` and the connect and disconnect lemmas below. |
| ToolRegistry.FlattenAt | app.py:95-97 | The flattening is the lists of the earlier keys, then this key's list in its own order, then the lists of the later keys. |
| ToolRegistry.FlattenConcat | app.py:95-97 | Flattening distributes over concatenating registries. |
| ToolRegistry.FlattenLength | app.py:95-97 | The flattening's length is the sum of the list lengths. There is no deduplication. |
| ToolRegistry.FlattenMembership | app.py:95-97 | A tool is in the flattening if and only if some connection's list holds it. |
| ToolRegistry.FlattenConnectNew | app.py:32-34 | Connecting a new name appends its tools after all others in the flattening. |
| ToolRegistry.FlattenConnectExisting | app.py:32-34 | Reconnecting a present name replaces its tools in place in the flattening. |
| ToolRegistry.FlattenDisconnect | app.py:47-50 | Disconnecting a present name drops exactly its tools from the flattening. |
| ToolRegistry.FlattenTwoProviders | app.py:95-97 | Connecting "A" with [t1, t2] and then "B" with [t3] flattens to [t1, t2, t3]. |
| ToolRegistry.ConnectThenDisconnectEmpty | app.py:32-50 | Connecting "A" to an empty registry and then disconnecting it leaves nothing to advertise. |
| ToolDispatch.FirstProvider | app.py:64-69 | The chosen position provides the tool, and no earlier one does. No position at all means no connection provides it. |
| ToolDispatch.Dispatch | app.py:62-92 | The outcome of `call_tool`. It has no ensures of its own; `CallTool` is proved equal to it, and `DispatchOnlyProvided`, `UnknownToolNotFound`, `DispatchUsesFirstProvider`, `MissingSessionReported` and `EmptyConnectionNameNotFound` state its cases. |
| ToolDispatch.ErrorText | app.py:72-90 | The message of each error reply: the f-strings of app.py:72 and app.py:80, and `str(e)`. It has no ensures; `UnknownToolNotFound` and `MissingSessionReported` state the texts. |
| ToolDispatch.Render | app.py:72-92 | What `call_tool` hands back, as `str(tool_result)` at app.py:178 sees it: the result's text on success, `json.dumps({"error": ...})` otherwise. It has no ensures; `RenderReadsBack` states that every error payload reads back as its message. |
| ToolDispatch.CallTool | app.py:54-92 | The scan and its three checks return exactly `Dispatch`: not-found, then missing-session, then the call's result or its caught exception. |
| ToolDispatch.DispatchOnlyProvided | app.py:66-74 | A tool that no connection provides is answered with not-found for that name. Any other reply implies some connection provides the tool. |
| ToolDispatch.ResolvableIffAdvertised | app.py:66-69 | A tool name resolves to a connection exactly when a tool of that name is among the flattened tools sent to the model. |
| ToolDispatch.UnknownToolNotFound | app.py:71-74 | A name absent from the advertised tools yields `{"error": "Tool <name> not found in any MCP connection"}`. |
| ToolDispatch.EarlierProviderWins | app.py:66-69 | When two connections that both provide a tool are connected in turn, the one connected first serves it, whatever the later one offers. |
| ToolDispatch.FirstProviderIs | app.py:66-69 | A position that provides the tool, with no earlier position providing it, is the one chosen. |
| ToolDispatch.ConnectKeepsResolution | app.py:32-34 | Connecting a new name never takes a tool away from the connection that already resolved it. |
| ToolDispatch.DispatchUsesFirstProvider | app.py:77-92 | The first provider's session is called. A returned result is the reply. A raised exception gives the reply `Failed` with the exception's text, and its payload is exactly `ErrorObject` of that text, which reads back as the text. |
| ToolDispatch.MissingSessionReported | app.py:77-82 | A providing connection with no session yields the payload `MCP <name> session not found`, which reads back as that text. |
| ToolDispatch.EmptyConnectionNameNotFound | app.py:71-74 | `if not mcp_name` also rejects a provider whose connection name is empty, so the reply is not-found. |
| ToolDispatch.RenderReadsBack | app.py:72-90 | The JSON text of every error reply reads back as that reply's message. |
| JsonText.ErrorObject | app.py:72-90 | The error payload is printable ASCII only. |
| JsonText.UnescapeEscape | app.py:90 | Decoding the escaped text of any string gives back the string. |
| JsonText.ErrorObjectRoundTrip | app.py:90 | Parsing `{"error": ...}` gives back exactly the message that was encoded. |
| JsonText.ErrorObjectInjective | app.py:90 | Different messages give different payloads. |
| JsonText.Hex4RoundTrip | app.py:90 | The four-digit hex escape of a code unit parses back to that code unit. |
| Conversation.BuildRequest | app.py:104-113 | Every request names the model `claude-sonnet-4-20250514`, allows 4096 output tokens and carries the whole history. It carries the tool list exactly when that list is non-empty. |
| Conversation.FirstToolUseAt | app.py:158-161 | The position found holds a tool-use block and no earlier one does. No position means there is no tool-use block. |
| Conversation.FirstTextAt | app.py:188-191 | The position found holds a text block and no earlier one does. No position means there is no text block. |
| Conversation.FinalEntries | app.py:187-198 | The last response adds at most one entry. It adds exactly one when it has a text block whose first text is non-empty, and that entry is an assistant entry with that text. |
| Conversation.Run | app.py:153-198 | The loop from one model call on. It has no ensures; `RunRounds`, `RunHistory`, `RunRequests` and `RunPaired` state its properties. |
| Conversation.Converse | app.py:140-198 | The whole turn of `main`. It has no ensures; `ConverseRounds`, `ConverseHistory`, `ConverseRound`, `ConverseRequests` and `ConversePaired` state its properties, and `HandleMessage` is proved equal to it. |
| Conversation.HandleMessage | app.py:137-201 | The loop as written produces the turn `Converse` describes: its history, every request sent, the number of tool rounds, and how it ended. |
| Conversation.RunRounds | app.py:156-185 | Every consumed response before the last was a tool round. The last is not, unless the responses ran out. |
| Conversation.RunHistory | app.py:156-198 | The history grows by two entries per tool round, then by what the last response adds. |
| Conversation.RunRequests | app.py:153-185 | The request for round j carries the history built before round j. Earlier requests are kept. |
| Conversation.RoundsAt | app.py:170-182 | Tool round j contributes the assistant entry with the raw content, then the user entry with the tool's result, at positions 2j and 2j + 1. |
| Conversation.ConverseRounds | app.py:156-164 | A turn stops at the first response that is not a tool round, which includes a "tool_use" response with no tool-use block. Otherwise it stops when the responses run out. |
| Conversation.ConverseHistory | app.py:140-198 | A turn's history is the old history unchanged as a prefix, then the user's message, then two entries per tool round, then at most one final entry. |
| Conversation.ConverseRound | app.py:158-182 | Round j appends the response's content as an assistant entry. It then appends one tool result with the id of the response's first tool-use block and the dispatch of that block. |
| Conversation.ConverseRequests | app.py:150-185 | One request per model call. Request j carries exactly the history prefix built by then and the tool list flattened at the start of the turn. |
| Conversation.RunPaired | app.py:170-198 | The loop keeps each tool result right after an assistant entry that announces its id. |
| Conversation.ConversePaired | app.py:140-198 | A turn keeps a paired history paired, however it ends: each tool result stands right after the assistant entry that announced its id. |
| Conversation.StopWithoutToolUse | app.py:156-164 | A first response with stop reason "tool_use" but no tool-use block ends the turn with one request and no tool round. |
| Conversation.OneRoundTurn | app.py:143-198 | One tool round followed by an answer appends the user's message, the round's two entries and the answer's entry, and ends answered after one round. |
| Conversation.WeatherTurn | app.py:137-201 | A weather question answered through one `get_weather` call leaves exactly four entries. The third is the tool result "sunny, 22C" under the tool use's id. |
| Conversation.WeatherTool | app.py:32-88 | Connecting the weather server to an empty registry gives one entry, and dispatching its tool returns the call's result. |
| Session.ChatSession.constructor | app.py:127-130 | `start` sets the history and the registry to empty, and the session invariant holds. |
| Session.ChatSession.OnMcpConnect | app.py:32-34 | The registry becomes `Set` of the old one. The history is unchanged. |
| Session.ChatSession.OnMcpDisconnect | app.py:47-50 | The registry becomes `Delete` of the old one, and it is left untouched when the name is absent. The history is unchanged. |
| Session.ChatSession.OnMessage | app.py:137-201 | The stored history becomes the turn's history, even when the turn is cut short. The registry is unchanged, and the pairing invariant is kept. |
| Session.ConnectThenDisconnect | app.py:32-50 | On a live session, connecting and then disconnecting a new name restores the registry and leaves the history alone. |

## Left out

- The model call (`call_claude`). Its streaming, the token-by-token display and the Anthropic client are left out, because they are an external SDK. The responses are an input sequence, and only the request each call would send is recorded.
- The conversion of `session.list_tools()` into descriptors (app.py:22-29), because it is an MCP call. Descriptors are given as name, description and schema text, and only the name is interpreted.
- The Chainlit messages: the connect notice (app.py:37-40), the greeting (app.py:131-133) and `current_step.name`/`output`. They are display only and change no state the model keeps.
- The `.get(..., {})` and `.get(..., [])` defaults of `cl.user_session` (app.py:32, 47, 63, 140, 149). A session is modelled from `start` on, so both keys are always present.
- The `TypeError` raised when `mcp_sessions.get(name)` returns `None` (app.py:77). `McpEnv.sessionOf` returning `None` models only a falsy first element of the stored pair, and the missing-key case is not modelled.
- Concurrency between event handlers. A connect or disconnect during a turn is not modelled: one registry serves the whole turn, both for the tool list sent to the model and for dispatch.
- `Raised` stands only for subclasses of `Exception`, which `except Exception` (app.py:89) catches. A tool call that escapes `call_tool` is not represented: a `BaseException` such as `asyncio.CancelledError` when the user stops the task, or the `TypeError` at app.py:77. It would end the turn with the history as it stood before that round, because the round's two entries (app.py:170-182) are never appended.
- Exceptions from the model call. A call that raises or never returns is modelled as the response sequence running out (`Exhausted`), and what was appended before it stays.
- What `str()` makes of a successful tool result. `CallOutcome.Returned` carries that text directly.
- Lone surrogate code points in the exception text. A Dafny `char` is a Unicode scalar value, so the escaper covers every string Dafny can represent, but not Python strings holding unpaired surrogates.
- Environment loading and client construction (app.py:1-15), because they are process set-up.
