/** The tool-use loop of one user turn: append the user's message, ask the
    model, and while it stops to use a tool run the first tool it asks for,
    append its reply and the tool's result, and ask again; then append the
    first text of the last reply when it is not empty. The model's replies
    are an input: the sequence of responses its successive calls return. */
module Conversation {
  import opened Types
  import opened ToolRegistry
  import opened ToolDispatch

  const ModelName: string := "claude-sonnet-4-20250514"
  const MaxTokens: nat := 4096
  const ToolUseStop: string := "tool_use"

  /** The parameters of one call to the model. */
  datatype Request = Request(model: string, maxTokens: nat, messages: seq<Message>, tools: Option<seq<ToolDescriptor>>)

  /** The request a call sends: the fixed model and output bound, the whole
      history, and the tool list only when there is at least one tool. */
  function BuildRequest(messages: seq<Message>, tools: seq<ToolDescriptor>): (q: Request)
    ensures q.model == ModelName && q.maxTokens == MaxTokens && q.messages == messages
    ensures q.tools.Some? <==> |tools| > 0
    ensures q.tools.Some? ==> q.tools.value == tools
  {
    Request(ModelName, MaxTokens, messages, if tools != [] then Some(tools) else None)
  }

  /** The position of the first tool-use block. */
  function FirstToolUseAt(blocks: seq<ContentBlock>): (k: Option<nat>)
    ensures k.Some? ==> k.value < |blocks| && blocks[k.value].ToolUse?
    ensures k.Some? ==> forall j :: 0 <= j < k.value ==> !blocks[j].ToolUse?
    ensures k.None? ==> forall j :: 0 <= j < |blocks| ==> !blocks[j].ToolUse?
  {
    if blocks == [] then None
    else if blocks[0].ToolUse? then Some(0)
    else match FirstToolUseAt(blocks[1..])
      case None => None
      case Some(k) => Some(k + 1)
  }

  /** The position of the first block that has a text. */
  function FirstTextAt(blocks: seq<ContentBlock>): (k: Option<nat>)
    ensures k.Some? ==> k.value < |blocks| && blocks[k.value].Text?
    ensures k.Some? ==> forall j :: 0 <= j < k.value ==> !blocks[j].Text?
    ensures k.None? ==> forall j :: 0 <= j < |blocks| ==> !blocks[j].Text?
  {
    if blocks == [] then None
    else if blocks[0].Text? then Some(0)
    else match FirstTextAt(blocks[1..])
      case None => None
      case Some(k) => Some(k + 1)
  }

  /** A response that keeps the loop going: it stopped for tool use and
      does hold a tool-use block. */
  predicate IsToolRound(resp: Response)
  {
    resp.stopReason == ToolUseStop && FirstToolUseAt(resp.content).Some?
  }

  /** The tool-use block a tool round executes: the first one. */
  function RequestedTool(resp: Response): (tu: ContentBlock)
    requires IsToolRound(resp)
    ensures tu.ToolUse? && tu in resp.content
  {
    resp.content[FirstToolUseAt(resp.content).value]
  }

  function UserEntry(text: string): Message
  {
    Message(User, PlainText(text))
  }

  /** What running a tool yields for the history: `str()` of what
      `call_tool` returns for it, given the round, the tool name and the
      arguments. */
  type Executor = (nat, string, string) -> string

  /** The executor of a session: dispatch through its registry and MCP side. */
  function SessionExecutor(r: Registry, env: McpEnv): Executor
  {
    (round: nat, name: string, input: string) => Render(Dispatch(r, name, input, round, env))
  }

  /** The user entry that carries the result of the tool run in round `round`. */
  function ToolResultEntry(resp: Response, exec: Executor, round: nat): Message
    requires IsToolRound(resp)
  {
    var tu := RequestedTool(resp);
    Message(User, ToolResults([ToolResultBlock(tu.id, exec(round, tu.name, tu.input))]))
  }

  /** The two entries a tool round appends: the response's raw content as
      an assistant entry, then the tool's result as a user entry. */
  function RoundEntries(resp: Response, exec: Executor, round: nat): seq<Message>
    requires IsToolRound(resp)
  {
    [Message(Assistant, Blocks(resp.content)), ToolResultEntry(resp, exec, round)]
  }

  /** What the last response adds: its first text as an assistant entry,
      unless there is no text block or that first text is empty. */
  function FinalEntries(resp: Response): (e: seq<Message>)
    ensures |e| <= 1
    ensures |e| == 1 <==> FirstTextAt(resp.content).Some? && resp.content[FirstTextAt(resp.content).value].text != ""
    ensures |e| == 1 ==> e[0] == Message(Assistant, PlainText(resp.content[FirstTextAt(resp.content).value].text))
  {
    match FirstTextAt(resp.content)
    case None => []
    case Some(k) =>
      var text := resp.content[k].text;
      if text != "" then [Message(Assistant, PlainText(text))] else []
  }

  /** How a turn ended: the model gave a response that is not a tool round,
      or no further response was available (the call never returned). */
  datatype Status = Answered | Exhausted

  /** The outcome of one turn: the new history, every request sent, the
      number of tool rounds, and how the turn ended. */
  datatype Turn = Turn(history: seq<Message>, requests: seq<Request>, rounds: nat, status: Status)

  /** The loop from the call that receives `responses[k]` on, with `history`
      and the earlier `requests` as they stand before that call. */
  function Run(history: seq<Message>, requests: seq<Request>, tools: seq<ToolDescriptor>, exec: Executor,
               responses: seq<Response>, k: nat): Turn
    requires k <= |responses|
    decreases |responses| - k
  {
    var sent := requests + [BuildRequest(history, tools)];
    if k == |responses| then Turn(history, sent, k, Exhausted)
    else if IsToolRound(responses[k]) then
      Run(history + RoundEntries(responses[k], exec, k), sent, tools, exec, responses, k + 1)
    else Turn(history + FinalEntries(responses[k]), sent, k, Answered)
  }

  /** The whole turn for a user message `text`: the tools advertised are
      the flattened registry, and tools run through the registry. */
  function Converse(history: seq<Message>, text: string, r: Registry, responses: seq<Response>, env: McpEnv): Turn
  {
    Run(history + [UserEntry(text)], [], Flatten(r), SessionExecutor(r, env), responses, 0)
  }

  /** `main`: the loop as the source writes it, over a local history that
      starts as the stored one. */
  method HandleMessage(history: seq<Message>, text: string, r: Registry, responses: seq<Response>, env: McpEnv)
    returns (turn: Turn)
    ensures turn == Converse(history, text, r, responses, env)
  {
    var messageHistory := history + [UserEntry(text)];
    var tools := Flatten(r);
    ghost var exec := SessionExecutor(r, env);
    ghost var done: seq<Request> := [];
    var requests := [BuildRequest(messageHistory, tools)];
    var k := 0;
    if k == |responses| {
      RunExhausted(messageHistory, done, tools, exec, responses, k);
      return Turn(messageHistory, requests, k, Exhausted);
    }
    var response := responses[k];
    while response.stopReason == ToolUseStop
      invariant k < |responses| && response == responses[k]
      invariant requests == done + [BuildRequest(messageHistory, tools)]
      invariant Run(messageHistory, done, tools, exec, responses, k) == Converse(history, text, r, responses, env)
      decreases |responses| - k
    {
      var at := FirstToolUseAt(response.content);
      if at.None? {
        break;
      }
      var toolUse := response.content[at.value];
      var reply := CallTool(r, toolUse.name, toolUse.input, k, env);
      SessionResultEntry(r, env, response, k);
      RunToolRound(messageHistory, done, tools, exec, responses, k);
      messageHistory := messageHistory + [
        Message(Assistant, Blocks(response.content)),
        Message(User, ToolResults([ToolResultBlock(toolUse.id, Render(reply))]))
      ];
      k := k + 1;
      done := requests;
      requests := requests + [BuildRequest(messageHistory, tools)];
      if k == |responses| {
        RunExhausted(messageHistory, done, tools, exec, responses, k);
        return Turn(messageHistory, requests, k, Exhausted);
      }
      response := responses[k];
    }
    RunAnswered(messageHistory, done, tools, exec, responses, k);
    var finalAt := FirstTextAt(response.content);
    if finalAt.Some? && response.content[finalAt.value].text != "" {
      messageHistory := messageHistory + [Message(Assistant, PlainText(response.content[finalAt.value].text))];
    }
    turn := Turn(messageHistory, requests, k, Answered);
  }

  lemma RunExhausted(h: seq<Message>, reqs: seq<Request>, tools: seq<ToolDescriptor>, exec: Executor,
                     responses: seq<Response>, k: nat)
    requires k == |responses|
    ensures Run(h, reqs, tools, exec, responses, k) == Turn(h, reqs + [BuildRequest(h, tools)], k, Exhausted)
  {
  }

  lemma RunToolRound(h: seq<Message>, reqs: seq<Request>, tools: seq<ToolDescriptor>, exec: Executor,
                     responses: seq<Response>, k: nat)
    requires k < |responses| && IsToolRound(responses[k])
    ensures Run(h, reqs, tools, exec, responses, k)
            == Run(h + RoundEntries(responses[k], exec, k), reqs + [BuildRequest(h, tools)], tools, exec, responses, k + 1)
  {
  }

  lemma RunAnswered(h: seq<Message>, reqs: seq<Request>, tools: seq<ToolDescriptor>, exec: Executor,
                    responses: seq<Response>, k: nat)
    requires k < |responses| && !IsToolRound(responses[k])
    ensures Run(h, reqs, tools, exec, responses, k)
            == Turn(h + FinalEntries(responses[k]), reqs + [BuildRequest(h, tools)], k, Answered)
  {
  }

  // ---------------------------------------------------------------------
  // The shape of a turn

  /** The entries appended by tool rounds `k` up to, not including, `m`. */
  function Rounds(responses: seq<Response>, exec: Executor, k: nat, m: nat): seq<Message>
    requires k <= m <= |responses|
    requires forall j :: k <= j < m ==> IsToolRound(responses[j])
    decreases m - k
  {
    if k == m then [] else RoundEntries(responses[k], exec, k) + Rounds(responses, exec, k + 1, m)
  }

  /** What the last response of a turn adds: nothing when the responses ran out. */
  function Tail(responses: seq<Response>, t: Turn): seq<Message>
    requires t.status == Answered ==> t.rounds < |responses|
  {
    if t.status == Answered then FinalEntries(responses[t.rounds]) else []
  }

  /** Every consumed response but the last was a tool round; the last one
      is not, unless the responses ran out. */
  lemma {:induction false} RunRounds(h: seq<Message>, reqs: seq<Request>, tools: seq<ToolDescriptor>, exec: Executor,
                                     responses: seq<Response>, k: nat)
    requires k <= |responses|
    decreases |responses| - k
    ensures var t := Run(h, reqs, tools, exec, responses, k);
      && k <= t.rounds <= |responses|
      && (forall j :: k <= j < t.rounds ==> IsToolRound(responses[j]))
      && (t.status == Answered ==> t.rounds < |responses| && !IsToolRound(responses[t.rounds]))
      && (t.status == Exhausted ==> t.rounds == |responses|)
  {
    if k < |responses| && IsToolRound(responses[k]) {
      RunRounds(h + RoundEntries(responses[k], exec, k), reqs + [BuildRequest(h, tools)], tools, exec, responses, k + 1);
    }
  }

  /** The history grows by the rounds' entries and then by the last
      response's. */
  lemma {:induction false} RunHistory(h: seq<Message>, reqs: seq<Request>, tools: seq<ToolDescriptor>, exec: Executor,
                                      responses: seq<Response>, k: nat)
    requires k <= |responses|
    decreases |responses| - k
    ensures var t := Run(h, reqs, tools, exec, responses, k);
      && k <= t.rounds <= |responses|
      && (forall j :: k <= j < t.rounds ==> IsToolRound(responses[j]))
      && (t.status == Answered ==> t.rounds < |responses|)
      && t.history == h + Rounds(responses, exec, k, t.rounds) + Tail(responses, t)
  {
    RunRounds(h, reqs, tools, exec, responses, k);
    if k < |responses| && IsToolRound(responses[k]) {
      var e := RoundEntries(responses[k], exec, k);
      var sent := reqs + [BuildRequest(h, tools)];
      RunHistory(h + e, sent, tools, exec, responses, k + 1);
      var t := Run(h + e, sent, tools, exec, responses, k + 1);
      var rest := Rounds(responses, exec, k + 1, t.rounds);
      assert Rounds(responses, exec, k, t.rounds) == e + rest;
      assert h + e + rest == h + (e + rest);
    }
  }

  /** Before round `j` the history holds exactly the entries of the rounds
      before it. */
  lemma {:induction false} RoundsSplit(responses: seq<Response>, exec: Executor, k: nat, j: nat, m: nat)
    requires k <= j <= m <= |responses|
    requires forall i :: k <= i < m ==> IsToolRound(responses[i])
    decreases j - k
    ensures Rounds(responses, exec, k, m) == Rounds(responses, exec, k, j) + Rounds(responses, exec, j, m)
  {
    if k < j {
      RoundsSplit(responses, exec, k + 1, j, m);
    }
  }

  /** Each tool round contributes two entries, in order. */
  lemma {:induction false} RoundsAt(responses: seq<Response>, exec: Executor, k: nat, m: nat, j: nat)
    requires k <= j < m <= |responses|
    requires forall i :: k <= i < m ==> IsToolRound(responses[i])
    decreases j - k
    ensures |Rounds(responses, exec, k, m)| == 2 * (m - k)
    ensures Rounds(responses, exec, k, m)[2 * (j - k)] == Message(Assistant, Blocks(responses[j].content))
    ensures Rounds(responses, exec, k, m)[2 * (j - k) + 1] == ToolResultEntry(responses[j], exec, j)
  {
    RoundsLength(responses, exec, k, m);
    if k < j {
      RoundsAt(responses, exec, k + 1, m, j);
    }
  }

  lemma {:induction false} RoundsLength(responses: seq<Response>, exec: Executor, k: nat, m: nat)
    requires k <= m <= |responses|
    requires forall i :: k <= i < m ==> IsToolRound(responses[i])
    decreases m - k
    ensures |Rounds(responses, exec, k, m)| == 2 * (m - k)
  {
    if k < m {
      RoundsLength(responses, exec, k + 1, m);
    }
  }

  /** The request for the response of round `j` carries the history as it
      stood after the rounds before `j`, and the same flattened tool list. */
  lemma {:induction false} RunRequests(h: seq<Message>, reqs: seq<Request>, tools: seq<ToolDescriptor>, exec: Executor,
                                       responses: seq<Response>, k: nat)
    requires k <= |responses|
    decreases |responses| - k
    ensures var t := Run(h, reqs, tools, exec, responses, k);
      && k <= t.rounds <= |responses|
      && (forall j :: k <= j < t.rounds ==> IsToolRound(responses[j]))
      && |t.requests| == |reqs| + (t.rounds - k) + 1
      && (forall i :: 0 <= i < |reqs| ==> t.requests[i] == reqs[i])
      && (forall j :: k <= j <= t.rounds ==>
            t.requests[|reqs| + (j - k)] == BuildRequest(h + Rounds(responses, exec, k, j), tools))
  {
    RunRounds(h, reqs, tools, exec, responses, k);
    var sent := reqs + [BuildRequest(h, tools)];
    if k < |responses| && IsToolRound(responses[k]) {
      var e := RoundEntries(responses[k], exec, k);
      RunRequests(h + e, sent, tools, exec, responses, k + 1);
      var t := Run(h + e, sent, tools, exec, responses, k + 1);
      forall j | k <= j <= t.rounds
        ensures t.requests[|reqs| + (j - k)] == BuildRequest(h + Rounds(responses, exec, k, j), tools)
      {
        RequestStep(h, e, |reqs|, t.requests, tools, responses, exec, k, j);
      }
    } else {
      assert h + Rounds(responses, exec, k, k) == h;
    }
  }

  lemma RequestStep(h: seq<Message>, e: seq<Message>, n: nat, requests: seq<Request>,
                    tools: seq<ToolDescriptor>, responses: seq<Response>, exec: Executor, k: nat, j: nat)
    requires k <= j <= |responses| && n + (j - k) < |requests|
    requires forall i :: k <= i < j ==> IsToolRound(responses[i])
    requires k < j ==> e == RoundEntries(responses[k], exec, k)
    requires j == k ==> requests[n] == BuildRequest(h, tools)
    requires k < j ==> requests[n + 1 + (j - (k + 1))] == BuildRequest(h + e + Rounds(responses, exec, k + 1, j), tools)
    ensures requests[n + (j - k)] == BuildRequest(h + Rounds(responses, exec, k, j), tools)
  {
    if j == k {
      assert h + Rounds(responses, exec, k, k) == h;
    } else {
      var rest := Rounds(responses, exec, k + 1, j);
      assert Rounds(responses, exec, k, j) == e + rest;
      assert h + e + rest == h + (e + rest);
    }
  }

  // ---------------------------------------------------------------------
  // What a turn leaves behind

  /** A turn stops at the first response that is not a tool round, or when
      no response is left; every response before that was a tool round. */
  lemma ConverseRounds(past: seq<Message>, text: string, r: Registry, responses: seq<Response>, env: McpEnv)
    ensures var t := Converse(past, text, r, responses, env);
      && t.rounds <= |responses|
      && (forall j :: 0 <= j < t.rounds ==> IsToolRound(responses[j]))
      && (t.status == Answered ==> t.rounds < |responses| && !IsToolRound(responses[t.rounds]))
      && (t.status == Exhausted ==> t.rounds == |responses|)
  {
    RunRounds(past + [UserEntry(text)], [], Flatten(r), SessionExecutor(r, env), responses, 0);
  }

  /** A turn's history: the stored history, the user's message, two entries
      per tool round, then what the last response adds. */
  lemma ConverseHistory(past: seq<Message>, text: string, r: Registry, responses: seq<Response>, env: McpEnv)
    ensures var t := Converse(past, text, r, responses, env);
      && (t.status == Answered ==> t.rounds < |responses|)
      && |t.history| == |past| + 1 + 2 * t.rounds + |Tail(responses, t)|
      && t.history[..|past|] == past
      && t.history[|past|] == UserEntry(text)
      && t.history[|past| + 1 + 2 * t.rounds..] == Tail(responses, t)
  {
    var h := past + [UserEntry(text)];
    var exec := SessionExecutor(r, env);
    RunHistory(h, [], Flatten(r), exec, responses, 0);
    var t := Run(h, [], Flatten(r), exec, responses, 0);
    var mid := Rounds(responses, exec, 0, t.rounds);
    var tail := Tail(responses, t);
    RoundsLength(responses, exec, 0, t.rounds);
    HistoryParts(past, UserEntry(text), mid, tail, t.history);
  }

  lemma HistoryParts(past: seq<Message>, user: Message, mid: seq<Message>, tail: seq<Message>, history: seq<Message>)
    requires history == past + [user] + mid + tail
    ensures |history| == |past| + 1 + |mid| + |tail|
    ensures history[..|past|] == past
    ensures history[|past|] == user
    ensures history[|past| + 1 + |mid|..] == tail
  {
    assert history == past + ([user] + mid + tail);
    assert history == (past + [user] + mid) + tail;
  }

  /** Tool round `j` appends the response's content, then the result of
      dispatching its first tool-use block, under that block's id. */
  lemma ConverseRound(past: seq<Message>, text: string, r: Registry, responses: seq<Response>, env: McpEnv, j: nat)
    requires j < |responses| && j < Converse(past, text, r, responses, env).rounds
    ensures IsToolRound(responses[j])
    ensures var t := Converse(past, text, r, responses, env);
      var tu := responses[j].content[FirstToolUseAt(responses[j].content).value];
      && |past| + 2 + 2 * j < |t.history|
      && t.history[|past| + 1 + 2 * j] == Message(Assistant, Blocks(responses[j].content))
      && t.history[|past| + 2 + 2 * j]
         == Message(User, ToolResults([ToolResultBlock(tu.id, Render(Dispatch(r, tu.name, tu.input, j, env)))]))
  {
    var exec := SessionExecutor(r, env);
    RunRoundAt(past + [UserEntry(text)], Flatten(r), exec, responses, j);
    SessionResultEntry(r, env, responses[j], j);
  }

  lemma SessionResultEntry(r: Registry, env: McpEnv, resp: Response, round: nat)
    requires IsToolRound(resp)
    ensures var tu := resp.content[FirstToolUseAt(resp.content).value];
      ToolResultEntry(resp, SessionExecutor(r, env), round)
      == Message(User, ToolResults([ToolResultBlock(tu.id, Render(Dispatch(r, tu.name, tu.input, round, env)))]))
  {
  }

  lemma RunRoundAt(h: seq<Message>, tools: seq<ToolDescriptor>, exec: Executor, responses: seq<Response>, j: nat)
    requires j < |responses| && j < Run(h, [], tools, exec, responses, 0).rounds
    ensures IsToolRound(responses[j])
    ensures var t := Run(h, [], tools, exec, responses, 0);
      && |h| + 2 * j + 1 < |t.history|
      && t.history[|h| + 2 * j] == Message(Assistant, Blocks(responses[j].content))
      && t.history[|h| + 2 * j + 1] == ToolResultEntry(responses[j], exec, j)
  {
    RunHistory(h, [], tools, exec, responses, 0);
    var t := Run(h, [], tools, exec, responses, 0);
    var mid := Rounds(responses, exec, 0, t.rounds);
    RoundsAt(responses, exec, 0, t.rounds, j);
    var tail := Tail(responses, t);
    assert t.history == h + (mid + tail);
    assert t.history[|h| + 2 * j] == mid[2 * j];
    assert t.history[|h| + 2 * j + 1] == mid[2 * j + 1];
  }

  /** One request per call: the request for the response of round `j`
      carries the history exactly as the turn had built it by then, and
      every request advertises the same flattened tool list. */
  lemma ConverseRequests(past: seq<Message>, text: string, r: Registry, responses: seq<Response>, env: McpEnv)
    ensures var t := Converse(past, text, r, responses, env);
      && |t.requests| == t.rounds + 1
      && |past| + 1 + 2 * t.rounds <= |t.history|
      && forall j :: 0 <= j <= t.rounds ==>
           t.requests[j] == BuildRequest(t.history[..|past| + 1 + 2 * j], Flatten(r))
  {
    RunRequestsSeeHistory(past + [UserEntry(text)], Flatten(r), SessionExecutor(r, env), responses);
  }

  lemma RunRequestsSeeHistory(h: seq<Message>, tools: seq<ToolDescriptor>, exec: Executor, responses: seq<Response>)
    ensures var t := Run(h, [], tools, exec, responses, 0);
      && |t.requests| == t.rounds + 1
      && |h| + 2 * t.rounds <= |t.history|
      && forall j :: 0 <= j <= t.rounds ==> t.requests[j] == BuildRequest(t.history[..|h| + 2 * j], tools)
  {
    RunHistory(h, [], tools, exec, responses, 0);
    RunRequests(h, [], tools, exec, responses, 0);
    var t := Run(h, [], tools, exec, responses, 0);
    RoundsLength(responses, exec, 0, t.rounds);
    forall j | 0 <= j <= t.rounds
      ensures t.requests[j] == BuildRequest(t.history[..|h| + 2 * j], tools)
    {
      assert t.requests[j] == BuildRequest(h + Rounds(responses, exec, 0, j), tools);
      RequestPrefix(h, responses, exec, t.rounds, j, Tail(responses, t), t.history);
    }
  }

  lemma RequestPrefix(h: seq<Message>, responses: seq<Response>, exec: Executor, m: nat, j: nat,
                      tail: seq<Message>, history: seq<Message>)
    requires j <= m <= |responses|
    requires forall i :: 0 <= i < m ==> IsToolRound(responses[i])
    requires history == h + Rounds(responses, exec, 0, m) + tail
    ensures |h| + 2 * j <= |history|
    ensures history[..|h| + 2 * j] == h + Rounds(responses, exec, 0, j)
  {
    RoundsSplit(responses, exec, 0, j, m);
    RoundsLength(responses, exec, 0, j);
    RoundsLength(responses, exec, j, m);
    var front := h + Rounds(responses, exec, 0, j);
    assert history == front + (Rounds(responses, exec, j, m) + tail);
  }

  // ---------------------------------------------------------------------
  // Tool results answer tool uses

  /** `m` is an assistant entry holding a tool-use block with id `id`. */
  predicate Announces(m: Message, id: string)
  {
    m.role == Assistant && m.content.Blocks? && exists b :: b in m.content.blocks && b.ToolUse? && b.id == id
  }

  /** Every tool result in the history answers a tool-use block of the
      assistant entry right before it. */
  predicate WellPaired(h: seq<Message>)
  {
    forall i :: 0 <= i < |h| && h[i].content.ToolResults? ==>
      0 < i && forall res :: res in h[i].content.results ==> Announces(h[i - 1], res.toolUseId)
  }

  /** A tool round's two entries keep the history paired. */
  lemma PairedRound(h: seq<Message>, resp: Response, exec: Executor, round: nat)
    requires IsToolRound(resp) && WellPaired(h)
    ensures WellPaired(h + RoundEntries(resp, exec, round))
  {
    var h' := h + RoundEntries(resp, exec, round);
    var tu := RequestedTool(resp);
    assert Announces(h'[|h|], tu.id);
    forall i | 0 <= i < |h'| && h'[i].content.ToolResults?
      ensures 0 < i && forall res :: res in h'[i].content.results ==> Announces(h'[i - 1], res.toolUseId)
    {
      if i < |h| {
        assert h'[i] == h[i] && h'[i - 1] == h[i - 1];
      } else {
        assert i == |h| + 1;
      }
    }
  }

  /** An entry of plain text keeps the history paired. */
  lemma PairedPlain(h: seq<Message>, e: seq<Message>)
    requires WellPaired(h)
    requires forall i :: 0 <= i < |e| ==> e[i].content.PlainText?
    ensures WellPaired(h + e)
  {
    var h' := h + e;
    forall i | 0 <= i < |h'| && h'[i].content.ToolResults?
      ensures 0 < i && forall res :: res in h'[i].content.results ==> Announces(h'[i - 1], res.toolUseId)
    {
      assert i < |h| && h'[i] == h[i] && h'[i - 1] == h[i - 1];
    }
  }

  lemma {:induction false} RunPaired(h: seq<Message>, reqs: seq<Request>, tools: seq<ToolDescriptor>, exec: Executor,
                                     responses: seq<Response>, k: nat)
    requires k <= |responses| && WellPaired(h)
    decreases |responses| - k
    ensures WellPaired(Run(h, reqs, tools, exec, responses, k).history)
  {
    if k < |responses| {
      if IsToolRound(responses[k]) {
        PairedRound(h, responses[k], exec, k);
        RunPaired(h + RoundEntries(responses[k], exec, k), reqs + [BuildRequest(h, tools)], tools, exec, responses, k + 1);
      } else {
        PairedPlain(h, FinalEntries(responses[k]));
      }
    }
  }

  /** A turn keeps a paired history paired, however it ends: right before
      each tool result stands the assistant entry whose tool use it answers.
      `ConverseRequests` says which history prefix each request carries. */
  lemma ConversePaired(past: seq<Message>, text: string, r: Registry, responses: seq<Response>, env: McpEnv)
    requires WellPaired(past)
    ensures WellPaired(Converse(past, text, r, responses, env).history)
  {
    PairedPlain(past, [UserEntry(text)]);
    RunPaired(past + [UserEntry(text)], [], Flatten(r), SessionExecutor(r, env), responses, 0);
  }

  // ---------------------------------------------------------------------
  // Single turns

  /** A response that gives "tool_use" as its stop reason but holds no
      tool-use block ends the loop as any other answer does. */
  lemma StopWithoutToolUse(past: seq<Message>, text: string, r: Registry, responses: seq<Response>, env: McpEnv)
    requires |responses| > 0 && responses[0].stopReason == ToolUseStop
    requires forall i :: 0 <= i < |responses[0].content| ==> !responses[0].content[i].ToolUse?
    ensures var h := past + [UserEntry(text)];
      Converse(past, text, r, responses, env)
      == Turn(h + FinalEntries(responses[0]), [BuildRequest(h, Flatten(r))], 0, Answered)
  {
    assert FirstToolUseAt(responses[0].content).None?;
  }

  /** A turn of one tool round followed by an answer appends exactly four
      entries: the user's message, the round's two, and the answer's text. */
  lemma OneRoundTurn(past: seq<Message>, text: string, r: Registry, env: McpEnv, resp0: Response, resp1: Response)
    requires IsToolRound(resp0) && !IsToolRound(resp1)
    ensures var t := Converse(past, text, r, [resp0, resp1], env);
      && t.status == Answered && t.rounds == 1
      && t.history == past + [UserEntry(text)] + RoundEntries(resp0, SessionExecutor(r, env), 0) + FinalEntries(resp1)
  {
    var h0 := past + [UserEntry(text)];
    var exec := SessionExecutor(r, env);
    var h1 := h0 + RoundEntries(resp0, exec, 0);
    var q0 := BuildRequest(h0, Flatten(r));
    RunToolRound(h0, [], Flatten(r), exec, [resp0, resp1], 0);
    assert [] + [q0] == [q0];
    RunAnswered(h1, [q0], Flatten(r), exec, [resp0, resp1], 1);
  }

  /** One tool round against a weather server: the user's question, the
      model's tool use, the tool's result under the tool use's id, and the
      model's answer. */
  lemma WeatherTurn(env: McpEnv, getWeather: ToolDescriptor)
    requires getWeather.name == "get_weather"
    requires env.sessionOf("weather") == Some(McpSession(1))
    requires env.invoke(0, McpSession(1), "get_weather", "{\"city\": \"Tokyo\"}") == Returned("sunny, 22C")
    ensures var use := ToolUse("toolu_1", "get_weather", "{\"city\": \"Tokyo\"}");
      var responses := [Response(ToolUseStop, [Text("Checking."), use]), Response("end_turn", [Text("Sunny, 22C.")])];
      var t := Converse([], "Weather in Tokyo?", [Entry("weather", [getWeather])], responses, env);
      && t.status == Answered && t.rounds == 1
      && t.history == [
           UserEntry("Weather in Tokyo?"),
           Message(Assistant, Blocks([Text("Checking."), use])),
           Message(User, ToolResults([ToolResultBlock("toolu_1", "sunny, 22C")])),
           Message(Assistant, PlainText("Sunny, 22C."))]
  {
    var r: Registry := [Entry("weather", [getWeather])];
    var input := "{\"city\": \"Tokyo\"}";
    var use := ToolUse("toolu_1", "get_weather", input);
    var resp0 := Response(ToolUseStop, [Text("Checking."), use]);
    var resp1 := Response("end_turn", [Text("Sunny, 22C.")]);
    assert FirstToolUseAt(resp0.content) == Some(1);
    assert FirstTextAt(resp1.content) == Some(0);
    OneRoundTurn([], "Weather in Tokyo?", r, env, resp0, resp1);
    WeatherTool(env, getWeather, input);
    SessionResultEntry(r, env, resp0, 0);
  }

  /** The weather server's registry, as connecting it leaves an empty one,
      resolves its tool to the call's result. */
  lemma WeatherTool(env: McpEnv, getWeather: ToolDescriptor, input: string)
    requires getWeather.name == "get_weather"
    requires env.sessionOf("weather") == Some(McpSession(1))
    requires env.invoke(0, McpSession(1), "get_weather", input) == Returned("sunny, 22C")
    ensures Set([], "weather", [getWeather]) == [Entry("weather", [getWeather])]
    ensures Dispatch([Entry("weather", [getWeather])], "get_weather", input, 0, env) == Succeeded("sunny, 22C")
  {
    var r: Registry := [Entry("weather", [getWeather])];
    assert r[0].tools[0].name == "get_weather";
    assert FirstProvider(r, "get_weather") == Some(0);
  }
}
