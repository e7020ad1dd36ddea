/**
 * The notebook's chat handler, `handle_message`: one user turn of the chat
 * UI. The chat history becomes endpoint messages; then the handler calls the
 * endpoint until a round leaves no tool results or the stop reason is
 * unusual, accumulating display text across rounds, and returns that text.
 * Every exception ends the turn with "Error: " and the exception's text.
 *
 * The endpoint is a script of replies, one per call; `None` as the reply of
 * a turn means the script ran out before the handler returned.
 */
module ChatAgent {
  import opened Wrappers
  import opened Strings
  import opened FileSystem
  import opened ToolExecutor
  import opened Conversation

  /** A message of the chat UI's history. */
  datatype ChatMessage = ChatMessage(role: string, content: string)

  const Greeting: string := "Hello! I'm your AI coding assistant. How can I help you today?"
  const CompletedText: string := "Task completed."
  /** The text of the `UnboundLocalError` raised when `tool_name` is read before any assignment. */
  const UnboundLocalText: string := "cannot access local variable 'tool_name' where it is not associated with a value"

  /** Only "user" stays a user message; every other role is sent as the assistant's. */
  function RoleOf(role: string): Role {
    if role == "user" then User else Assistant
  }

  /** The conversion loop: one endpoint message per chat message, in order. */
  function Converted(chat: seq<ChatMessage>): (r: seq<Message>)
    ensures |r| == |chat|
    ensures forall i :: 0 <= i < |chat| ==> r[i].role == RoleOf(chat[i].role) && r[i].content == Plain(chat[i].content)
    decreases |chat|
  {
    if chat == [] then []
    else
      var n := |chat|;
      Converted(chat[..n - 1]) + [Message(RoleOf(chat[n - 1].role), Plain(chat[n - 1].content))]
  }

  /**
   * The handler's locals between endpoint calls, plus the files and the
   * messages of every endpoint call so far.
   */
  datatype ChatState = ChatState(
    messages: seq<Message>,
    accumulated: string,
    toolName: Option<string>,
    fs: Fs,
    requests: seq<seq<Message>>)

  /** What one reply does: go round again, or return a text. */
  datatype Step = Continue(next: ChatState) | Finish(text: string, last: ChatState)

  /** A round's display text: the first pass's text, then the heading and the calls' text when there are calls. */
  function RoundText(text: string, calls: seq<ToolCall>, results: seq<ResultBlock>): string
    requires |calls| == |results|
  {
    if calls == [] then text else text + ExecutingText(|calls|) + CallsText(calls, results)
  }

  /** The notice an unusual stop reason adds before the reply's text. */
  function StopNotice(stop: string): string {
    if stop != "end_turn" then "Stop reason: " + stop + "\n" else ""
  }

  /** The handler's work on one reply, after the call was made. */
  function ChatStep(st: ChatState, reply: Reply, shell: Shell): Step {
    match reply
    case Raised(msg) => Finish("Error: " + msg, st)
    case Response(stop, blocks) =>
      if stop == "tool_use" || stop == "end_turn" then
        match ScanBlocks(blocks, st.toolName)
        case Unbound => Finish("Error: " + UnboundLocalText, st)
        case Scanned(calls, name, text) =>
          var run := RunCalls(Notebook, calls, st.fs, shell);
          var acc := st.accumulated + RoundText(text, calls, run.results);
          var grown := st.messages + [Message(Assistant, Blocks(blocks))];
          if run.results != [] then
            Continue(ChatState(grown + [Message(User, Results(run.results))], acc, name, run.fs, st.requests))
          else
            Finish(if acc == "" then CompletedText else acc, ChatState(grown, acc, name, run.fs, st.requests))
      else
        Finish(st.accumulated + WithTexts(StopNotice(stop), blocks), st)
  }

  /** The outcome of a turn: the returned text, or `None` when the script ran out. */
  datatype Turn = Turn(reply: Option<string>, last: ChatState)

  /** The `while True` loop: record the request, take the next reply, go on or return. */
  function ChatLoop(st: ChatState, script: seq<Reply>, shell: Shell): Turn
    decreases |script|
  {
    if script == [] then Turn(None, st)
    else
      var sent := st.(requests := st.requests + [st.messages]);
      match ChatStep(sent, script[0], shell)
      case Continue(next) => ChatLoop(next, script[1..], shell)
      case Finish(text, last) => Turn(Some(text), last)
  }

  /** The state a non-empty history starts the loop in: `tool_name` unbound, nothing accumulated. */
  function Initial(chat: seq<ChatMessage>, fs: Fs): ChatState {
    ChatState(Converted(chat), "", None, fs, [])
  }

  /** A whole call of `handle_message`. An empty history gets the greeting. */
  function ChatTurn(chat: seq<ChatMessage>, script: seq<Reply>, fs: Fs, shell: Shell): Turn {
    if chat == [] then Turn(Some(Greeting), ChatState([], "", None, fs, []))
    else ChatLoop(Initial(chat, fs), script, shell)
  }

  /** `handle_message` with its loops, proved to do what `ChatTurn` describes. */
  method HandleMessage(chat: seq<ChatMessage>, script: seq<Reply>, fs0: Fs, shell: Shell)
    returns (reply: Option<string>, messages: seq<Message>, fs: Fs, requests: seq<seq<Message>>)
    ensures var t := ChatTurn(chat, script, fs0, shell);
      reply == t.reply && messages == t.last.messages && fs == t.last.fs && requests == t.last.requests
  {
    if |chat| == 0 {
      return Some(Greeting), [], fs0, [];
    }
    messages := [];
    for i := 0 to |chat|
      invariant messages == Converted(chat[..i])
    {
      assert chat[..i + 1][..i] == chat[..i];
      messages := messages + [Message(RoleOf(chat[i].role), Plain(chat[i].content))];
    }
    assert chat[..|chat|] == chat;
    var accumulated := "";
    var toolName: Option<string> := None;
    fs, requests := fs0, [];
    var k := 0;
    while k < |script|
      invariant 0 <= k <= |script|
      invariant ChatLoop(ChatState(messages, accumulated, toolName, fs, requests), script[k..], shell)
        == ChatTurn(chat, script, fs0, shell)
    {
      assert script[k..][1..] == script[k + 1..];
      requests := requests + [messages];
      match script[k] {
        case Raised(msg) =>
          reply := Some("Error: " + msg);
          return;
        case Response(stop, blocks) =>
          if stop == "tool_use" || stop == "end_turn" {
            var scan := ScanResponse(blocks, toolName);
            if scan.Unbound? {
              reply := Some("Error: " + UnboundLocalText);
              return;
            }
            var responseText := scan.text;
            var results: seq<ResultBlock> := [];
            if |scan.calls| > 0 {
              responseText := responseText + ExecutingText(|scan.calls|);
              var callsText;
              results, fs, callsText := RunToolCalls(Notebook, scan.calls, fs, shell);
              responseText := responseText + callsText;
            }
            // The second pass assigns each call's name to `tool_name` in
            // turn; by `ScanLeavesLastName` that ends where the scan ended.
            toolName := scan.toolName;
            messages := messages + [Message(Assistant, Blocks(blocks))];
            accumulated := accumulated + responseText;
            if |results| > 0 {
              messages := messages + [Message(User, Results(results))];
            } else {
              reply := Some(if accumulated == "" then CompletedText else accumulated);
              return;
            }
          } else {
            var responseText := "";
            if stop != "end_turn" {
              responseText := "Stop reason: " + stop + "\n";
            }
            ghost var notice := responseText;
            for j := 0 to |blocks|
              invariant responseText == WithTexts(notice, blocks[..j])
            {
              assert blocks[..j + 1][..j] == blocks[..j];
              if blocks[j].Text? {
                responseText := responseText + blocks[j].text;
              }
            }
            assert blocks[..|blocks|] == blocks;
            reply := Some(accumulated + responseText);
            return;
          }
      }
      k := k + 1;
    }
    reply := None;
  }

  /** An empty history is answered with the greeting, without calling the endpoint. */
  lemma EmptyHistoryGreets(script: seq<Reply>, fs: Fs, shell: Shell)
    ensures ChatTurn([], script, fs, shell).reply == Some(Greeting)
    ensures ChatTurn([], script, fs, shell).last.requests == []
    ensures ChatTurn([], script, fs, shell).last.fs == fs
  {
  }

  /** Handling a reply makes no endpoint call of its own. */
  lemma StepKeepsRequests(st: ChatState, reply: Reply, shell: Shell)
    ensures var step := ChatStep(st, reply, shell);
      (if step.Continue? then step.next else step.last).requests == st.requests
  {
  }

  /** The loop only adds requests: the earlier ones are kept, and the first reply taken follows a request of the current messages. */
  lemma {:induction false} RequestsKept(st: ChatState, script: seq<Reply>, shell: Shell)
    ensures st.requests <= ChatLoop(st, script, shell).last.requests
    ensures script != [] ==> st.requests + [st.messages] <= ChatLoop(st, script, shell).last.requests
    decreases |script|
  {
    if script != [] {
      var sent := st.(requests := st.requests + [st.messages]);
      StepKeepsRequests(sent, script[0], shell);
      match ChatStep(sent, script[0], shell)
      case Continue(next) =>
        RequestsKept(next, script[1..], shell);
      case Finish(_, _) =>
    }
  }

  /** The first endpoint call of a turn carries the converted history, nothing else. */
  lemma FirstRequestIsHistory(chat: seq<ChatMessage>, script: seq<Reply>, fs: Fs, shell: Shell)
    requires chat != [] && script != []
    ensures var requests := ChatTurn(chat, script, fs, shell).last.requests;
      |requests| > 0 && requests[0] == Converted(chat)
  {
    var st := Initial(chat, fs);
    assert ChatTurn(chat, script, fs, shell) == ChatLoop(st, script, shell);
    RequestsKept(st, script, shell);
    assert st.requests + [st.messages] == [Converted(chat)];
  }

  /**
   * A round with tool calls goes round again: the reply's blocks are kept as
   * the assistant's message and one user message carries the results (one
   * per `tool_use` block, by `RoundResultsMatchUses`); the round's display
   * text is added to what has accumulated.
   */
  lemma ToolRoundContinues(st: ChatState, stop: string, blocks: seq<Block>, shell: Shell)
    requires stop == "tool_use" || stop == "end_turn"
    requires ScanBlocks(blocks, st.toolName).Scanned? && ScanBlocks(blocks, st.toolName).calls != []
    ensures var scan := ScanBlocks(blocks, st.toolName);
      var run := RunCalls(Notebook, scan.calls, st.fs, shell);
      && ChatStep(st, Response(stop, blocks), shell).Continue?
      && var next := ChatStep(st, Response(stop, blocks), shell).next;
      && next.messages == st.messages + [Message(Assistant, Blocks(blocks)), Message(User, Results(run.results))]
      && next.accumulated == st.accumulated + (scan.text + ExecutingText(|scan.calls|) + CallsText(scan.calls, run.results))
      && next.toolName == Some(scan.calls[|scan.calls| - 1].name)
      && next.fs == run.fs
      && next.requests == st.requests
  {
    var scan := ScanBlocks(blocks, st.toolName);
    ScanLeavesLastName(blocks, st.toolName);
    var run := RunCalls(Notebook, scan.calls, st.fs, shell);
    assert run.results != [];
  }

  /**
   * A round without tool calls ends the turn with the accumulated text, or
   * "Task completed." when that is empty.
   */
  lemma ToolFreeRoundFinishes(st: ChatState, stop: string, blocks: seq<Block>, shell: Shell)
    requires stop == "tool_use" || stop == "end_turn"
    requires ToolUses(blocks) == []
    ensures ScanBlocks(blocks, st.toolName).Scanned?
    ensures var step := ChatStep(st, Response(stop, blocks), shell);
      var acc := st.accumulated + ScanBlocks(blocks, st.toolName).text;
      && step.Finish?
      && step.text == (if acc == "" then CompletedText else acc)
      && step.last.messages == st.messages + [Message(Assistant, Blocks(blocks))]
      && step.last.fs == st.fs
  {
    ScanUnboundExactly(blocks, st.toolName);
    ScanCollectsToolUses(blocks, st.toolName);
  }

  /**
   * Any other stop reason ends the turn after exactly this call, whatever
   * replies would follow, with the reason and the reply's text.
   */
  lemma OtherStopEnds(st: ChatState, stop: string, blocks: seq<Block>, rest: seq<Reply>, shell: Shell)
    requires stop != "tool_use" && stop != "end_turn"
    ensures var t := ChatLoop(st, [Response(stop, blocks)] + rest, shell);
      && t.reply == Some(st.accumulated + WithTexts("Stop reason: " + stop + "\n", blocks))
      && t.last.requests == st.requests + [st.messages]
      && t.last.messages == st.messages
  {
    assert ([Response(stop, blocks)] + rest)[0] == Response(stop, blocks);
  }

  /** An exception from the endpoint call ends the turn with its text after "Error: ". */
  lemma RaisedEnds(st: ChatState, msg: string, rest: seq<Reply>, shell: Shell)
    ensures var t := ChatLoop(st, [Raised(msg)] + rest, shell);
      t.reply == Some("Error: " + msg) && t.last.requests == st.requests + [st.messages]
  {
    assert ([Raised(msg)] + rest)[0] == Raised(msg);
  }

  /**
   * While `tool_name` is unbound, a first `tool_use` block naming neither
   * `bash` nor the editor ends the turn with the `UnboundLocalError`, and
   * no tool runs.
   */
  lemma UnboundNameEnds(st: ChatState, stop: string, blocks: seq<Block>, shell: Shell)
    requires stop == "tool_use" || stop == "end_turn"
    requires st.toolName.None? && ToolUses(blocks) != [] && !Dispatches(ToolUses(blocks)[0].name)
    ensures ChatStep(st, Response(stop, blocks), shell) == Finish("Error: " + UnboundLocalText, st)
  {
    ScanUnboundExactly(blocks, st.toolName);
  }

  /** A text the handler returns other than an error or "Task completed." extends what had accumulated. */
  lemma {:induction false} ReplyExtendsAccumulated(st: ChatState, script: seq<Reply>, shell: Shell)
    requires ChatLoop(st, script, shell).reply.Some?
    ensures var t := ChatLoop(st, script, shell).reply.value;
      t == CompletedText || "Error: " <= t || st.accumulated <= t
    decreases |script|
  {
    var sent := st.(requests := st.requests + [st.messages]);
    var t := ChatLoop(st, script, shell).reply.value;
    match ChatStep(sent, script[0], shell)
    case Continue(next) =>
      ReplyExtendsAccumulated(next, script[1..], shell);
      if t != CompletedText && !("Error: " <= t) {
        var extra := next.accumulated[|st.accumulated|..];
        assert next.accumulated == st.accumulated + extra;
        assert st.accumulated <= next.accumulated;
      }
    case Finish(text, last) =>
      if t != CompletedText && !("Error: " <= t) {
        assert t[..|st.accumulated|] == st.accumulated;
      }
  }

  /** The messages never shrink within a turn: each request extends the one before it. */
  ghost predicate Growing(st: ChatState) {
    && (forall i :: 0 < i < |st.requests| ==> st.requests[i - 1] <= st.requests[i])
    && (st.requests != [] ==> st.requests[|st.requests| - 1] <= st.messages)
  }

  lemma {:induction false} RequestsGrow(st: ChatState, script: seq<Reply>, shell: Shell)
    requires Growing(st)
    ensures Growing(ChatLoop(st, script, shell).last)
    decreases |script|
  {
    if script != [] {
      var sent := st.(requests := st.requests + [st.messages]);
      assert Growing(sent);
      match ChatStep(sent, script[0], shell)
      case Continue(next) =>
        assert sent.messages <= next.messages;
        assert Growing(next);
        RequestsGrow(next, script[1..], shell);
      case Finish(_, last) =>
        assert sent.messages <= last.messages;
    }
  }
}
