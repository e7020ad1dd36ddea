/**
 * The command-line agent's main loop. A line read from the user opens a
 * conversation (the instructions text, then the line); the loop then calls
 * the endpoint again and again. A `tool_use` reply runs its tools and
 * appends the reply and the results. An `end_turn` reply reads the next
 * line, and any other reply changes nothing. Every exception ends the
 * program.
 *
 * The inner loop has no exit, so the outer loop's reading of a line and
 * rebuilding of the messages happens once. The line read after `end_turn`
 * is dropped (see `EndTurnDropsInput`). The endpoint is a script of
 * replies, and the user's lines are a list whose end is end of input.
 */
module CliAgent {
  import opened Wrappers
  import opened FileSystem
  import opened ToolExecutor
  import opened Conversation

  /** Whether the program is still in its loop, or ended by an uncaught exception. */
  datatype Status = Running | Crashed(reason: string)

  /** The program's variables between endpoint calls, plus the files and every request so far. */
  datatype CliState = CliState(
    messages: seq<Message>,
    pending: seq<string>,
    fs: Fs,
    toolName: Option<string>,
    requests: seq<seq<Message>>,
    status: Status)

  /** The text of the `EOFError` that `input()` raises at end of input. */
  const EofText: string := "EOF when reading a line"
  /** The text of the `NameError` raised when the global `tool_name` is read before any assignment. */
  const NameErrorText: string := "name 'tool_name' is not defined"

  /** The messages a line opens with: the instructions block, then the line. */
  function Opening(instructions: string, line: string): seq<Message> {
    [Message(User, Blocks([Text(instructions, 0)])), Message(User, Plain(line))]
  }

  /** Reading the first line: at end of input the program ends before any call. */
  function CliStart(instructions: string, inputs: seq<string>, fs: Fs): CliState {
    if inputs == [] then CliState([], [], fs, None, [], Crashed(EofText))
    else CliState(Opening(instructions, inputs[0]), inputs[1..], fs, None, [], Running)
  }

  /** Making a call with the current messages. */
  function Sent(st: CliState): CliState {
    st.(requests := st.requests + [st.messages])
  }

  /** A `tool_use` reply: scan, run, then append the reply and, when there are any, the results. */
  function ToolRound(st: CliState, blocks: seq<Block>, shell: Shell): CliState {
    match ScanBlocks(blocks, st.toolName)
    case Unbound => st.(status := Crashed(NameErrorText))
    case Scanned(calls, name, _) =>
      var run := RunCalls(Cli, calls, st.fs, shell);
      var grown := st.messages + [Message(Assistant, Blocks(blocks))];
      st.(messages := if run.results != [] then grown + [Message(User, Results(run.results))] else grown,
          toolName := name, fs := run.fs)
  }

  /** The loop's work on one reply, as written: an `end_turn` reads a line and drops it. */
  function CliStep(st: CliState, reply: Reply, shell: Shell): CliState {
    match reply
    case Raised(msg) => st.(status := Crashed(msg))
    case Response(stop, blocks) =>
      if stop == "tool_use" then ToolRound(st, blocks, shell)
      else if stop == "end_turn" then
        if st.pending == [] then st.(status := Crashed(EofText)) else st.(pending := st.pending[1..])
      else st
  }

  /** The loop as written, until the script runs out or the program ends. */
  function CliRun(st: CliState, script: seq<Reply>, shell: Shell): CliState
    decreases |script|
  {
    if script == [] || st.status.Crashed? then st
    else CliRun(CliStep(Sent(st), script[0], shell), script[1..], shell)
  }

  /** A whole run of the program as written. */
  function CliSession(instructions: string, inputs: seq<string>, script: seq<Reply>, fs: Fs, shell: Shell): CliState {
    CliRun(CliStart(instructions, inputs, fs), script, shell)
  }

  /**
   * The loop as evidently intended: after `end_turn` the reply and the line
   * read are appended, so the next call answers the line.
   */
  function CliStepIntended(st: CliState, reply: Reply, shell: Shell): CliState {
    match reply
    case Response("end_turn", blocks) =>
      if st.pending == [] then st.(status := Crashed(EofText))
      else
        st.(messages := st.messages + [Message(Assistant, Blocks(blocks)), Message(User, Plain(st.pending[0]))],
            pending := st.pending[1..])
    case _ => CliStep(st, reply, shell)
  }

  function CliRunIntended(st: CliState, script: seq<Reply>, shell: Shell): CliState
    decreases |script|
  {
    if script == [] || st.status.Crashed? then st
    else CliRunIntended(CliStepIntended(Sent(st), script[0], shell), script[1..], shell)
  }

  function CliSessionIntended(instructions: string, inputs: seq<string>, script: seq<Reply>, fs: Fs, shell: Shell): CliState {
    CliRunIntended(CliStart(instructions, inputs, fs), script, shell)
  }

  /** The program's loops as written, proved to do what `CliSession` describes. */
  method RunCli(instructions: string, inputs: seq<string>, script: seq<Reply>, fs0: Fs, shell: Shell)
    returns (messages: seq<Message>, unread: seq<string>, fs: Fs, requests: seq<seq<Message>>, status: Status)
    ensures var s := CliSession(instructions, inputs, script, fs0, shell);
      && messages == s.messages && unread == s.pending && fs == s.fs
      && requests == s.requests && status == s.status
  {
    if |inputs| == 0 {
      return [], [], fs0, [], Crashed(EofText);
    }
    var userInput := inputs[0];
    unread := inputs[1..];
    messages := [Message(User, Blocks([Text(instructions, 0)])), Message(User, Plain(userInput))];
    fs, requests, status := fs0, [], Running;
    var toolName: Option<string> := None;
    var k := 0;
    while k < |script|
      invariant 0 <= k <= |script|
      invariant CliRun(CliState(messages, unread, fs, toolName, requests, Running), script[k..], shell)
        == CliSession(instructions, inputs, script, fs0, shell)
    {
      assert script[k..][1..] == script[k + 1..];
      requests := requests + [messages];
      match script[k] {
        case Raised(msg) =>
          status := Crashed(msg);
          return;
        case Response(stop, blocks) =>
          if stop == "tool_use" {
            var scan := ScanResponse(blocks, toolName);
            if scan.Unbound? {
              status := Crashed(NameErrorText);
              return;
            }
            var results: seq<ResultBlock> := [];
            if |scan.calls| > 0 {
              var shown;
              results, fs, shown := RunToolCalls(Cli, scan.calls, fs, shell);
            }
            // The second pass leaves `tool_name` at the last call's name,
            // which is where the scan left it (`ScanLeavesLastName`).
            toolName := scan.toolName;
            messages := messages + [Message(Assistant, Blocks(blocks))];
            if |results| > 0 {
              messages := messages + [Message(User, Results(results))];
            }
          } else if stop == "end_turn" {
            if |unread| == 0 {
              status := Crashed(EofText);
              return;
            }
            userInput := unread[0];
            unread := unread[1..];
          }
      }
      k := k + 1;
    }
  }

  /** At end of input before the first line the program ends without calling the endpoint. */
  lemma NoInputEnds(instructions: string, script: seq<Reply>, fs: Fs, shell: Shell)
    ensures var s := CliSession(instructions, [], script, fs, shell);
      s.status == Crashed(EofText) && s.requests == [] && s.fs == fs
  {
  }

  /** Replies after the program has ended change nothing. */
  lemma {:induction false} CrashedStays(st: CliState, script: seq<Reply>, shell: Shell)
    requires st.status.Crashed?
    ensures CliRun(st, script, shell) == st
  {
  }

  /** Handling a reply makes no call of its own and ends the program or leaves it running. */
  lemma StepKeepsRequests(st: CliState, reply: Reply, shell: Shell)
    requires st.status == Running
    ensures CliStep(st, reply, shell).requests == st.requests
    ensures CliStep(st, reply, shell).status.Running? <==>
      match reply
      case Raised(_) => false
      case Response(stop, blocks) =>
        if stop == "tool_use" then ScanBlocks(blocks, st.toolName).Scanned?
        else stop != "end_turn" || st.pending != []
  {
  }

  /** The run only adds requests, one per reply taken while running, beginning with the current messages. */
  lemma {:induction false} RequestsKept(st: CliState, script: seq<Reply>, shell: Shell)
    ensures st.requests <= CliRun(st, script, shell).requests
    ensures script != [] && st.status == Running ==> st.requests + [st.messages] <= CliRun(st, script, shell).requests
    decreases |script|
  {
    if script != [] && st.status == Running {
      var next := CliStep(Sent(st), script[0], shell);
      StepKeepsRequests(Sent(st), script[0], shell);
      RequestsKept(next, script[1..], shell);
    }
  }

  /** The first call carries the instructions and the first line. */
  lemma FirstRequestIsOpening(instructions: string, inputs: seq<string>, script: seq<Reply>, fs: Fs, shell: Shell)
    requires inputs != [] && script != []
    ensures var requests := CliSession(instructions, inputs, script, fs, shell).requests;
      |requests| > 0 && requests[0] == Opening(instructions, inputs[0])
  {
    var st := CliStart(instructions, inputs, fs);
    RequestsKept(st, script, shell);
    assert st.requests + [st.messages] == [Opening(instructions, inputs[0])];
  }

  /**
   * A `tool_use` reply appends the reply's blocks as the assistant's
   * message and, when it has `tool_use` blocks, one user message with the
   * results, one per block (`RoundResultsMatchUses`).
   */
  lemma ToolRoundAppends(st: CliState, blocks: seq<Block>, shell: Shell)
    requires st.status == Running && ScanBlocks(blocks, st.toolName).Scanned?
    ensures var scan := ScanBlocks(blocks, st.toolName);
      var run := RunCalls(Cli, scan.calls, st.fs, shell);
      var uses := ToolUses(blocks);
      var after := CliStep(st, Response("tool_use", blocks), shell);
      && after.status == Running
      && after.pending == st.pending
      && after.fs == run.fs
      && after.messages == st.messages + [Message(Assistant, Blocks(blocks))]
           + (if uses != [] then [Message(User, Results(run.results))] else [])
  {
    RoundResultsMatchUses(Cli, blocks, st.toolName, st.fs, shell);
    var scan := ScanBlocks(blocks, st.toolName);
    var run := RunCalls(Cli, scan.calls, st.fs, shell);
    assert run.results != [] <==> ToolUses(blocks) != [];
  }

  /**
   * While the global `tool_name` is unbound, a first `tool_use` block naming
   * neither `bash` nor the editor ends the program with the `NameError`.
   */
  lemma UnboundNameEnds(st: CliState, blocks: seq<Block>, shell: Shell)
    requires st.toolName.None? && ToolUses(blocks) != [] && !Dispatches(ToolUses(blocks)[0].name)
    ensures CliStep(st, Response("tool_use", blocks), shell) == st.(status := Crashed(NameErrorText))
  {
    ScanUnboundExactly(blocks, st.toolName);
  }

  /** Any reply but `tool_use` leaves the messages as they were. */
  lemma OtherReplyKeepsMessages(st: CliState, reply: Reply, shell: Shell)
    requires !(reply.Response? && reply.stopReason == "tool_use")
    ensures CliStep(st, reply, shell).messages == st.messages
    ensures CliStep(st, reply, shell).fs == st.fs
  {
  }

  /**
   * As written, an `end_turn` reply is followed by a call with exactly the
   * same messages: the line read is consumed and never sent.
   */
  lemma EndTurnResends(st: CliState, blocks: seq<Block>, next: Reply, shell: Shell)
    requires st.status == Running && st.pending != []
    ensures var s := CliRun(st, [Response("end_turn", blocks), next], shell);
      s.requests == st.requests + [st.messages, st.messages]
  {
    var script := [Response("end_turn", blocks), next];
    var s1 := CliStep(Sent(st), script[0], shell);
    assert s1 == Sent(st).(pending := st.pending[1..]);
    assert script[1..] == [next] && [next][1..] == [];
    var s2 := CliStep(Sent(s1), next, shell);
    assert CliRun(st, script, shell) == CliRun(s1, [next], shell);
    StepKeepsRequests(Sent(s1), next, shell);
    assert [next][0] == next;
    assert CliRun(s1, [next], shell) == CliRun(s2, [], shell) == s2;
    assert Sent(s1).requests == st.requests + [st.messages, st.messages];
  }

  /** A concrete run: two lines, two `end_turn` replies; the second line never reaches the endpoint. */
  lemma EndTurnDropsInput(fs: Fs, shell: Shell)
    ensures var script := [Response("end_turn", [Text("Hi!", 0)]), Response("end_turn", [Text("Hi!", 0)])];
      var s := CliSession("Be helpful.", ["hello", "thanks"], script, fs, shell);
      && s.requests == [Opening("Be helpful.", "hello"), Opening("Be helpful.", "hello")]
      && s.messages == Opening("Be helpful.", "hello")
      && s.status == Crashed(EofText)
  {
    var st := CliStart("Be helpful.", ["hello", "thanks"], fs);
    assert st.pending == ["thanks"];
    var script := [Response("end_turn", [Text("Hi!", 0)]), Response("end_turn", [Text("Hi!", 0)])];
    var s1 := CliStep(Sent(st), script[0], shell);
    assert s1.pending == [];
    assert script[1..] == [script[1]];
    var s2 := CliStep(Sent(s1), script[1], shell);
    assert s2.status == Crashed(EofText);
    assert CliRun(st, script, shell) == s2;
  }

  /** As intended, the call after `end_turn` carries the reply and then the line read. */
  lemma IntendedEndTurnSendsInput(st: CliState, blocks: seq<Block>, next: Reply, shell: Shell)
    requires st.status == Running && st.pending != []
    ensures var s := CliRunIntended(st, [Response("end_turn", blocks), next], shell);
      && |s.requests| == |st.requests| + 2
      && s.requests[|st.requests|] == st.messages
      && s.requests[|st.requests| + 1]
           == st.messages + [Message(Assistant, Blocks(blocks)), Message(User, Plain(st.pending[0]))]
  {
    var script := [Response("end_turn", blocks), next];
    var s1 := CliStepIntended(Sent(st), script[0], shell);
    assert script[1..] == [next];
    var s2 := CliStepIntended(Sent(s1), next, shell);
    assert [next][1..] == [];
    assert CliRunIntended(st, script, shell) == CliRunIntended(s1, [next], shell);
    assert CliRunIntended(s1, [next], shell) == CliRunIntended(s2, [], shell);
    assert s2.requests == Sent(s1).requests by {
      match next
      case Response(stop, b) =>
        if stop != "end_turn" {
          StepKeepsRequests(Sent(s1), next, shell);
        }
      case Raised(_) =>
    }
  }

  /** The same run as `EndTurnDropsInput` in the intended loop: the second call carries "thanks". */
  lemma IntendedEndTurnAnswersInput(fs: Fs, shell: Shell)
    ensures var script := [Response("end_turn", [Text("Hi!", 0)]), Response("end_turn", [Text("Hi!", 0)])];
      var s := CliSessionIntended("Be helpful.", ["hello", "thanks"], script, fs, shell);
      && |s.requests| == 2
      && s.requests[1] == Opening("Be helpful.", "hello")
           + [Message(Assistant, Blocks([Text("Hi!", 0)])), Message(User, Plain("thanks"))]
  {
    var st := CliStart("Be helpful.", ["hello", "thanks"], fs);
    assert st.pending == ["thanks"];
    var reply := Response("end_turn", [Text("Hi!", 0)]);
    IntendedEndTurnSendsInput(st, [Text("Hi!", 0)], reply, shell);
  }

  /** Every request extends the one before it: the conversation only grows. */
  ghost predicate Growing(st: CliState) {
    && (forall i :: 0 < i < |st.requests| ==> st.requests[i - 1] <= st.requests[i])
    && (st.requests != [] ==> st.requests[|st.requests| - 1] <= st.messages)
  }

  lemma {:induction false} RequestsGrow(st: CliState, script: seq<Reply>, shell: Shell)
    requires Growing(st)
    ensures Growing(CliRun(st, script, shell))
    decreases |script|
  {
    if script != [] && st.status == Running {
      var sent := Sent(st);
      assert Growing(sent);
      var next := CliStep(sent, script[0], shell);
      StepKeepsRequests(sent, script[0], shell);
      assert sent.messages <= next.messages;
      RequestsGrow(next, script[1..], shell);
    }
  }

  /** The same holds in the intended loop, where `end_turn` appends too. */
  lemma {:induction false} IntendedRequestsGrow(st: CliState, script: seq<Reply>, shell: Shell)
    requires Growing(st)
    ensures Growing(CliRunIntended(st, script, shell))
    decreases |script|
  {
    if script != [] && st.status == Running {
      var sent := Sent(st);
      assert Growing(sent);
      var next := CliStepIntended(sent, script[0], shell);
      if !(script[0].Response? && script[0].stopReason == "end_turn") {
        StepKeepsRequests(sent, script[0], shell);
      }
      assert next.requests == sent.requests;
      assert sent.messages <= next.messages;
      IntendedRequestsGrow(next, script[1..], shell);
    }
  }
}
