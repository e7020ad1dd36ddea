/**
 * What both agent loops share: the content blocks an endpoint response
 * carries, the messages of a conversation, and the two passes of a tool round
 * -- scan the blocks in order collecting tool calls, then run the calls in
 * order, each producing one `tool_result` block.
 */
module Conversation {
  import opened Wrappers
  import opened Strings
  import opened FileSystem
  import opened ToolExecutor

  /** A content block of a response. `citations` counts the block's citations. */
  datatype Block =
    | Text(text: string, citations: nat)
    | ToolUse(id: string, name: string, input: Input)
    | ServerToolUse(query: string)

  /** One call of the endpoint: a response, or the exception the call raised. */
  datatype Reply = Response(stopReason: string, content: seq<Block>) | Raised(message: string)

  datatype Role = User | Assistant

  /**
   * A `tool_result` block. `isError` stands for the presence of the
   * `"is_error": True` key, which is added only for a failed result.
   */
  datatype ResultBlock = ResultBlock(toolUseId: string, content: string, isError: bool)

  datatype Content = Plain(text: string) | Blocks(blocks: seq<Block>) | Results(results: seq<ResultBlock>)

  datatype Message = Message(role: Role, content: Content)

  /** `{"tool_name", "tool_use_id", "tool_input"}` collected from a `tool_use` block. */
  datatype ToolCall = ToolCall(name: string, id: string, input: Input)

  const EditorTool: string := "str_replace_based_edit_tool"

  /**
   * The value of the `tool_name` variable after a block; `None` while it is
   * unbound. Only a `bash` block and an editor block assign it; the editor
   * dispatches under its input's "command" (a missing one reads "None").
   */
  function NextToolName(b: Block, current: Option<string>): Option<string> {
    match b
    case ToolUse(_, name, input) =>
      if name == "bash" then Some(name)
      else if name == EditorTool then Some(Field(input, "command"))
      else current
    case _ => current
  }

  const CitedLabel: string := "**Cited sources:** "
  const SearchedLabel: string := "\n**Searched for:** "
  /** The blank line that ends each notice. */
  const Gap: string := "\n\n"

  /**
   * The notebook's display text after one more block: the block's text, a
   * search notice, or a citation count, appended to `text`.
   */
  function WithBlockText(text: string, b: Block): string {
    match b
    case Text(t, n) => if n > 0 then text + t + CitedLabel + NatToString(n) + Gap else text + t
    case ServerToolUse(q) => text + SearchedLabel + q + Gap
    case ToolUse(_, _, _) => text
  }

  /** The state of the first pass: calls so far, `tool_name`, display text, or the fault of an unbound name. */
  datatype Scan = Scanned(calls: seq<ToolCall>, toolName: Option<string>, text: string) | Unbound

  /** The first pass's work on one block. */
  function ScanStep(s: Scan, b: Block): Scan {
    match s
    case Unbound => Unbound
    case Scanned(calls, name, text) =>
      var name' := NextToolName(b, name);
      var text' := WithBlockText(text, b);
      match b
      case ToolUse(id, _, input) =>
        if name'.None? then Unbound else Scanned(calls + [ToolCall(name'.value, id, input)], name', text')
      case _ => Scanned(calls, name', text')
  }

  /** The first pass over `blocks`, starting from the `tool_name` left by earlier rounds. */
  function ScanBlocks(blocks: seq<Block>, start: Option<string>): Scan
    decreases |blocks|
  {
    if blocks == [] then Scanned([], start, "")
    else ScanStep(ScanBlocks(blocks[..|blocks| - 1], start), blocks[|blocks| - 1])
  }

  /** The `tool_use` blocks among `blocks`, in order. */
  function ToolUses(blocks: seq<Block>): (r: seq<Block>)
    ensures forall i :: 0 <= i < |r| ==> r[i].ToolUse?
    decreases |blocks|
  {
    if blocks == [] then []
    else
      var last := blocks[|blocks| - 1];
      ToolUses(blocks[..|blocks| - 1]) + (if last.ToolUse? then [last] else [])
  }

  /**
   * `text` followed by the text of the text blocks, which the notebook shows
   * for an unusual stop reason.
   */
  function WithTexts(text: string, blocks: seq<Block>): string
    decreases |blocks|
  {
    if blocks == [] then text
    else
      var last := blocks[|blocks| - 1];
      var prior := WithTexts(text, blocks[..|blocks| - 1]);
      if last.Text? then prior + last.text else prior
  }

  predicate Dispatches(name: string) {
    name == "bash" || name == EditorTool
  }

  /** The scan collects one call per `tool_use` block, in block order, with the block's id and input. */
  lemma {:induction false} ScanCollectsToolUses(blocks: seq<Block>, start: Option<string>)
    requires ScanBlocks(blocks, start).Scanned?
    ensures var calls := ScanBlocks(blocks, start).calls;
      var uses := ToolUses(blocks);
      && |calls| == |uses|
      && forall i :: 0 <= i < |calls| ==> calls[i].id == uses[i].id && calls[i].input == uses[i].input
    decreases |blocks|
  {
    if blocks != [] {
      var init := blocks[..|blocks| - 1];
      var b := blocks[|blocks| - 1];
      var s0 := ScanBlocks(init, start);
      assert s0.Scanned?;
      ScanCollectsToolUses(init, start);
      if b.ToolUse? {
        assert ToolUses(blocks) == ToolUses(init) + [b];
      } else {
        assert ToolUses(blocks) == ToolUses(init);
      }
    }
  }

  /** After the scan, `tool_name` is the name of the last call, or what it was before when there is none. */
  lemma {:induction false} ScanLeavesLastName(blocks: seq<Block>, start: Option<string>)
    requires ScanBlocks(blocks, start).Scanned?
    ensures var s := ScanBlocks(blocks, start);
      && (s.calls == [] ==> s.toolName == start)
      && (s.calls != [] ==> s.toolName == Some(s.calls[|s.calls| - 1].name))
    decreases |blocks|
  {
    if blocks != [] {
      var init := blocks[..|blocks| - 1];
      assert ScanBlocks(init, start).Scanned?;
      ScanLeavesLastName(init, start);
    }
  }

  /**
   * A `bash` block is dispatched as "bash", an editor block under its
   * "command", and a block of any other tool keeps the name before it.
   */
  lemma {:induction false} ScanDispatchNames(blocks: seq<Block>, start: Option<string>)
    requires ScanBlocks(blocks, start).Scanned?
    ensures var calls := ScanBlocks(blocks, start).calls;
      var uses := ToolUses(blocks);
      && |calls| == |uses|
      && (forall i :: 0 <= i < |calls| && uses[i].name == "bash" ==> calls[i].name == "bash")
      && (forall i :: 0 <= i < |calls| && uses[i].name == EditorTool ==>
            calls[i].name == Field(uses[i].input, "command"))
      && (forall i :: 0 < i < |calls| && !Dispatches(uses[i].name) ==> calls[i].name == calls[i - 1].name)
      && (|calls| > 0 && !Dispatches(uses[0].name) ==> start == Some(calls[0].name))
    decreases |blocks|
  {
    ScanCollectsToolUses(blocks, start);
    if blocks != [] {
      var init := blocks[..|blocks| - 1];
      var b := blocks[|blocks| - 1];
      var s0 := ScanBlocks(init, start);
      assert s0.Scanned?;
      ScanDispatchNames(init, start);
      ScanLeavesLastName(init, start);
      if b.ToolUse? {
        assert ToolUses(blocks) == ToolUses(init) + [b];
        var name := NextToolName(b, s0.toolName);
        assert ScanBlocks(blocks, start).calls == s0.calls + [ToolCall(name.value, b.id, b.input)];
      } else {
        assert ToolUses(blocks) == ToolUses(init);
      }
    }
  }

  /**
   * The scan faults exactly when `tool_name` is still unbound and the first
   * `tool_use` block names neither `bash` nor the editor.
   */
  lemma {:induction false} ScanUnboundExactly(blocks: seq<Block>, start: Option<string>)
    ensures ScanBlocks(blocks, start).Unbound? <==>
      start.None? && |ToolUses(blocks)| > 0 && !Dispatches(ToolUses(blocks)[0].name)
    decreases |blocks|
  {
    if blocks != [] {
      var init := blocks[..|blocks| - 1];
      ScanUnboundExactly(init, start);
      if ScanBlocks(init, start).Scanned? {
        ScanCollectsToolUses(init, start);
        ScanLeavesLastName(init, start);
        if |ToolUses(init)| == 0 {
          assert ScanBlocks(init, start).toolName == start;
        } else {
          assert ToolUses(blocks)[0] == ToolUses(init)[0];
          if start.None? {
            assert ScanBlocks(init, start).toolName.Some?;
          }
        }
      }
    }
  }

  /** The `tool_result` block for one call. */
  function ResultOf(c: ToolCall, r: ToolResult): ResultBlock {
    ResultBlock(c.id, r.content, r.isError)
  }

  datatype Run = Run(results: seq<ResultBlock>, fs: Fs)

  /** The second pass: run every call in order, each on the files the previous ones left. */
  function RunCalls(copy: Copy, calls: seq<ToolCall>, fs: Fs, shell: Shell): (r: Run)
    ensures |r.results| == |calls|
    decreases |calls|
  {
    if calls == [] then Run([], fs)
    else
      var prior := RunCalls(copy, calls[..|calls| - 1], fs, shell);
      var c := calls[|calls| - 1];
      var out := Execute(copy, c.name, c.input, prior.fs, shell);
      Run(prior.results + [ResultOf(c, out.result)], out.fs)
  }

  /** Dropping the last call drops the last result. */
  lemma RunCallsDropLast(copy: Copy, calls: seq<ToolCall>, fs: Fs, shell: Shell)
    requires calls != []
    ensures RunCalls(copy, calls[..|calls| - 1], fs, shell).results == RunCalls(copy, calls, fs, shell).results[..|calls| - 1]
  {
    var prior := RunCalls(copy, calls[..|calls| - 1], fs, shell);
    var whole := RunCalls(copy, calls, fs, shell);
    assert whole.results == prior.results + [whole.results[|calls| - 1]];
  }

  /**
   * Taking `k` elements of `whole` without its last element is taking `k`
   * elements of `whole`. Kept apart so `RunCallsPrefix` stays cheap to prove.
   */
  lemma PrefixOfPrefix(whole: seq<ResultBlock>, prior: seq<ResultBlock>, k: nat)
    requires |whole| > 0 && prior == whole[..|whole| - 1] && k <= |prior|
    ensures prior[..k] == whole[..k]
  {
  }

  /** Running a prefix of the calls gives a prefix of the results. */
  lemma {:induction false} RunCallsPrefix(copy: Copy, calls: seq<ToolCall>, fs: Fs, shell: Shell, k: nat)
    requires k <= |calls|
    ensures RunCalls(copy, calls[..k], fs, shell).results == RunCalls(copy, calls, fs, shell).results[..k]
    decreases |calls|
  {
    var n := |calls|;
    if k < n {
      var init := calls[..n - 1];
      var prior := RunCalls(copy, init, fs, shell).results;
      var whole := RunCalls(copy, calls, fs, shell).results;
      assert RunCalls(copy, calls[..k], fs, shell).results == prior[..k] by {
        assert init[..k] == calls[..k];
        RunCallsPrefix(copy, init, fs, shell, k);
      }
      assert prior[..k] == whole[..k] by {
        RunCallsDropLast(copy, calls, fs, shell);
        PrefixOfPrefix(whole, prior, k);
      }
    } else {
      assert calls[..k] == calls;
    }
  }

  /** Result `i` is what `execute_tool` returns for call `i` after calls `0..i-1` have run. */
  lemma RunCallsInOrder(copy: Copy, calls: seq<ToolCall>, fs: Fs, shell: Shell, i: nat)
    requires i < |calls|
    ensures var before := RunCalls(copy, calls[..i], fs, shell).fs;
      var out := Execute(copy, calls[i].name, calls[i].input, before, shell);
      RunCalls(copy, calls, fs, shell).results[i] == ResultOf(calls[i], out.result)
  {
    RunCallsPrefix(copy, calls, fs, shell, i + 1);
    var upTo := calls[..i + 1];
    assert upTo[..i] == calls[..i];
    assert upTo[i] == calls[i];
    assert RunCalls(copy, upTo, fs, shell).results[i] == RunCalls(copy, calls, fs, shell).results[i];
  }

  /**
   * A round's results answer its `tool_use` blocks: one result per block,
   * in block order, each carrying its block's id.
   */
  lemma RoundResultsMatchUses(copy: Copy, blocks: seq<Block>, start: Option<string>, fs: Fs, shell: Shell)
    requires ScanBlocks(blocks, start).Scanned?
    ensures var run := RunCalls(copy, ScanBlocks(blocks, start).calls, fs, shell);
      var uses := ToolUses(blocks);
      |run.results| == |uses| && forall i :: 0 <= i < |uses| ==> run.results[i].toolUseId == uses[i].id
  {
    ScanCollectsToolUses(blocks, start);
    var calls := ScanBlocks(blocks, start).calls;
    forall i | 0 <= i < |calls|
      ensures RunCalls(copy, calls, fs, shell).results[i].toolUseId == calls[i].id
    {
      RunCallsInOrder(copy, calls, fs, shell, i);
    }
  }

  /** The notebook's display text after one more executed call: its name, then its output fenced. */
  function WithCallText(text: string, c: ToolCall, r: ResultBlock): string {
    text + "**Executing tool:** " + c.name + Gap + "```\n" + r.content + "\n```" + Gap
  }

  function CallsText(calls: seq<ToolCall>, results: seq<ResultBlock>): string
    requires |calls| == |results|
    decreases |calls|
  {
    if calls == [] then ""
    else
      var n := |calls|;
      WithCallText(CallsText(calls[..n - 1], results[..n - 1]), calls[n - 1], results[n - 1])
  }

  /** The heading of the second pass, with the number of calls. */
  function ExecutingText(n: nat): string {
    "\n**Executing " + NatToString(n) + " tool(s)...**\n\n"
  }

  /** Once the scan has faulted it stays faulted. */
  lemma {:induction false} UnboundSticks(blocks: seq<Block>, start: Option<string>, j: nat)
    requires j <= |blocks| && ScanBlocks(blocks[..j], start).Unbound?
    ensures ScanBlocks(blocks, start).Unbound?
    decreases |blocks| - j
  {
    if j < |blocks| {
      assert blocks[..j + 1][..j] == blocks[..j];
      UnboundSticks(blocks, start, j + 1);
    } else {
      assert blocks[..j] == blocks;
    }
  }

  /**
   * The first pass, `for block in response.content`: gather display text and
   * tool calls; an unbound `tool_name` ends it with the fault.
   */
  method ScanResponse(blocks: seq<Block>, start: Option<string>) returns (scan: Scan)
    ensures scan == ScanBlocks(blocks, start)
  {
    var calls: seq<ToolCall> := [];
    var toolName := start;
    var text := "";
    var j := 0;
    while j < |blocks|
      invariant 0 <= j <= |blocks|
      invariant ScanBlocks(blocks[..j], start) == Scanned(calls, toolName, text)
    {
      var b := blocks[j];
      assert blocks[..j + 1][..j] == blocks[..j];
      ghost var next := ScanStep(Scanned(calls, toolName, text), b);
      assert ScanBlocks(blocks[..j + 1], start) == next;
      match b {
        case Text(t, n) =>
          text := text + t;
          if n > 0 {
            text := text + CitedLabel + NatToString(n) + Gap;
          }
          assert Scanned(calls, toolName, text) == next;
        case ServerToolUse(q) =>
          text := text + SearchedLabel + q + Gap;
          assert Scanned(calls, toolName, text) == next;
        case ToolUse(id, name, input) =>
          if name == "bash" {
            toolName := Some(name);
          } else if name == EditorTool {
            toolName := Some(Field(input, "command"));
          }
          if toolName.None? {
            UnboundSticks(blocks, start, j + 1);
            return Unbound;
          }
          calls := calls + [ToolCall(toolName.value, id, input)];
          assert Scanned(calls, toolName, text) == next;
      }
      j := j + 1;
    }
    assert blocks[..j] == blocks;
    scan := Scanned(calls, toolName, text);
  }

  /**
   * The second pass, `for tool_call in tool_calls`: run each call, append its
   * `tool_result` block and its display text.
   */
  method RunToolCalls(copy: Copy, calls: seq<ToolCall>, fs0: Fs, shell: Shell)
    returns (results: seq<ResultBlock>, fs: Fs, text: string)
    ensures Run(results, fs) == RunCalls(copy, calls, fs0, shell)
    ensures text == CallsText(calls, results)
  {
    results, fs, text := [], fs0, "";
    for m := 0 to |calls|
      invariant Run(results, fs) == RunCalls(copy, calls[..m], fs0, shell)
      invariant text == CallsText(calls[..m], results)
    {
      var call := calls[m];
      CallStep(copy, calls, fs0, shell, m);
      text := text + "**Executing tool:** " + call.name + Gap;
      var out := Execute(copy, call.name, call.input, fs, shell);
      fs := out.fs;
      text := text + "```\n" + out.result.content + "\n```" + Gap;
      results := results + [ResultOf(call, out.result)];
    }
    assert calls[..|calls|] == calls;
  }

  /** One more iteration of the second pass extends both the run and its text by call `m`. */
  lemma CallStep(copy: Copy, calls: seq<ToolCall>, fs0: Fs, shell: Shell, m: nat)
    requires m < |calls|
    ensures var prior := RunCalls(copy, calls[..m], fs0, shell);
      var out := Execute(copy, calls[m].name, calls[m].input, prior.fs, shell);
      var results := prior.results + [ResultOf(calls[m], out.result)];
      && RunCalls(copy, calls[..m + 1], fs0, shell) == Run(results, out.fs)
      && CallsText(calls[..m + 1], results) == WithCallText(CallsText(calls[..m], prior.results), calls[m], results[m])
  {
    assert calls[..m + 1][..m] == calls[..m];
    var prior := RunCalls(copy, calls[..m], fs0, shell);
    var out := Execute(copy, calls[m].name, calls[m].input, prior.fs, shell);
    var results := prior.results + [ResultOf(calls[m], out.result)];
    assert results[..m] == prior.results;
  }
}
