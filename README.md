# A verified model of the coding agents' tool executor and agent loops

The repository holds two copies of a small coding agent.

- `simple_agent.py` is a command-line program. It reads a line from the user and calls a model endpoint again and again.
- `notebook.py` is a chat notebook. Its `handle_message` answers one chat turn.

Both copies have the same `execute_tool`. It serves four tools over a directory tree:

- `view` returns a file's text, read with universal newlines, or a directory's sorted entry names.
- `create` makes the parent directories and writes a file.
- `str_replace` replaces the first occurrence of a text in a file's decoded text and writes the result back.
- `bash` runs a shell command and returns its stdout and stderr as the content. A non-zero exit status shows only as the error flag.

Each endpoint reply is handled in two passes:

1. The first pass scans the reply's content blocks in order. It collects one tool call per `tool_use` block. A `bash` block is dispatched as `bash`. An editor block (`str_replace_based_edit_tool`) is dispatched under its input's `command`. Any other block reuses the name left in the variable `tool_name`.
2. The second pass runs the calls in order. Each call produces one `tool_result` block.

The reply is then appended to the conversation as the assistant's message. The results follow as one user message.

The model is in Dafny, split into modules that follow the program's structure:

- `Strings` models the Python string behaviour the executor depends on:
  - `in`
  - `str.replace(old, new, 1)`
  - `sorted` on `str`
  - splitting and joining
  - decimal rendering
- `Paths` models relative `pathlib` paths: parsing, rendering and `.parent`.
- `FileSystem` models the directory tree.
  - The tree is a map from paths to files and directories.
  - Lookup walks from the root, as the OS does.
  - It has `mkdir`, `mkdir(parents=True, exist_ok=True)`, `read_text` and `write_text`.
  - `read_text` opens the file in text mode, so a stored `"\r\n"` or lone `"\r"` comes back as `"\n"`. `write_text` stores the text as given; this is POSIX behaviour, where `"\n"` is written unchanged.
  - OS errors are modelled as `[Errno N] description: 'path'`.
- `ToolExecutor` models `execute_tool`. One function covers both copies: a `Copy` parameter selects the wording of the three messages that differ between them.
- `Conversation` models content blocks, messages and the two passes. The passes appear both as functions and as the loops `ScanResponse` and `RunToolCalls`.
- `ChatAgent` models `handle_message` as the method `HandleMessage`, proved equal to the function `ChatTurn`.
- `CliAgent` models the command-line main loop as the method `RunCli`, proved equal to `CliSession`. It also gives the corrected loop `CliSessionIntended` (see Findings).

The endpoint, the shell and the user's input are inputs to the model:

- **Endpoint.** A script gives the endpoint's replies. Each reply is a response (a stop reason and content blocks) or the exception the call raised. The model records the messages of every request.
- **Shell.** A shell is a function from a command and the tree to an exit (stdout, stderr, return code, new tree) or a fault (message, new tree).
- **User input.** The user's lines are a list, and its end is end of input.

A missing tool-input field reads as `"None"`, which is what `str(None)` gives in the source. This is how the source behaves, for example when creating a file named `None`.

The variable `tool_name` is modelled as `Option<string>`, with `None` meaning unbound. Reading it unbound differs between the copies:

- In the command-line copy it is a module-level global, so reading it unbound raises `NameError` and ends the program.
- In the notebook it is a local of `handle_message`, so reading it unbound raises `UnboundLocalError`. The handler catches this and returns `Error: ...`. The message text is the one Python 3.11 and later give (`cannot access local variable 'tool_name' where it is not associated with a value`). Earlier versions say `local variable 'tool_name' referenced before assignment`.

In `handle_message`, the test `stop_reason not in ["end_turn"]` (notebook.py:431) sits in the branch that has already excluded `end_turn`. So the "Stop reason:" line is always added there. `ChatAgent.OtherStopEnds` states this.

In the command-line program, a reply whose stop reason is neither `tool_use` nor `end_turn` (`max_tokens`, say) changes nothing. The next iteration sends the identical request again (`CliAgent.OtherReplyKeepsMessages`).

## Model

| member | source | states |
|---|---|---|
| Strings.FindFrom | simple_agent.py:70 | the position found holds a match, and no position between the start and it does; `None` means no match from the start |
| Strings.FirstMatch | simple_agent.py:70 | reports a position exactly when `old_str in content`, and it is the first occurrence |
| Strings.ReplaceAbsent | simple_agent.py:76 | replacing text that does not occur leaves the content unchanged |
| Strings.ReplaceAtFirst | simple_agent.py:76 | `replace(old, new, 1)` puts `new` at the first occurrence and keeps the text before and after it; the length changes by `len(new) - len(old)` |
| Strings.LaterOccurrenceKept | simple_agent.py:76 | an occurrence after the first survives the replacement, shifted by the change in length (only one is replaced) |
| Strings.SplitOn | simple_agent.py:38 | splitting gives at least one piece, and no piece contains the separator |
| Strings.SplitAfterPlain | simple_agent.py:38 | a text without the separator joins the first piece of what follows it |
| Strings.SplitJoin | simple_agent.py:38 | splitting pieces joined with a separator they lack gives back the pieces |
| Strings.BelowIrreflexive | simple_agent.py:43 | the code-point order `sorted` uses on `str` is irreflexive |
| Strings.BelowTransitive | simple_agent.py:43 | that order is transitive |
| Strings.BelowTotal | simple_agent.py:43 | any two different names are ordered one way or the other |
| Strings.BelowAsymmetric | simple_agent.py:43 | that order is asymmetric |
| Strings.LeastExists | simple_agent.py:43 | every non-empty set of names has a least name |
| Strings.LeastUnique | simple_agent.py:43 | the least name is unique |
| Strings.SortedNames | simple_agent.py:43 | `sorted(...)` of a directory's names is strictly ascending and holds exactly those names, each once |
| Strings.NatToString | notebook.py:392 | a count is rendered as one or more decimal digits with no leading zero |
| Strings.DecimalRoundTrip | notebook.py:392 | reading the rendered digits back gives the count |
| Strings.Universal | simple_agent.py:40 | universal-newline decoding, as `read_text` applies it, never lengthens the text |
| Strings.UniversalNoCr | simple_agent.py:40 | decoded text holds no carriage return |
| Strings.UniversalIdentity | simple_agent.py:40 | decoding gives back the text itself exactly when the text holds no carriage return |
| Strings.UniversalIdempotent | simple_agent.py:69 | decoding an already decoded text changes nothing: a text `view` showed, written back as it is, reads back the same |
| Strings.CrNeverFound | simple_agent.py:69-70 | an `old_str` holding a carriage return never occurs in decoded text |
| Paths.KeepNames | simple_agent.py:38 | keeps only real path components, which are neither empty nor `.` |
| Paths.Parse | simple_agent.py:38 | `Path(str(...))` gives a path of valid components |
| Paths.KeepValidNames | simple_agent.py:38 | valid components are all kept |
| Paths.ParseRender | simple_agent.py:46 | parsing the rendered form `{path}` gives back the same path |
| FileSystem.ResolveValid | simple_agent.py:39-42 | in a valid tree, lookup finds exactly the entries present; a lookup that meets a file part-way has a file as a proper ancestor |
| FileSystem.AncestorsAreDirs | simple_agent.py:55 | every proper ancestor of an entry is a directory |
| FileSystem.ProperPrefixOfParent | simple_agent.py:55 | a proper ancestor of a path is an ancestor of its parent |
| FileSystem.FileAboveBlocks | simple_agent.py:55 | below a file, every walk from the root stops with "not a directory" |
| FileSystem.MakeDirsFileError | simple_agent.py:55 | with a file on the path, `mkdir(parents=True, exist_ok=True)` raises `[Errno 17]` for the directory when it is that file, and `[Errno 20]` for it otherwise |
| FileSystem.MakeDirsSpec | simple_agent.py:55 | `mkdir(parents=True, exist_ok=True)` succeeds exactly when no entry on the path is a file; it then keeps the tree valid and every entry, adds only directories on the path, and changes nothing when the directory already exists |
| ToolExecutor.UnknownToolRejected | simple_agent.py:102-106 | any other tool name gives `Error: Unknown tool '<name>'`, marked as an error, and changes nothing |
| ToolExecutor.ViewOutcome | simple_agent.py:37-46 | `view` changes nothing; it returns a file's text with `\r\n` and `\r` decoded to `\n`, a directory's sorted names one per line, or `Error: <path> does not exist` |
| ToolExecutor.CreateOutcome | simple_agent.py:47-57 | `create` refuses an empty `file_text` and changes nothing; otherwise it fails exactly when an ancestor is a file or the path is a directory; a failure changes nothing and is `Error executing create: ` followed by `[Errno 17] File exists: '<parent>'` when the parent is a file, `[Errno 20] Not a directory: '<parent>'` when a file lies further up, and `[Errno 21] Is a directory: '<path>'` when the path is a directory; a success writes the text, keeps the tree valid, keeps every other entry and adds only directories above the path |
| ToolExecutor.WriteBelowDirs | simple_agent.py:55-56 | after the parent directories are made, the write fails exactly when the path is a directory, and a success adds only the file and directories above it |
| ToolExecutor.CreateThenView | simple_agent.py:37-57 | a `view` of a path just created returns the text written with its line endings decoded, which is the text written exactly when it holds no carriage return |
| ToolExecutor.WriteIntoDir | simple_agent.py:55-56 | when the path is a directory, making its parents changes nothing and the write raises `[Errno 21]` for the path |
| ToolExecutor.StrReplaceOutcome | simple_agent.py:58-81 | a missing path, a directory, or text without `old_str` each give their error with nothing changed; otherwise the file is rewritten as its decoded text with exactly the first occurrence replaced, and no other entry changes; an `old_str` holding a carriage return always gives the not-found error |
| ToolExecutor.BashOutcome | simple_agent.py:83-101 | a missing or empty command is refused before anything runs; otherwise the output is both streams, it is an error exactly when the exit code is non-zero, and a fault becomes `Error executing bash: ...` |
| ToolExecutor.CopiesAgree | notebook.py:141-210 | the notebook's executor leaves the same files and error flag as the command-line one, and differs in text only in its three reworded refusals |
| Conversation.ScanCollectsToolUses | simple_agent.py:162-183 | the first pass collects one call per `tool_use` block, in block order, with that block's id and input |
| Conversation.ScanLeavesLastName | simple_agent.py:170-192 | after a round `tool_name` holds the last call's name, or what it held before when there was no call |
| Conversation.ScanDispatchNames | simple_agent.py:170-174 | a `bash` block is dispatched as `bash`, an editor block under its `command`, and a block of another tool under the name before it |
| Conversation.ScanUnboundExactly | simple_agent.py:170-183 | the first pass faults exactly when `tool_name` is unbound and the first `tool_use` block names neither `bash` nor the editor |
| Conversation.UnboundSticks | simple_agent.py:162-183 | once the first pass has faulted on a block, the whole pass faults |
| Conversation.ScanResponse | notebook.py:369-389 | the first-pass loop computes exactly the scan, with its display text, or the fault |
| Conversation.RunCallsDropLast | simple_agent.py:185-209 | dropping the last call drops exactly the last result |
| Conversation.RunCallsPrefix | simple_agent.py:185-209 | running a prefix of the calls gives the same prefix of the results |
| Conversation.RunCallsInOrder | simple_agent.py:185-209 | result `i` is what `execute_tool` returns for call `i`, run on the tree calls `0..i-1` left |
| Conversation.RoundResultsMatchUses | simple_agent.py:162-209 | a round's results answer its `tool_use` blocks one for one, in order, by id |
| Conversation.CallStep | notebook.py:393-413 | one more iteration of the second pass extends the results and the display text by exactly that call |
| Conversation.RunToolCalls | notebook.py:391-413 | the second-pass loop computes exactly `RunCalls` and its display text |
| ChatAgent.Converted | notebook.py:340-344 | one message per chat message, in order; only role `user` stays a user message |
| ChatAgent.HandleMessage | notebook.py:330-441 | the handler's loops return exactly what `ChatTurn` describes: the reply text, the messages, the files and every request |
| ChatAgent.EmptyHistoryGreets | notebook.py:332-333 | an empty history gets the greeting, with no endpoint call and no file change |
| ChatAgent.StepKeepsRequests | notebook.py:363-438 | handling a reply makes no endpoint call of its own |
| ChatAgent.RequestsKept | notebook.py:348-361 | the loop only adds requests, and the first one it adds carries the current messages |
| ChatAgent.FirstRequestIsHistory | notebook.py:339-361 | the first call of a turn carries the converted history and nothing else |
| ChatAgent.ToolRoundContinues | notebook.py:363-425 | a round with calls goes round again: the reply and then the results are appended, the round's text is accumulated, and `tool_name` is left at the last call |
| ChatAgent.ToolFreeRoundFinishes | notebook.py:415-427 | a round without calls appends the reply and returns the accumulated text, or `Task completed.` when that is empty |
| ChatAgent.OtherStopEnds | notebook.py:428-438 | any other stop reason returns the accumulated text, `Stop reason: ...` and the reply's text, after exactly one more call, whatever would follow |
| ChatAgent.RaisedEnds | notebook.py:440-441 | an exception from the call returns `Error: ` and its text |
| ChatAgent.UnboundNameEnds | notebook.py:378-390 | an unbound `tool_name` read in the first pass returns the `UnboundLocalError` text, and no tool runs |
| ChatAgent.ReplyExtendsAccumulated | notebook.py:421-438 | a returned text other than an error or `Task completed.` extends what had accumulated |
| ChatAgent.RequestsGrow | notebook.py:415-425 | within a turn each request extends the one before it |
| CliAgent.RunCli | simple_agent.py:127-226 | the program's loops leave exactly the messages, unread input, files, requests and end status `CliSession` describes |
| CliAgent.NoInputEnds | simple_agent.py:128 | at end of input before the first line the program ends with `EOFError` before any call |
| CliAgent.CrashedStays | simple_agent.py:127-226 | after an uncaught exception nothing more happens |
| CliAgent.StepKeepsRequests | simple_agent.py:157-226 | handling a reply makes no call, and ends the program exactly on an exception, an unbound `tool_name` or end of input |
| CliAgent.RequestsKept | simple_agent.py:146-156 | the loop only adds requests, and the first one it adds carries the current messages |
| CliAgent.FirstRequestIsOpening | simple_agent.py:128-156 | the first call carries exactly the instructions block and the first line |
| CliAgent.ToolRoundAppends | simple_agent.py:157-219 | a `tool_use` reply appends the reply and, when it holds `tool_use` blocks, one user message of results |
| CliAgent.UnboundNameEnds | simple_agent.py:170-183 | an unbound `tool_name` in the first pass ends the program with `NameError` |
| CliAgent.OtherReplyKeepsMessages | simple_agent.py:220-226 | a reply other than `tool_use` changes neither the messages nor the files |
| CliAgent.EndTurnResends | simple_agent.py:220-226 | as written, the call after an `end_turn` sends exactly the same messages again |
| CliAgent.EndTurnDropsInput | simple_agent.py:225-226 | a concrete run: the second line typed never reaches the endpoint |
| CliAgent.IntendedEndTurnSendsInput | simple_agent.py:225-226 | in the corrected loop, the call after an `end_turn` carries the reply and then the line read |
| CliAgent.IntendedEndTurnAnswersInput | simple_agent.py:225-226 | the same concrete run in the corrected loop sends the second line |
| CliAgent.RequestsGrow | simple_agent.py:146-219 | each request extends the one before it |
| CliAgent.IntendedRequestsGrow | simple_agent.py:146-226 | the corrected loop keeps that invariant too |

## Left out

- The notebook's UI cells, the `print` output of the command-line program, and the notebook's display of tool output beyond the accumulated text are left out: presentation only.
- The first pass's display text is built for both copies. The command-line program prints its own rendering of it and keeps nothing, so its model ignores that text.
- The endpoint request's other parameters are left out: the system prompt, model name, `max_tokens`, `temperature`, tools list and `cache_control`. Only the messages are recorded. The instructions text is a parameter.
- The instructions text is not derived from a prompt file, and the notebook's per-call read of its prompt file is not modelled: both are file input outside the tree. An exception from that read would end the turn like any other exception, and a `Raised` reply covers it.
- `restore_broken_file`, `cleanup_files`, environment loading and API-key handling are left out: setup code outside the loops.
- Absolute paths, `..`, symbolic links and permissions are not modelled. Paths are relative and normalised the way `pathlib` normalises them.
- Tool inputs hold only string values. A non-string JSON value would be shown through `str(...)`, which is not modelled.
- The exact quoting of file names in OS error texts follows the `[Errno N] description: 'path'` form only.
- File texts are decoded as Unicode code points with no encoding step. Decoding errors of `read_text` and platforms whose line separator is not `"\n"` are not modelled.
- The shell's stdout and stderr are given already decoded. `subprocess.run(..., text=True)` applies universal newlines to them, and the oracle is taken to have done so.
- The shell is an oracle. The 30-second timeout and other failures of `subprocess.run` are its `Faulted` outcome, and concurrency is not modelled.
- The endpoint's replies come from a script that does not depend on the messages sent. The loops' endless `while True` is cut off when the script runs out.
- Content blocks other than text, `tool_use` and `server_tool_use` are left out, such as web-search results. Citation lists are reduced to their count.
- An editor block without a `command` gets a tool name of `None` in the source. The model uses the string `"None"`, and every output is the same.
- The command-line copy's outer `while True` is not repeated: as written, its inner loop never exits (see Findings).

## Findings

| source | as written | input that shows it | evidently intended | confidence | as-written member | corrected member |
|---|---|---|---|---|---|---|
| simple_agent.py:225-226 | after an `end_turn` reply the program reads the next line into `user_input` and loops. Nothing appends the line or the reply to `messages`, so the next call repeats the previous request and the line is lost | lines `hello`, `thanks` and two `end_turn` replies: both calls send only the instructions and `hello` | the line read is sent as a new user message after the reply it answers | not executed | CliAgent.EndTurnDropsInput | CliAgent.IntendedEndTurnSendsInput |
