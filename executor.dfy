/**
 * `execute_tool`: dispatch on a tool name, perform at most one file or shell
 * operation, and always return a `{content, is_error}` record. There are two
 * copies of it, one in simple_agent.py and one in the notebook; they differ
 * only in three error texts.
 */
module ToolExecutor {
  import opened Wrappers
  import opened Strings
  import opened Paths
  import opened FileSystem

  /** Which copy of `execute_tool` runs. */
  datatype Copy = Cli | Notebook

  /** A tool's input mapping, field name to text. */
  type Input = map<string, string>

  /** `str(tool_input.get(key))`: a missing field reads as "None". */
  function Field(input: Input, key: string): string {
    if key in input then input[key] else "None"
  }

  /** The uniform record `execute_tool` returns. */
  datatype ToolResult = ToolResult(content: string, isError: bool)

  /**
   * What running a shell command gives: the process exited with its output, or
   * running it raised (a timeout or an OS error). Either way the command may
   * have changed the files.
   */
  datatype ShellRun =
    | Exited(stdout: string, stderr: string, returnCode: int, after: Fs)
    | Faulted(message: string, after: Fs)

  /** `subprocess.run(command, shell=True, timeout=30)`, as an oracle. */
  type Shell = (string, Fs) -> ShellRun

  /** A tool result together with the files after the call. */
  datatype Executed = Executed(result: ToolResult, fs: Fs)

  const KnownTools: set<string> := {"view", "create", "str_replace", "bash"}

  /** The record the `except Exception` handler builds. */
  function Fault(toolName: string, message: string): ToolResult {
    ToolResult("Error executing " + toolName + ": " + message, true)
  }

  function NoContentText(copy: Copy): string {
    match copy
    case Cli => "Error: No content provided in file_text"
    case Notebook => "Error: No content provided in file_text parameter"
  }

  function NotFoundText(copy: Copy, target: string, p: Path): string {
    match copy
    case Cli => "Error: Str '" + target + "' not found in " + Render(p)
    case Notebook => "Error: String '" + target + "' not found in " + Render(p)
  }

  function NoCommandText(copy: Copy): string {
    match copy
    case Cli => "Error: No input in command"
    case Notebook => "Error: No command provided in command parameter"
  }

  function MissingText(p: Path): string {
    "Error: " + Render(p) + " does not exist"
  }

  function MissingFileText(p: Path): string {
    "Error: File " + Render(p) + " does not exist"
  }

  function WrittenText(p: Path): string {
    "File " + Render(p) + " written successfully"
  }

  function ReplacedText(target: string, repl: string, p: Path): string {
    "Replaced '" + target + "' with '" + repl + "' in " + Render(p)
  }

  function BashText(stdout: string, stderr: string): string {
    "stdout: " + stdout + "\nstderr: " + stderr
  }

  /** The `view` branch. */
  function View(input: Input, fs: Fs): Executed {
    var p := Parse(Field(input, "path"));
    match Resolve(fs, p)
    case Found(File(t)) => Executed(ToolResult(Universal(t), false), fs)
    case Found(Dir) => Executed(ToolResult(Join(SortedNames(Entries(fs, p)), "\n"), false), fs)
    case _ => Executed(ToolResult(MissingText(p), true), fs)
  }

  /** The `create` branch: check the text, make the parent directories, write. */
  function Create(copy: Copy, input: Input, fs: Fs): Executed {
    var p := Parse(Field(input, "path"));
    var text := Field(input, "file_text");
    if text == "" then Executed(ToolResult(NoContentText(copy), true), fs)
    else
      match MakeDirs(fs, Parent(p))
      case Err(e) => Executed(Fault("create", OsErrorText(e)), fs)
      case Ok(fs1) =>
        match WriteText(fs1, p, text)
        case Err(e) => Executed(Fault("create", OsErrorText(e)), fs1)
        case Ok(fs2) => Executed(ToolResult(WrittenText(p), false), fs2)
  }

  /** The `str_replace` branch: check the file, check the text, replace its first occurrence. */
  function StrReplace(copy: Copy, input: Input, fs: Fs): Executed {
    var p := Parse(Field(input, "path"));
    var target := Field(input, "old_str");
    var repl := Field(input, "new_str");
    if !Exists(fs, p) then Executed(ToolResult(MissingFileText(p), true), fs)
    else
      match ReadText(fs, p)
      case Err(e) => Executed(Fault("str_replace", OsErrorText(e)), fs)
      case Ok(content) =>
        if FirstMatch(content, target).None? then Executed(ToolResult(NotFoundText(copy, target, p), true), fs)
        else
          match WriteText(fs, p, ReplaceFirst(content, target, repl))
          case Err(e) => Executed(Fault("str_replace", OsErrorText(e)), fs)
          case Ok(fs1) => Executed(ToolResult(ReplacedText(target, repl, p), false), fs1)
  }

  /** The `bash` branch: a missing or empty command is refused before anything runs. */
  function Bash(copy: Copy, input: Input, fs: Fs, shell: Shell): Executed {
    if "command" !in input || input["command"] == "" then Executed(ToolResult(NoCommandText(copy), true), fs)
    else
      match shell(input["command"], fs)
      case Exited(out, err, code, after) => Executed(ToolResult(BashText(out, err), code != 0), after)
      case Faulted(msg, after) => Executed(Fault("bash", msg), after)
  }

  /** `execute_tool(tool_name, tool_input)`. */
  function Execute(copy: Copy, toolName: string, input: Input, fs: Fs, shell: Shell): Executed {
    if toolName == "view" then View(input, fs)
    else if toolName == "create" then Create(copy, input, fs)
    else if toolName == "str_replace" then StrReplace(copy, input, fs)
    else if toolName == "bash" then Bash(copy, input, fs, shell)
    else Executed(ToolResult("Error: Unknown tool '" + toolName + "'", true), fs)
  }

  /** An unrecognised name is an error naming the tool, and no file changes. */
  lemma UnknownToolRejected(copy: Copy, toolName: string, input: Input, fs: Fs, shell: Shell)
    requires toolName !in KnownTools
    ensures Execute(copy, toolName, input, fs, shell)
         == Executed(ToolResult("Error: Unknown tool '" + toolName + "'", true), fs)
  {
  }

  /**
   * `view` never changes a file; it returns a file's text with its line
   * endings decoded, a directory's sorted entry names one per line, or the
   * "does not exist" error.
   */
  lemma ViewOutcome(copy: Copy, input: Input, fs: Fs, shell: Shell)
    requires Valid(fs)
    ensures var p := Parse(Field(input, "path"));
      var out := Execute(copy, "view", input, fs, shell);
      && out.fs == fs
      && (p in fs && fs[p].File? ==> out.result == ToolResult(Universal(fs[p].text), false))
      && (p in fs && fs[p] == Dir ==>
            out.result == ToolResult(Join(SortedNames(Entries(fs, p)), "\n"), false))
      && (p !in fs ==> out.result == ToolResult(MissingText(p), true))
  {
    ResolveValid(fs, Parse(Field(input, "path")));
  }

  /**
   * `create` with an empty text is refused with nothing written. Otherwise it
   * succeeds exactly when no directory above the path is a file and the path
   * is not a directory; it then makes the missing directories, writes the text
   * and keeps every other entry. A failure changes nothing and is the
   * `Error executing create:` record of the `OSError` raised: "file exists"
   * for a parent that is a file, "not a directory" for a parent below a file,
   * and "is a directory" for a path that is a directory.
   */
  lemma CreateOutcome(copy: Copy, input: Input, fs: Fs, shell: Shell)
    requires Valid(fs)
    ensures var p := Parse(Field(input, "path"));
      var text := Field(input, "file_text");
      var out := Execute(copy, "create", input, fs, shell);
      && (text == "" ==> out == Executed(ToolResult(NoContentText(copy), true), fs))
      && (text != "" ==>
            (out.result.isError <==> !NoFileOnPath(fs, Parent(p)) || (p in fs && fs[p] == Dir)))
      && (out.result.isError ==> out.fs == fs)
      && (text != "" && !NoFileOnPath(fs, Parent(p)) && Parent(p) in fs ==>
            out.result == Fault("create", OsErrorText(OsError(FileExists, Parent(p)))))
      && (text != "" && !NoFileOnPath(fs, Parent(p)) && Parent(p) !in fs ==>
            out.result == Fault("create", OsErrorText(OsError(NotADirectory, Parent(p)))))
      && (text != "" && NoFileOnPath(fs, Parent(p)) && p in fs && fs[p] == Dir ==>
            out.result == Fault("create", OsErrorText(OsError(IsADirectory, p))))
      && (!out.result.isError ==>
            && out.result.content == WrittenText(p)
            && Valid(out.fs)
            && p in out.fs && out.fs[p] == File(text)
            && (forall q :: q in fs && q != p ==> q in out.fs && out.fs[q] == fs[q])
            && (forall q :: q in out.fs && q !in fs ==> q <= p))
  {
    var p := Parse(Field(input, "path"));
    var text := Field(input, "file_text");
    var d := Parent(p);
    if text != "" {
      MakeDirsSpec(fs, d);
      if MakeDirs(fs, d).Ok? {
        WriteBelowDirs(fs, p, text);
        if p in fs && fs[p] == Dir {
          WriteIntoDir(fs, p, text);
        }
      } else {
        MakeDirsFileError(fs, d);
      }
    }
  }

  /** Writing where a directory is raises "is a directory", and making its parents first changes nothing. */
  lemma WriteIntoDir(fs: Fs, p: Path, text: string)
    requires Valid(fs) && p in fs && fs[p] == Dir
    ensures MakeDirs(fs, Parent(p)) == Ok(fs)
    ensures WriteText(fs, p, text) == Err(OsError(IsADirectory, p))
  {
    ResolveValid(fs, p);
    MakeDirsSpec(fs, Parent(p));
  }

  /**
   * After the parent directories of `p` are made, writing `p` fails exactly
   * when `p` is a directory; a write keeps the tree valid and every other
   * entry, and adds only `p` and directories above it.
   */
  lemma WriteBelowDirs(fs: Fs, p: Path, text: string)
    requires Valid(fs) && MakeDirs(fs, Parent(p)).Ok?
    ensures var fs1 := MakeDirs(fs, Parent(p)).value;
      && (WriteText(fs1, p, text).Err? <==> p in fs && fs[p] == Dir)
      && (WriteText(fs1, p, text).Ok? ==>
            var fs2 := WriteText(fs1, p, text).value;
            && Valid(fs2)
            && p in fs2 && fs2[p] == File(text)
            && (forall q :: q in fs && q != p ==> q in fs2 && fs2[q] == fs[q])
            && (forall q :: q in fs2 && q !in fs ==> q <= p))
  {
    var d := Parent(p);
    MakeDirsSpec(fs, d);
    var fs1 := MakeDirs(fs, d).value;
    if p != [] {
      assert d < p;
      ResolveValid(fs1, d);
    }
    ResolveValid(fs1, p);
    if p in fs1 && fs1[p] == Dir {
      if p != [] && p in fs {
        assert d in fs && fs[d] == Dir;
      }
    } else {
      var fs2 := fs1[p := File(text)];
      assert WriteText(fs1, p, text) == Ok(fs2);
      forall q | q in fs2 && q != [] ensures Parent(q) in fs2 && fs2[Parent(q)] == Dir {
        if q == p {
          assert Parent(q) == d;
        } else if Parent(q) == p {
          assert false;
        }
      }
      forall q | q in fs2 && q !in fs ensures q <= p {
        if q != p {
          assert q <= d;
        }
      }
    }
  }

  /**
   * A `view` of the path just created returns the text written with its line
   * endings decoded: exactly the text written when it holds no carriage return.
   */
  lemma CreateThenView(copy: Copy, input: Input, viewInput: Input, fs: Fs, shell: Shell)
    requires Valid(fs)
    requires !Execute(copy, "create", input, fs, shell).result.isError
    requires Parse(Field(viewInput, "path")) == Parse(Field(input, "path"))
    ensures var after := Execute(copy, "create", input, fs, shell).fs;
      var text := Field(input, "file_text");
      var shown := Execute(copy, "view", viewInput, after, shell).result;
      && shown == ToolResult(Universal(text), false)
      && (shown.content == text <==> '\r' !in text)
  {
    UniversalIdentity(Field(input, "file_text"));
    CreateOutcome(copy, input, fs, shell);
    ViewOutcome(copy, viewInput, Execute(copy, "create", input, fs, shell).fs, shell);
  }

  /**
   * `str_replace` fails, changing nothing, on a missing path, on a directory
   * and on a text that does not contain `old_str`; otherwise it rewrites the
   * file with the first occurrence replaced and keeps every other entry. It
   * works on the decoded text, so the file is written back with `"\n"` line
   * endings and an `old_str` holding a carriage return is never found.
   */
  lemma StrReplaceOutcome(copy: Copy, input: Input, fs: Fs, shell: Shell)
    requires Valid(fs)
    ensures var p := Parse(Field(input, "path"));
      var target := Field(input, "old_str");
      var repl := Field(input, "new_str");
      var out := Execute(copy, "str_replace", input, fs, shell);
      && (p !in fs ==> out == Executed(ToolResult(MissingFileText(p), true), fs))
      && (p in fs && fs[p] == Dir ==>
            out == Executed(Fault("str_replace", OsErrorText(OsError(IsADirectory, p))), fs))
      && (p in fs && fs[p].File? && !Contains(Universal(fs[p].text), target) ==>
            out == Executed(ToolResult(NotFoundText(copy, target, p), true), fs))
      && (p in fs && fs[p].File? && Contains(Universal(fs[p].text), target) ==>
            out == Executed(ToolResult(ReplacedText(target, repl, p), false),
                            fs[p := File(ReplaceFirst(Universal(fs[p].text), target, repl))]))
      && (p in fs && fs[p].File? && '\r' in target ==>
            out == Executed(ToolResult(NotFoundText(copy, target, p), true), fs))
  {
    var p := Parse(Field(input, "path"));
    ResolveValid(fs, p);
    if p in fs && fs[p].File? && '\r' in Field(input, "old_str") {
      CrNeverFound(fs[p].text, Field(input, "old_str"));
    }
  }

  /**
   * `bash` refuses a missing or empty command without running anything;
   * otherwise it reports both streams and is an error exactly when the exit
   * code is not zero, and a fault while running becomes an error record.
   */
  lemma BashOutcome(copy: Copy, input: Input, fs: Fs, shell: Shell)
    ensures var out := Execute(copy, "bash", input, fs, shell);
      && ("command" !in input || input["command"] == "" ==>
            out == Executed(ToolResult(NoCommandText(copy), true), fs))
      && ("command" in input && input["command"] != "" ==>
            match shell(input["command"], fs)
            case Exited(o, e, code, after) =>
              out == Executed(ToolResult(BashText(o, e), code != 0), after)
            case Faulted(msg, after) =>
              out == Executed(ToolResult("Error executing bash: " + msg, true), after))
  {
  }

  /**
   * The two copies agree on every input: same files afterwards, same error
   * flag, and the same text except for their three differently worded errors.
   */
  lemma CopiesAgree(toolName: string, input: Input, fs: Fs, shell: Shell)
    ensures var a := Execute(Cli, toolName, input, fs, shell);
      var b := Execute(Notebook, toolName, input, fs, shell);
      var p := Parse(Field(input, "path"));
      && a.fs == b.fs
      && a.result.isError == b.result.isError
      && (a.result.content != b.result.content ==>
            || (toolName == "create" && a.result.content == NoContentText(Cli)
                && b.result.content == NoContentText(Notebook))
            || (toolName == "str_replace"
                && a.result.content == NotFoundText(Cli, Field(input, "old_str"), p)
                && b.result.content == NotFoundText(Notebook, Field(input, "old_str"), p))
            || (toolName == "bash" && a.result.content == NoCommandText(Cli)
                && b.result.content == NoCommandText(Notebook)))
  {
    if toolName == "create" {
      var text := Field(input, "file_text");
      if text != "" {
        assert Create(Cli, input, fs) == Create(Notebook, input, fs);
      }
    } else if toolName == "str_replace" {
      var p := Parse(Field(input, "path"));
      if Exists(fs, p) && ReadText(fs, p).Ok? && FirstMatch(ReadText(fs, p).value, Field(input, "old_str")).Some? {
        assert StrReplace(Cli, input, fs) == StrReplace(Notebook, input, fs);
      }
    } else if toolName == "bash" {
      if "command" in input && input["command"] != "" {
        assert Bash(Cli, input, fs, shell) == Bash(Notebook, input, fs, shell);
      }
    }
  }
}
