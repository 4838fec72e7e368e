/**
 * `Process.execute` of Sources/SwiftShell/Process.swift: build the script for the directory
 * scope, run the shell on it with both output streams piped, and turn the termination status
 * into the captured standard-output text or a `ShellError`.
 *
 * Spawning and running the child process is an oracle: a function from the executable and the
 * argument vector to either a spawn failure or the exit record of a completed run. Decoding the
 * captured bytes as UTF-8 is likewise a function passed in.
 */
module Processes {
  import opened Wrappers
  import opened Shells
  import opened ShellErrors
  import opened TextLines

  newtype byte = x: int | 0 <= x < 256

  /** Permissive UTF-8 decoding, `String(decoding:as: UTF8.self)`: total, never fails. */
  type Decoder = seq<byte> -> string

  /** Where the command runs: unchanged, after `pushd` into a path, or after `pushd` into a URL's path. */
  datatype Directory = Pwd | Path(path: string) | Url(url: FileUrl)

  // ---------------------------------------------------------------------------------------------
  // Script builder

  /** `makeCommand`: the script text that runs `command` within `directory`. */
  function MakeCommand(command: string, directory: Directory): (r: string)
    ensures |r| == |ScriptPrefix(directory)| + |command| + |ScriptSuffix(directory)|
    ensures r[..|ScriptPrefix(directory)|] == ScriptPrefix(directory)
    ensures r[|ScriptPrefix(directory)|..|ScriptPrefix(directory)| + |command|] == command
    ensures r[|ScriptPrefix(directory)| + |command|..] == ScriptSuffix(directory)
  {
    match directory
    case Pwd => command
    case Path(path) => "pushd " + path + "\n" + command + "\npopd"
    case Url(url) => "pushd '" + url.path + "'\n" + command + "\npopd"
  }

  /** The text a scope puts before the command. */
  function ScriptPrefix(directory: Directory): string
  {
    match directory
    case Pwd => ""
    case Path(path) => "pushd " + path + "\n"
    case Url(url) => "pushd '" + url.path + "'\n"
  }

  /** The text a scope puts after the command. */
  function ScriptSuffix(directory: Directory): string
  {
    if directory.Pwd? then "" else "\npopd"
  }

  /** The command a script runs within `directory`, if the script has that scope's framing. */
  function Unwrap(script: string, directory: Directory): (r: Option<string>)
    ensures r.Some? ==> MakeCommand(r.value, directory) == script
  {
    var pre, suf := ScriptPrefix(directory), ScriptSuffix(directory);
    if |pre| + |suf| <= |script| && script[..|pre|] == pre && script[|script| - |suf|..] == suf then
      var command := script[|pre|..|script| - |suf|];
      assert script == pre + command + suf;
      Some(command)
    else
      None
  }

  /** In the current directory the script is the command itself, multi-line commands included. */
  lemma MakeCommandPwd(command: string)
    ensures MakeCommand(command, Pwd) == command
    ensures Lines(MakeCommand(command, Pwd)) == Lines(command)
  {
  }

  /**
   * Within a path the script is the three-line literal: `pushd` with the path as written (no
   * quoting), the command, and `popd`, joined by newlines with no trailing newline.
   */
  lemma MakeCommandPathText(command: string, path: string)
    ensures MakeCommand(command, Path(path)) == JoinLines(["pushd " + path, command, "popd"])
  {
    ScriptText(command, "pushd " + path);
  }

  /** Within a URL the script is the same three-line literal, with the URL's path between single quotes. */
  lemma MakeCommandUrlText(command: string, url: FileUrl)
    ensures MakeCommand(command, Url(url)) == JoinLines(["pushd '" + url.path + "'", command, "popd"])
  {
    ScriptText(command, "pushd '" + url.path + "'");
  }

  /**
   * Within a path the shell reads three groups of lines: the `pushd` line, every line of the
   * command unchanged, and `popd`.
   */
  lemma MakeCommandPath(command: string, path: string)
    requires '\n' !in path
    ensures Lines(MakeCommand(command, Path(path))) == ["pushd " + path] + Lines(command) + ["popd"]
  {
    assert '\n' !in "pushd " + path by {
      forall i | 0 <= i < |"pushd " + path| ensures ("pushd " + path)[i] != '\n' {
        if i >= 6 { assert ("pushd " + path)[i] == path[i - 6]; }
      }
    }
    assert MakeCommand(command, Path(path)) == "pushd " + path + "\n" + command + "\npopd";
    ScriptLines(command, "pushd " + path);
  }

  /** Within a URL the shell reads the same three groups of lines, the `pushd` line quoting the URL's path. */
  lemma MakeCommandUrl(command: string, url: FileUrl)
    requires '\n' !in url.path
    ensures Lines(MakeCommand(command, Url(url))) == ["pushd '" + url.path + "'"] + Lines(command) + ["popd"]
  {
    var first := "pushd '" + url.path + "'";
    assert '\n' !in first by {
      forall i | 0 <= i < |first| ensures first[i] != '\n' {
        if 7 <= i < |first| - 1 { assert first[i] == url.path[i - 7]; }
      }
    }
    assert MakeCommand(command, Url(url)) == first + "\n" + command + "\npopd";
    ScriptLines(command, first);
  }

  /** The text layout shared by both wrapped scopes: a Swift multi-line literal of three lines. */
  lemma ScriptText(command: string, first: string)
    ensures first + "\n" + command + "\npopd" == JoinLines([first, command, "popd"])
  {
    var rest := command + "\n" + "popd";
    assert JoinLines([command, "popd"]) == rest by {
      assert [command, "popd"][1..] == ["popd"];
    }
    assert JoinLines([first, command, "popd"]) == first + "\n" + rest by {
      assert [first, command, "popd"][1..] == [command, "popd"];
    }
  }

  /** The line layout shared by both wrapped scopes. */
  lemma ScriptLines(command: string, first: string)
    requires '\n' !in first
    ensures Lines(first + "\n" + command + "\npopd") == [first] + Lines(command) + ["popd"]
  {
    var rest := command + "\n" + "popd";
    assert first + "\n" + command + "\npopd" == first + "\n" + rest;
    LinesOfConcat(command, "popd");
    LinesOfSingleLine("popd");
    assert Lines(rest) == Lines(command) + ["popd"];
    LinesOfConcat(first, rest);
    LinesOfSingleLine(first);
    assert Lines(first + "\n" + rest) == [first] + (Lines(command) + ["popd"]);
  }

  /** Every scope frames the command between a fixed prefix and a fixed suffix and adds nothing else. */
  lemma MakeCommandFraming(command: string, directory: Directory)
    ensures MakeCommand(command, directory) == ScriptPrefix(directory) + command + ScriptSuffix(directory)
    ensures directory.Pwd? <==> ScriptPrefix(directory) + ScriptSuffix(directory) == ""
  {
  }

  /** `part` stands in `text` at offset `i`. */
  predicate OccursAt(part: string, text: string, i: int)
  {
    0 <= i <= |text| - |part| && text[i..i + |part|] == part
  }

  /** The command appears verbatim in the script for every scope. */
  lemma CommandInScript(command: string, directory: Directory)
    ensures exists i :: OccursAt(command, MakeCommand(command, directory), i)
  {
    var i := |ScriptPrefix(directory)|;
    var script := MakeCommand(command, directory);
    MakeCommandFraming(command, directory);
    assert script[i..i + |command|] == command;
    assert OccursAt(command, script, i);
  }

  /** Unwrap recovers the command from every script MakeCommand builds. */
  lemma UnwrapMakeCommand(command: string, directory: Directory)
    ensures Unwrap(MakeCommand(command, directory), directory) == Some(command)
  {
    var pre, suf := ScriptPrefix(directory), ScriptSuffix(directory);
    var script := MakeCommand(command, directory);
    MakeCommandFraming(command, directory);
    assert script[..|pre|] == pre;
    assert script[|script| - |suf|..] == suf;
    assert script[|pre|..|script| - |suf|] == command;
  }

  /** Within one scope, different commands give different scripts. */
  lemma MakeCommandInjective(c1: string, c2: string, directory: Directory)
    requires MakeCommand(c1, directory) == MakeCommand(c2, directory)
    ensures c1 == c2
  {
    UnwrapMakeCommand(c1, directory);
    UnwrapMakeCommand(c2, directory);
  }

  /** Outside the current directory the script is never the raw command. */
  lemma WrappedScriptIsNotCommand(command: string, directory: Directory)
    requires !directory.Pwd?
    ensures MakeCommand(command, directory) != command
  {
    MakeCommandFraming(command, directory);
  }

  // ---------------------------------------------------------------------------------------------
  // Argument vector

  /** `shell.arguments + [script]`: the shell's own arguments, then the script as the one extra, final argument. */
  function Arguments(shell: Shell, script: string): (r: seq<string>)
    ensures |r| == |shell.arguments| + 1
    ensures r[..|shell.arguments|] == shell.arguments
    ensures r[|r| - 1] == script
  {
    shell.arguments + [script]
  }

  // ---------------------------------------------------------------------------------------------
  // Pipes, the process and the oracle that runs it

  /**
   * What reading a pipe's read end to its end yields: `readToEnd()` throws (Unreadable), returns
   * nil (Readable(None)), or returns the data written by the child (Readable(Some(bytes))).
   */
  datatype PipeData = Unreadable(cause: string) | Readable(data: Option<seq<byte>>)

  /** A completed run: the termination status and what each pipe holds for reading. */
  datatype Exit = Exit(status: int32, stdout: PipeData, stderr: PipeData)

  /** Start a process with this executable and argument vector and wait for it: a spawn failure or its exit. */
  type Oracle = (FileUrl, seq<string>) -> Result<Exit, string>

  /** What `execute` can throw: the error of `run()`, the error of a pipe read, or a ShellError. */
  datatype ExecuteError = SpawnError(cause: string) | ReadError(cause: string) | NonSuccess(shellError: ShellError)

  /** `Pipe.readOutput`: the decoded text of the pipe, the empty text when there is no data. */
  function ReadText(pipe: PipeData, decode: Decoder): (r: Result<string, string>)
    ensures r.Failure? <==> pipe.Unreadable?
    ensures pipe.Unreadable? ==> r == Failure(pipe.cause)
    ensures pipe == Readable(None) ==> r == Success("")
    ensures pipe.Readable? && pipe.data.Some? ==> r == Success(decode(pipe.data.value))
  {
    match pipe
    case Unreadable(cause) => Failure(cause)
    case Readable(None) => Success("")
    case Readable(Some(bytes)) => Success(decode(bytes))
  }

  /** A `Pipe`: the data its read end delivers, and whether the read end has been closed. */
  class Pipe {
    var pending: PipeData
    var closed: bool

    constructor ()
      ensures pending == Readable(None) && !closed
    {
      pending := Readable(None);
      closed := false;
    }

    /** `readOutput`: read to the end, decode, and close the read end on every path. */
    method ReadOutput(decode: Decoder) returns (r: Result<string, string>)
      requires !closed
      modifies this`closed
      ensures closed
      ensures r == ReadText(pending, decode)
    {
      r := ReadText(pending, decode);
      closed := true;
    }
  }

  /** A `Process`: its launch configuration, its two output pipes and, once it has exited, its status. */
  class Task {
    var executableUrl: Option<FileUrl>
    var arguments: seq<string>
    var standardOutput: Pipe?
    var standardError: Pipe?
    var terminationStatus: Option<int32>

    constructor ()
      ensures executableUrl == None && arguments == []
      ensures standardOutput == null && standardError == null && terminationStatus == None
    {
      executableUrl := None;
      arguments := [];
      standardOutput := null;
      standardError := null;
      terminationStatus := None;
    }

    /**
     * `run()` followed by `waitUntilExit()`: start the configured executable and wait for it.
     * A spawn failure is returned and changes nothing; otherwise the status is recorded and
     * what the child wrote is left in the pipes.
     */
    method Run(oracle: Oracle) returns (spawnError: Option<string>)
      requires executableUrl.Some?
      requires standardOutput != null && standardError != null && standardOutput != standardError
      modifies this`terminationStatus, standardOutput`pending, standardError`pending
      ensures spawnError.Some? <==> oracle(executableUrl.value, arguments).Failure?
      ensures spawnError.Some? ==>
        spawnError.value == oracle(executableUrl.value, arguments).error
        && terminationStatus == old(terminationStatus)
        && standardOutput.pending == old(standardOutput.pending)
        && standardError.pending == old(standardError.pending)
      ensures spawnError.None? ==>
        var exit := oracle(executableUrl.value, arguments).value;
        terminationStatus == Some(exit.status)
        && standardOutput.pending == exit.stdout
        && standardError.pending == exit.stderr
    {
      var outcome := oracle(executableUrl.value, arguments);
      match outcome {
        case Failure(cause) =>
          spawnError := Some(cause);
        case Success(exit) =>
          standardOutput.pending := exit.stdout;
          standardError.pending := exit.stderr;
          terminationStatus := Some(exit.status);
          spawnError := None;
      }
    }
  }

  // ---------------------------------------------------------------------------------------------
  // Outcome translation and execute

  /**
   * What `execute` does once the child has exited: a status among the success codes yields the
   * standard-output text; any other status reads standard output, then standard error, and
   * throws a ShellError carrying the status, both texts and the raw command. A failing pipe
   * read throws its own error instead.
   */
  function Conclude(exit: Exit, command: string, successCodes: set<int32>, decode: Decoder): (r: Result<string, ExecuteError>)
    ensures r.Success? <==> exit.status in successCodes && exit.stdout.Readable?
    ensures r.Success? ==> r.value == ReadText(exit.stdout, decode).value
    ensures r.Failure? && r.error.NonSuccess? <==>
      exit.status !in successCodes && exit.stdout.Readable? && exit.stderr.Readable?
    ensures r.Failure? && r.error.NonSuccess? ==> r.error.shellError == ShellError(
      exit.status, ReadText(exit.stdout, decode).value, ReadText(exit.stderr, decode).value, command)
    ensures exit.stdout.Unreadable? ==> r == Failure(ReadError(exit.stdout.cause))
    ensures exit.status !in successCodes && exit.stdout.Readable? && exit.stderr.Unreadable? ==>
      r == Failure(ReadError(exit.stderr.cause))
    ensures r.Failure? ==> !r.error.SpawnError?
  {
    if exit.status in successCodes then
      match ReadText(exit.stdout, decode)
      case Failure(cause) => Failure(ReadError(cause))
      case Success(out) => Success(out)
    else
      match ReadText(exit.stdout, decode)
      case Failure(cause) => Failure(ReadError(cause))
      case Success(out) =>
        match ReadText(exit.stderr, decode)
        case Failure(cause) => Failure(ReadError(cause))
        case Success(err) => Failure(NonSuccess(ShellError(exit.status, out, err, command)))
  }

  /**
   * The outcome of `execute(command, from: shell, within: directory, successCodes:)`; like the
   * source, the shell defaults to zsh, the directory to the current one and the success codes to {0}.
   */
  function ExecuteSpec(command: string, oracle: Oracle, decode: Decoder,
                       shell: Shell := Zsh, directory: Directory := Pwd, successCodes: set<int32> := {0})
    : (r: Result<string, ExecuteError>)
    ensures var run := oracle(shell.url, Arguments(shell, MakeCommand(command, directory)));
      (r.Failure? && r.error.SpawnError? <==> run.Failure?)
      && (r.Success? ==> run.Success? && run.value.status in successCodes)
      && (r.Failure? && r.error.NonSuccess? ==>
            run.Success? && r.error.shellError.terminationStatus == run.value.status
            && run.value.status !in successCodes && r.error.shellError.command == command)
  {
    match oracle(shell.url, Arguments(shell, MakeCommand(command, directory)))
    case Failure(cause) => Failure(SpawnError(cause))
    case Success(exit) => Conclude(exit, command, successCodes, decode)
  }

  /** `execute`: configure a process for the shell and script, pipe both outputs, run, wait and conclude. */
  method Execute(command: string, oracle: Oracle, decode: Decoder,
                 shell: Shell := Zsh, directory: Directory := Pwd, successCodes: set<int32> := {0})
    returns (r: Result<string, ExecuteError>)
    ensures r == ExecuteSpec(command, oracle, decode, shell, directory, successCodes)
  {
    var script := MakeCommand(command, directory);
    var task := new Task();
    task.executableUrl := Some(shell.url);
    task.arguments := shell.arguments + [script];

    var stdout := new Pipe();
    task.standardOutput := stdout;
    var stderr := new Pipe();
    task.standardError := stderr;

    var spawnError := task.Run(oracle);
    if spawnError.Some? {
      return Failure(SpawnError(spawnError.value));
    }
    var status := task.terminationStatus.value;
    if status !in successCodes {
      var out := stdout.ReadOutput(decode);
      if out.Failure? {
        return Failure(ReadError(out.error));
      }
      var err := stderr.ReadOutput(decode);
      if err.Failure? {
        return Failure(ReadError(err.error));
      }
      return Failure(NonSuccess(ShellError(status, out.value, err.value, command)));
    }
    var out := stdout.ReadOutput(decode);
    if out.Failure? {
      return Failure(ReadError(out.error));
    }
    return Success(out.value);
  }

  // ---------------------------------------------------------------------------------------------
  // Properties of execute

  /** The outcome depends on the oracle only through its one run of `shell.url` on the shell's arguments and the script. */
  lemma ExecuteRunsOnce(command: string, shell: Shell, directory: Directory, successCodes: set<int32>,
                        o1: Oracle, o2: Oracle, decode: Decoder)
    requires o1(shell.url, Arguments(shell, MakeCommand(command, directory))) == o2(shell.url, Arguments(shell, MakeCommand(command, directory)))
    ensures ExecuteSpec(command, o1, decode, shell, directory, successCodes)
         == ExecuteSpec(command, o2, decode, shell, directory, successCodes)
  {
  }

  /** A spawn failure is thrown as it is, before any status check: no ShellError, no read. */
  lemma SpawnFailurePropagates(command: string, shell: Shell, directory: Directory, successCodes: set<int32>,
                               oracle: Oracle, decode: Decoder, cause: string)
    ensures ExecuteSpec(command, oracle, decode, shell, directory, successCodes) == Failure(SpawnError(cause))
        <==> oracle(shell.url, Arguments(shell, MakeCommand(command, directory))) == Failure(cause)
  {
  }

  /** `execute` returns a text exactly when the run completed with a success code and standard output could be read; the text is standard output's. */
  lemma ExecuteSucceedsIff(command: string, shell: Shell, directory: Directory, successCodes: set<int32>,
                           oracle: Oracle, decode: Decoder, text: string)
    ensures ExecuteSpec(command, oracle, decode, shell, directory, successCodes) == Success(text)
        <==> (var run := oracle(shell.url, Arguments(shell, MakeCommand(command, directory)));
              run.Success? && run.value.status in successCodes
              && ReadText(run.value.stdout, decode) == Success(text))
  {
  }

  /** On a success code, what the child wrote to standard error has no effect on the outcome. */
  lemma SuccessIgnoresStandardError(exit: Exit, stderr: PipeData, command: string, successCodes: set<int32>, decode: Decoder)
    requires exit.status in successCodes
    ensures Conclude(exit, command, successCodes, decode) == Conclude(exit.(stderr := stderr), command, successCodes, decode)
  {
  }

  /**
   * A status outside the success codes throws a ShellError holding that status, the text of
   * each stream read independently of the other, and the raw command rather than the script.
   */
  lemma ExecuteFailsWithShellError(command: string, shell: Shell, directory: Directory, successCodes: set<int32>,
                                   oracle: Oracle, decode: Decoder, exit: Exit)
    requires oracle(shell.url, Arguments(shell, MakeCommand(command, directory))) == Success(exit)
    requires exit.status !in successCodes && exit.stdout.Readable? && exit.stderr.Readable?
    ensures ExecuteSpec(command, oracle, decode, shell, directory, successCodes).Failure?
    ensures var e := ExecuteSpec(command, oracle, decode, shell, directory, successCodes).error;
      e.NonSuccess?
      && e.shellError.terminationStatus == exit.status
      && e.shellError.stdout == ReadText(exit.stdout, decode).value
      && e.shellError.stderr == ReadText(exit.stderr, decode).value
      && e.shellError.command == command
      && (!directory.Pwd? ==> e.shellError.command != MakeCommand(command, directory))
  {
    if !directory.Pwd? {
      WrappedScriptIsNotCommand(command, directory);
    }
  }

  /** A ShellError is thrown only for a completed run whose status is not a success code. */
  lemma ShellErrorOnlyOutsideSuccessCodes(command: string, shell: Shell, directory: Directory, successCodes: set<int32>,
                                          oracle: Oracle, decode: Decoder, e: ShellError)
    requires ExecuteSpec(command, oracle, decode, shell, directory, successCodes) == Failure(NonSuccess(e))
    ensures var run := oracle(shell.url, Arguments(shell, MakeCommand(command, directory)));
      run.Success? && run.value.status == e.terminationStatus && e.terminationStatus !in successCodes
      && e.command == command
  {
  }

  /** Success-code membership alone decides: status 2 succeeds with {2} and throws with the default {0}. */
  lemma SuccessCodesDecide(command: string, shell: Shell, directory: Directory, oracle: Oracle, decode: Decoder,
                           out: seq<byte>)
    requires oracle(shell.url, Arguments(shell, MakeCommand(command, directory))) == Success(Exit(2, Readable(Some(out)), Readable(None)))
    ensures ExecuteSpec(command, oracle, decode, shell, directory, {2}) == Success(decode(out))
    ensures ExecuteSpec(command, oracle, decode, shell, directory, {0})
         == Failure(NonSuccess(ShellError(2, decode(out), "", command)))
  {
  }

  /**
   * `cat non-existent-file` with every default (zsh, current directory, {0}): zsh is started as
   * `/bin/zsh -c "cat non-existent-file"`, and exit status 1 with only standard error written
   * throws a ShellError with status 1, empty stdout, the decoded stderr and the command text.
   */
  lemma CatMissingFileThrows(oracle: Oracle, decode: Decoder, err: seq<byte>)
    requires oracle(FileUrl("/bin/zsh"), ["-c", "cat non-existent-file"]) == Success(Exit(1, Readable(None), Readable(Some(err))))
    ensures ExecuteSpec("cat non-existent-file", oracle, decode)
         == Failure(NonSuccess(ShellError(1, "", decode(err), "cat non-existent-file")))
  {
    assert Arguments(Zsh, MakeCommand("cat non-existent-file", Pwd)) == ["-c", "cat non-existent-file"];
  }

  /**
   * `echo 'hi'; cat non-existent-file` with every default: when the run writes `hi` to standard
   * output and then fails, the ShellError still carries that standard output with the stderr
   * and the raw command.
   */
  lemma EchoThenFailKeepsStdout(oracle: Oracle, decode: Decoder, out: seq<byte>, err: seq<byte>)
    requires oracle(FileUrl("/bin/zsh"), ["-c", "echo 'hi'; cat non-existent-file"])
          == Success(Exit(1, Readable(Some(out)), Readable(Some(err))))
    requires decode(out) == "hi\n"
    ensures ExecuteSpec("echo 'hi'; cat non-existent-file", oracle, decode)
         == Failure(NonSuccess(ShellError(1, "hi\n", decode(err), "echo 'hi'; cat non-existent-file")))
  {
    assert Arguments(Zsh, MakeCommand("echo 'hi'; cat non-existent-file", Pwd)) == ["-c", "echo 'hi'; cat non-existent-file"];
  }

  /** `ls` within a path, on the default zsh: zsh runs the three-line `pushd`/`ls`/`popd` script and its listing is returned. */
  lemma ListWithinPathRuns(path: string, oracle: Oracle, decode: Decoder, listing: seq<byte>)
    requires oracle(FileUrl("/bin/zsh"), ["-c", JoinLines(["pushd " + path, "ls", "popd"])])
          == Success(Exit(0, Readable(Some(listing)), Readable(None)))
    ensures ExecuteSpec("ls", oracle, decode, directory := Path(path)) == Success(decode(listing))
  {
    MakeCommandPathText("ls", path);
    assert Arguments(Zsh, MakeCommand("ls", Path(path))) == ["-c", JoinLines(["pushd " + path, "ls", "popd"])];
  }
}
