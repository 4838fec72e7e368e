# SwiftShell `Process.execute`, modelled in Dafny

SwiftShell runs one shell command line, blocking, and returns what the command wrote to
standard output, or throws a `ShellError` carrying the exit status, both captured streams and
the command. This project models the deterministic part of that engine:

- **Script builder** (`makeCommand`): the current directory leaves the command as it is; a path
  or a URL wraps it between a `pushd` line and a `popd` line. The path of `.path` goes in unquoted.
  The URL's path goes between single quotes.
- **Process set-up**: the executable is the shell's URL. The arguments are the shell's own
  arguments with the script appended as the last one.
- **Outcome translation**: after the run, a status in `successCodes` returns the standard-output
  text. Any other status reads standard output, then standard error, and throws a `ShellError`
  with the raw command (not the wrapped script). An empty read gives the empty text.

Files and modules:

- `wrappers.dfy` (`Wrappers`): `Option` and `Result`, for Swift optionals and throwing calls.
- `shell.dfy` (`Shells`): the immutable `Shell` value, its two initialisers and the built-in `zsh` and `bash` values.
- `shell_error.dfy` (`ShellErrors`): the `ShellError` record and Swift's `Int32`.
- `text_lines.dfy` (`TextLines`): splitting text into lines and joining lines back. It is used to say what the shell sees line by line.
- `process.dfy` (`Processes`): `Directory`, `makeCommand`, `Pipe.readOutput`, the process (`Task`) and `execute`.

The process is an oracle. It is a function from the executable URL and the argument vector to
either a spawn failure (the error of `run()`) or an `Exit` record: the termination status and,
for each pipe, what `readToEnd()` yields (it throws, it returns nil, or it returns bytes). UTF-8
decoding (`String(decoding:as:)`) is a total function passed in as a parameter. `Execute` is
imperative, like the source. It creates a `Task` and sets its executable URL and arguments. It
attaches two fresh `Pipe` objects, runs the task and reads the pipes. Its postcondition equates
the outcome with the pure function `ExecuteSpec`, and the lemmas state the properties of
`ExecuteSpec`. Both keep the source's default arguments: the shell is zsh, the directory the
current one and the success codes `{0}` unless given. The oracle and the decoder come right
after the command, so that a call can leave out the defaults by position. `Shell` is a datatype, so a
shell's URL and arguments can never change, which is what its `let` fields promise.

Three points of the behaviour are worth stating plainly:
- Both pipes are read only after `waitUntilExit()`; they are not drained while the child runs.
- Only the URL form puts the path in single quotes; a `.path` goes into the script unquoted.
- On the success path standard error is never read.

The `Directory` enum is declared in another file of SwiftShell. It is modelled from its three uses in `makeCommand`.

## Model

| member | source | states |
|---|---|---|
| `Shells.FromUrl` | Sources/SwiftShell/Shell.swift:21-24 | `init(url:arguments:)` keeps the given URL and arguments unchanged |
| `Shells.FromPath` | Sources/SwiftShell/Shell.swift:26-29 | `init(path:arguments:)` gives a shell whose URL has the given path and whose arguments are unchanged |
| `Shells.ZshIsBinZsh` | Sources/SwiftShell/Shell.swift:38 | `Shell.zsh` runs `/bin/zsh` with arguments `["-c"]` |
| `Shells.BashIsBinBash` | Sources/SwiftShell/Shell.swift:41 | `Shell.bash` runs `/bin/bash` with arguments `["-c"]` |
| `Shells.BuiltInShellsDiffer` | Sources/SwiftShell/Shell.swift:37-41 | the two built-in shells are different values and share the same arguments |
| `Processes.MakeCommand` | Sources/SwiftShell/Process.swift:62-83 | `makeCommand` is total: for every scope the script is that scope's prefix, then the command verbatim, then that scope's suffix; `Unwrap` is its inverse |
| `Processes.MakeCommandPwd` | Sources/SwiftShell/Process.swift:67-69 | in the current directory the script is the command exactly, with the same lines (a multi-line command passes through intact) |
| `Processes.MakeCommandPathText` | Sources/SwiftShell/Process.swift:70-75 | within any path the script is exactly `pushd <path>` (unquoted), the command and `popd`, joined by newlines with no trailing newline |
| `Processes.MakeCommandUrlText` | Sources/SwiftShell/Process.swift:76-81 | within any URL the script is exactly `pushd '<url path>'`, the command and `popd`, joined by newlines with no trailing newline |
| `Processes.ScriptText` | Sources/SwiftShell/Process.swift:71-75 | the multi-line literal `<first>`, command, `popd` is those three lines joined by newlines, with no trailing newline |
| `Processes.MakeCommandPath` | Sources/SwiftShell/Process.swift:70-75 | within a path with no newline in it, the shell reads the line `pushd <path>`, then every line of the command unchanged, then `popd` |
| `Processes.MakeCommandUrl` | Sources/SwiftShell/Process.swift:76-81 | within a URL whose path has no newline, the shell reads the line `pushd '<url path>'`, then the command's lines, then `popd` |
| `Processes.ScriptLines` | Sources/SwiftShell/Process.swift:71-75 | the multi-line literal `<first>`, command, `popd` splits into the first line, the command's own lines and `popd` |
| `Processes.MakeCommandFraming` | Sources/SwiftShell/Process.swift:62-83 | every scope's script is a fixed prefix, the command, and a fixed suffix; only the current directory adds nothing |
| `Processes.CommandInScript` | Sources/SwiftShell/Process.swift:62-83 | the command occurs verbatim in the script for every scope |
| `Processes.Unwrap` | Sources/SwiftShell/Process.swift:62-83 | stripping a scope's prefix and suffix yields a command that rebuilds the given script |
| `Processes.UnwrapMakeCommand` | Sources/SwiftShell/Process.swift:62-83 | stripping the scope's framing from a built script gives back the command |
| `Processes.MakeCommandInjective` | Sources/SwiftShell/Process.swift:62-83 | within one scope, two commands with the same script are the same command |
| `Processes.WrappedScriptIsNotCommand` | Sources/SwiftShell/Process.swift:70-81 | a path or URL scope always changes the command text |
| `Processes.Arguments` | Sources/SwiftShell/Process.swift:39 | the argument vector is one longer than the shell's arguments, keeps them as its prefix, and ends with the script |
| `Processes.ReadText` | Sources/SwiftShell/Process.swift:87-102 | a read fails exactly when `readToEnd` throws, and then with that read's own error; no data gives the empty text; data gives its decoding |
| `Processes.Pipe.ReadOutput` | Sources/SwiftShell/Process.swift:87-102 | reading an open pipe returns its decoded text and leaves its read end closed whatever the result |
| `Processes.Pipe.constructor` | Sources/SwiftShell/Process.swift:41-43 | a new pipe is open and holds no data |
| `Processes.Task.constructor` | Sources/SwiftShell/Process.swift:37 | a new process has no executable, no arguments, no pipes and no status |
| `Processes.Task.Run` | Sources/SwiftShell/Process.swift:46-47 | running starts the configured executable with the configured arguments; a spawn failure is returned and changes nothing, otherwise the status is recorded and the pipes hold what the child wrote |
| `Processes.Conclude` | Sources/SwiftShell/Process.swift:48-57 | success exactly when the status is a success code and stdout is readable, with stdout's text; a ShellError exactly when the status is not a success code and both pipes are readable, holding the status, both texts and the raw command; a failed stdout read throws its own error before stderr is touched, and a failed stderr read (after a non-success status) throws stderr's error; never a spawn error |
| `Processes.ExecuteSpec` | Sources/SwiftShell/Process.swift:30-58 | the outcome of `execute` with its three defaults: a spawn error exactly when running the shell's URL on its arguments plus the script fails; a success only for a status in `successCodes`; a ShellError only for a status outside them, carrying that status and the raw command |
| `Processes.Execute` | Sources/SwiftShell/Process.swift:30-58 | the imperative `execute` (configure, pipe, run, wait, conclude), with zsh, the current directory and `{0}` as defaults, has exactly the outcome `ExecuteSpec` describes |
| `Processes.ExecuteRunsOnce` | Sources/SwiftShell/Process.swift:37-47 | the outcome depends on the process only through one run of the shell's URL on the shell's arguments plus the script |
| `Processes.SpawnFailurePropagates` | Sources/SwiftShell/Process.swift:46 | `execute` throws a spawn error exactly when `run()` fails, with that failure, and nothing else is produced |
| `Processes.ExecuteSucceedsIff` | Sources/SwiftShell/Process.swift:48-57 | `execute` returns a text exactly when the run completed with a status in `successCodes` and stdout was read; the text is stdout's |
| `Processes.SuccessIgnoresStandardError` | Sources/SwiftShell/Process.swift:57 | with a success code the outcome does not depend on standard error |
| `Processes.ExecuteFailsWithShellError` | Sources/SwiftShell/Process.swift:48-54 | a status outside `successCodes` throws a ShellError with that status, each stream's own text and the raw command, which differs from the wrapped script |
| `Processes.ShellErrorOnlyOutsideSuccessCodes` | Sources/SwiftShell/ShellError.swift:18-28 | a ShellError exists only for a completed run whose status is not a success code (not merely non-zero), and its command is the caller's |
| `Processes.SuccessCodesDecide` | Sources/SwiftShell/Process.swift:34-48 | status 2 is a success with `{2}` and a ShellError with the default `{0}` |
| `Processes.CatMissingFileThrows` | Tests/SwiftShellTests/ProcessTests.swift:28-44 | with every default argument, `cat non-existent-file` runs as `/bin/zsh -c "cat non-existent-file"`; exit 1 with only stderr written throws status 1, empty stdout, that stderr and the command |
| `Processes.EchoThenFailKeepsStdout` | Tests/SwiftShellTests/ProcessTests.swift:46-53 | with every default argument, `echo 'hi'; cat non-existent-file` that writes `hi\n` and fails throws a ShellError whose stdout is `hi\n`, with the stderr and the raw command |
| `Processes.ListWithinPathRuns` | Tests/SwiftShellTests/ProcessTests.swift:82-86 | `ls` within a path, on the default zsh, runs `/bin/zsh -c` on the three-line `pushd`/`ls`/`popd` script and returns its listing |

## Left out

- Spawning, waiting, pipes and file handles are an oracle: no operating-system behaviour is modelled. `run()` and `waitUntilExit()` are one step (`Task.Run`).
- Concurrency: the code reads both pipes after the child exits, so pipe-buffer deadlock for large output is a property of the real system and is not modelled.
- UTF-8 decoding is an uninterpreted parameter. So the model does not say that empty data decodes to the empty text; that holds only for the nil result of `readToEnd`.
- `URL(filePath:)` and `url.path(percentEncoded: false)` are Foundation behaviour. A URL is its path string, so path normalisation and percent-decoding are not modelled.
- Shell semantics of `pushd`, `popd` and the commands in the tests are external programs. The model does not claim that the quoting makes any path safe; a quote inside a URL path or a metacharacter in a `.path` is passed to the shell as is.
- The `try?` around closing the read end swallows close errors. `Pipe.ReadOutput` just marks the pipe closed.
- Processes.MakeCommandPath: the line layout is stated for paths without a newline. For every path the exact text is stated by `MakeCommandPathText`.
- Processes.MakeCommandUrl: the same restriction, for URL paths without a newline; `MakeCommandUrlText` states the exact text for every URL.
- Package.swift is a build manifest with no logic.
