/**
 * The `Shell` value of Sources/SwiftShell/Shell.swift: the executable that runs a script
 * and the arguments that make it run its final argument as an inline script.
 */
module Shells {

  /**
   * A file URL, represented by its path. `URL(filePath:)` and `url.path(percentEncoded: false)`
   * are Foundation behaviour; here building a URL from a path and reading its path back are
   * the constructor and its field.
   */
  datatype FileUrl = FileUrl(path: string)

  /** An immutable shell specification: both fields are fixed at construction. */
  datatype Shell = Shell(url: FileUrl, arguments: seq<string>)

  /** `init(url:arguments:)`: stores both fields as given. */
  function FromUrl(url: FileUrl, arguments: seq<string>): (s: Shell)
    ensures s.url == url && s.arguments == arguments
  {
    Shell(url, arguments)
  }

  /** `init(path:arguments:)`: the url is the file URL of `path`; the arguments are stored as given. */
  function FromPath(path: string, arguments: seq<string>): (s: Shell)
    ensures s.url.path == path && s.arguments == arguments
  {
    Shell(FileUrl(path), arguments)
  }

  /** `Shell.zsh`, the default shell of `execute`. */
  const Zsh: Shell := FromUrl(FileUrl("/bin/zsh"), ["-c"])

  /** `Shell.bash`. */
  const Bash: Shell := FromUrl(FileUrl("/bin/bash"), ["-c"])

  lemma ZshIsBinZsh()
    ensures Zsh.url.path == "/bin/zsh" && Zsh.arguments == ["-c"]
  {
  }

  lemma BashIsBinBash()
    ensures Bash.url.path == "/bin/bash" && Bash.arguments == ["-c"]
  {
  }

  /** The two built-in shells differ only in their executable. */
  lemma BuiltInShellsDiffer()
    ensures Zsh != Bash && Zsh.arguments == Bash.arguments
  {
    assert Zsh.url.path[6] != Bash.url.path[6];
  }
}
