/** The failure payload of Sources/SwiftShell/ShellError.swift. */
module ShellErrors {

  /** Swift's `Int32`, the type of a process termination status. */
  newtype int32 = x: int | -0x8000_0000 <= x < 0x8000_0000

  /**
   * Thrown by `execute` when the termination status is not one of the success codes:
   * the status of the run, the text captured from standard output and from standard error,
   * and the command as the caller wrote it.
   */
  datatype ShellError = ShellError(
    terminationStatus: int32,
    stdout: string,
    stderr: string,
    command: string)
}
