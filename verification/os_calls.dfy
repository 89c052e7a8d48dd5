/**
 * The calls the application makes into the host operating system
 * (`Neutralino.os.execCommand` and `Neutralino.os.spawnProcess`).
 * The model never performs them: each operation receives their outcomes
 * as parameters, so every possible answer of the host is covered.
 */
module OsCalls {

  /** What `execCommand` resolves with: a finished command. A non-zero exit is not an exception. */
  datatype ExecResult = ExecResult(exitCode: int, stdOut: string, stdErr: string)

  /** What `spawnProcess` resolves with: a handle on a background process. */
  datatype SpawnedProcess = SpawnedProcess(id: int, pid: int)

  /** A host call either returns a value or throws (the promise rejects) with a message. */
  datatype CallOutcome<+T> = Returned(value: T) | Threw(message: string)

  /**
   * The idiom `result.exitCode === 0` applied to a call whose failure is
   * caught as `false`. This is the whole of `testQemu()` and of every
   * `isVMRunning()`: each runs its probe command (the manager script's `test`,
   * `PidProbeCommand`, the applications' `ProbeCommand`) and answers this.
   */
  predicate ExitedZero(outcome: CallOutcome<ExecResult>) {
    outcome.Returned? && outcome.value.exitCode == 0
  }
}
