/** The outcome of one brew invocation (`BrewResult`). */
module BrewResults {

  /** Swift's `Int32`, the type of a process termination status. */
  newtype int32 = x: int | -0x8000_0000 <= x < 0x8000_0000

  /** Captured standard output, standard error and termination status. The
      constructor stores all three unchanged. */
  datatype BrewResult = BrewResult(stdout: string, stderr: string, exitCode: int32)

  /** `isSuccess`: the command exited with status zero. */
  predicate IsSuccess(r: BrewResult) {
    r.exitCode == 0
  }

  /** `errorMessage`: the diagnostic text shown for a failed command; it
      prefers standard error and falls back to standard output. */
  function ErrorMessage(r: BrewResult): (m: string)
    ensures m == r.stderr || m == r.stdout
    ensures r.stderr != "" ==> m == r.stderr
    ensures r.stderr == "" ==> m == r.stdout
    ensures m == "" <==> r.stderr == "" && r.stdout == ""
  {
    if |r.stderr| != 0 then r.stderr else r.stdout
  }

  /** Whatever was written to either stream, the message is non-empty
      exactly when something was written, and success is decided by the
      status alone, independently of both streams. */
  lemma SuccessIgnoresStreams(r: BrewResult, out: string, err: string)
    ensures IsSuccess(r) <==> IsSuccess(BrewResult(out, err, r.exitCode))
    ensures IsSuccess(r) <==> r.exitCode == 0
  {
  }
}
