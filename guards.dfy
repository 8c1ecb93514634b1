/**
 * A chain of fail-fast guards: each operation of the program tests its
 * conditions in a fixed order and returns the error of the first one that
 * does not hold.
 */
module Guards {
  import opened State

  /** One guard: whether its condition holds, and the error it returns if not. */
  datatype Check = Check(passes: bool, error: ProgramError)

  predicate AllPass(checks: seq<Check>) {
    forall j | 0 <= j < |checks| :: checks[j].passes
  }

  /** The error a guard chain returns, or `None` when every guard passes. */
  function FirstFailure(checks: seq<Check>): (r: Option<ProgramError>)
    ensures r.None? <==> AllPass(checks)
    ensures forall k | 0 <= k < |checks| && !checks[k].passes ::
              (forall j | 0 <= j < k :: checks[j].passes) ==> r == Some(checks[k].error)
  {
    if checks == [] then None
    else if !checks[0].passes then Some(checks[0].error)
    else FirstFailure(checks[1..])
  }
}
