/** A fail-fast chain of checks, as both request handlers run them: each check
    either passes or ends the request with its own status code and message, and
    the first one that fails decides the response. */
module Chain {
  import opened Common

  datatype Check = Check(passes: bool, status: nat, message: string)

  /** The index of the first check that fails, or `None` when all pass. */
  function FirstFailure(checks: seq<Check>): (r: Option<nat>)
    ensures r.Some? ==> r.value < |checks| && !checks[r.value].passes
    ensures r.Some? ==> forall j | 0 <= j < r.value :: checks[j].passes
    ensures r.None? <==> forall j | 0 <= j < |checks| :: checks[j].passes
  {
    if checks == [] then None
    else if !checks[0].passes then Some(0)
    else match FirstFailure(checks[1..])
      case None => None
      case Some(k) => Some(k + 1)
  }
}
