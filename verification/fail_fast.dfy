/** Fail-fast validation: checks are evaluated in a fixed order and the first one that fails
    decides the outcome; the checks after it are never consulted. */
module FailFast {
  import opened Wrappers

  /** The position of the first check in `checks` that does not pass, if any. */
  function FirstFailing<T>(checks: seq<T>, passes: T -> bool): (r: Option<nat>)
    ensures r.Some? ==> r.value < |checks| && !passes(checks[r.value])
    ensures r.Some? ==> forall j :: 0 <= j < r.value ==> passes(checks[j])
    ensures r.None? <==> forall j :: 0 <= j < |checks| ==> passes(checks[j])
  {
    if |checks| == 0 then None
    else if !passes(checks[0]) then Some(0)
    else
      match FirstFailing(checks[1..], passes)
      case None => None
      case Some(i) => Some(i + 1)
  }
}
