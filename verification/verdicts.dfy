/** The verdict of a single build: the host's ordered result scale.
    The scale and its order are those of Jenkins' `hudson.model.Result`
    (SUCCESS is best, then UNSTABLE, FAILURE, NOT_BUILT, ABORTED); that class
    is not part of this model, only the order the notifier relies on. */
module Verdicts {

  datatype Verdict = Success | Unstable | Failure | NotBuilt | Aborted

  /** Position on the scale; a smaller ordinal is a better verdict. */
  function Ordinal(v: Verdict): nat
  {
    match v
    case Success => 0
    case Unstable => 1
    case Failure => 2
    case NotBuilt => 3
    case Aborted => 4
  }

  /** `v.isBetterOrEqualTo(w)`. */
  predicate IsBetterOrEqualTo(v: Verdict, w: Verdict)
  {
    Ordinal(v) <= Ordinal(w)
  }

  /** The only test the notifier applies to a verdict:
      `isBetterOrEqualTo(Result.SUCCESS)`. */
  predicate Passing(v: Verdict)
  {
    IsBetterOrEqualTo(v, Success)
  }

  /** Nothing but the best verdict passes: every intermediate grade
      (UNSTABLE included) is failing. */
  lemma PassingIsExactlySuccess(v: Verdict)
    ensures Passing(v) <==> v == Success
  {
  }
}
