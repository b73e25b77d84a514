/** The four-valued classification of a finished build (`BuildResult`). */
module BuildResults {

  datatype BuildResult = Success | Fail | ContinuousFail | Recover

  /** Declaration position of each constant in the Java enum. */
  function Ordinal(r: BuildResult): (i: nat)
    ensures i < 4
  {
    match r
    case Success => 0
    case Fail => 1
    case ContinuousFail => 2
    case Recover => 3
  }

  /** The constant declared at position `i` (`BuildResult.values()[i]`). */
  function FromOrdinal(i: nat): (r: BuildResult)
    requires i < 4
    ensures Ordinal(r) == i
  {
    if i == 0 then Success
    else if i == 1 then Fail
    else if i == 2 then ContinuousFail
    else Recover
  }

  /** `BuildResult.values()`: every constant exactly once, in declaration order. */
  function Values(): (rs: seq<BuildResult>)
    ensures |rs| == 4
    ensures forall i, j :: 0 <= i < j < |rs| ==> rs[i] != rs[j]
    ensures forall r: BuildResult :: rs[Ordinal(r)] == r
    ensures forall i :: 0 <= i < |rs| ==> Ordinal(rs[i]) == i
  {
    [Success, Fail, ContinuousFail, Recover]
  }

  /** The ordinals put the constants in one-to-one correspondence with
      0..3, so the enum has exactly four distinct values. */
  lemma OrdinalIsBijection(r: BuildResult, i: nat)
    requires i < 4
    ensures FromOrdinal(Ordinal(r)) == r
    ensures Ordinal(FromOrdinal(i)) == i
  {
  }

  /** An outcome after which the build is green again (SUCCESS or RECOVER). */
  predicate IsGreen(r: BuildResult)
  {
    r == Success || r == Recover
  }

  /** An outcome that follows a failing previous build
      (RECOVER or CONTINUOUS_FAIL). */
  predicate FollowsFailure(r: BuildResult)
  {
    r == Recover || r == ContinuousFail
  }

  /** The two flags name every constant uniquely: the four outcomes are the
      four combinations of "green now" and "red before". */
  lemma FlagsDetermineResult(a: BuildResult, b: BuildResult)
    requires IsGreen(a) == IsGreen(b)
    requires FollowsFailure(a) == FollowsFailure(b)
    ensures a == b
  {
  }
}
