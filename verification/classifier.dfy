/** The outcome classifier (`determineBuildResult`): the verdict of the
    current build and, when there is one, of the previous build, collapsed
    to the four-valued `BuildResult`. */
module Classifier {
  import opened Wrappers
  import opened Verdicts
  import BR = BuildResults

  /** Whether there is a previous build and it failed. */
  predicate PreviousFailed(previous: Option<Verdict>)
  {
    previous.Some? && !Passing(previous.value)
  }

  /** Classify a build. `previous` is `None` for the first build of a job.
      The result is green exactly when the current verdict passes, and it
      "follows a failure" exactly when a previous build exists and failed. */
  function DetermineBuildResult(current: Verdict, previous: Option<Verdict>): (r: BR.BuildResult)
    ensures BR.IsGreen(r) <==> Passing(current)
    ensures BR.FollowsFailure(r) <==> PreviousFailed(previous)
  {
    if previous.None? then
      (if Passing(current) then BR.Success else BR.Fail)
    else if Passing(previous.value) then
      (if Passing(current) then BR.Success else BR.Fail)
    else
      (if Passing(current) then BR.Recover else BR.ContinuousFail)
  }

  /** The first build of a job is SUCCESS when it passes and FAIL otherwise. */
  lemma FirstBuild(current: Verdict)
    ensures DetermineBuildResult(current, None) == BR.Success <==> Passing(current)
    ensures DetermineBuildResult(current, None) == BR.Fail <==> !Passing(current)
  {
  }

  /** After a passing build the classification is the same as with no
      previous build at all, so it is never RECOVER or CONTINUOUS_FAIL. */
  lemma AfterPassingBuild(current: Verdict, previous: Verdict)
    requires Passing(previous)
    ensures DetermineBuildResult(current, Some(previous)) == DetermineBuildResult(current, None)
    ensures DetermineBuildResult(current, Some(previous)) != BR.Recover
    ensures DetermineBuildResult(current, Some(previous)) != BR.ContinuousFail
  {
  }

  /** After a failing build a passing verdict is RECOVER and a failing one
      is CONTINUOUS_FAIL; SUCCESS and FAIL are impossible. */
  lemma AfterFailingBuild(current: Verdict, previous: Verdict)
    requires !Passing(previous)
    ensures DetermineBuildResult(current, Some(previous)) == BR.Recover <==> Passing(current)
    ensures DetermineBuildResult(current, Some(previous)) == BR.ContinuousFail <==> !Passing(current)
  {
  }

  /** The classification sees a verdict only through `Passing`: swapping one
      failing grade for another (UNSTABLE for FAILURE, say), or one previous
      build for another that passes or fails alike, changes nothing. */
  lemma OnlyPassingMatters(c1: Verdict, c2: Verdict, p1: Option<Verdict>, p2: Option<Verdict>)
    requires Passing(c1) == Passing(c2)
    requires p1.Some? == p2.Some?
    requires p1.Some? ==> Passing(p1.value) == Passing(p2.value)
    ensures DetermineBuildResult(c1, p1) == DetermineBuildResult(c2, p2)
  {
    BR.FlagsDetermineResult(DetermineBuildResult(c1, p1), DetermineBuildResult(c2, p2));
  }

  /** Every outcome is produced by some pair of verdicts, one of them the
      first build of a job when the outcome allows it. */
  lemma EveryResultReachable(r: BR.BuildResult)
    ensures exists c: Verdict, p: Option<Verdict> :: DetermineBuildResult(c, p) == r
  {
    match r
    case Success => assert DetermineBuildResult(Success, None) == r;
    case Fail => assert DetermineBuildResult(Failure, None) == r;
    case Recover => assert DetermineBuildResult(Success, Some(Failure)) == r;
    case ContinuousFail => assert DetermineBuildResult(Unstable, Some(Aborted)) == r;
  }
}
