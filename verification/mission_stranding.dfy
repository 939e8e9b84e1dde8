/** Which interruptions a mission survives: exactly when the engine goes on with it, and when the user is asked. */
module MissionStranding {
  import opened Wrappers
  import opened Missions
  import opened MissionFlow
  import opened MissionFlowProofs
  import opened MissionFlowTheorems
  import opened MissionAutonomy
  import opened MissionRuns

  /** Waiting for a decision with nothing to answer. */
  predicate Unasked(w: World) {
    Standing(w.row) in {Blocked, Failed} && w.approvals == 0 && !w.superseded
  }

  /** States in which a resume leaves the mission alone although the engine was to go on with it. */
  predicate LostByResume(w: World) {
    w.row.state in {Assigned, Retrying} || (w.row.state == Paused && w.row.pausedFrom == Some(Integrated))
  }

  lemma NoneLive(c: Config, w: World, a: Action)
    requires TasksSound(c, w) && Enabled(c, w, a) && (a.Resume? || a.Restart?)
    ensures forall i :: i in Begun(w, a).tasks ==> !Live(Begun(w, a), Begun(w, a).tasks[i]) && i < w.nextTask
  {
  }

  lemma StartedAfterResume(b: World, v: World)
    requires !b.paused && (forall i :: i in b.tasks ==> !Live(b, b.tasks[i])) && v == Finished(b, AfterResume(b))
    ensures Attended(v) <==> b.row.state in {Proposed, Ready, Validating, ReviewRequired, Approved, Completed, Blocked, Failed, Cancelled}
    ensures Asked(v) <==> !(b.row.state in {Blocked, Failed} && b.approvals == 0 && !b.superseded)
  {
    if b.row.state == Approved {
      MoveOutcome(b, AfterResume(b), Integrated);
      assert b.nextTask in v.tasks && v.tasks[b.nextTask] == Integrate(b.generation);
    } else if AfterResume(b).starts.Some? {
      assert b.nextTask in v.tasks && v.tasks[b.nextTask] == AfterResume(b).starts.value;
    } else {
      assert v.tasks == b.tasks;
    }
  }

  /** The engine goes on after a resume exactly unless the mission was assigned, retrying, or suspended while it was integrated. */
  lemma ResumeAttendsExactly(c: Config, w: World, v: World)
    requires Inv(c, w) && w.paused && v == Apply(c, w, Step(Resume, None))
    ensures Attended(v) <==> !LostByResume(w)
    ensures Asked(v) <==> !Unasked(w)
  {
    NoneLive(c, w, Resume);
    StartedAfterResume(Begun(w, Resume), v);
  }

  /** States that reconciliation has no branch for. */
  predicate LostByRestart(w: World, orphan: bool) {
    w.row.state in {Retrying, ResultSubmitted, Approved, Integrated} || (w.row.state == Running && !orphan)
  }

  lemma ReconciledCorrection(c: Config, b: World, v: World, s: Segment)
    requires b.tasks == map[] && !b.paused && b.row.state == Running && b.row.correctionAttempts <= c.maxCorrectionAttempts
    requires s == Correction(c, b, None, b.row.correctionAttempts) && v == Finished(b, s)
    ensures v.row.state == Failed ==> v.approvals > 0
    ensures v.row.state in {Failed, Assigned} && v.paused == b.paused && v.generation == b.generation
    ensures v.row.state == Assigned ==> v.tasks == map[b.nextTask := Prepare(b.generation)]
  {
    if b.row.correctionAttempts < c.maxCorrectionAttempts {
      RetryOutcome(b, s, b.row.correctionAttempts + 1);
    } else {
      MoveOutcome(b, s, Failed);
    }
  }

  lemma OrphanAttended(c: Config, w: World, v: World)
    requires Inv(c, w) && !w.paused && w.row.state == Running && v == Apply(c, w, Step(Restart(true), None))
    ensures Attended(v) && Asked(v)
  {
    var b := Begun(w, Restart(true));
    ReconciledCorrection(c, b, v, Reconciliation(c, b, true));
    assert v.row.state == Assigned ==> b.nextTask in v.tasks;
  }

  lemma ReviewedAgain(c: Config, w: World, orphan: bool, v: World)
    requires Inv(c, w) && !w.paused && w.row.state in {Validating, ReviewRequired} && v == Apply(c, w, Step(Restart(orphan), None))
    ensures Attended(v) && Asked(v)
  {
    var b := Begun(w, Restart(orphan));
    if Reconciliation(c, b, orphan).starts.Some? {
      assert b.nextTask in v.tasks && v.tasks[b.nextTask] == Reconciliation(c, b, orphan).starts.value;
    }
  }

  lemma LeftAsItIs(c: Config, w: World, orphan: bool, v: World)
    requires Inv(c, w) && !w.paused && v == Apply(c, w, Step(Restart(orphan), None))
    requires w.row.state !in {Validating, ReviewRequired} && !(w.row.state == Running && orphan)
    ensures Attended(v) <==> !LostByRestart(w, orphan)
    ensures Asked(v) <==> !Unasked(w)
  {
    assert v.tasks == map[];
  }

  /** The engine goes on after a restart exactly unless the process died in a state that reconciliation leaves alone. */
  lemma RestartAttendsExactly(c: Config, w: World, orphan: bool, v: World)
    requires Inv(c, w) && !w.paused && v == Apply(c, w, Step(Restart(orphan), None))
    ensures Attended(v) <==> !LostByRestart(w, orphan)
    ensures Asked(v) <==> !Unasked(w)
  {
    if w.row.state == Running && orphan {
      OrphanAttended(c, w, v);
    } else if w.row.state in {Validating, ReviewRequired} {
      ReviewedAgain(c, w, orphan, v);
    } else {
      LeftAsItIs(c, w, orphan, v);
    }
  }

  /** Changing the profile disturbs exactly a review: it needs its reviewer, or its open approval. */
  lemma ProfileAttendsExactly(c: Config, w: World, supervised: bool, v: World)
    requires Attended(w) && Asked(w) && v == Apply(c, w, Step(SetProfile(supervised), None))
    ensures Attended(v) <==> !(w.row.state == ReviewRequired && !supervised && !Served(w))
    ensures Asked(v) <==> !(w.row.state == ReviewRequired && supervised && w.approvals == 0 && !w.superseded)
  {
    assert v.tasks == w.tasks;
    if Served(w) {
      var i :| i in w.tasks && Live(w, w.tasks[i]) && Serves(w.tasks[i], w.row.state);
      assert i in v.tasks && Live(v, v.tasks[i]) && Serves(v.tasks[i], v.row.state);
    }
    if Served(v) {
      var i :| i in v.tasks && Live(v, v.tasks[i]) && Serves(v.tasks[i], v.row.state);
      assert i in w.tasks && Live(w, w.tasks[i]) && Serves(w.tasks[i], w.row.state);
    }
  }

  /** Approving a failed mission starts its execution exactly when the project is not paused. */
  lemma ApprovalStartsExactly(c: Config, w: World, v: World)
    requires Inv(c, w) && w.row.state == Failed && w.approvals > 0 && !w.superseded && v == Apply(c, w, Step(UserApproves, None))
    ensures v.row.state == Assigned
    ensures Served(v) <==> !w.paused
  {
    if w.paused {
      assert v.tasks == w.tasks;
    } else {
      assert w.nextTask in v.tasks && v.tasks[w.nextTask] == Prepare(w.generation);
    }
  }

  lemma ApprovalMoves(b: World)
    ensures Finished(b, UserApproval(b)).row == b.row <==> b.superseded || b.row.state !in {Blocked, Failed, ReviewRequired}
  {
    if !b.superseded {
      match b.row.state
      case Failed => RetryOutcome(b, UserApproval(b), 0);
      case ReviewRequired =>
        if !b.paused {
          ApprovalOutcome(b, UserApproval(b));
        }
      case _ =>
    }
  }

  lemma RejectionMoves(b: World)
    ensures Finished(b, UserRejection(b)).row == b.row <==> b.superseded || b.row.state !in {Blocked, Failed, ReviewRequired}
  {
  }

  /** An answer takes effect exactly where the engine looks for one; elsewhere, as in a pause, it is used up. */
  lemma AnswerCountsExactly(c: Config, w: World, approves: bool, v: World)
    requires w.approvals > 0 && v == Apply(c, w, Step(if approves then UserApproves else UserRejects, None))
    ensures v.row == w.row <==> w.superseded || w.row.state !in {Blocked, Failed, ReviewRequired}
    ensures v.row == w.row ==> v.approvals == w.approvals - 1
  {
    var b := Begun(w, if approves then UserApproves else UserRejects);
    ApprovalMoves(b);
    RejectionMoves(b);
  }

  // ------------------------------------------------------------ integrated for ever

  /** Integrated, here or behind a pause, with no live task. */
  ghost predicate StuckIntegrated(w: World) {
    && Standing(w.row) == Integrated
    && forall i :: i in w.tasks ==> !Live(w, w.tasks[i])
  }

  lemma StuckStep(c: Config, w: World, s: Step)
    requires Inv(c, w) && StuckIntegrated(w) && Enabled(c, w, s.action)
    ensures StuckIntegrated(Apply(c, w, s))
  {
    assert SegmentOf(c, w, s.action) == IDLE;
    if s.action.Resume? {
      NoneLive(c, w, Resume);
    }
  }

  /** Once an integration has lost its task, nothing completes the mission: not the engine, a user, a resume or a restart. */
  lemma {:induction false} NeverCompletes(c: Config, worlds: seq<World>, steps: seq<Step>, start: nat, n: nat)
    requires IsRun(c, worlds, steps) && start <= n < |worlds| && StuckIntegrated(worlds[start])
    ensures StuckIntegrated(worlds[n]) && worlds[n].row.state != Completed
    decreases n - start
  {
    if start < n {
      NeverCompletes(c, worlds, steps, start, n - 1);
      RunKeepsInvariant(c, worlds, steps, n - 1);
      StuckStep(c, worlds[n - 1], steps[n - 1]);
    }
  }

  // ------------------------------------------------------------ the runs

  function BeingIntegrated(checks: nat): World {
    UnderReviewOfReviewer(checks).(
      row := Row(Integrated, false, 0, None), tasks := map[4 + checks := Integrate(0)], nextTask := 5 + checks,
      evidence := Evidence(true, checks, true))
  }

  lemma ReviewerApproves(c: Config, checks: nat)
    ensures Follows(c, UnderReviewOfReviewer(checks), ReviewFinished(3 + checks, Approve), BeingIntegrated(checks))
  {
    assert map[3 + checks := Review(0)] - {3 + checks} == map[];
  }

  lemma IntegrationSuspended(c: Config, checks: nat)
    ensures Follows(c, BeingIntegrated(checks), Pause, PausedFrom(BeingIntegrated(checks)))
  {
  }

  lemma IntegrationResumed(c: Config, checks: nat)
    ensures Follows(c, PausedFrom(BeingIntegrated(checks)), Resume, BeingIntegrated(checks).(generation := 1))
  {
  }

  /** A pause while the cleanup is awaited: after the resume the mission is integrated for ever. */
  lemma PauseDuringCleanupStrands(c: Config) returns (worlds: seq<World>, steps: seq<Step>, w: World)
    ensures Reaches(c, worlds, steps, w) && !w.paused && w.row.state == Integrated
    ensures !Attended(w) && StuckIntegrated(w)
  {
    var checks := c.requiredChecks;
    worlds, steps, w := RunToReviewersReview(c);
    ReviewerApproves(c, checks);
    worlds, steps, w := Extend(c, worlds, steps, w, ReviewFinished(3 + checks, Approve), BeingIntegrated(checks));
    IntegrationSuspended(c, checks);
    worlds, steps, w := Extend(c, worlds, steps, w, Pause, PausedFrom(BeingIntegrated(checks)));
    IntegrationResumed(c, checks);
    worlds, steps, w := Extend(c, worlds, steps, w, Resume, BeingIntegrated(checks).(generation := 1));
  }

  lemma DyingCorrection(c: Config, v: World)
    requires c.maxCorrectionAttempts >= 1
    requires v == BeingValidated(false).(row := Row(Retrying, false, 1, None), tasks := map[])
    ensures Enabled(c, BeingValidated(false), ValidationFailed(2))
    ensures Apply(c, BeingValidated(false), Step(ValidationFailed(2), Some(2))) == v
    ensures Follows(c, v, Restart(false), v)
  {
  }

  /** A death between the two moves of a correction: after the restart the mission is left retrying. */
  lemma DeathDuringCorrectionStrands(c: Config) returns (worlds: seq<World>, steps: seq<Step>, w: World)
    requires c.maxCorrectionAttempts >= 1
    ensures Reaches(c, worlds, steps, w) && !w.paused && w.row.state == Retrying && w.tasks == map[] && !Attended(w)
  {
    worlds, steps, w := RunToValidation(c, false);
    var v := BeingValidated(false).(row := Row(Retrying, false, 1, None), tasks := map[]);
    DyingCorrection(c, v);
    worlds, steps, w := ExtendDying(c, worlds, steps, w, Step(ValidationFailed(2), Some(2)), v);
    worlds, steps, w := Extend(c, worlds, steps, w, Restart(false), v);
  }

  function DiedApproved(checks: nat): World {
    UnderReviewOfReviewer(checks).(row := Row(Approved, false, 0, None), tasks := map[], evidence := Evidence(true, checks, true))
  }

  lemma DyingApproval(c: Config, checks: nat)
    ensures Enabled(c, UnderReviewOfReviewer(checks), ReviewFinished(3 + checks, Approve))
    ensures Apply(c, UnderReviewOfReviewer(checks), Step(ReviewFinished(3 + checks, Approve), Some(2))) == DiedApproved(checks)
    ensures Follows(c, DiedApproved(checks), Restart(false), DiedApproved(checks))
  {
  }

  /** A death between approval and integration: after the restart the mission is left approved. */
  lemma DeathDuringApprovalStrands(c: Config) returns (worlds: seq<World>, steps: seq<Step>, w: World)
    ensures Reaches(c, worlds, steps, w) && !w.paused && w.row.state == Approved && w.tasks == map[] && !Attended(w)
  {
    var checks := c.requiredChecks;
    worlds, steps, w := RunToReviewersReview(c);
    DyingApproval(c, checks);
    worlds, steps, w := ExtendDying(c, worlds, steps, w, Step(ReviewFinished(3 + checks, Approve), Some(2)), DiedApproved(checks));
    worlds, steps, w := Extend(c, worlds, steps, w, Restart(false), DiedApproved(checks));
  }

  /** All attempts are used, the last one too. */
  function GivenUp(attempts: nat): World {
    Revalidated(attempts).(row := Row(Failed, false, attempts, None), approvals := 1, tasks := map[])
  }

  lemma ValidationGivesUp(c: Config, attempts: nat)
    requires attempts == c.maxCorrectionAttempts
    ensures Follows(c, Revalidated(attempts), ValidationFailed(3 * attempts + 2), GivenUp(attempts))
  {
    assert map[3 * attempts + 2 := Validate(0, attempts, 0)] - {3 * attempts + 2} == map[];
  }

  lemma FailedSuspended(c: Config, attempts: nat)
    ensures Follows(c, GivenUp(attempts), Pause, GivenUp(attempts).(paused := true, generation := 1))
  {
  }

  function DispatchedInPause(attempts: nat): World {
    GivenUp(attempts).(row := Row(Assigned, false, 0, None), approvals := 0, paused := true, generation := 1)
  }

  lemma FailedDispatched(c: Config, attempts: nat)
    ensures Follows(c, GivenUp(attempts).(paused := true, generation := 1), UserApproves, DispatchedInPause(attempts))
  {
  }

  lemma DispatchedResumed(c: Config, attempts: nat)
    ensures Follows(c, DispatchedInPause(attempts), Resume, DispatchedInPause(attempts).(paused := false))
  {
  }

  /** A failed mission approved while its project is paused: after the resume it is assigned and nothing executes it. */
  lemma ApprovalDuringPauseStrands(c: Config) returns (worlds: seq<World>, steps: seq<Step>, w: World)
    ensures Reaches(c, worlds, steps, w) && !w.paused && w.row.state == Assigned && w.tasks == map[] && !Attended(w)
  {
    var attempts := c.maxCorrectionAttempts;
    worlds, steps, w := RunThroughAttempts(c, attempts);
    ValidationGivesUp(c, attempts);
    worlds, steps, w := Extend(c, worlds, steps, w, ValidationFailed(3 * attempts + 2), GivenUp(attempts));
    FailedSuspended(c, attempts);
    worlds, steps, w := Extend(c, worlds, steps, w, Pause, GivenUp(attempts).(paused := true, generation := 1));
    FailedDispatched(c, attempts);
    worlds, steps, w := Extend(c, worlds, steps, w, UserApproves, DispatchedInPause(attempts));
    DispatchedResumed(c, attempts);
    worlds, steps, w := Extend(c, worlds, steps, w, Resume, DispatchedInPause(attempts).(paused := false));
  }

  lemma BlockedApprovedInPause(c: Config, blocked: World)
    requires blocked == AtState(false, Blocked).(approvals := 1, nextTask := 1)
    ensures Follows(c, BeingPrepared(false), Prepared(0, false), blocked)
    ensures Follows(c, blocked, Pause, PausedFrom(blocked))
    ensures Follows(c, PausedFrom(blocked), UserApproves, PausedFrom(blocked).(approvals := 0))
    ensures Follows(c, PausedFrom(blocked).(approvals := 0), Resume, blocked.(approvals := 0, generation := 1))
  {
    assert map[0 := Prepare(0)] - {0} == map[];
  }

  /** A blocked mission approved while its project is paused: the answer is used up, and the mission waits for none. */
  lemma AnswerDuringPauseIsLost(c: Config) returns (worlds: seq<World>, steps: seq<Step>, w: World)
    ensures Reaches(c, worlds, steps, w) && !w.paused && w.row.state == Blocked && !Asked(w)
  {
    var blocked := AtState(false, Blocked).(approvals := 1, nextTask := 1);
    worlds, steps, w := RunToPreparation(c, false);
    BlockedApprovedInPause(c, blocked);
    worlds, steps, w := Extend(c, worlds, steps, w, Prepared(0, false), blocked);
    worlds, steps, w := Extend(c, worlds, steps, w, Pause, PausedFrom(blocked));
    worlds, steps, w := Extend(c, worlds, steps, w, UserApproves, PausedFrom(blocked).(approvals := 0));
    worlds, steps, w := Extend(c, worlds, steps, w, Resume, blocked.(approvals := 0, generation := 1));
  }
}
