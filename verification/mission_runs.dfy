/** Concrete runs of a mission, for the properties that have an end. */
module MissionRuns {
  import opened Wrappers
  import opened Missions
  import opened MissionFlow

  ghost predicate Reaches(c: Config, worlds: seq<World>, steps: seq<Step>, w: World) {
    IsRun(c, worlds, steps) && worlds[|steps|] == w
  }

  predicate Follows(c: Config, w: World, a: Action, v: World) {
    Enabled(c, w, a) && v == Apply(c, w, Step(a, None))
  }

  /** Steps of the mission's own tasks, its promotion and its start, without a death. */
  predicate Plain(steps: seq<Step>) {
    forall i :: 0 <= i < |steps| ==>
      steps[i].diedAfter.None? && (OfTask(steps[i].action) || steps[i].action.DependenciesMet? || steps[i].action.Schedule?)
  }

  lemma Extend(c: Config, worlds: seq<World>, steps: seq<Step>, w: World, a: Action, v: World)
    returns (worlds': seq<World>, steps': seq<Step>, v': World)
    requires Reaches(c, worlds, steps, w) && Follows(c, w, a, v)
    ensures v' == v && Reaches(c, worlds', steps', v) && steps' == steps + [Step(a, None)] && worlds' == worlds + [v]
  {
    worlds', steps', v' := ExtendDying(c, worlds, steps, w, Step(a, None), v);
  }

  /** The same for a step that the process may die in. */
  lemma ExtendDying(c: Config, worlds: seq<World>, steps: seq<Step>, w: World, s: Step, v: World)
    returns (worlds': seq<World>, steps': seq<Step>, v': World)
    requires Reaches(c, worlds, steps, w) && Enabled(c, w, s.action) && v == Apply(c, w, s)
    ensures v' == v && Reaches(c, worlds', steps', v) && steps' == steps + [s] && worlds' == worlds + [v]
  {
    worlds', steps', v' := worlds + [v], steps + [s], v;
    assert worlds'[0] == worlds[0];
  }

  /** A run of such steps from a new mission on. */
  ghost predicate FromNew(c: Config, supervised: bool, worlds: seq<World>, steps: seq<Step>, w: World) {
    Reaches(c, worlds, steps, w) && Plain(steps) && worlds[0] == Initial(supervised)
  }

  lemma ExtendPlainly(c: Config, supervised: bool, worlds: seq<World>, steps: seq<Step>, w: World, a: Action, v: World)
    returns (worlds': seq<World>, steps': seq<Step>, v': World)
    requires FromNew(c, supervised, worlds, steps, w) && Follows(c, w, a, v) && Plain([Step(a, None)])
    ensures v' == v && FromNew(c, supervised, worlds', steps', v)
  {
    worlds', steps', v' := Extend(c, worlds, steps, w, a, v);
    assert [Step(a, None)][0] == Step(a, None);
  }

  // ------------------------------------------------------------ up to the first review

  function AtState(supervised: bool, state: MissionState): World {
    Initial(supervised).(row := Row(state, false, 0, None))
  }

  function BeingPrepared(supervised: bool): World {
    AtState(supervised, Assigned).(tasks := map[0 := Prepare(0)], nextTask := 1)
  }

  function BeingRun(supervised: bool): World {
    AtState(supervised, Running).(tasks := map[1 := RunProvider(0)], nextTask := 2, executions := 1)
  }

  function BeingValidated(supervised: bool): World {
    AtState(supervised, Validating).(
      tasks := map[2 := Validate(0, 0, 0)], nextTask := 3, executions := 1, evidence := Evidence(true, 0, false))
  }

  /** After some of the required checks have passed. */
  function BeingChecked(supervised: bool, passed: nat): World {
    BeingValidated(supervised).(
      tasks := map[2 + passed := Validate(0, 0, passed)], nextTask := 3 + passed, evidence := Evidence(true, passed, false))
  }

  function UnderReviewOfUser(checks: nat): World {
    AtState(true, ReviewRequired).(
      approvals := 1, nextTask := 3 + checks, executions := 1, evidence := Evidence(true, checks, false))
  }

  function UnderReviewOfReviewer(checks: nat): World {
    AtState(false, ReviewRequired).(
      tasks := map[3 + checks := Review(0)], nextTask := 4 + checks, executions := 1, evidence := Evidence(true, checks, false))
  }

  /** The pause of a mission that can be suspended. */
  function PausedFrom(w: World): World {
    w.(paused := true, generation := w.generation + 1, row := Row(Paused, false, w.row.correctionAttempts, Some(w.row.state)))
  }

  lemma ToPreparation(c: Config, supervised: bool)
    ensures Follows(c, Initial(supervised), DependenciesMet, AtState(supervised, Ready))
    ensures Follows(c, AtState(supervised, Ready), Schedule, BeingPrepared(supervised))
  {
  }

  lemma ToRun(c: Config, supervised: bool)
    ensures Follows(c, BeingPrepared(supervised), Prepared(0, true), BeingRun(supervised))
  {
    assert map[0 := Prepare(0)] - {0} == map[];
  }

  lemma ToValidation(c: Config, supervised: bool)
    ensures Follows(c, BeingRun(supervised), RunFinished(1, true), BeingValidated(supervised))
  {
    assert map[1 := RunProvider(0)] - {1} == map[];
  }

  lemma NextCheck(c: Config, supervised: bool, passed: nat)
    requires passed < c.requiredChecks
    ensures Follows(c, BeingChecked(supervised, passed), CheckFinished(2 + passed, true), BeingChecked(supervised, passed + 1))
  {
    assert map[2 + passed := Validate(0, 0, passed)] - {2 + passed} == map[];
  }

  lemma ToUsersReview(c: Config)
    ensures Follows(c, BeingChecked(true, c.requiredChecks), ChecksDone(2 + c.requiredChecks), UnderReviewOfUser(c.requiredChecks))
  {
    assert map[2 + c.requiredChecks := Validate(0, 0, c.requiredChecks)] - {2 + c.requiredChecks} == map[];
  }

  lemma ToReviewersReview(c: Config)
    ensures Follows(c, BeingChecked(false, c.requiredChecks), ChecksDone(2 + c.requiredChecks), UnderReviewOfReviewer(c.requiredChecks))
  {
    assert map[2 + c.requiredChecks := Validate(0, 0, c.requiredChecks)] - {2 + c.requiredChecks} == map[];
  }

  lemma RunToPreparation(c: Config, supervised: bool) returns (worlds: seq<World>, steps: seq<Step>, w: World)
    ensures w == BeingPrepared(supervised) && FromNew(c, supervised, worlds, steps, w)
  {
    w := Initial(supervised);
    worlds, steps := [w], [];
    ToPreparation(c, supervised);
    worlds, steps, w := ExtendPlainly(c, supervised, worlds, steps, w, DependenciesMet, AtState(supervised, Ready));
    worlds, steps, w := ExtendPlainly(c, supervised, worlds, steps, w, Schedule, BeingPrepared(supervised));
  }

  lemma RunToValidation(c: Config, supervised: bool) returns (worlds: seq<World>, steps: seq<Step>, w: World)
    ensures w == BeingValidated(supervised) && FromNew(c, supervised, worlds, steps, w)
  {
    worlds, steps, w := RunToPreparation(c, supervised);
    ToRun(c, supervised);
    worlds, steps, w := ExtendPlainly(c, supervised, worlds, steps, w, Prepared(0, true), BeingRun(supervised));
    ToValidation(c, supervised);
    worlds, steps, w := ExtendPlainly(c, supervised, worlds, steps, w, RunFinished(1, true), BeingValidated(supervised));
  }

  lemma {:induction false} RunThroughChecks(c: Config, supervised: bool, passed: nat)
    returns (worlds: seq<World>, steps: seq<Step>, w: World)
    requires passed <= c.requiredChecks
    ensures w == BeingChecked(supervised, passed) && FromNew(c, supervised, worlds, steps, w)
  {
    if passed == 0 {
      worlds, steps, w := RunToValidation(c, supervised);
    } else {
      worlds, steps, w := RunThroughChecks(c, supervised, passed - 1);
      NextCheck(c, supervised, passed - 1);
      worlds, steps, w := ExtendPlainly(c, supervised, worlds, steps, w, CheckFinished(1 + passed, true), BeingChecked(supervised, passed));
    }
  }

  lemma RunToUsersReview(c: Config) returns (worlds: seq<World>, steps: seq<Step>, w: World)
    ensures w == UnderReviewOfUser(c.requiredChecks) && FromNew(c, true, worlds, steps, w)
  {
    worlds, steps, w := RunThroughChecks(c, true, c.requiredChecks);
    ToUsersReview(c);
    worlds, steps, w := ExtendPlainly(c, true, worlds, steps, w, ChecksDone(2 + c.requiredChecks), UnderReviewOfUser(c.requiredChecks));
  }

  lemma RunToReviewersReview(c: Config) returns (worlds: seq<World>, steps: seq<Step>, w: World)
    ensures w == UnderReviewOfReviewer(c.requiredChecks) && FromNew(c, false, worlds, steps, w)
  {
    worlds, steps, w := RunThroughChecks(c, false, c.requiredChecks);
    ToReviewersReview(c);
    worlds, steps, w := ExtendPlainly(c, false, worlds, steps, w, ChecksDone(2 + c.requiredChecks), UnderReviewOfReviewer(c.requiredChecks));
  }

  // ------------------------------------------------------------ one attempt after the other

  /** Validated once more, after some failed validations. */
  function Revalidated(attempts: nat): World {
    BeingValidated(false).(
      row := Row(Validating, false, attempts, None), tasks := map[3 * attempts + 2 := Validate(0, attempts, 0)],
      nextTask := 3 * attempts + 3, executions := attempts + 1)
  }

  function Redispatched(attempts: nat): World {
    Revalidated(attempts).(
      row := Row(Assigned, false, attempts + 1, None), tasks := map[3 * attempts + 3 := Prepare(0)], nextTask := 3 * attempts + 4)
  }

  function Rerun(attempts: nat): World {
    Redispatched(attempts).(
      row := Row(Running, false, attempts + 1, None), tasks := map[3 * attempts + 4 := RunProvider(0)],
      nextTask := 3 * attempts + 5, evidence := NO_EVIDENCE, executions := attempts + 2)
  }

  lemma ToNextAttempt(c: Config, attempts: nat)
    requires attempts < c.maxCorrectionAttempts
    ensures Follows(c, Revalidated(attempts), ValidationFailed(3 * attempts + 2), Redispatched(attempts))
  {
    assert map[3 * attempts + 2 := Validate(0, attempts, 0)] - {3 * attempts + 2} == map[];
  }

  lemma ToNextRun(c: Config, attempts: nat)
    ensures Follows(c, Redispatched(attempts), Prepared(3 * attempts + 3, true), Rerun(attempts))
  {
    assert map[3 * attempts + 3 := Prepare(0)] - {3 * attempts + 3} == map[];
  }

  lemma ToNextValidation(c: Config, attempts: nat)
    ensures Follows(c, Rerun(attempts), RunFinished(3 * attempts + 4, true), Revalidated(attempts + 1))
  {
    assert map[3 * attempts + 4 := RunProvider(0)] - {3 * attempts + 4} == map[];
  }

  /** One attempt more fails. */
  lemma OneAttempt(c: Config, worlds: seq<World>, steps: seq<Step>, attempts: nat)
    returns (worlds': seq<World>, steps': seq<Step>, w: World)
    requires attempts < c.maxCorrectionAttempts && FromNew(c, false, worlds, steps, Revalidated(attempts))
    ensures w == Revalidated(attempts + 1) && FromNew(c, false, worlds', steps', w)
  {
    ToNextAttempt(c, attempts);
    worlds', steps', w := ExtendPlainly(c, false, worlds, steps, Revalidated(attempts), ValidationFailed(3 * attempts + 2), Redispatched(attempts));
    ToNextRun(c, attempts);
    worlds', steps', w := ExtendPlainly(c, false, worlds', steps', w, Prepared(3 * attempts + 3, true), Rerun(attempts));
    ToNextValidation(c, attempts);
    worlds', steps', w := ExtendPlainly(c, false, worlds', steps', w, RunFinished(3 * attempts + 4, true), Revalidated(attempts + 1));
  }

  /** Every attempt fails in its validation, up to the given one. */
  lemma {:induction false} RunThroughAttempts(c: Config, attempts: nat) returns (worlds: seq<World>, steps: seq<Step>, w: World)
    requires attempts <= c.maxCorrectionAttempts
    ensures w == Revalidated(attempts) && FromNew(c, false, worlds, steps, w)
  {
    if attempts == 0 {
      worlds, steps, w := RunToValidation(c, false);
    } else {
      worlds, steps, w := RunThroughAttempts(c, attempts - 1);
      worlds, steps, w := OneAttempt(c, worlds, steps, attempts - 1);
    }
  }
}
