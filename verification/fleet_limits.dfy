/** Every mission of a fleet runs as it would alone, and exactly which steps exceed the scheduler's limits. */
module FleetLimits {
  import opened Wrappers
  import opened Missions
  import opened MissionFlow
  import opened MissionFlowProofs
  import opened MissionFlowTheorems
  import opened Scheduler
  import opened Fleet
  import PlanCompletion

  // ------------------------------------------------------------ each mission runs as alone

  /** A death that another mission's step brings is a death of this one too. */
  lemma LosingTasks(c: Config, w: World)
    ensures Enabled(c, w, SetProfile(w.supervised))
    ensures Apply(c, w, Step(SetProfile(w.supervised), Some(0))) == w.(tasks := map[])
  {
  }

  lemma StepIsEnabled(setup: Setup, f: seq<Member>, s: FleetStep, i: nat)
    requires i < |f| && FleetEnabled(setup, f, s) && StepOf(setup, f, s, i).Some?
    ensures Enabled(f[i].config, f[i].world, StepOf(setup, f, s, i).value.action)
  {
  }

  lemma OneMore(c: Config, worlds: seq<World>, steps: seq<Step>, s: Step)
    returns (longer: seq<World>, more: seq<Step>)
    requires IsRun(c, worlds, steps) && Enabled(c, worlds[|steps|], s.action)
    ensures IsRun(c, longer, more) && longer[|more|] == Apply(c, worlds[|steps|], s)
  {
    longer, more := worlds + [Apply(c, worlds[|steps|], s)], steps + [s];
  }

  lemma {:induction false} ConfigsStay(setup: Setup, fleets: seq<seq<Member>>, steps: seq<FleetStep>, n: nat)
    requires IsFleetRun(setup, fleets, steps) && n <= |steps|
    ensures |fleets[n]| == |fleets[0]|
    ensures forall i :: 0 <= i < |fleets[0]| ==>
      && fleets[n][i].config == fleets[0][i].config && fleets[n][i].mission == fleets[0][i].mission
      && fleets[n][i].inRepo == fleets[0][i].inRepo
  {
    if n > 0 {
      ConfigsStay(setup, fleets, steps, n - 1);
      assert fleets[n] == FleetApply(setup, fleets[n - 1], steps[n - 1]);
    }
  }

  /** What happens to one mission of a fleet is a run of that mission, so all theorems about such runs hold of it. */
  lemma {:induction false} MissionsRunAsAlone(setup: Setup, fleets: seq<seq<Member>>, steps: seq<FleetStep>, n: nat, i: nat)
    returns (worlds: seq<World>, own: seq<Step>)
    requires IsFleetRun(setup, fleets, steps) && n <= |steps| && i < |fleets[0]|
    ensures |fleets[n]| == |fleets[0]| && IsRun(fleets[0][i].config, worlds, own) && worlds[|own|] == fleets[n][i].world
  {
    ConfigsStay(setup, fleets, steps, n);
    var c := fleets[0][i].config;
    if n == 0 {
      worlds, own := [fleets[0][i].world], [];
    } else {
      ConfigsStay(setup, fleets, steps, n - 1);
      worlds, own := MissionsRunAsAlone(setup, fleets, steps, n - 1, i);
      var f, s := fleets[n - 1], steps[n - 1];
      assert fleets[n] == FleetApply(setup, f, s);
      var step := StepOf(setup, f, s, i);
      if step.Some? {
        StepIsEnabled(setup, f, s, i);
        worlds, own := OneMore(c, worlds, own, step.value);
      }
      if Dies(s) {
        var w := worlds[|own|];
        LosingTasks(c, w);
        worlds, own := OneMore(c, worlds, own, Step(SetProfile(w.supervised), Some(0)));
      }
    }
  }

  /** So the invariant of a mission holds of each. */
  lemma MembersKeepInvariant(setup: Setup, fleets: seq<seq<Member>>, steps: seq<FleetStep>, n: nat, i: nat)
    requires IsFleetRun(setup, fleets, steps) && n <= |steps| && i < |fleets[n]|
    ensures Inv(fleets[n][i].config, fleets[n][i].world)
  {
    ConfigsStay(setup, fleets, steps, n);
    var worlds, own := MissionsRunAsAlone(setup, fleets, steps, n, i);
    RunKeepsInvariant(fleets[0][i].config, worlds, own, |own|);
  }

  // ------------------------------------------------------------ counting

  /** The same missions, perhaps in other states. */
  predicate SameMissions(a: seq<Mission>, b: seq<Mission>) {
    |a| == |b| && forall i :: 0 <= i < |a| ==> a[i].projectId == b[i].projectId
  }

  lemma {:induction false} FewerRunning(a: seq<Mission>, b: seq<Mission>, p: string)
    requires SameMissions(a, b) && forall i :: 0 <= i < |a| && InProgress(b[i].state) ==> InProgress(a[i].state)
    ensures |RunningOf(b)| <= |RunningOf(a)| && CountProject(RunningOf(b), p) <= CountProject(RunningOf(a), p)
  {
    if a != [] {
      FewerRunning(a[1..], b[1..], p);
      Prepended(a, p);
      Prepended(b, p);
    }
  }

  lemma Prepended(a: seq<Mission>, p: string)
    requires a != []
    ensures var one := if InProgress(a[0].state) then 1 else 0;
      && |RunningOf(a)| == one + |RunningOf(a[1..])|
      && CountProject(RunningOf(a), p) == (if a[0].projectId == p then one else 0) + CountProject(RunningOf(a[1..]), p)
  {
    if InProgress(a[0].state) {
      assert RunningOf(a)[1..] == RunningOf(a[1..]);
    } else {
      assert RunningOf(a) == RunningOf(a[1..]);
    }
  }

  /** One mission changes. */
  lemma {:induction false} OneChanged(a: seq<Mission>, b: seq<Mission>, k: nat, p: string)
    requires SameMissions(a, b) && k < |a| && forall i :: 0 <= i < |a| && i != k ==> InProgress(b[i].state) == InProgress(a[i].state)
    ensures var before, after := if InProgress(a[k].state) then 1 else 0, if InProgress(b[k].state) then 1 else 0;
      && |RunningOf(b)| - |RunningOf(a)| == after - before
      && CountProject(RunningOf(b), p) - CountProject(RunningOf(a), p) == if a[k].projectId == p then after - before else 0
  {
    Prepended(a, p);
    Prepended(b, p);
    if k > 0 {
      OneChanged(a[1..], b[1..], k - 1, p);
    } else {
      FewerRunning(a[1..], b[1..], p);
      FewerRunning(b[1..], a[1..], p);
    }
  }

  ghost predicate Distinct(a: seq<Mission>) {
    forall i, j :: 0 <= i < j < |a| ==> a[i] != a[j]
  }

  lemma RestIn(picked: seq<Mission>, k: nat, m: Mission)
    requires k < |picked| && m in picked && m != picked[k]
    ensures m in picked[..k] + picked[k + 1..]
  {
    var j :| 0 <= j < |picked| && picked[j] == m;
    assert j < k ==> (picked[..k] + picked[k + 1..])[j] == m;
    assert j > k ==> (picked[..k] + picked[k + 1..])[j - 1] == m;
  }

  /** Missions that come to run have all been picked. */
  ghost predicate RunOnlyPicked(a: seq<Mission>, b: seq<Mission>, picked: seq<Mission>)
    requires |a| == |b|
  {
    forall i :: 0 <= i < |a| && InProgress(b[i].state) ==> InProgress(a[i].state) || a[i] in picked
  }

  lemma RestPicked(a: seq<Mission>, b: seq<Mission>, picked: seq<Mission>, k: nat)
    requires SameMissions(a, b) && Distinct(a) && a != [] && k < |picked| && picked[k] == a[0] && RunOnlyPicked(a, b, picked)
    ensures RunOnlyPicked(a[1..], b[1..], picked[..k] + picked[k + 1..])
  {
    forall i | 0 <= i < |a[1..]| && InProgress(b[1..][i].state) && !InProgress(a[1..][i].state)
      ensures a[1..][i] in picked[..k] + picked[k + 1..]
    {
      assert a[i + 1] != a[0];
      RestIn(picked, k, a[i + 1]);
    }
  }

  /** They are no more than those that were picked. */
  lemma {:induction false} PickedRun(a: seq<Mission>, b: seq<Mission>, picked: seq<Mission>, p: string)
    requires SameMissions(a, b) && Distinct(a) && RunOnlyPicked(a, b, picked)
    ensures |RunningOf(b)| <= |RunningOf(a)| + |picked|
    ensures CountProject(RunningOf(b), p) <= CountProject(RunningOf(a), p) + CountProject(picked, p)
    decreases |a|
  {
    if a != [] {
      Prepended(a, p);
      Prepended(b, p);
      if a[0] in picked {
        var k :| 0 <= k < |picked| && picked[k] == a[0];
        Without(picked, k, _ => 0, p);
        RestPicked(a, b, picked, k);
        PickedRun(a[1..], b[1..], picked[..k] + picked[k + 1..], p);
      } else {
        PickedRun(a[1..], b[1..], picked, p);
      }
    }
  }

  // ------------------------------------------------------------ exactly which steps exceed a limit

  /** A mission that does not count as running is dispatched past the scheduler: by a correction, or by the user's approval. */
  predicate Redispatches(c: Config, w: World, s: Step)
    requires Enabled(c, w, s.action)
  {
    && (s.diedAfter.None? || s.diedAfter.value >= 3)
    && match s.action
       case UserApproves => w.row.state == Failed && !w.superseded
       case CheckFinished(task, ok) => !ok && Live(w, w.tasks[task]) && w.tasks[task].attempts < c.maxCorrectionAttempts
       case ValidationFailed(task) => Live(w, w.tasks[task]) && w.tasks[task].attempts < c.maxCorrectionAttempts
       case ReviewFinished(task, verdict) =>
         verdict.Reject? && Live(w, w.tasks[task]) && w.row.state == ReviewRequired && w.row.correctionAttempts < c.maxCorrectionAttempts
       case _ => false
  }

  /** Another attempt counts as running after its third transaction. */
  lemma RetryLoad(b: World, s: Segment, count: nat)
    requires Unfenced(b, s) && s.first.SetAttempts? && s.second == Move(Retrying) && s.third == Move(Assigned)
    requires !InProgress(b.row.state)
    ensures InProgress(CommitAll(b, s, count).world.row.state) <==> count >= 3 && CanTransition(b.row.state, Retrying)
  {
    var counted := Commit(b, s.fence, s.first);
    assert !counted.threw && counted.world.row.state == b.row.state;
    var moved := Commit(counted.world, s.fence, s.second);
    assert moved.threw <==> !CanTransition(b.row.state, Retrying);
  }

  lemma GivingUpLoad(b: World, s: Segment, count: nat)
    requires s.first == Move(Failed) && s.second.OpenApproval? && s.third.Nothing? && !InProgress(b.row.state)
    ensures !InProgress(CommitAll(b, s, count).world.row.state)
  {
  }

  lemma CorrectionLoad(c: Config, b: World, fence: Option<nat>, attempts: nat, count: nat)
    requires !InProgress(b.row.state) && (fence.Some? ==> !Fenced(b, fence.value))
    ensures InProgress(CommitAll(b, Correction(c, b, fence, attempts), count).world.row.state) <==>
      count >= 3 && attempts < c.maxCorrectionAttempts && CanTransition(b.row.state, Retrying)
  {
    if attempts < c.maxCorrectionAttempts {
      RetryLoad(b, Correction(c, b, fence, attempts), count);
    } else {
      GivingUpLoad(b, Correction(c, b, fence, attempts), count);
    }
  }

  function Count(s: Step): nat {
    if s.diedAfter.Some? then s.diedAfter.value else 3
  }

  lemma RowAfter(c: Config, w: World, s: Step)
    requires Enabled(c, w, s.action)
    ensures Apply(c, w, s).row == CommitAll(Begun(w, s.action), SegmentOf(c, w, s.action), Count(s)).world.row
  {
  }

  lemma CheckLoad(c: Config, w: World, s: Step)
    requires Inv(c, w) && Enabled(c, w, s.action) && (s.action.CheckFinished? || s.action.ValidationFailed?)
    ensures !InProgress(w.row.state) && InProgress(Apply(c, w, s).row.state) <==> Redispatches(c, w, s)
  {
    var b, t := Begun(w, s.action), w.tasks[s.action.task];
    RowAfter(c, w, s);
    if Live(w, t) && (s.action.ValidationFailed? || !s.action.ok) {
      assert w.row.state == Validating;
      CorrectionLoad(c, b, Some(t.generation), t.attempts, Count(s));
    }
  }

  lemma VerdictLoad(c: Config, b: World, generation: nat, verdict: Verdict, count: nat)
    requires UnderReview(b.row.state) && !Fenced(b, generation) && !verdict.Reject?
    ensures !InProgress(CommitAll(b, AfterReview(c, b, Some(generation), verdict), count).world.row.state)
  {
    assert !InProgress(b.row.state);
  }

  lemma ReviewLoad(c: Config, w: World, s: Step)
    requires Inv(c, w) && Enabled(c, w, s.action) && s.action.ReviewFinished? && Live(w, w.tasks[s.action.task])
    ensures !InProgress(w.row.state) && InProgress(Apply(c, w, s).row.state) <==> Redispatches(c, w, s)
  {
    var b, t := Begun(w, s.action), w.tasks[s.action.task];
    RowAfter(c, w, s);
    assert UnderReview(b.row.state) && b.row == w.row;
    if s.action.verdict.Reject? {
      CorrectionLoad(c, b, Some(t.generation), b.row.correctionAttempts, Count(s));
    } else {
      VerdictLoad(c, b, t.generation, s.action.verdict, Count(s));
    }
  }

  lemma ExecutionLoad(c: Config, w: World, s: Step)
    requires Inv(c, w) && Enabled(c, w, s.action) && (s.action.Prepared? || s.action.RunFinished?)
    ensures InProgress(Apply(c, w, s).row.state) ==> InProgress(w.row.state)
  {
    RowAfter(c, w, s);
  }

  lemma LaterLoad(c: Config, w: World, s: Step)
    requires Inv(c, w) && Enabled(c, w, s.action) && (s.action.ChecksDone? || s.action.PublicationFailed? || s.action.CleanedUp?)
    ensures InProgress(Apply(c, w, s).row.state) ==> InProgress(w.row.state)
  {
    RowAfter(c, w, s);
  }

  lemma FencedLoad(c: Config, w: World, s: Step)
    requires Enabled(c, w, s.action) && OfTask(s.action) && !Live(w, w.tasks[s.action.task])
    ensures Apply(c, w, s).row == w.row
  {
  }

  lemma TaskLoad(c: Config, w: World, s: Step)
    requires Inv(c, w) && Enabled(c, w, s.action) && OfTask(s.action)
    ensures !InProgress(w.row.state) && InProgress(Apply(c, w, s).row.state) <==> Redispatches(c, w, s)
  {
    if !Live(w, w.tasks[s.action.task]) {
      FencedLoad(c, w, s);
    } else if s.action.CheckFinished? || s.action.ValidationFailed? {
      CheckLoad(c, w, s);
    } else if s.action.ReviewFinished? {
      ReviewLoad(c, w, s);
    } else if s.action.Prepared? || s.action.RunFinished? {
      ExecutionLoad(c, w, s);
    } else {
      LaterLoad(c, w, s);
    }
  }

  lemma ApprovalLoad(c: Config, w: World, s: Step)
    requires Inv(c, w) && Enabled(c, w, s.action) && s.action.UserApproves?
    ensures !InProgress(w.row.state) && InProgress(Apply(c, w, s).row.state) <==> Redispatches(c, w, s)
  {
    var b := Begun(w, s.action);
    RowAfter(c, w, s);
    if w.row.state == Failed && !w.superseded {
      RetryLoad(b, UserApproval(b), Count(s));
    } else if w.row.state != Failed {
      OtherApprovalLoad(b, Count(s));
    }
  }

  lemma OtherApprovalLoad(b: World, count: nat)
    requires b.row.state != Failed
    ensures InProgress(CommitAll(b, UserApproval(b), count).world.row.state) ==> InProgress(b.row.state)
  {
  }

  lemma RejectionLoad(b: World, count: nat)
    ensures InProgress(CommitAll(b, UserRejection(b), count).world.row.state) ==> InProgress(b.row.state)
  {
  }

  lemma SingleLoad(c: Config, w: World, s: Step)
    requires Inv(c, w) && Enabled(c, w, s.action) && Single(s.action)
    ensures !InProgress(w.row.state) && InProgress(Apply(c, w, s).row.state) <==> Redispatches(c, w, s)
  {
    if OfTask(s.action) {
      TaskLoad(c, w, s);
    } else if s.action.UserApproves? {
      ApprovalLoad(c, w, s);
    } else {
      RowAfter(c, w, s);
      RejectionLoad(Begun(w, s.action), Count(s));
    }
  }

  lemma RestartLoad(c: Config, w: World, s: Step)
    requires Inv(c, w) && s.action.Restart?
    ensures InProgress(Apply(c, w, s).row.state) ==> InProgress(w.row.state)
  {
    RowAfter(c, w, s);
  }

  lemma ResumeLoad(c: Config, w: World, s: Step)
    requires Inv(c, w) && Enabled(c, w, s.action) && s.action.Resume?
    ensures InProgress(Apply(c, w, s).row.state) ==> InProgress(w.row.state)
  {
    RowAfter(c, w, s);
  }

  /** Steps of a project and restarts never raise the load. */
  lemma CommonLoad(c: Config, w: World, s: Step)
    requires Inv(c, w) && Enabled(c, w, s.action) && Common(s.action)
    ensures InProgress(Apply(c, w, s).row.state) ==> InProgress(w.row.state)
  {
    if s.action.Restart? {
      RestartLoad(c, w, s);
    } else if s.action.Resume? {
      ResumeLoad(c, w, s);
    } else {
      RowAfter(c, w, s);
    }
  }

  // ------------------------------------------------------------ the load of a fleet

  ghost predicate Sound(f: seq<Member>) {
    && PlanCompletion.DistinctIds(Listing(f))
    && forall i :: 0 <= i < |f| ==> Inv(f[i].config, f[i].world)
  }

  /** The step dispatches a mission past the scheduler. */
  predicate DispatchesAnyway(f: seq<Member>, s: FleetStep)
    requires s.Act? ==> s.i < |f| && Enabled(f[s.i].config, f[s.i].world, s.step.action)
  {
    s.Act? && Redispatches(f[s.i].config, f[s.i].world, s.step)
  }

  lemma StateAfter(setup: Setup, f: seq<Member>, s: FleetStep, i: nat)
    requires i < |f| && FleetEnabled(setup, f, s)
    ensures var g := FleetApply(setup, f, s);
      && Listing(g)[i].state == WorldAfter(f[i], StepOf(setup, f, s, i)).row.state
      && Listing(g)[i] == Listing(f)[i].(state := Listing(g)[i].state)
  {
  }

  lemma SameListing(setup: Setup, f: seq<Member>, s: FleetStep)
    requires FleetEnabled(setup, f, s)
    ensures SameMissions(Listing(f), Listing(FleetApply(setup, f, s)))
  {
    forall i | 0 <= i < |f| ensures Listing(f)[i].projectId == Listing(FleetApply(setup, f, s))[i].projectId {
      StateAfter(setup, f, s, i);
    }
  }

  lemma TogetherIsCommon(f: seq<Member>, steps: seq<Option<Step>>, i: nat)
    requires |steps| == |f| && Concerted(f, steps) && i < |f| && steps[i].Some?
    ensures Common(steps[i].value.action)
  {
  }

  lemma TogetherLoad(setup: Setup, f: seq<Member>, s: FleetStep, p: string)
    requires Sound(f) && FleetEnabled(setup, f, s) && s.Together?
    ensures var g := FleetApply(setup, f, s); Load(g) <= Load(f) && LoadOf(g, p) <= LoadOf(f, p)
  {
    var g := FleetApply(setup, f, s);
    SameListing(setup, f, s);
    forall i | 0 <= i < |f| && InProgress(Listing(g)[i].state) ensures InProgress(Listing(f)[i].state) {
      StateAfter(setup, f, s, i);
      if s.steps[i].Some? {
        TogetherIsCommon(f, s.steps, i);
        CommonLoad(f[i].config, f[i].world, s.steps[i].value);
      }
    }
    FewerRunning(Listing(f), Listing(g), p);
  }

  lemma ActLoad(setup: Setup, f: seq<Member>, s: FleetStep, p: string)
    requires Sound(f) && FleetEnabled(setup, f, s) && s.Act?
    ensures var g := FleetApply(setup, f, s);
      && (Load(g) > Load(f) <==> DispatchesAnyway(f, s)) && Load(g) <= Load(f) + 1
      && (LoadOf(g, p) > LoadOf(f, p) <==> DispatchesAnyway(f, s) && f[s.i].mission.projectId == p) && LoadOf(g, p) <= LoadOf(f, p) + 1
  {
    var g := FleetApply(setup, f, s);
    SameListing(setup, f, s);
    forall i | 0 <= i < |f| && i != s.i ensures InProgress(Listing(g)[i].state) == InProgress(Listing(f)[i].state) {
      StateAfter(setup, f, s, i);
    }
    StateAfter(setup, f, s, s.i);
    SingleLoad(f[s.i].config, f[s.i].world, s.step);
    OneChanged(Listing(f), Listing(g), s.i, p);
  }

  lemma StartedWasPicked(setup: Setup, f: seq<Member>, s: FleetStep, i: nat)
    requires i < |f| && FleetEnabled(setup, f, s) && s.Start?
    requires InProgress(Listing(FleetApply(setup, f, s))[i].state) && !InProgress(Listing(f)[i].state)
    ensures Listing(f)[i] in Picked(setup, f)
  {
    StateAfter(setup, f, s, i);
    var picked := Picked(setup, f);
    assert s.cut.Some? && s.cut.value <= |picked| && Listing(f)[i] in picked[..s.cut.value] ==> Listing(f)[i] in picked;
  }

  lemma ListedAreDistinct(f: seq<Member>)
    requires PlanCompletion.DistinctIds(Listing(f))
    ensures Distinct(Listing(f))
  {
  }

  /** What is picked fits what the limits leave. */
  lemma PickedFits(setup: Setup, f: seq<Member>, p: string)
    ensures var picked := Picked(setup, f);
      && (picked == [] || |picked| + Load(f) <= setup.limits.maxConcurrentRuns)
      && (CountProject(picked, p) == 0 || CountProject(picked, p) + LoadOf(f, p) <= setup.limits.maxConcurrentRunsPerProject)
  {
    var running := RunningOf(Listing(f));
    SelectionIsFeasible(PlanCompletion.ReadyOf(Listing(f)), setup.limits.maxConcurrentRuns - Load(f),
                        UsageOf(running), setup.limits.maxConcurrentRunsPerProject, Picked(setup, f));
    UsageCounts(running, p);
  }

  /** The scheduler fills what the limits leave, and no more. */
  lemma StartLoad(setup: Setup, f: seq<Member>, s: FleetStep, p: string)
    requires Sound(f) && FleetEnabled(setup, f, s) && s.Start?
    ensures var g := FleetApply(setup, f, s);
      && (Load(g) <= Load(f) || Load(g) <= setup.limits.maxConcurrentRuns)
      && (LoadOf(g, p) <= LoadOf(f, p) || LoadOf(g, p) <= setup.limits.maxConcurrentRunsPerProject)
  {
    var g := FleetApply(setup, f, s);
    SameListing(setup, f, s);
    ListedAreDistinct(f);
    forall i | 0 <= i < |f| && InProgress(Listing(g)[i].state) ensures InProgress(Listing(f)[i].state) || Listing(f)[i] in Picked(setup, f) {
      if !InProgress(Listing(f)[i].state) {
        StartedWasPicked(setup, f, s, i);
      }
    }
    PickedRun(Listing(f), Listing(g), Picked(setup, f), p);
    PickedFits(setup, f, p);
  }

  /** The load of everything, or of one project, and its limit. */
  function LoadIn(f: seq<Member>, scope: Option<string>): nat {
    if scope.None? then Load(f) else LoadOf(f, scope.value)
  }

  function Limit(setup: Setup, scope: Option<string>): int {
    if scope.None? then setup.limits.maxConcurrentRuns else setup.limits.maxConcurrentRunsPerProject
  }

  /** The limit is reached, and a mission is dispatched past the scheduler. */
  predicate Exceeds(setup: Setup, f: seq<Member>, s: FleetStep, scope: Option<string>)
    requires s.Act? ==> s.i < |f| && Enabled(f[s.i].config, f[s.i].world, s.step.action)
  {
    LoadIn(f, scope) >= Limit(setup, scope) && DispatchesAnyway(f, s) && (scope.Some? ==> f[s.i].mission.projectId == scope.value)
  }

  /**
   A step raises the number of missions in progress above a limit exactly when the limit is
   reached and a correction or an approval dispatches a mission past the scheduler.
   */
  lemma LimitExceededExactly(setup: Setup, f: seq<Member>, s: FleetStep, scope: Option<string>)
    requires Sound(f) && FleetEnabled(setup, f, s)
    ensures var g := FleetApply(setup, f, s);
      LoadIn(g, scope) > LoadIn(f, scope) && LoadIn(g, scope) > Limit(setup, scope) <==> Exceeds(setup, f, s, scope)
  {
    var p := if scope.Some? then scope.value else "";
    match s
    case Act(_, _) => ActLoad(setup, f, s, p);
    case Start(_, _) => StartLoad(setup, f, s, p);
    case Together(_) => TogetherLoad(setup, f, s, p);
  }

  // ------------------------------------------------------------ over whole runs

  lemma RunIsSound(setup: Setup, fleets: seq<seq<Member>>, steps: seq<FleetStep>, n: nat)
    requires IsFleetRun(setup, fleets, steps) && n <= |steps|
    ensures Sound(fleets[n])
  {
    ConfigsStay(setup, fleets, steps, n);
    forall i | 0 <= i < |fleets[n]| ensures Inv(fleets[n][i].config, fleets[n][i].world) {
      MembersKeepInvariant(setup, fleets, steps, n, i);
    }
    forall i, j | 0 <= i < j < |fleets[n]| ensures Listing(fleets[n])[i].id != Listing(fleets[n])[j].id {
      assert Listing(fleets[0])[i].id != Listing(fleets[0])[j].id;
    }
  }

  ghost predicate WithinLimit(setup: Setup, fleets: seq<seq<Member>>, n: nat, scope: Option<string>)
    requires n < |fleets|
  {
    forall k :: 0 <= k <= n ==> LoadIn(fleets[k], scope) <= Limit(setup, scope)
  }

  /** No step up to here has exceeded the limit. */
  ghost predicate NoneExceeds(setup: Setup, fleets: seq<seq<Member>>, steps: seq<FleetStep>, n: nat, scope: Option<string>)
    requires IsFleetRun(setup, fleets, steps) && n <= |steps|
  {
    forall k {:trigger steps[k]} :: 0 <= k < n ==> !Exceeds(setup, fleets[k], steps[k], scope)
  }

  lemma {:induction false} NoneAtFirst(missions: seq<Mission>)
    requires forall i :: 0 <= i < |missions| ==> missions[i].state == Proposed
    ensures RunningOf(missions) == []
  {
    if missions != [] {
      NoneAtFirst(missions[1..]);
    }
  }

  lemma NoLoadAtFirst(setup: Setup, f: seq<Member>, scope: Option<string>)
    requires FleetInitial(f)
    ensures LoadIn(f, scope) == 0
  {
    forall i | 0 <= i < |f| ensures Listing(f)[i].state == Proposed {
      assert f[i].world == Initial(f[i].world.supervised);
    }
    NoneAtFirst(Listing(f));
  }

  lemma NextWithin(setup: Setup, fleets: seq<seq<Member>>, steps: seq<FleetStep>, n: nat, scope: Option<string>)
    requires IsFleetRun(setup, fleets, steps) && n < |steps| && LoadIn(fleets[n], scope) <= Limit(setup, scope)
    ensures LoadIn(fleets[n + 1], scope) <= Limit(setup, scope) <==> !Exceeds(setup, fleets[n], steps[n], scope)
  {
    RunIsSound(setup, fleets, steps, n);
    assert fleets[n + 1] == FleetApply(setup, fleets[n], steps[n]);
    LimitExceededExactly(setup, fleets[n], steps[n], scope);
  }

  lemma WithinUpTo(setup: Setup, fleets: seq<seq<Member>>, n: nat, scope: Option<string>)
    requires n + 1 < |fleets|
    ensures WithinLimit(setup, fleets, n + 1, scope) <==>
      WithinLimit(setup, fleets, n, scope) && LoadIn(fleets[n + 1], scope) <= Limit(setup, scope)
  {
  }

  lemma NoneExceedsUpTo(setup: Setup, fleets: seq<seq<Member>>, steps: seq<FleetStep>, n: nat, scope: Option<string>)
    requires IsFleetRun(setup, fleets, steps) && n < |steps|
    ensures NoneExceeds(setup, fleets, steps, n + 1, scope) <==>
      NoneExceeds(setup, fleets, steps, n, scope) && !Exceeds(setup, fleets[n], steps[n], scope)
  {
  }

  /** Over a run a limit holds up to a point exactly when no such step has been taken by then. */
  lemma {:induction false} LimitHoldsExactly(setup: Setup, fleets: seq<seq<Member>>, steps: seq<FleetStep>, n: nat, scope: Option<string>)
    requires IsFleetRun(setup, fleets, steps) && n <= |steps| && Limit(setup, scope) >= 0
    ensures WithinLimit(setup, fleets, n, scope) <==> NoneExceeds(setup, fleets, steps, n, scope)
  {
    if n == 0 {
      NoLoadAtFirst(setup, fleets[0], scope);
    } else {
      LimitHoldsExactly(setup, fleets, steps, n - 1, scope);
      WithinUpTo(setup, fleets, n - 1, scope);
      NoneExceedsUpTo(setup, fleets, steps, n - 1, scope);
      if WithinLimit(setup, fleets, n - 1, scope) {
        NextWithin(setup, fleets, steps, n - 1, scope);
      }
    }
  }
}
