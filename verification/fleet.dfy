/**
 Several missions of several projects under one engine. Each mission is a world of `MissionFlow`;
 what they share are the scheduler with its limits, the dependencies between them, the steps
 that concern a whole project or all missions at once, and the process that may die.
 */
module Fleet {
  import opened Wrappers
  import opened Missions
  import opened MissionFlow
  import opened Scheduler
  import opened Dag
  import PlanCompletion

  /**
   One mission. `inRepo` says that its project has a repository, so that its preparation looks at
   its dependencies; `refused` are its executions that found one incomplete.
   */
  datatype Member = Member(mission: Mission, config: Config, inRepo: bool, world: World, refused: set<nat>)

  datatype Setup = Setup(limits: SchedulingLimits, deps: seq<Dependency>)

  /** The missions as the store lists them. */
  function Listing(f: seq<Member>): (missions: seq<Mission>)
    ensures |missions| == |f|
    ensures forall i :: 0 <= i < |f| ==> missions[i] == f[i].mission.(state := f[i].world.row.state)
  {
    seq(|f|, i requires 0 <= i < |f| => f[i].mission.(state := f[i].world.row.state))
  }

  /** Missions that count as running for the scheduler. */
  predicate InProgress(s: MissionState) {
    s in {Assigned, Running}
  }

  function RunningOf(missions: seq<Mission>): seq<Mission> {
    if missions == [] then []
    else (if InProgress(missions[0].state) then [missions[0]] else []) + RunningOf(missions[1..])
  }

  function Load(f: seq<Member>): nat {
    |RunningOf(Listing(f))|
  }

  function LoadOf(f: seq<Member>, project: string): nat {
    CountProject(RunningOf(Listing(f)), project)
  }

  /** What the scheduler picks from the ready missions. */
  function Picked(setup: Setup, f: seq<Member>): seq<Mission> {
    Selected(PlanCompletion.ReadyOf(Listing(f)), setup.limits.maxConcurrentRuns - Load(f),
             UsageOf(RunningOf(Listing(f))), setup.limits.maxConcurrentRunsPerProject)
  }

  /** All dependencies of a mission are completed: what its preparation asks for. */
  predicate DependenciesDone(setup: Setup, f: seq<Member>, i: nat)
    requires i < |f|
  {
    forall d | d in setup.deps && d.missionId == f[i].mission.id :: StateOf(Listing(f), d.dependsOnMissionId) == Completed
  }

  // ------------------------------------------------------------ steps

  datatype FleetStep =
    | Act(i: nat, step: Step)
    | Start(active: set<string>, cut: Option<nat>)
    | Together(steps: seq<Option<Step>>)

  /** Steps of one mission: those of its tasks, its promotion, and answers of the user. */
  predicate Single(a: Action) {
    OfTask(a) || a.DependenciesMet? || a.UserApproves? || a.UserRejects?
  }

  /** Steps that concern a project, or all missions. */
  predicate Common(a: Action) {
    a.Pause? || a.Resume? || a.Supersede? || a.SetProfile? || a.Restart?
  }

  /** The missions of the project take this step, and no others. */
  predicate OfProject(f: seq<Member>, steps: seq<Option<Step>>, project: string, a: Action)
    requires |steps| == |f|
  {
    forall i :: 0 <= i < |f| ==>
      (steps[i].Some? <==> f[i].mission.projectId == project) && (steps[i].Some? ==> steps[i].value.action == a)
  }

  /** One step of a project, or a restart of everything. */
  ghost predicate Concerted(f: seq<Member>, steps: seq<Option<Step>>)
    requires |steps| == |f|
  {
    || (forall i :: 0 <= i < |f| ==> steps[i].Some? && steps[i].value.action.Restart?)
    || (exists project, a :: Common(a) && !a.Restart? && OfProject(f, steps, project, a))
  }

  /** The scheduler starts a mission of an active project, up to a death. */
  predicate Starts(setup: Setup, f: seq<Member>, active: set<string>, cut: Option<nat>, i: nat)
    requires i < |f|
  {
    var picked := Picked(setup, f);
    && f[i].world.row.state == Ready && f[i].mission.projectId in active
    && Listing(f)[i] in (if cut.Some? && cut.value <= |picked| then picked[..cut.value] else picked)
  }

  ghost predicate FleetEnabled(setup: Setup, f: seq<Member>, s: FleetStep) {
    match s
    case Act(i, step) =>
      && i < |f| && Single(step.action) && Enabled(f[i].config, f[i].world, step.action)
      && (step.action.DependenciesMet? ==> IsUnblocked(Listing(f)[i], Listing(f), setup.deps))
      && (step.action.Prepared? && step.action.ok ==> step.action.task !in f[i].refused)
    case Start(active, _) => forall i :: 0 <= i < |f| && f[i].mission.projectId in active ==> !f[i].world.paused
    case Together(steps) =>
      && |steps| == |f| && Concerted(f, steps)
      && forall i :: 0 <= i < |f| && steps[i].Some? ==> Enabled(f[i].config, f[i].world, steps[i].value.action)
  }

  /** What a step means for one mission. */
  function StepOf(setup: Setup, f: seq<Member>, s: FleetStep, i: nat): Option<Step>
    requires i < |f|
  {
    match s
    case Act(j, step) => if i == j then Some(step) else None
    case Start(active, cut) => if Starts(setup, f, active, cut, i) then Some(Step(Schedule, None)) else None
    case Together(steps) => if i < |steps| then steps[i] else None
  }

  ghost predicate Dies(s: FleetStep) {
    match s
    case Act(_, step) => step.diedAfter.Some?
    case Start(_, cut) => cut.Some?
    case Together(steps) => exists i :: 0 <= i < |steps| && steps[i].Some? && steps[i].value.diedAfter.Some?
  }

  function WorldAfter(m: Member, step: Option<Step>): World
    requires step.Some? ==> Enabled(m.config, m.world, step.value.action)
  {
    if step.Some? then Apply(m.config, m.world, step.value) else m.world
  }

  /** The step has dispatched an execution. */
  predicate Dispatches(w: World, v: World) {
    w.nextTask in v.tasks && v.tasks[w.nextTask].Prepare? && w.nextTask !in w.tasks
  }

  /** One mission after a step; an execution that is dispatched looks at the dependencies at once. */
  ghost function NextMember(setup: Setup, f: seq<Member>, s: FleetStep, i: nat): Member
    requires i < |f| && FleetEnabled(setup, f, s)
  {
    var m, v := f[i], WorldAfter(f[i], StepOf(setup, f, s, i));
    m.(world := if Dies(s) then v.(tasks := map[]) else v,
       refused := if Dispatches(m.world, v) && m.inRepo && !DependenciesDone(setup, f, i) then m.refused + {m.world.nextTask} else m.refused)
  }

  ghost function FleetApply(setup: Setup, f: seq<Member>, s: FleetStep): (g: seq<Member>)
    requires FleetEnabled(setup, f, s)
    ensures |g| == |f|
  {
    seq(|f|, i requires 0 <= i < |f| => NextMember(setup, f, s, i))
  }

  ghost predicate FleetInitial(f: seq<Member>) {
    && PlanCompletion.DistinctIds(Listing(f))
    && forall i :: 0 <= i < |f| ==> f[i].world == Initial(f[i].world.supervised) && f[i].refused == {}
  }

  ghost predicate IsFleetRun(setup: Setup, fleets: seq<seq<Member>>, steps: seq<FleetStep>) {
    && |fleets| == |steps| + 1 && FleetInitial(fleets[0])
    && forall n {:trigger steps[n]} :: 0 <= n < |steps| ==>
         FleetEnabled(setup, fleets[n], steps[n]) && fleets[n + 1] == FleetApply(setup, fleets[n], steps[n])
  }
}
