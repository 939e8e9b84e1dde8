/** Concrete runs of several missions: one that exceeds the limit, and one whose preparation is refused. */
module FleetRuns {
  import opened Wrappers
  import opened Missions
  import opened MissionFlow
  import opened MissionRuns
  import opened MissionStranding
  import opened Scheduler
  import opened Dag
  import opened Fleet
  import opened FleetLimits
  import opened FleetDependencies
  import PlanCompletion

  ghost predicate Arrives(setup: Setup, fleets: seq<seq<Member>>, steps: seq<FleetStep>, f: seq<Member>) {
    IsFleetRun(setup, fleets, steps) && fleets[|steps|] == f
  }

  ghost predicate Leads(setup: Setup, f: seq<Member>, s: FleetStep, g: seq<Member>) {
    FleetEnabled(setup, f, s) && g == FleetApply(setup, f, s)
  }

  lemma ExtendFleet(setup: Setup, fleets: seq<seq<Member>>, steps: seq<FleetStep>, f: seq<Member>, s: FleetStep, g: seq<Member>)
    returns (fleets': seq<seq<Member>>, steps': seq<FleetStep>)
    requires Arrives(setup, fleets, steps, f) && Leads(setup, f, s, g)
    ensures Arrives(setup, fleets', steps', g) && steps' == steps + [s] && fleets' == fleets + [g]
  {
    fleets', steps' := fleets + [g], steps + [s];
    assert fleets'[0] == fleets[0];
  }

  // ------------------------------------------------------------ what the scheduler picks

  lemma {:induction false} ReadyIsSome(missions: seq<Mission>, m: Mission)
    requires m in missions && m.state == Ready
    ensures m in PlanCompletion.ReadyOf(missions)
  {
    if missions[0] != m {
      ReadyIsSome(missions[1..], m);
    }
  }

  lemma {:induction false} CountAtMost(missions: seq<Mission>, p: string)
    ensures CountProject(missions, p) <= |missions|
  {
    if missions != [] {
      CountAtMost(missions[1..], p);
    }
  }

  /** Where everything that is ready fits the limits, all of it is picked. */
  lemma AllPicked(setup: Setup, f: seq<Member>, m: Mission)
    requires RunningOf(Listing(f)) == [] && m in Listing(f) && m.state == Ready && setup.limits.maxConcurrentRunsPerProject >= 1
    requires var ready := PlanCompletion.ReadyOf(Listing(f));
      |ready| <= setup.limits.maxConcurrentRuns && forall p :: CountProject(ready, p) <= 1
    ensures m in Picked(setup, f)
  {
    var ready, picked := PlanCompletion.ReadyOf(Listing(f)), Picked(setup, f);
    ReadyIsSome(Listing(f), m);
    SelectionIsOptimal(ready, setup.limits.maxConcurrentRuns, map[], setup.limits.maxConcurrentRunsPerProject, picked, ready, 0);
    SelectionIsFeasible(ready, setup.limits.maxConcurrentRuns, map[], setup.limits.maxConcurrentRunsPerProject, picked);
    assert |multiset(picked)| == |picked| && |multiset(ready)| == |ready|;
    SameWhenAsMany(multiset(picked), multiset(ready));
    assert m in multiset(ready);
  }

  lemma SameWhenAsMany(a: multiset<Mission>, b: multiset<Mission>)
    requires a <= b && |b| <= |a|
    ensures a == b
  {
    assert b == a + (b - a);
  }

  // ------------------------------------------------------------ one mission of a fleet at work

  function With(base: seq<Member>, w: World): seq<Member>
    requires base != []
  {
    base[0 := base[0].(world := w)]
  }

  /** New missions that are not supervised, the first of which depends on nothing. */
  ghost predicate Beginning(setup: Setup, base: seq<Member>) {
    && base != [] && FleetInitial(base)
    && (forall i :: 0 <= i < |base| ==> base[i].world == Initial(false))
    && (forall d :: d in setup.deps ==> d.missionId != base[0].mission.id)
    && setup.limits.maxConcurrentRuns >= 1 && setup.limits.maxConcurrentRunsPerProject >= 1
  }

  lemma OthersWait(setup: Setup, base: seq<Member>, w: World)
    requires Beginning(setup, base)
    ensures forall i :: 1 <= i < |base| ==> Listing(With(base, w))[i].state == Proposed
    ensures Listing(With(base, w))[0].state == w.row.state
  {
  }

  lemma {:induction false} NoneReady(missions: seq<Mission>)
    requires forall i :: 0 <= i < |missions| ==> missions[i].state == Proposed
    ensures PlanCompletion.ReadyOf(missions) == [] && RunningOf(missions) == []
  {
    if missions != [] {
      NoneReady(missions[1..]);
    }
  }

  lemma FirstIsPicked(setup: Setup, base: seq<Member>, w: World)
    requires Beginning(setup, base) && w.row.state == Ready
    ensures Listing(With(base, w))[0] in Picked(setup, With(base, w))
  {
    var f := With(base, w);
    OthersWait(setup, base, w);
    NoneReady(Listing(f)[1..]);
    var ready := PlanCompletion.ReadyOf(Listing(f));
    assert |ready| == 1 && RunningOf(Listing(f)) == [];
    forall p ensures CountProject(ready, p) <= 1 {
      CountAtMost(ready, p);
    }
    AllPicked(setup, f, Listing(f)[0]);
  }

  /** A step of the first mission is a step of the fleet. */
  lemma LiftStep(setup: Setup, base: seq<Member>, w: World, s: Step, v: World) returns (fs: FleetStep)
    requires Beginning(setup, base) && Plain([s]) && Enabled(base[0].config, w, s.action) && v == Apply(base[0].config, w, s)
    ensures Leads(setup, With(base, w), fs, With(base, v))
  {
    var f := With(base, w);
    assert [s][0] == s;
    OthersWait(setup, base, w);
    if s.action.Schedule? {
      fs := Start({base[0].mission.projectId}, None);
      FirstIsPicked(setup, base, w);
      assert s == Step(Schedule, None);
    } else {
      fs := Act(0, s);
    }
    OnlyFirstMoves(setup, base, w, s, v, fs);
  }

  lemma OnlyFirstMoves(setup: Setup, base: seq<Member>, w: World, s: Step, v: World, fs: FleetStep)
    requires Beginning(setup, base) && Enabled(base[0].config, w, s.action) && v == Apply(base[0].config, w, s)
    requires FleetEnabled(setup, With(base, w), fs) && !Dies(fs)
    requires forall i :: 0 <= i < |base| ==> StepOf(setup, With(base, w), fs, i) == if i == 0 then Some(s) else None
    ensures FleetApply(setup, With(base, w), fs) == With(base, v)
  {
    var f := With(base, w);
    assert DependenciesDone(setup, f, 0);
    forall i | 0 <= i < |base| ensures NextMember(setup, f, fs, i) == With(base, v)[i] {
    }
  }

  /** A run of the first mission is a run of the fleet. */
  lemma {:induction false} LiftRun(setup: Setup, base: seq<Member>, worlds: seq<World>, steps: seq<Step>, n: nat)
    returns (fleets: seq<seq<Member>>, fsteps: seq<FleetStep>)
    requires Beginning(setup, base) && IsRun(base[0].config, worlds, steps) && worlds[0] == base[0].world
    requires Plain(steps) && n <= |steps|
    ensures Arrives(setup, fleets, fsteps, With(base, worlds[n]))
  {
    if n == 0 {
      fleets, fsteps := [base], [];
      assert With(base, worlds[0]) == base;
    } else {
      fleets, fsteps := LiftRun(setup, base, worlds, steps, n - 1);
      var s := steps[n - 1];
      assert Enabled(base[0].config, worlds[n - 1], s.action) && worlds[n] == Apply(base[0].config, worlds[n - 1], s);
      var fs := LiftStep(setup, base, worlds[n - 1], s, worlds[n]);
      fleets, fsteps := ExtendFleet(setup, fleets, fsteps, With(base, worlds[n - 1]), fs, With(base, worlds[n]));
    }
  }

  // ------------------------------------------------------------ the limit is exceeded

  /** Mission number i, in a project of its own. */
  function Tag(i: nat): string {
    seq(i, _ => 'x')
  }

  function Crowd(c: Config, count: nat): (f: seq<Member>)
    ensures |f| == count
  {
    seq(count, i requires 0 <= i => Member(Mission(Tag(i), Tag(i), 0, "", Proposed), c, false, Initial(false), {}))
  }

  ghost predicate OwnProjects(missions: seq<Mission>) {
    forall i, j :: 0 <= i < j < |missions| ==> missions[i].projectId != missions[j].projectId
  }

  lemma CrowdBegins(c: Config, setup: Setup, count: nat)
    requires count >= 1 && setup.deps == [] && setup.limits.maxConcurrentRuns >= 1 && setup.limits.maxConcurrentRunsPerProject >= 1
    ensures Beginning(setup, Crowd(c, count)) && OwnProjects(Listing(Crowd(c, count)))
  {
    var f := Crowd(c, count);
    forall i, j | 0 <= i < j < |f| ensures Listing(f)[i].id != Listing(f)[j].id && Listing(f)[i].projectId != Listing(f)[j].projectId {
      assert |Tag(i)| != |Tag(j)|;
    }
  }

  /** The first mission at work, and the next ones promoted. */
  function Stage(base: seq<Member>, w: World, promoted: nat): (f: seq<Member>)
    requires base != []
    ensures |f| == |base|
  {
    seq(|base|, i requires 0 <= i < |base| =>
      if i == 0 then base[0].(world := w)
      else if i <= promoted then base[i].(world := AtState(false, Ready))
      else base[i])
  }

  lemma PromoteNext(setup: Setup, base: seq<Member>, w: World, promoted: nat)
    requires Beginning(setup, base) && setup.deps == [] && promoted + 1 < |base|
    ensures Leads(setup, Stage(base, w, promoted), Act(promoted + 1, Step(DependenciesMet, None)), Stage(base, w, promoted + 1))
  {
    var f, g, s := Stage(base, w, promoted), Stage(base, w, promoted + 1), Act(promoted + 1, Step(DependenciesMet, None));
    ToPreparation(base[promoted + 1].config, false);
    assert FleetEnabled(setup, f, s);
    forall i | 0 <= i < |base| ensures NextMember(setup, f, s, i) == g[i] {
    }
  }

  lemma {:induction false} PromoteAll(
      setup: Setup, base: seq<Member>, w: World, promoted: nat, fleets: seq<seq<Member>>, steps: seq<FleetStep>)
    returns (fleets': seq<seq<Member>>, steps': seq<FleetStep>)
    requires Beginning(setup, base) && setup.deps == [] && promoted < |base| && Arrives(setup, fleets, steps, With(base, w))
    ensures Arrives(setup, fleets', steps', Stage(base, w, promoted))
    decreases promoted
  {
    if promoted == 0 {
      fleets', steps' := fleets, steps;
      assert With(base, w) == Stage(base, w, 0);
    } else {
      fleets', steps' := PromoteAll(setup, base, w, promoted - 1, fleets, steps);
      PromoteNext(setup, base, w, promoted - 1);
      fleets', steps' := ExtendFleet(setup, fleets', steps', Stage(base, w, promoted - 1),
        Act(promoted, Step(DependenciesMet, None)), Stage(base, w, promoted));
    }
  }

  /** All others started. */
  function Busy(base: seq<Member>, w: World): (f: seq<Member>)
    requires base != []
    ensures |f| == |base|
  {
    seq(|base|, i requires 0 <= i < |base| =>
      if i == 0 then base[0].(world := w) else base[i].(world := BeingPrepared(false)))
  }

  lemma ReadyPrepended(missions: seq<Mission>, p: string)
    requires missions != []
    ensures var ready, rest := PlanCompletion.ReadyOf(missions), PlanCompletion.ReadyOf(missions[1..]);
      CountProject(ready, p) == (if missions[0].state.Ready? && missions[0].projectId == p then 1 else 0) + CountProject(rest, p)
      && |ready| <= 1 + |rest|
  {
    var ready, rest := PlanCompletion.ReadyOf(missions), PlanCompletion.ReadyOf(missions[1..]);
    if missions[0].state.Ready? {
      assert ready[1..] == rest;
    } else {
      assert ready == rest;
    }
  }

  lemma {:induction false} NoneOf(missions: seq<Mission>, p: string)
    requires forall i :: 0 <= i < |missions| ==> missions[i].projectId != p
    ensures CountProject(PlanCompletion.ReadyOf(missions), p) == 0
  {
    if missions != [] {
      ReadyPrepended(missions, p);
      NoneOf(missions[1..], p);
    }
  }

  lemma {:induction false} ReadyAndIdle(missions: seq<Mission>, p: string)
    requires OwnProjects(missions) && forall i :: 0 <= i < |missions| ==> !InProgress(missions[i].state)
    ensures RunningOf(missions) == [] && |PlanCompletion.ReadyOf(missions)| <= |missions|
    ensures CountProject(PlanCompletion.ReadyOf(missions), p) <= 1
  {
    if missions != [] {
      ReadyPrepended(missions, p);
      ReadyAndIdle(missions[1..], p);
      if missions[0].projectId == p {
        forall i | 0 <= i < |missions[1..]| ensures missions[1..][i].projectId != p {
          assert missions[0].projectId != missions[i + 1].projectId;
        }
        NoneOf(missions[1..], p);
      }
    }
  }

  lemma OthersArePicked(setup: Setup, base: seq<Member>, w: World, i: nat)
    requires Beginning(setup, base) && OwnProjects(Listing(base)) && |base| == setup.limits.maxConcurrentRuns + 1
    requires !InProgress(w.row.state) && w.row.state != Ready && 1 <= i < |base|
    ensures var f := Stage(base, w, |base| - 1); Listing(f)[i] in Picked(setup, f)
  {
    var f := Stage(base, w, |base| - 1);
    var listing := Listing(f);
    assert OwnProjects(listing) by {
      forall a, b | 0 <= a < b < |listing| ensures listing[a].projectId != listing[b].projectId {
        assert Listing(base)[a].projectId != Listing(base)[b].projectId;
      }
    }
    forall p ensures CountProject(PlanCompletion.ReadyOf(listing), p) <= 1 {
      ReadyAndIdle(listing, p);
    }
    ReadyAndIdle(listing, "");
    ReadyAndIdle(listing[1..], "");
    AllPicked(setup, f, listing[i]);
  }

  lemma StartsOther(setup: Setup, base: seq<Member>, w: World, s: FleetStep, i: nat)
    requires Beginning(setup, base) && OwnProjects(Listing(base)) && |base| == setup.limits.maxConcurrentRuns + 1
    requires !InProgress(w.row.state) && w.row.state != Ready && 1 <= i < |base|
    requires s.Start? && s.cut.None? && base[i].mission.projectId in s.active && FleetEnabled(setup, Stage(base, w, |base| - 1), s)
    requires setup.deps == []
    ensures NextMember(setup, Stage(base, w, |base| - 1), s, i) == base[i].(world := BeingPrepared(false))
  {
    OthersArePicked(setup, base, w, i);
    ToPreparation(base[i].config, false);
    assert DependenciesDone(setup, Stage(base, w, |base| - 1), i);
  }

  lemma StartOthers(setup: Setup, base: seq<Member>, w: World, s: FleetStep)
    requires Beginning(setup, base) && OwnProjects(Listing(base)) && |base| == setup.limits.maxConcurrentRuns + 1
    requires !InProgress(w.row.state) && w.row.state != Ready && !w.paused && setup.deps == []
    requires s.Start? && s.cut.None? && forall i :: 0 <= i < |base| ==> base[i].mission.projectId in s.active
    ensures Leads(setup, Stage(base, w, |base| - 1), s, Busy(base, w))
  {
    var f, g := Stage(base, w, |base| - 1), Busy(base, w);
    assert FleetEnabled(setup, f, s);
    forall i | 1 <= i < |base| ensures NextMember(setup, f, s, i) == g[i] {
      StartsOther(setup, base, w, s, i);
    }
    assert NextMember(setup, f, s, 0) == g[0];
  }

  lemma {:induction false} AllRunning(missions: seq<Mission>)
    requires forall i :: 0 <= i < |missions| ==> InProgress(missions[i].state)
    ensures RunningOf(missions) == missions
  {
    if missions != [] {
      AllRunning(missions[1..]);
    }
  }

  lemma BusyLoad(base: seq<Member>, w: World)
    requires base != [] && !InProgress(w.row.state)
    ensures Load(Busy(base, w)) == |base| - 1
  {
    var listing := Listing(Busy(base, w));
    AllRunning(listing[1..]);
    assert !InProgress(listing[0].state);
  }

  /** While the first mission is out of the scheduler's sight, the others take up all of the limit. */
  lemma FillUp(setup: Setup, base: seq<Member>, w: World, fleets: seq<seq<Member>>, steps: seq<FleetStep>)
    returns (fleets': seq<seq<Member>>, steps': seq<FleetStep>)
    requires Beginning(setup, base) && setup.deps == [] && OwnProjects(Listing(base)) && |base| == setup.limits.maxConcurrentRuns + 1
    requires !InProgress(w.row.state) && w.row.state != Ready && !w.paused && Arrives(setup, fleets, steps, With(base, w))
    ensures Arrives(setup, fleets', steps', Busy(base, w)) && Load(Busy(base, w)) == setup.limits.maxConcurrentRuns
  {
    var active := set i | 0 <= i < |base| :: base[i].mission.projectId;
    fleets', steps' := PromoteAll(setup, base, w, |base| - 1, fleets, steps);
    StartOthers(setup, base, w, Start(active, None));
    fleets', steps' := ExtendFleet(setup, fleets', steps', Stage(base, w, |base| - 1), Start(active, None), Busy(base, w));
    BusyLoad(base, w);
  }

  /** One step more, past the scheduler. */
  lemma OneTooMany(setup: Setup, base: seq<Member>, w: World, s: Step, fleets: seq<seq<Member>>, steps: seq<FleetStep>)
    returns (fleets': seq<seq<Member>>, steps': seq<FleetStep>, f: seq<Member>)
    requires base != [] && Load(Busy(base, w)) == setup.limits.maxConcurrentRuns && Arrives(setup, fleets, steps, Busy(base, w))
    requires Single(s.action) && !s.action.DependenciesMet? && !s.action.Prepared? && Enabled(base[0].config, w, s.action)
    requires Redispatches(base[0].config, w, s)
    ensures Arrives(setup, fleets', steps', f) && Load(f) == setup.limits.maxConcurrentRuns + 1
  {
    var g, fs := Busy(base, w), Act(0, s);
    RunIsSound(setup, fleets, steps, |steps|);
    assert FleetEnabled(setup, g, fs);
    f := FleetApply(setup, g, fs);
    ActLoad(setup, g, fs, "");
    fleets', steps' := ExtendFleet(setup, fleets, steps, g, fs, f);
  }

  /** A failed validation exceeds any limit, under any configuration that allows a correction. */
  lemma CorrectionExceedsLimit(c: Config, limits: SchedulingLimits)
    returns (fleets: seq<seq<Member>>, steps: seq<FleetStep>, f: seq<Member>)
    requires limits.maxConcurrentRuns >= 1 && limits.maxConcurrentRunsPerProject >= 1 && c.maxCorrectionAttempts >= 1
    ensures Arrives(Setup(limits, []), fleets, steps, f) && Load(f) == limits.maxConcurrentRuns + 1
  {
    var setup, base := Setup(limits, []), Crowd(c, limits.maxConcurrentRuns + 1);
    CrowdBegins(c, setup, |base|);
    var worlds, own, w := RunThroughAttempts(c, 0);
    fleets, steps := LiftRun(setup, base, worlds, own, |own|);
    fleets, steps := FillUp(setup, base, w, fleets, steps);
    fleets, steps, f := OneTooMany(setup, base, w, Step(ValidationFailed(2), None), fleets, steps);
  }

  lemma RunToFailure(c: Config) returns (worlds: seq<World>, own: seq<Step>, w: World)
    ensures w == GivenUp(c.maxCorrectionAttempts) && FromNew(c, false, worlds, own, w)
  {
    var attempts := c.maxCorrectionAttempts;
    worlds, own, w := RunThroughAttempts(c, attempts);
    ValidationGivesUp(c, attempts);
    worlds, own, w := ExtendPlainly(c, false, worlds, own, w, ValidationFailed(3 * attempts + 2), GivenUp(attempts));
  }

  lemma ApprovedPastTheScheduler(c: Config)
    ensures var w := GivenUp(c.maxCorrectionAttempts); Enabled(c, w, UserApproves) && Redispatches(c, w, Step(UserApproves, None))
  {
  }

  /** So does the approval of a failed mission, under any configuration. */
  lemma ApprovalExceedsLimit(c: Config, limits: SchedulingLimits)
    returns (fleets: seq<seq<Member>>, steps: seq<FleetStep>, f: seq<Member>)
    requires limits.maxConcurrentRuns >= 1 && limits.maxConcurrentRunsPerProject >= 1
    ensures Arrives(Setup(limits, []), fleets, steps, f) && Load(f) == limits.maxConcurrentRuns + 1
  {
    var setup, base := Setup(limits, []), Crowd(c, limits.maxConcurrentRuns + 1);
    CrowdBegins(c, setup, |base|);
    var worlds, own, w := RunToFailure(c);
    fleets, steps := LiftRun(setup, base, worlds, own, |own|);
    fleets, steps := FillUp(setup, base, w, fleets, steps);
    ApprovedPastTheScheduler(c);
    fleets, steps, f := OneTooMany(setup, base, w, Step(UserApproves, None), fleets, steps);
  }

  // ------------------------------------------------------------ a preparation is refused

  /** Two missions of one project with a repository; the second depends on the first. */
  function TwoMissions(c: Config, a: World, b: World, refused: set<nat>): seq<Member> {
    [Member(Mission("a", "p", 0, "", Proposed), c, true, a, {}), Member(Mission("b", "p", 0, "", Proposed), c, true, b, refused)]
  }

  function OneBehindTheOther(limits: SchedulingLimits): Setup {
    Setup(limits, [Dependency("b", "a")])
  }

  function BlockedAtOnce(): World {
    AtState(false, Blocked).(approvals := 1, nextTask := 1)
  }

  lemma StatesOfTwo(c: Config, a: World, b: World, refused: set<nat>)
    ensures var f := TwoMissions(c, a, b, refused);
      StateOf(Listing(f), "a") == a.row.state && StateOf(Listing(f), "b") == b.row.state
  {
    var listing := Listing(TwoMissions(c, a, b, refused));
    assert listing[..1] == [listing[0]] && listing[..1][..0] == [];
  }

  /** A step of one of them. */
  lemma OneOfTwo(c: Config, limits: SchedulingLimits, a: World, b: World, refused: set<nat>, i: nat, action: Action, v: World)
    requires i < 2 && Single(action) && Follows(c, if i == 0 then a else b, action, v)
    requires action.DependenciesMet? ==> i == 1 && Satisfied(a.row.state)
    requires i == 1 && action.Prepared? && action.ok ==> action.task !in refused
    requires v.nextTask == (if i == 0 then a else b).nextTask
    requires (if i == 0 then a else b).nextTask !in v.tasks
    ensures Leads(OneBehindTheOther(limits), TwoMissions(c, a, b, refused), Act(i, Step(action, None)),
      if i == 0 then TwoMissions(c, v, b, refused) else TwoMissions(c, a, v, refused))
  {
    var f, s := TwoMissions(c, a, b, refused), Act(i, Step(action, None));
    var g := if i == 0 then TwoMissions(c, v, b, refused) else TwoMissions(c, a, v, refused);
    StatesOfTwo(c, a, b, refused);
    assert FleetEnabled(OneBehindTheOther(limits), f, s);
    assert NextMember(OneBehindTheOther(limits), f, s, 0) == g[0];
    assert NextMember(OneBehindTheOther(limits), f, s, 1) == g[1];
  }

  lemma TwoBegin(c: Config, limits: SchedulingLimits)
    requires limits.maxConcurrentRuns >= 1 && limits.maxConcurrentRunsPerProject >= 1
    ensures Beginning(OneBehindTheOther(limits), TwoMissions(c, Initial(false), Initial(false), {}))
  {
    assert OneBehindTheOther(limits).deps[0] == Dependency("b", "a");
  }

  lemma SecondIsPicked(c: Config, limits: SchedulingLimits, a: World)
    requires limits.maxConcurrentRuns >= 1 && limits.maxConcurrentRunsPerProject >= 1 && a.row.state == Integrated
    ensures var f := TwoMissions(c, a, AtState(false, Ready), {}); Listing(f)[1] in Picked(OneBehindTheOther(limits), f)
  {
    var f := TwoMissions(c, a, AtState(false, Ready), {});
    var listing := Listing(f);
    assert listing[1..] == [listing[1]] && listing[1..][1..] == [];
    var rest := listing[1..];
    assert PlanCompletion.ReadyOf(rest[1..]) == [] && RunningOf(rest[1..]) == [];
    assert PlanCompletion.ReadyOf(rest) == [listing[1]] && RunningOf(rest) == [];
    assert PlanCompletion.ReadyOf(listing) == [] + PlanCompletion.ReadyOf(rest) == [listing[1]];
    assert RunningOf(listing) == [] + RunningOf(rest) == [];
    forall p ensures CountProject([listing[1]], p) <= 1 {
      CountAtMost([listing[1]], p);
    }
    AllPicked(OneBehindTheOther(limits), f, listing[1]);
  }

  /** The second is started while the first is only integrated: its execution is refused. */
  lemma StartedTooEarly(c: Config, limits: SchedulingLimits, a: World)
    requires limits.maxConcurrentRuns >= 1 && limits.maxConcurrentRunsPerProject >= 1 && a.row.state == Integrated && !a.paused
    ensures Leads(OneBehindTheOther(limits), TwoMissions(c, a, AtState(false, Ready), {}), Start({"p"}, None),
      TwoMissions(c, a, BeingPrepared(false), {0}))
  {
    var setup, f, g, s := OneBehindTheOther(limits), TwoMissions(c, a, AtState(false, Ready), {}), TwoMissions(c, a, BeingPrepared(false), {0}), Start({"p"}, None);
    SecondIsPicked(c, limits, a);
    StatesOfTwo(c, a, AtState(false, Ready), {});
    ToPreparation(c, false);
    assert FleetEnabled(setup, f, s);
    assert Dependency("b", "a") == setup.deps[0];
    assert !DependenciesDone(setup, f, 1);
    assert NextMember(setup, f, s, 0) == g[0];
    assert NextMember(setup, f, s, 1) == g[1];
  }

  lemma PreparationFails(c: Config)
    ensures Follows(c, BeingPrepared(false), Prepared(0, false), BlockedAtOnce())
  {
    assert map[0 := Prepare(0)] - {0} == map[];
  }

  function IntegratedAndDone(checks: nat): World {
    BeingIntegrated(checks).(row := Row(Completed, false, 0, None), tasks := map[])
  }

  lemma CleanupEnds(c: Config, checks: nat)
    ensures Follows(c, BeingIntegrated(checks), CleanedUp(4 + checks), IntegratedAndDone(checks))
  {
    assert map[4 + checks := Integrate(0)] - {4 + checks} == map[];
  }

  /** The first mission is integrated, and its cleanup is awaited. */
  lemma UpToCleanup(c: Config, limits: SchedulingLimits)
    returns (fleets: seq<seq<Member>>, steps: seq<FleetStep>, f: seq<Member>)
    requires limits.maxConcurrentRuns >= 1 && limits.maxConcurrentRunsPerProject >= 1
    ensures f == TwoMissions(c, BeingIntegrated(c.requiredChecks), Initial(false), {}) && Arrives(OneBehindTheOther(limits), fleets, steps, f)
  {
    var checks, base := c.requiredChecks, TwoMissions(c, Initial(false), Initial(false), {});
    var worlds, own, w := RunToReviewersReview(c);
    ReviewerApproves(c, checks);
    worlds, own, w := ExtendPlainly(c, false, worlds, own, w, ReviewFinished(3 + checks, Approve), BeingIntegrated(checks));
    TwoBegin(c, limits);
    fleets, steps := LiftRun(OneBehindTheOther(limits), base, worlds, own, |own|);
    f := With(base, w);
  }

  /**
   A tick during the cleanup of a mission promotes and starts the one that depends on it. Its
   preparation is refused and it is blocked, though the first mission is then completed.
   */
  lemma RefusedDuringCleanup(c: Config, limits: SchedulingLimits)
    returns (fleets: seq<seq<Member>>, steps: seq<FleetStep>, f: seq<Member>, n: nat)
    requires limits.maxConcurrentRuns >= 1 && limits.maxConcurrentRunsPerProject >= 1
    ensures Arrives(OneBehindTheOther(limits), fleets, steps, f) && |f| == 2
    ensures n < |steps| && |fleets[n]| == |fleets[n + 1]| == 2 && RefusedAt(fleets, n, 1)
    ensures f[0].world.row.state == Completed && f[1].world.row.state == Blocked
  {
    var setup, checks := OneBehindTheOther(limits), c.requiredChecks;
    var a := BeingIntegrated(checks);
    fleets, steps, f := UpToCleanup(c, limits);
    ToPreparation(c, false);
    OneOfTwo(c, limits, a, Initial(false), {}, 1, DependenciesMet, AtState(false, Ready));
    fleets, steps := ExtendFleet(setup, fleets, steps, f, Act(1, Step(DependenciesMet, None)), TwoMissions(c, a, AtState(false, Ready), {}));
    StartedTooEarly(c, limits, a);
    n := |steps|;
    fleets, steps := ExtendFleet(setup, fleets, steps, TwoMissions(c, a, AtState(false, Ready), {}), Start({"p"}, None),
      TwoMissions(c, a, BeingPrepared(false), {0}));
    fleets, steps, f := AfterRefusal(c, limits, fleets, steps);
  }

  lemma AfterRefusal(c: Config, limits: SchedulingLimits, fleets: seq<seq<Member>>, steps: seq<FleetStep>)
    returns (fleets': seq<seq<Member>>, steps': seq<FleetStep>, f: seq<Member>)
    requires Arrives(OneBehindTheOther(limits), fleets, steps, TwoMissions(c, BeingIntegrated(c.requiredChecks), BeingPrepared(false), {0}))
    ensures Arrives(OneBehindTheOther(limits), fleets', steps', f) && fleets <= fleets' && steps <= steps'
    ensures f == TwoMissions(c, IntegratedAndDone(c.requiredChecks), BlockedAtOnce(), {0})
  {
    var setup, checks := OneBehindTheOther(limits), c.requiredChecks;
    var a := BeingIntegrated(checks);
    PreparationFails(c);
    OneOfTwo(c, limits, a, BeingPrepared(false), {0}, 1, Prepared(0, false), BlockedAtOnce());
    fleets', steps' := ExtendFleet(setup, fleets, steps, TwoMissions(c, a, BeingPrepared(false), {0}),
      Act(1, Step(Prepared(0, false), None)), TwoMissions(c, a, BlockedAtOnce(), {0}));
    CleanupEnds(c, checks);
    OneOfTwo(c, limits, a, BlockedAtOnce(), {0}, 0, CleanedUp(4 + checks), IntegratedAndDone(checks));
    f := TwoMissions(c, IntegratedAndDone(checks), BlockedAtOnce(), {0});
    fleets', steps' := ExtendFleet(setup, fleets', steps', TwoMissions(c, a, BlockedAtOnce(), {0}),
      Act(0, Step(CleanedUp(4 + checks), None)), f);
  }

  // ------------------------------------------------------------ behind an integration that was interrupted

  lemma ProposedSuspended(c: Config)
    ensures Follows(c, Initial(false), Pause, PausedFrom(Initial(false)))
    ensures Follows(c, PausedFrom(Initial(false)), Resume, Initial(false).(generation := 1))
  {
  }

  /** Both take the same step of their project. */
  lemma BothOfTwo(c: Config, limits: SchedulingLimits, a: World, b: World, action: Action, v: World, w: World)
    requires (action.Pause? || action.Resume?) && Follows(c, a, action, v) && Follows(c, b, action, w)
    requires a.nextTask !in v.tasks && b.nextTask !in w.tasks
    ensures Leads(OneBehindTheOther(limits), TwoMissions(c, a, b, {}), Together([Some(Step(action, None)), Some(Step(action, None))]),
      TwoMissions(c, v, w, {}))
  {
    var setup, f, g := OneBehindTheOther(limits), TwoMissions(c, a, b, {}), TwoMissions(c, v, w, {});
    var s := Together([Some(Step(action, None)), Some(Step(action, None))]);
    assert Common(action) && OfProject(f, s.steps, "p", action);
    assert FleetEnabled(setup, f, s) && !Dies(s);
    assert NextMember(setup, f, s, 0) == g[0];
    assert NextMember(setup, f, s, 1) == g[1];
  }

  /** After a pause during the cleanup the second mission is behind one that never completes. */
  lemma PauseLeavesDependentBehind(c: Config, limits: SchedulingLimits)
    returns (fleets: seq<seq<Member>>, steps: seq<FleetStep>, f: seq<Member>)
    requires limits.maxConcurrentRuns >= 1 && limits.maxConcurrentRunsPerProject >= 1
    ensures Arrives(OneBehindTheOther(limits), fleets, steps, f) && BehindStuck(OneBehindTheOther(limits), f, 1, 0)
  {
    var setup, checks := OneBehindTheOther(limits), c.requiredChecks;
    var a, b := BeingIntegrated(checks), Initial(false);
    fleets, steps, f := UpToCleanup(c, limits);
    IntegrationSuspended(c, checks);
    IntegrationResumed(c, checks);
    ProposedSuspended(c);
    BothOfTwo(c, limits, a, b, Pause, PausedFrom(a), PausedFrom(b));
    var both := TwoMissions(c, PausedFrom(a), PausedFrom(b), {});
    fleets, steps := ExtendFleet(setup, fleets, steps, f, Together([Some(Step(Pause, None)), Some(Step(Pause, None))]), both);
    BothOfTwo(c, limits, PausedFrom(a), PausedFrom(b), Resume, a.(generation := 1), b.(generation := 1));
    f := TwoMissions(c, a.(generation := 1), b.(generation := 1), {});
    fleets, steps := ExtendFleet(setup, fleets, steps, both, Together([Some(Step(Resume, None)), Some(Step(Resume, None))]), f);
    assert setup.deps[0] == Dependency("b", "a");
  }
}
