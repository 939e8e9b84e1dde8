/** Dependencies between missions: what a promotion asks for, and what a preparation asks for. */
module FleetDependencies {
  import opened Wrappers
  import opened Missions
  import opened MissionFlow
  import opened MissionFlowProofs
  import opened MissionStranding
  import opened Dag
  import opened Fleet
  import opened FleetLimits
  import PlanCompletion

  // ------------------------------------------------------------ completion is final

  lemma CommitStaysCompleted(w: World, fence: Option<nat>, write: Write)
    requires w.row.state == Completed
    ensures Commit(w, fence, write).world.row.state == Completed
  {
  }

  lemma SegmentStaysCompleted(b: World, seg: Segment, count: nat)
    requires b.row.state == Completed
    ensures CommitAll(b, seg, count).world.row.state == Completed
  {
    var first := Commit(b, seg.fence, seg.first);
    var second := Commit(first.world, seg.fence, seg.second);
    CommitStaysCompleted(b, seg.fence, seg.first);
    CommitStaysCompleted(first.world, seg.fence, seg.second);
    CommitStaysCompleted(second.world, seg.fence, seg.third);
  }

  lemma CompletedStays(c: Config, w: World, s: Step)
    requires Enabled(c, w, s.action) && w.row.state == Completed
    ensures Apply(c, w, s).row.state == Completed
  {
    RowAfter(c, w, s);
    SegmentStaysCompleted(Begun(w, s.action), SegmentOf(c, w, s.action), Count(s));
  }

  /** The same missions, and whoever was completed still is. */
  ghost predicate StillCompleted(a: seq<Mission>, b: seq<Mission>) {
    |a| == |b| && forall i :: 0 <= i < |a| ==> a[i].id == b[i].id && (a[i].state == Completed ==> b[i].state == Completed)
  }

  lemma {:induction false} StateStays(a: seq<Mission>, b: seq<Mission>, id: string)
    requires StillCompleted(a, b) && StateOf(a, id) == Completed
    ensures StateOf(b, id) == Completed
  {
    if a != [] && a[|a| - 1].id != id {
      StateStays(a[..|a| - 1], b[..|b| - 1], id);
    }
  }

  lemma StepKeepsCompleted(setup: Setup, f: seq<Member>, s: FleetStep)
    requires FleetEnabled(setup, f, s)
    ensures StillCompleted(Listing(f), Listing(FleetApply(setup, f, s)))
  {
    forall i | 0 <= i < |f| && Listing(f)[i].state == Completed ensures Listing(FleetApply(setup, f, s))[i].state == Completed {
      StateAfter(setup, f, s, i);
      if StepOf(setup, f, s, i).Some? {
        StepIsEnabled(setup, f, s, i);
        CompletedStays(f[i].config, f[i].world, StepOf(setup, f, s, i).value);
      }
    }
    forall i | 0 <= i < |f| ensures Listing(f)[i].id == Listing(FleetApply(setup, f, s))[i].id {
      StateAfter(setup, f, s, i);
    }
  }

  lemma NextKeepsCompleted(setup: Setup, fleets: seq<seq<Member>>, steps: seq<FleetStep>, n: nat)
    requires IsFleetRun(setup, fleets, steps) && n < |steps|
    ensures StillCompleted(Listing(fleets[n]), Listing(fleets[n + 1]))
  {
    assert FleetEnabled(setup, fleets[n], steps[n]) && fleets[n + 1] == FleetApply(setup, fleets[n], steps[n]);
    StepKeepsCompleted(setup, fleets[n], steps[n]);
  }

  lemma {:induction false} CompletedForGood(setup: Setup, fleets: seq<seq<Member>>, steps: seq<FleetStep>, p: nat, k: nat, id: string)
    requires IsFleetRun(setup, fleets, steps) && p <= k <= |steps| && StateOf(Listing(fleets[p]), id) == Completed
    ensures StateOf(Listing(fleets[k]), id) == Completed
    decreases k - p
  {
    if p < k {
      CompletedForGood(setup, fleets, steps, p, k - 1, id);
      NextKeepsCompleted(setup, fleets, steps, k - 1);
      StateStays(Listing(fleets[k - 1]), Listing(fleets[k]), id);
    }
  }

  // ------------------------------------------------------------ exactly when a preparation is refused

  /** Refused executions have been dispatched before. */
  predicate RefusedSound(m: Member) {
    forall t :: t in m.refused ==> t < m.world.nextTask
  }

  lemma NextTaskGrows(c: Config, w: World, s: Step)
    requires Enabled(c, w, s.action)
    ensures w.nextTask <= Apply(c, w, s).nextTask
    ensures w.nextTask in Apply(c, w, s).tasks && w.nextTask !in w.tasks ==> w.nextTask < Apply(c, w, s).nextTask
  {
    CommitAllSameTasks(Begun(w, s.action), SegmentOf(c, w, s.action), 3);
    if s.diedAfter.Some? {
      CommitAllSameTasks(Begun(w, s.action), SegmentOf(c, w, s.action), s.diedAfter.value);
    }
  }

  lemma {:induction false} RunRefusedSound(setup: Setup, fleets: seq<seq<Member>>, steps: seq<FleetStep>, n: nat, i: nat)
    requires IsFleetRun(setup, fleets, steps) && n <= |steps| && i < |fleets[n]|
    ensures RefusedSound(fleets[n][i])
  {
    if n > 0 {
      var f, s := fleets[n - 1], steps[n - 1];
      assert fleets[n] == FleetApply(setup, f, s);
      RunRefusedSound(setup, fleets, steps, n - 1, i);
      if StepOf(setup, f, s, i).Some? {
        StepIsEnabled(setup, f, s, i);
        NextTaskGrows(f[i].config, f[i].world, StepOf(setup, f, s, i).value);
      }
    }
  }

  /** In the n-th step an execution of this mission is dispatched. */
  ghost predicate DispatchedAt(setup: Setup, fleets: seq<seq<Member>>, steps: seq<FleetStep>, n: nat, i: nat)
    requires IsFleetRun(setup, fleets, steps) && n < |steps| && i < |fleets[n]|
  {
    var m, step := fleets[n][i], StepOf(setup, fleets[n], steps[n], i);
    step.Some? && Enabled(m.config, m.world, step.value.action) && Dispatches(m.world, Apply(m.config, m.world, step.value))
  }

  /** The execution dispatched there is refused: its preparation cannot succeed. */
  ghost predicate RefusedAt(fleets: seq<seq<Member>>, n: nat, i: nat)
    requires n + 1 < |fleets| && i < |fleets[n]| == |fleets[n + 1]|
  {
    fleets[n][i].world.nextTask in fleets[n + 1][i].refused
  }

  lemma RefusedUnlessDone(setup: Setup, fleets: seq<seq<Member>>, steps: seq<FleetStep>, n: nat, i: nat)
    requires IsFleetRun(setup, fleets, steps) && n < |steps| && i < |fleets[n]| == |fleets[n + 1]|
    requires DispatchedAt(setup, fleets, steps, n, i)
    ensures RefusedAt(fleets, n, i) <==> fleets[n][i].inRepo && !DependenciesDone(setup, fleets[n], i)
  {
    RunRefusedSound(setup, fleets, steps, n, i);
    assert fleets[n + 1] == FleetApply(setup, fleets[n], steps[n]);
  }

  /** A dependency that was good enough for the promotion of the mission, and has not been completed since. */
  ghost predicate Premature(setup: Setup, fleets: seq<seq<Member>>, p: nat, k: nat, i: nat, d: Dependency)
    requires p < |fleets| && k < |fleets| && i < |fleets[k]|
  {
    && d in setup.deps && d.missionId == fleets[k][i].mission.id
    && StateOf(Listing(fleets[p]), d.dependsOnMissionId) in {Approved, Integrated}
    && StateOf(Listing(fleets[k]), d.dependsOnMissionId) != Completed
  }

  /**
   The execution of a promoted mission is refused exactly when it was promoted on a dependency
   that was only approved or integrated, and that has not been completed by the time of the dispatch.
   */
  lemma RefusedExactly(setup: Setup, fleets: seq<seq<Member>>, steps: seq<FleetStep>, p: nat, k: nat, i: nat, promotion: Step)
    requires IsFleetRun(setup, fleets, steps) && p <= k < |steps| && i < |fleets[k]| == |fleets[k + 1]|
    requires steps[p] == Act(i, promotion) && promotion.action.DependenciesMet?
    requires DispatchedAt(setup, fleets, steps, k, i) && fleets[k][i].inRepo
    ensures RefusedAt(fleets, k, i) <==> exists d :: Premature(setup, fleets, p, k, i, d)
  {
    ConfigsStay(setup, fleets, steps, p);
    ConfigsStay(setup, fleets, steps, k);
    RefusedUnlessDone(setup, fleets, steps, k, i);
    assert FleetEnabled(setup, fleets[p], steps[p]);
    forall d | d in setup.deps && d.missionId == fleets[k][i].mission.id
      ensures Premature(setup, fleets, p, k, i, d) <==> StateOf(Listing(fleets[k]), d.dependsOnMissionId) != Completed
    {
      assert Satisfied(StateOf(Listing(fleets[p]), d.dependsOnMissionId));
      if StateOf(Listing(fleets[p]), d.dependsOnMissionId) == Completed {
        CompletedForGood(setup, fleets, steps, p, k, d.dependsOnMissionId);
      }
    }
    if !DependenciesDone(setup, fleets[k], i) {
      var d :| d in setup.deps && d.missionId == fleets[k][i].mission.id && StateOf(Listing(fleets[k]), d.dependsOnMissionId) != Completed;
      assert Premature(setup, fleets, p, k, i, d);
    }
  }

  // ------------------------------------------------------------ behind an integration that never completes

  /** The mission does not run, and none of its executions may. */
  predicate CannotRun(m: Member) {
    m.world.row.state != Running && forall t :: t in m.world.tasks && m.world.tasks[t].Prepare? ==> t in m.refused
  }

  lemma CommitNotRunning(w: World, fence: Option<nat>, write: Write)
    requires w.row.state != Running && write != Move(Running)
    ensures Commit(w, fence, write).world.row.state != Running
  {
  }

  predicate StartsRun(a: Action) {
    a.Prepared? && a.ok
  }

  lemma OnlyPreparationRuns(c: Config, w: World, a: Action)
    requires Enabled(c, w, a) && !StartsRun(a)
    ensures var s := SegmentOf(c, w, a); s.first != Move(Running) && s.second != Move(Running) && s.third != Move(Running)
  {
  }

  lemma BegunNotRunning(c: Config, w: World, a: Action)
    requires w.row.state != Running
    ensures Begun(w, a).row.state != Running
  {
  }

  lemma SegmentNotRunning(b: World, seg: Segment, count: nat)
    requires b.row.state != Running
    requires seg.first != Move(Running) && seg.second != Move(Running) && seg.third != Move(Running)
    ensures CommitAll(b, seg, count).world.row.state != Running
  {
    var first := Commit(b, seg.fence, seg.first);
    var second := Commit(first.world, seg.fence, seg.second);
    CommitNotRunning(b, seg.fence, seg.first);
    CommitNotRunning(first.world, seg.fence, seg.second);
    CommitNotRunning(second.world, seg.fence, seg.third);
  }

  lemma StaysNotRunning(c: Config, w: World, s: Step)
    requires Enabled(c, w, s.action) && w.row.state != Running && !StartsRun(s.action)
    ensures Apply(c, w, s).row.state != Running
  {
    BegunNotRunning(c, w, s.action);
    OnlyPreparationRuns(c, w, s.action);
    RowAfter(c, w, s);
    SegmentNotRunning(Begun(w, s.action), SegmentOf(c, w, s.action), Count(s));
  }

  /** Tasks come only one at a time, with the next number. */
  lemma NewTasks(c: Config, w: World, s: Step)
    requires Enabled(c, w, s.action)
    ensures var v := Apply(c, w, s);
      forall t :: t in v.tasks && t != w.nextTask ==> t in w.tasks && v.tasks[t] == w.tasks[t]
  {
    CommitAllSameTasks(Begun(w, s.action), SegmentOf(c, w, s.action), 3);
    if s.diedAfter.Some? {
      CommitAllSameTasks(Begun(w, s.action), SegmentOf(c, w, s.action), s.diedAfter.value);
    }
  }

  lemma RefusedCannotStart(setup: Setup, f: seq<Member>, s: FleetStep, i: nat)
    requires FleetEnabled(setup, f, s) && i < |f| && CannotRun(f[i]) && StepOf(setup, f, s, i).Some?
    ensures !StartsRun(StepOf(setup, f, s, i).value.action)
  {
    if s.Together? {
      TogetherIsCommon(f, s.steps, i);
    }
  }

  lemma StepCannotRun(m: Member, s: Step, v: World, refused: set<nat>)
    requires Enabled(m.config, m.world, s.action) && !StartsRun(s.action) && v == Apply(m.config, m.world, s) && CannotRun(m)
    requires m.refused <= refused && (Dispatches(m.world, v) ==> m.world.nextTask in refused)
    requires m.world.nextTask !in m.world.tasks
    ensures CannotRun(m.(world := v, refused := refused))
  {
    StaysNotRunning(m.config, m.world, s);
    NewTasks(m.config, m.world, s);
  }

  /** With a dependency that is not completed a mission that cannot run still cannot after a step. */
  lemma CannotRunKept(setup: Setup, f: seq<Member>, s: FleetStep, i: nat)
    requires FleetEnabled(setup, f, s) && i < |f| && CannotRun(f[i]) && f[i].inRepo && !DependenciesDone(setup, f, i)
    requires f[i].world.nextTask !in f[i].world.tasks
    ensures CannotRun(FleetApply(setup, f, s)[i])
  {
    var step := StepOf(setup, f, s, i);
    if step.Some? {
      StepIsEnabled(setup, f, s, i);
      RefusedCannotStart(setup, f, s, i);
      StepCannotRun(f[i], step.value, WorldAfter(f[i], step), NextMember(setup, f, s, i).refused);
    }
  }

  lemma StuckKept(setup: Setup, f: seq<Member>, s: FleetStep, j: nat)
    requires FleetEnabled(setup, f, s) && j < |f| && Inv(f[j].config, f[j].world) && StuckIntegrated(f[j].world)
    ensures StuckIntegrated(FleetApply(setup, f, s)[j].world)
  {
    var step := StepOf(setup, f, s, j);
    if step.Some? {
      StepIsEnabled(setup, f, s, j);
      StuckStep(f[j].config, f[j].world, step.value);
    }
  }

  /** The mission depends on one whose integration has lost its task, and cannot run. */
  ghost predicate BehindStuck(setup: Setup, f: seq<Member>, i: nat, j: nat) {
    && i < |f| && j < |f| && Dependency(f[i].mission.id, f[j].mission.id) in setup.deps
    && f[i].inRepo && CannotRun(f[i]) && StuckIntegrated(f[j].world)
  }

  lemma BehindStuckKept(setup: Setup, f: seq<Member>, s: FleetStep, i: nat, j: nat)
    requires Sound(f) && FleetEnabled(setup, f, s) && BehindStuck(setup, f, i, j)
    ensures BehindStuck(setup, FleetApply(setup, f, s), i, j)
  {
    PlanCompletion.StateOfMember(Listing(f), j);
    assert StateOf(Listing(f), f[j].mission.id) != Completed;
    CannotRunKept(setup, f, s, i);
    StuckKept(setup, f, s, j);
  }

  lemma BehindStuckNext(setup: Setup, fleets: seq<seq<Member>>, steps: seq<FleetStep>, n: nat, i: nat, j: nat)
    requires IsFleetRun(setup, fleets, steps) && n < |steps| && BehindStuck(setup, fleets[n], i, j)
    ensures BehindStuck(setup, fleets[n + 1], i, j)
  {
    RunIsSound(setup, fleets, steps, n);
    assert FleetEnabled(setup, fleets[n], steps[n]) && fleets[n + 1] == FleetApply(setup, fleets[n], steps[n]);
    BehindStuckKept(setup, fleets[n], steps[n], i, j);
  }

  /** A mission that depends on one whose integration has lost its task never runs, whatever follows. */
  lemma {:induction false} DependentNeverRuns(
      setup: Setup, fleets: seq<seq<Member>>, steps: seq<FleetStep>, n: nat, k: nat, i: nat, j: nat)
    requires IsFleetRun(setup, fleets, steps) && n <= k <= |steps| && BehindStuck(setup, fleets[n], i, j)
    ensures BehindStuck(setup, fleets[k], i, j) && fleets[k][i].world.row.state != Running
    decreases k - n
  {
    if n < k {
      DependentNeverRuns(setup, fleets, steps, n, k - 1, i, j);
      BehindStuckNext(setup, fleets, steps, k - 1, i, j);
    }
  }
}
