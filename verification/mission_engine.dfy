/**
 The engine itself, driving one mission. At every `await` anything else may happen to the
 mission; the methods are proved to take only steps of `MissionFlow`, so the theorems about its
 runs hold of them, and each flow is proved to be followed to its end, along its path.
 */
module MissionEngine {
  import opened Wrappers
  import opened Missions
  import opened MissionFlow
  import opened MissionFlowTheorems
  import opened MissionPaths

  /** The row after the cleanup: completed, unless the task is fenced or the mission has moved on. */
  function AfterCleanup(w: World, expected: nat): Row {
    if Fenced(w, expected) || w.row.state != Integrated then w.row else w.row.(state := Completed, reviewBlocked := false)
  }

  /** The only task a step may have started is a new execution. */
  ghost predicate OnlyDispatches(before: World, after: World) {
    forall i :: i in after.tasks && i !in before.tasks ==> after.tasks[i].Prepare?
  }

  class Engine {
    const config: Config
    var row: Row
    var approvals: nat
    var superseded: bool
    var paused: bool
    var generation: nat
    var supervised: bool
    var tasks: map<nat, Task>
    var nextTask: nat
    var evidence: Evidence
    var executions: nat
    ghost var worlds: seq<World>
    ghost var steps: seq<Step>

    constructor (config: Config, supervised: bool)
      ensures this.config == config && Valid() && Current() == Initial(supervised) && steps == []
    {
      this.config, this.supervised := config, supervised;
      row := Initial(supervised).row;
      approvals, superseded, paused, generation, tasks, nextTask := 0, false, false, 0, map[], 0;
      evidence, executions := NO_EVIDENCE, 0;
      steps := [];
      new;
      worlds := [Current()];
    }

    function Current(): World
      reads this
    {
      World(row, approvals, superseded, paused, generation, supervised, tasks, nextTask, evidence, executions)
    }

    /** The history so far is a run of the mission's steps that ends in the current state. */
    ghost predicate Valid()
      reads this
    {
      IsRun(config, worlds, steps) && worlds[|worlds| - 1] == Current()
    }

    /** Since the given state and history, exactly this action has been taken, without a crash. */
    ghost predicate Took(before: World, history: seq<Step>, a: Action)
      reads this
    {
      Enabled(config, before, a) && Current() == Apply(config, before, Step(a, None)) && steps == history + [Step(a, None)]
    }

    /** The last step was taken by a task, and whatever it started is dispatched on its own. */
    ghost predicate FlowEnded()
      reads this
    {
      && |worlds| == |steps| + 1 && steps != [] && OfTask(steps[|steps| - 1].action)
      && OnlyDispatches(worlds[|steps| - 1], Current())
    }

    /** The given history has only been added to. */
    ghost predicate Since(before: seq<World>, history: seq<Step>)
      reads this
    {
      before <= worlds && history <= steps && |before| == |history| + 1 && |worlds| == |steps| + 1
    }

    /** The flow of a task, from a point of the history up to now. */
    ghost function Taken(start: nat, task: nat): Flow
      requires |worlds| == |steps| + 1 && start <= |steps|
      reads this
    {
      FlowOf(worlds, steps, start, task)
    }

    /** The flow has ended in the last step, or it has lost the task that it waited in. */
    ghost predicate Ended(start: nat, task: nat, lost: bool)
      requires |worlds| == |steps| + 1 && start <= |steps|
      reads this
    {
      var f := Taken(start, task);
      if lost then f.waits.Some? && f.waits.value !in tasks
      else f.waits.None? && f.actions != [] && start < |steps| && steps[|steps| - 1] == Step(f.actions[|f.actions| - 1], None)
    }

    /** From the given task on, what its flow has done is on the task's path. */
    ghost predicate OnPath(start: nat, task: nat, t: Task)
      requires |worlds| == |steps| + 1 && start <= |steps|
      reads this
    {
      PathOf(config, t, Taken(start, task).actions)
    }

    lemma StaysOnPath(start: nat, task: nat)
      requires Valid() && start <= |steps| && task in worlds[start].tasks
      ensures OnPath(start, task, worlds[start].tasks[task])
    {
      FlowsKeepToTheirPaths(config, worlds, steps, start, task);
    }

    /** What a flow has done by now, after what it had done before. */
    lemma GoesOn(before: seq<World>, history: seq<Step>, start: nat, task: nat)
      requires Since(before, history) && start <= |history|
      ensures var f := FlowOf(before, history, start, task);
        if f.waits.None? then Taken(start, task) == f
        else var rest := Taken(|history|, f.waits.value); Taken(start, task) == Flow(f.actions + rest.actions, rest.waits)
    {
      FlowGoesOn(before, history, start, task, worlds, steps);
    }

    /** A flow ends when the one that went on from it does. */
    lemma EndsToo(before: seq<World>, history: seq<Step>, start: nat, task: nat, next: nat, lost: bool)
      requires Since(before, history) && start <= |history| && FlowOf(before, history, start, task).waits == Some(next)
      requires Ended(|history|, next, lost)
      ensures Ended(start, task, lost)
    {
      GoesOn(before, history, start, task);
    }

    /** Notes the step that has just been taken. */
    ghost method Record(before: World, a: Action)
      requires IsRun(config, worlds, steps) && worlds[|worlds| - 1] == before
      requires Enabled(config, before, a) && Current() == Apply(config, before, Step(a, None))
      modifies this`worlds, this`steps
      ensures Valid() && worlds == old(worlds) + [Current()] && steps == old(steps) + [Step(a, None)]
      ensures OfTask(a) && OnlyDispatches(before, Current()) ==> FlowEnded()
    {
      ExtendsRun(config, worlds, steps, Step(a, None));
      worlds := worlds + [Current()];
      steps := steps + [Step(a, None)];
    }

    /** Notes the step of a flow that has just been taken, and what goes on from it. */
    ghost method RecordFlow(before: World, a: Action, start: nat, task: nat, next: Option<nat>)
      requires IsRun(config, worlds, steps) && worlds[|worlds| - 1] == before
      requires Enabled(config, before, a) && Current() == Apply(config, before, Step(a, None))
      requires start <= |steps| && FlowOf(worlds, steps, start, task) == Flow([], Some(task)) && OfTask(a) && a.task == task
      requires if next.None? then OnlyDispatches(before, Current())
               else next == Some(before.nextTask) && next.value in tasks && !tasks[next.value].Prepare?
      modifies this`worlds, this`steps
      ensures Valid() && worlds == old(worlds) + [Current()] && steps == old(steps) + [Step(a, None)]
      ensures Taken(start, task) == Flow([a], next)
      ensures next.None? ==> FlowEnded() && Ended(start, task, false)
    {
      ghost var history, earlier := steps, worlds;
      SuccessorIs(config, worlds, steps, Current(), next);
      Record(before, a);
      HasActed(earlier, history, start, task, next);
    }

    lemma HasActed(before: seq<World>, history: seq<Step>, start: nat, task: nat, next: Option<nat>)
      requires Since(before, history) && start <= |history| && FlowOf(before, history, start, task) == Flow([], Some(task))
      requires |steps| == |history| + 1 && steps[|history|].diedAfter.None? && Acts(steps[|history|], task)
      requires Successor(worlds[|history|], worlds[|history| + 1]) == next
      ensures Taken(start, task) == Flow([steps[|history|].action], next)
      ensures next.None? ==> Ended(start, task, false)
    {
      GoesOn(before, history, start, task);
      ActedOnce(worlds, steps, task);
    }

    // ------------------------------------------------------------ the store's transactions

    predicate IsFenced(expected: nat)
      reads this
    {
      paused || generation != expected
    }

    method TransitionMission(next: MissionState, reviewBlocked: bool, expected: Option<nat>) returns (ok: bool)
      requires reviewBlocked ==> next == Blocked
      modifies this`row, this`evidence, this`executions
      ensures Committed(Current(), !ok) == Commit(old(Current()), expected, if reviewBlocked then BlockReview else Move(next))
    {
      if expected.Some? && IsFenced(expected.value) {
        return false;
      }
      if !CanTransition(row.state, next) {
        return false;
      }
      row := row.(state := next, reviewBlocked := reviewBlocked);
      if next == Running {
        evidence := NO_EVIDENCE;
        executions := executions + 1;
      }
      return true;
    }

    method UpdateAttempts(count: nat, expected: Option<nat>) returns (ok: bool)
      modifies this`row
      ensures Committed(Current(), !ok) == Commit(old(Current()), expected, SetAttempts(count))
    {
      if expected.Some? && IsFenced(expected.value) {
        return false;
      }
      row := row.(correctionAttempts := count);
      return true;
    }

    method CreateApproval()
      modifies this`approvals
      ensures Current() == old(Current()).(approvals := old(approvals) + 1)
    {
      approvals := approvals + 1;
    }

    method StartTask(task: Task) returns (id: nat)
      modifies this`tasks, this`nextTask, this`evidence
      ensures Current() == Spawn(old(Current()), Some(task)) && id == old(nextTask)
    {
      id := nextTask;
      tasks := tasks[id := task];
      nextTask := nextTask + 1;
      if task.Validate? && task.next == 0 {
        evidence := evidence.(checksPassed := 0);
      }
    }

    // ------------------------------------------------------------ segments without an await

    /** One move, and a question to the user when it comes to a stop. */
    method MoveOn(next: MissionState, ask: bool, expected: nat) returns (ok: bool)
      requires !IsFenced(expected)
      modifies this`row, this`approvals, this`evidence, this`executions
      ensures Current() == Finished(old(Current()), Segment(Some(expected), Move(next), if ask then OpenApproval else Nothing, Nothing, None))
      ensures ok <==> CanTransition(old(row).state, next)
    {
      ok := TransitionMission(next, false, Some(expected));
      if ok && ask {
        CreateApproval();
      }
    }

    /** Dispatches the mission once more, or gives up when its attempts are used. */
    method FailValidation(attempts: nat, expected: Option<nat>)
      modifies this`row, this`approvals, this`evidence, this`executions, this`tasks, this`nextTask
      ensures Current() == Finished(old(Current()), Correction(config, old(Current()), expected, attempts))
      ensures OnlyDispatches(old(Current()), Current())
    {
      var ok;
      if attempts + 1 > config.maxCorrectionAttempts {
        ok := TransitionMission(Failed, false, expected);
        if ok {
          CreateApproval();
        }
        return;
      }
      ok := UpdateAttempts(attempts + 1, expected);
      if ok {
        ok := TransitionMission(Retrying, false, expected);
      }
      if ok {
        ok := TransitionMission(Assigned, false, expected);
      }
      if ok && !paused {
        var id := StartTask(Prepare(generation));
      }
    }

    /** A review begins: with a question to the user, or with a reviewer. */
    method BeginReview() returns (id: Option<nat>)
      modifies this`approvals, this`tasks, this`nextTask, this`evidence
      ensures Current() == Finished(old(Current()), Segment(None, ReviewRequest(old(Current())), Nothing, Nothing, ReviewTask(old(Current()))))
      ensures id.Some? ==> id.value == old(nextTask) && id.value in tasks && tasks[id.value] == Review(generation)
      ensures id.None? ==> tasks == old(tasks)
    {
      if supervised {
        CreateApproval();
        return None;
      }
      var started := StartTask(Review(generation));
      return Some(started);
    }

    /** The result is integrated once it is approved; the cleanup that follows is awaited. */
    method StartIntegration(expected: nat) returns (id: Option<nat>)
      modifies this`row, this`evidence, this`executions, this`tasks, this`nextTask
      ensures Current() == Finished(old(Current()), Segment(Some(expected), Move(Integrated), Nothing, Nothing, Some(Integrate(expected))))
      ensures id.Some? ==> id.value == old(nextTask) && id.value in tasks && tasks[id.value] == Integrate(expected)
      ensures id.None? ==> tasks == old(tasks)
    {
      var ok := TransitionMission(Integrated, false, Some(expected));
      if !ok {
        return None;
      }
      var started := StartTask(Integrate(expected));
      return Some(started);
    }

    /** The steps that a tick takes with this mission. */
    ghost function TickSteps(w: World): seq<Step> {
      (if w.row.state == Proposed && !w.paused then [Step(DependenciesMet, None)] else [])
      + (if w.row.state in {Proposed, Ready} && !w.paused then [Step(Schedule, None)] else [])
    }

    /** Promotes the mission, whose dependencies are taken to be met, and dispatches it when it is ready. */
    method Tick()
      requires Valid()
      modifies this
      ensures Valid() && steps == old(steps) + TickSteps(old(Current()))
      ensures old(row).state in {Proposed, Ready} && !old(paused) ==>
        row.state == Assigned && tasks == old(tasks)[old(nextTask) := Prepare(generation)]
    {
      if row.state == Proposed && !paused {
        Promote();
      }
      if row.state == Ready && !paused {
        Dispatch();
      }
    }

    method Promote()
      requires Valid() && row.state == Proposed && !paused
      modifies this
      ensures Valid() && Took(old(Current()), old(steps), DependenciesMet)
      ensures row.state == Ready && tasks == old(tasks) && nextTask == old(nextTask) && !paused && generation == old(generation)
    {
      ghost var before := Current();
      var ok := TransitionMission(Ready, false, Some(generation));
      Record(before, DependenciesMet);
    }

    method Dispatch()
      requires Valid() && row.state == Ready && !paused
      modifies this
      ensures Valid() && Took(old(Current()), old(steps), Schedule)
      ensures row.state == Assigned && tasks == old(tasks)[old(nextTask) := Prepare(generation)] && generation == old(generation)
    {
      ghost var before := Current();
      var ok := TransitionMission(Assigned, false, Some(generation));
      var id := StartTask(Prepare(generation));
      Record(before, Schedule);
    }

    method PauseProject()
      requires Valid()
      modifies this
      ensures Valid() && paused
      ensures old(paused) ==> unchanged(this)
      ensures !old(paused) ==> Took(old(Current()), old(steps), Pause)
    {
      if paused {
        return;
      }
      ghost var before := Current();
      paused, generation := true, generation + 1;
      if Pauseable(row.state) {
        row := row.(state := Paused, reviewBlocked := false, pausedFrom := Some(row.state));
      }
      Record(before, Pause);
    }

    /** The project changes its autonomy profile. */
    method UpdateProfile(supervised: bool)
      requires Valid()
      modifies this
      ensures Valid() && Took(old(Current()), old(steps), SetProfile(supervised))
    {
      ghost var before := Current();
      this.supervised := supervised;
      Record(before, SetProfile(supervised));
    }

    /** Another plan becomes the active one: open approvals are withdrawn, and a mission that waits is cancelled. */
    method ReplacePlan() returns (ok: bool)
      requires Valid()
      modifies this
      ensures Valid() && ok == !old(paused)
      ensures !ok ==> unchanged(this)
      ensures ok ==> Took(old(Current()), old(steps), Supersede)
    {
      if paused {
        return false;
      }
      ghost var before := Current();
      approvals, superseded := 0, true;
      if Replaceable(row.state) {
        row := row.(state := Cancelled, reviewBlocked := false);
      }
      Record(before, Supersede);
      return true;
    }

    /** The engine's part of a resume, after the store has restored the mission. */
    method ContinueMission()
      requires !paused
      modifies this`row, this`approvals, this`evidence, this`executions, this`tasks, this`nextTask
      ensures Current() == Finished(old(Current()), AfterResume(old(Current())))
    {
      match row.state {
        case Validating => var id := StartTask(Validate(generation, row.correctionAttempts, 0));
        case ReviewRequired => var id := BeginReview();
        case Approved => var id := StartIntegration(generation);
        case _ =>
      }
    }

    method ResumeProject()
      requires Valid()
      modifies this
      ensures Valid() && !paused
      ensures !old(paused) ==> unchanged(this)
      ensures old(paused) ==> Took(old(Current()), old(steps), Resume)
    {
      if !paused {
        return;
      }
      ghost var before := Current();
      paused := false;
      if row.state == Paused {
        row := row.(state := ResumeTarget(if row.pausedFrom.Some? then row.pausedFrom.value else Ready),
                    reviewBlocked := false, pausedFrom := None);
      }
      ContinueMission();
      Record(before, Resume);
    }

    /** The cases of reconciliation, when all tasks are gone. */
    method ReconcileMission(orphan: bool)
      modifies this`row, this`approvals, this`evidence, this`executions, this`tasks, this`nextTask
      ensures Current() == Finished(old(Current()), Reconciliation(config, old(Current()), orphan))
    {
      match row.state {
        case Running =>
          if orphan {
            FailValidation(row.correctionAttempts, None);
          }
        case Assigned => var ok := TransitionMission(Ready, false, None);
        case Validating =>
          if !paused {
            var id := StartTask(Validate(generation, row.correctionAttempts, 0));
          }
        case ReviewRequired =>
          if !paused {
            var id := BeginReview();
          }
        case _ =>
      }
    }

    /** Takes up after a restart what the lost process was doing. */
    method Reconcile(orphan: bool)
      requires Valid()
      modifies this
      ensures Valid() && Took(old(Current()), old(steps), Restart(orphan))
    {
      ghost var before := Current();
      tasks := map[];
      ReconcileMission(orphan);
      Record(before, Restart(orphan));
    }

    // ------------------------------------------------------------ answers of the user

    method ApproveBlocked()
      requires row.state == Blocked
      modifies this`row, this`approvals, this`evidence, this`executions, this`tasks, this`nextTask
      ensures old(superseded) || Current() == Finished(old(Current()), UserApproval(old(Current())))
    {
      var ok;
      if row.reviewBlocked {
        ok := TransitionMission(ReviewRequired, false, None);
        var id := BeginReview();
      } else {
        ok := TransitionMission(Ready, false, None);
      }
    }

    method ApproveFailed()
      requires row.state == Failed
      modifies this`row, this`evidence, this`executions, this`tasks, this`nextTask
      ensures old(superseded) || Current() == Finished(old(Current()), UserApproval(old(Current())))
    {
      var ok := UpdateAttempts(0, None);
      ok := TransitionMission(Retrying, false, None);
      ok := TransitionMission(Assigned, false, None);
      if !paused {
        var id := StartTask(Prepare(generation));
      }
    }

    method ApproveResult()
      requires row.state == ReviewRequired
      modifies this`row, this`evidence, this`executions, this`tasks, this`nextTask
      ensures old(superseded) || Current() == Finished(old(Current()), UserApproval(old(Current())))
    {
      evidence := evidence.(approved := true);
      var ok := TransitionMission(Approved, false, None);
      if !paused {
        var id := StartIntegration(generation);
      }
    }

    method Reject()
      modifies this`row, this`evidence, this`executions
      ensures old(superseded) || Current() == Finished(old(Current()), UserRejection(old(Current())))
    {
      var ok;
      if row.state in {Blocked, ReviewRequired} {
        ok := TransitionMission(Cancelled, false, None);
      } else if row.state == Failed {
        ok := TransitionMission(Retrying, false, None);
        ok := TransitionMission(Cancelled, false, None);
      }
    }

    method Approve()
      modifies this`row, this`approvals, this`evidence, this`executions, this`tasks, this`nextTask
      ensures old(superseded) || Current() == Finished(old(Current()), UserApproval(old(Current())))
    {
      match row.state {
        case Blocked => ApproveBlocked();
        case Failed => ApproveFailed();
        case ReviewRequired => ApproveResult();
        case _ =>
      }
    }

    method Accept()
      requires approvals > 0
      modifies this`row, this`approvals, this`evidence, this`executions, this`tasks, this`nextTask
      ensures Current() == Apply(config, old(Current()), Step(UserApproves, None))
    {
      ghost var before := Current();
      approvals := approvals - 1;
      ApprovalApplies(config, before, Current());
      if !superseded {
        Approve();
      }
    }

    method Decline()
      requires approvals > 0
      modifies this`row, this`approvals, this`evidence, this`executions
      ensures Current() == Apply(config, old(Current()), Step(UserRejects, None))
    {
      ghost var before := Current();
      approvals := approvals - 1;
      RejectionApplies(config, before, Current());
      if !superseded {
        Reject();
      }
    }

    /** Answers an open approval; one that is answered or withdrawn is refused, and a mission of a replaced plan stays as it is. */
    method ResolveApproval(approved: bool) returns (ok: bool)
      requires Valid()
      modifies this
      ensures Valid() && ok == (old(approvals) > 0)
      ensures !ok ==> unchanged(this)
      ensures ok ==> Took(old(Current()), old(steps), if approved then UserApproves else UserRejects)
    {
      if approvals == 0 {
        return false;
      }
      ghost var before := Current();
      if approved {
        Accept();
        Record(before, UserApproves);
      } else {
        Decline();
        Record(before, UserRejects);
      }
      return true;
    }

    // ------------------------------------------------------------ awaiting

    /** A segment of another task, a decision, a pause, a resume, a new profile or plan, or a restart. */
    method OtherStep(task: nat, ghost start: nat)
      requires Valid() && task in tasks && start <= |steps| && Taken(start, task) == Flow([], Some(task))
      modifies this
      ensures Valid() && Since(old(worlds), old(steps)) && Taken(start, task) == Flow([], Some(task))
      ensures task in tasks ==> tasks[task] == old(tasks[task])
    {
      var s: Step := *;
      if Enabled(config, Current(), s.action) && !Acts(s, task) {
        TasksAreNumbered(config, worlds, steps, task);
        OthersKeepTask(config, Current(), s, task);
        ghost var earlier, history := worlds, steps;
        Take(s);
        StillWaits(earlier, history, start, task);
      }
    }

    lemma StillWaits(before: seq<World>, history: seq<Step>, start: nat, task: nat)
      requires Since(before, history) && start <= |history| && FlowOf(before, history, start, task) == Flow([], Some(task))
      requires |steps| == |history| + 1 && !Acts(steps[|history|], task)
      ensures Taken(start, task) == Flow([], Some(task))
    {
      GoesOn(before, history, start, task);
      assert Taken(|history| + 1, task) == Flow([], Some(task));
    }

    method Take(s: Step)
      requires Valid() && Enabled(config, Current(), s.action)
      modifies this
      ensures Valid() && Current() == Apply(config, old(Current()), s)
      ensures steps == old(steps) + [s] && worlds == old(worlds) + [Current()]
    {
      ExtendsRun(config, worlds, steps, s);
      var w := Apply(config, Current(), s);
      row, approvals, superseded, paused, generation, supervised, tasks, nextTask, evidence, executions :=
        w.row, w.approvals, w.superseded, w.paused, w.generation, w.supervised, w.tasks, w.nextTask, w.evidence, w.executions;
      worlds, steps := worlds + [w], steps + [s];
    }

    /** While a task waits, anything else may happen; only a restart or a death takes the task away. */
    method Await(task: nat) returns (lost: bool)
      requires Valid() && task in tasks
      modifies this
      ensures Valid() && Since(old(worlds), old(steps)) && Taken(|old(steps)|, task) == Flow([], Some(task))
      ensures lost <==> task !in tasks
      ensures lost ==> Ended(|old(steps)|, task, true)
      ensures !lost ==> tasks[task] == old(tasks[task])
    {
      ghost var start := |steps|;
      var others: nat := *;
      while others > 0 && task in tasks
        invariant Valid() && Since(old(worlds), old(steps)) && Taken(start, task) == Flow([], Some(task))
        invariant task in tasks ==> tasks[task] == old(tasks[task])
      {
        OtherStep(task, start);
        others := others - 1;
      }
      lost := task !in tasks;
    }

    // ------------------------------------------------------------ the flows

    // Each of the following flows starts in one task and goes on along its path, as the history
    // has it. It ends only when it has left no task but a new execution dispatched on its own,
    // or when a restart takes the task it waits in.

    method ExecuteMission(task: nat) returns (lost: bool)
      requires Valid() && task in tasks && tasks[task].Prepare?
      modifies this
      ensures Valid() && Since(old(worlds), old(steps)) && (lost || FlowEnded())
      ensures Ended(|old(steps)|, task, lost) && OnPath(|old(steps)|, task, old(tasks[task]))
    {
      ghost var start := |steps|;
      var expected := tasks[task].generation;
      lost := Await(task);
      if !lost {
        ghost var before := Current();
        var prepared: bool := *;
        var run := PrepareRun(task, expected, prepared);
        RecordFlow(before, Prepared(task, prepared), start, task, run);
        if run.Some? {
          ghost var earlier, history := worlds, steps;
          lost := RunMission(run.value);
          EndsToo(earlier, history, start, task, run.value, lost);
        }
      }
      StaysOnPath(start, task);
    }

    method PrepareRun(task: nat, expected: nat, prepared: bool) returns (run: Option<nat>)
      requires task in tasks && tasks[task] == Prepare(expected)
      modifies this`row, this`approvals, this`evidence, this`executions, this`tasks, this`nextTask
      ensures Enabled(config, old(Current()), Prepared(task, prepared))
      ensures Current() == Apply(config, old(Current()), Step(Prepared(task, prepared), None))
      ensures run.Some? ==> prepared && run.value == old(nextTask) && run.value in tasks && tasks[run.value] == RunProvider(expected)
      ensures run.None? ==> OnlyDispatches(old(Current()), Current())
    {
      tasks := tasks - {task};
      if IsFenced(expected) {
        return None;
      }
      var ok := MoveOn(if prepared then Running else Blocked, !prepared, expected);
      if !ok || !prepared {
        return None;
      }
      var id := StartTask(RunProvider(expected));
      return Some(id);
    }

    /** The provider's runs, with their retries and switches, up to the one that completes or the last that fails. */
    method RunMission(task: nat) returns (lost: bool)
      requires Valid() && task in tasks && tasks[task].RunProvider?
      modifies this
      ensures Valid() && Since(old(worlds), old(steps)) && (lost || FlowEnded())
      ensures Ended(|old(steps)|, task, lost) && OnPath(|old(steps)|, task, old(tasks[task]))
    {
      ghost var start := |steps|;
      var expected := tasks[task].generation;
      lost := Await(task);
      if !lost {
        ghost var before := Current();
        var completed: bool := *;
        var validation := FinishRun(task, expected, completed);
        RecordFlow(before, RunFinished(task, completed), start, task, validation);
        if validation.Some? {
          ghost var earlier, history := worlds, steps;
          lost := ValidateMission(validation.value);
          EndsToo(earlier, history, start, task, validation.value, lost);
        }
      }
      StaysOnPath(start, task);
    }

    method FinishRun(task: nat, expected: nat, completed: bool) returns (validation: Option<nat>)
      requires task in tasks && tasks[task] == RunProvider(expected)
      modifies this`row, this`approvals, this`evidence, this`executions, this`tasks, this`nextTask
      ensures Enabled(config, old(Current()), RunFinished(task, completed))
      ensures Current() == Apply(config, old(Current()), Step(RunFinished(task, completed), None))
      ensures validation.Some? ==>
        validation.value == old(nextTask) && validation.value in tasks && tasks[validation.value].Validate? && tasks[validation.value].next == 0
      ensures validation.None? ==> OnlyDispatches(old(Current()), Current())
    {
      validation := None;
      if completed {
        validation := SubmitResult(task, expected);
      } else {
        GiveUpRun(task, expected);
      }
    }

    method GiveUpRun(task: nat, expected: nat)
      requires task in tasks && tasks[task] == RunProvider(expected)
      modifies this`row, this`approvals, this`evidence, this`executions, this`tasks
      ensures Enabled(config, old(Current()), RunFinished(task, false))
      ensures Current() == Apply(config, old(Current()), Step(RunFinished(task, false), None))
      ensures OnlyDispatches(old(Current()), Current())
    {
      tasks := tasks - {task};
      if !IsFenced(expected) {
        var ok := MoveOn(Blocked, true, expected);
      }
    }

    method SubmitResult(task: nat, expected: nat) returns (validation: Option<nat>)
      requires task in tasks && tasks[task] == RunProvider(expected)
      modifies this`row, this`evidence, this`executions, this`tasks, this`nextTask
      ensures Enabled(config, old(Current()), RunFinished(task, true))
      ensures Current() == Apply(config, old(Current()), Step(RunFinished(task, true), None))
      ensures validation.Some? ==> validation.value == old(nextTask) && validation.value in tasks && tasks[validation.value].Validate? && tasks[validation.value].next == 0
      ensures validation.None? ==> OnlyDispatches(old(Current()), Current())
    {
      tasks := tasks - {task};
      if IsFenced(expected) {
        return None;
      }
      validation := RecordResult(expected);
    }

    method RecordResult(expected: nat) returns (validation: Option<nat>)
      requires !IsFenced(expected)
      modifies this`row, this`evidence, this`executions, this`tasks, this`nextTask
      ensures Current() == Finished(old(Current()), Segment(Some(expected), RecordSuccess, Move(ResultSubmitted), Move(Validating),
        Some(Validate(expected, old(row).correctionAttempts, 0))))
      ensures validation.Some? ==>
        validation.value == old(nextTask) && validation.value in tasks && tasks[validation.value].Validate? && tasks[validation.value].next == 0
      ensures validation.None? ==> tasks == old(tasks)
    {
      var ok := SubmitForValidation(expected);
      if !ok {
        return None;
      }
      var id := StartTask(Validate(expected, row.correctionAttempts, 0));
      return Some(id);
    }

    method SubmitForValidation(expected: nat) returns (ok: bool)
      requires !IsFenced(expected)
      modifies this`row, this`evidence, this`executions
      ensures forall starts ::
        Committed(Current(), !ok) == CommitAll(old(Current()), Segment(Some(expected), RecordSuccess, Move(ResultSubmitted), Move(Validating), starts), 3)
      ensures row.correctionAttempts == old(row).correctionAttempts
    {
      evidence := evidence.(runSucceeded := true);
      ok := TransitionMission(ResultSubmitted, false, Some(expected));
      if ok {
        ok := TransitionMission(Validating, false, Some(expected));
      }
    }

    /** Every required check is awaited in turn; the first that fails, or any other fault, ends the validation. */
    method ValidateMission(task: nat) returns (lost: bool)
      requires Valid() && task in tasks && tasks[task].Validate? && tasks[task].next == 0
      modifies this
      ensures Valid() && Since(old(worlds), old(steps)) && (lost || FlowEnded())
      ensures Ended(|old(steps)|, task, lost) && OnPath(|old(steps)|, task, old(tasks[task]))
    {
      ghost var start := |steps|;
      var current, expected, attempts, next := task, tasks[task].generation, tasks[task].attempts, 0;
      ghost var earlier, history := worlds, steps;
      while next < config.requiredChecks
        invariant Valid() && next <= config.requiredChecks && earlier == worlds && history == steps
        invariant current in tasks && tasks[current] == Validate(expected, attempts, next)
        invariant Since(old(worlds), old(steps)) && Taken(start, task).waits == Some(current)
      {
        var going, id;
        going, lost, id := AwaitCheck(current, expected, attempts, next);
        if !going {
          EndsToo(earlier, history, start, task, current, lost);
          StaysOnPath(start, task);
          return;
        }
        GoesOn(earlier, history, start, task);
        current, next := id, next + 1;
        earlier, history := worlds, steps;
      }
      lost := FinishValidation(current, expected, attempts);
      EndsToo(earlier, history, start, task, current, lost);
      StaysOnPath(start, task);
    }

    method AwaitCheck(task: nat, expected: nat, attempts: nat, next: nat) returns (going: bool, lost: bool, id: nat)
      requires Valid() && task in tasks && tasks[task] == Validate(expected, attempts, next) && next < config.requiredChecks
      modifies this
      ensures Valid() && Since(old(worlds), old(steps))
      ensures going ==> id in tasks && tasks[id] == Validate(expected, attempts, next + 1) && Taken(|old(steps)|, task).waits == Some(id)
      ensures !going ==> (lost || FlowEnded()) && Ended(|old(steps)|, task, lost)
    {
      ghost var start := |steps|;
      going, id := false, task;
      lost := Await(task);
      if !lost {
        ghost var before := Current();
        var fault: bool, passed: bool := *, *;
        going, id := EndCheck(task, expected, attempts, next, fault, passed);
        RecordFlow(before, if fault then ValidationFailed(task) else CheckFinished(task, passed), start, task, if going then Some(id) else None);
      }
    }

    method EndCheck(task: nat, expected: nat, attempts: nat, next: nat, fault: bool, passed: bool) returns (going: bool, id: nat)
      requires task in tasks && tasks[task] == Validate(expected, attempts, next) && next < config.requiredChecks
      modifies this`row, this`approvals, this`evidence, this`executions, this`tasks, this`nextTask
      ensures var a := if fault then ValidationFailed(task) else CheckFinished(task, passed);
        Enabled(config, old(Current()), a) && Current() == Apply(config, old(Current()), Step(a, None))
      ensures going ==> id == old(nextTask) && id in tasks && tasks[id] == Validate(expected, attempts, next + 1)
      ensures !going ==> OnlyDispatches(old(Current()), Current())
    {
      going, id := false, task;
      if fault {
        GiveUpValidation(task, expected, attempts, next);
      } else {
        going, id := FinishCheck(task, expected, attempts, next, passed);
      }
    }

    method GiveUpValidation(task: nat, expected: nat, attempts: nat, next: nat)
      requires task in tasks && tasks[task] == Validate(expected, attempts, next)
      modifies this`row, this`approvals, this`evidence, this`executions, this`tasks, this`nextTask
      ensures Enabled(config, old(Current()), ValidationFailed(task))
      ensures Current() == Apply(config, old(Current()), Step(ValidationFailed(task), None))
      ensures OnlyDispatches(old(Current()), Current())
    {
      tasks := tasks - {task};
      if !IsFenced(expected) {
        FailValidation(attempts, Some(expected));
      }
    }

    method FinishCheck(task: nat, expected: nat, attempts: nat, next: nat, passed: bool) returns (going: bool, id: nat)
      requires task in tasks && tasks[task] == Validate(expected, attempts, next) && next < config.requiredChecks
      modifies this`row, this`approvals, this`evidence, this`executions, this`tasks, this`nextTask
      ensures Enabled(config, old(Current()), CheckFinished(task, passed))
      ensures Current() == Apply(config, old(Current()), Step(CheckFinished(task, passed), None))
      ensures going ==> passed && id == old(nextTask) && id in tasks && tasks[id] == Validate(expected, attempts, next + 1)
      ensures !going ==> OnlyDispatches(old(Current()), Current())
    {
      tasks := tasks - {task};
      if IsFenced(expected) {
        return false, task;
      }
      if !passed {
        FailValidation(attempts, Some(expected));
        return false, task;
      }
      if evidence.checksPassed == next {
        evidence := evidence.(checksPassed := next + 1);
      }
      id := StartTask(Validate(expected, attempts, next + 1));
      going := true;
    }

    /** All checks have passed: commit and publish, then hand over to review. */
    method FinishValidation(task: nat, expected: nat, attempts: nat) returns (lost: bool)
      requires Valid() && task in tasks && tasks[task] == Validate(expected, attempts, config.requiredChecks)
      modifies this
      ensures Valid() && Since(old(worlds), old(steps)) && (lost || FlowEnded())
      ensures Ended(|old(steps)|, task, lost)
    {
      ghost var start := |steps|;
      lost := Await(task);
      if !lost {
        ghost var before := Current();
        var committed: bool, published: bool := *, *;
        var review := Publish(task, expected, attempts, committed, published);
        RecordFlow(before, Publication(task, committed, published), start, task, review);
        if review.Some? {
          ghost var earlier, history := worlds, steps;
          lost := ReviewMission(review.value);
          EndsToo(earlier, history, start, task, review.value, lost);
        }
      }
    }

    function Publication(task: nat, committed: bool, published: bool): Action {
      if !committed then ValidationFailed(task) else if published then ChecksDone(task) else PublicationFailed(task)
    }

    method Publish(task: nat, expected: nat, attempts: nat, committed: bool, published: bool) returns (review: Option<nat>)
      requires task in tasks && tasks[task] == Validate(expected, attempts, config.requiredChecks)
      modifies this`row, this`approvals, this`evidence, this`executions, this`tasks, this`nextTask
      ensures Enabled(config, old(Current()), Publication(task, committed, published))
      ensures Current() == Apply(config, old(Current()), Step(Publication(task, committed, published), None))
      ensures review.Some? ==> committed && published && review.value == old(nextTask) && review.value in tasks && tasks[review.value].Review?
      ensures review.None? ==> OnlyDispatches(old(Current()), Current())
    {
      review := None;
      if !committed {
        GiveUpValidation(task, expected, attempts, config.requiredChecks);
      } else if published {
        review := HandOver(task, expected, attempts);
      } else {
        BlockPublication(task, expected, attempts);
      }
    }

    method BlockPublication(task: nat, expected: nat, attempts: nat)
      requires task in tasks && tasks[task] == Validate(expected, attempts, config.requiredChecks)
      modifies this`row, this`approvals, this`evidence, this`executions, this`tasks
      ensures Enabled(config, old(Current()), PublicationFailed(task))
      ensures Current() == Apply(config, old(Current()), Step(PublicationFailed(task), None))
      ensures OnlyDispatches(old(Current()), Current())
    {
      tasks := tasks - {task};
      if !IsFenced(expected) {
        var ok := MoveOn(Blocked, true, expected);
      }
    }

    method HandOver(task: nat, expected: nat, attempts: nat) returns (review: Option<nat>)
      requires task in tasks && tasks[task] == Validate(expected, attempts, config.requiredChecks)
      modifies this`row, this`approvals, this`evidence, this`executions, this`tasks, this`nextTask
      ensures Enabled(config, old(Current()), ChecksDone(task))
      ensures Current() == Apply(config, old(Current()), Step(ChecksDone(task), None))
      ensures review.Some? ==> review.value == old(nextTask) && review.value in tasks && tasks[review.value].Review?
      ensures review.None? ==> OnlyDispatches(old(Current()), Current())
    {
      tasks := tasks - {task};
      if IsFenced(expected) {
        return None;
      }
      var ok := TransitionMission(ReviewRequired, false, Some(expected));
      if !ok {
        return None;
      }
      review := BeginReview();
    }

    method ReviewMission(task: nat) returns (lost: bool)
      requires Valid() && task in tasks && tasks[task].Review?
      modifies this
      ensures Valid() && Since(old(worlds), old(steps)) && (lost || FlowEnded())
      ensures Ended(|old(steps)|, task, lost) && OnPath(|old(steps)|, task, old(tasks[task]))
    {
      ghost var start := |steps|;
      var expected := tasks[task].generation;
      lost := Await(task);
      if !lost {
        var integration := EndReview(task, expected, start);
        if integration.Some? {
          ghost var earlier, history := worlds, steps;
          lost := IntegrateMission(integration.value);
          EndsToo(earlier, history, start, task, integration.value, lost);
        }
      }
      StaysOnPath(start, task);
    }

    method EndReview(task: nat, expected: nat, ghost start: nat) returns (integration: Option<nat>)
      requires Valid() && task in tasks && tasks[task] == Review(expected)
      requires start <= |steps| && Taken(start, task) == Flow([], Some(task))
      modifies this
      ensures Valid() && Since(old(worlds), old(steps)) && Taken(start, task).waits == integration
      ensures integration.Some? ==> integration.value in tasks && tasks[integration.value].Integrate?
      ensures integration.None? ==> FlowEnded() && Ended(start, task, false)
    {
      ghost var before := Current();
      var verdict: Verdict := *;
      integration := FinishReview(task, expected, verdict);
      RecordFlow(before, ReviewFinished(task, verdict), start, task, integration);
    }

    method FinishReview(task: nat, expected: nat, verdict: Verdict) returns (integration: Option<nat>)
      requires task in tasks && tasks[task] == Review(expected)
      modifies this`row, this`approvals, this`evidence, this`executions, this`tasks, this`nextTask
      ensures Enabled(config, old(Current()), ReviewFinished(task, verdict))
      ensures Current() == Apply(config, old(Current()), Step(ReviewFinished(task, verdict), None))
      ensures integration.Some? ==> verdict.Approve? && integration.value == old(nextTask) && integration.value in tasks && tasks[integration.value].Integrate?
      ensures integration.None? ==> OnlyDispatches(old(Current()), Current())
    {
      tasks := tasks - {task};
      integration := None;
      if !IsFenced(expected) {
        integration := ApplyVerdict(expected, verdict);
      }
    }

    method ApplyVerdict(expected: nat, verdict: Verdict) returns (integration: Option<nat>)
      requires !IsFenced(expected)
      modifies this`row, this`approvals, this`evidence, this`executions, this`tasks, this`nextTask
      ensures Current() == Finished(old(Current()), AfterReview(config, old(Current()), Some(expected), verdict))
      ensures integration.Some? ==> verdict.Approve? && integration.value == old(nextTask) && integration.value in tasks && tasks[integration.value].Integrate?
      ensures integration.None? ==> OnlyDispatches(old(Current()), Current())
    {
      integration := None;
      match verdict {
        case Approve => integration := AcceptResult(expected);
        case Reject => FailValidation(row.correctionAttempts, Some(expected));
        case Unavailable =>
          if row.state == ReviewRequired {
            var ok := TransitionMission(Blocked, true, Some(expected));
            CreateApproval();
          }
      }
    }

    method AcceptResult(expected: nat) returns (integration: Option<nat>)
      requires !IsFenced(expected)
      modifies this`row, this`evidence, this`executions, this`tasks, this`nextTask
      ensures Current() == Finished(old(Current()), Segment(Some(expected), RecordApproval, Move(Approved), Move(Integrated), Some(Integrate(expected))))
      ensures integration.Some? ==> integration.value == old(nextTask) && integration.value in tasks && tasks[integration.value] == Integrate(expected)
      ensures integration.None? ==> tasks == old(tasks)
    {
      evidence := evidence.(approved := true);
      integration := None;
      var ok := TransitionMission(Approved, false, Some(expected));
      if ok {
        integration := StartIntegration(expected);
      }
    }

    /** The cleanup is awaited; then the mission is completed, unless the task is fenced or the mission has moved on. */
    method IntegrateMission(task: nat) returns (lost: bool)
      requires Valid() && task in tasks && tasks[task].Integrate?
      modifies this
      ensures Valid() && Since(old(worlds), old(steps)) && (lost || FlowEnded())
      ensures Ended(|old(steps)|, task, lost) && OnPath(|old(steps)|, task, old(tasks[task]))
      ensures !lost ==> row == AfterCleanup(worlds[|steps| - 1], old(tasks)[task].generation)
    {
      ghost var start := |steps|;
      var expected := tasks[task].generation;
      lost := Await(task);
      if !lost {
        EndIntegration(task, expected, start);
      }
      StaysOnPath(start, task);
    }

    method EndIntegration(task: nat, expected: nat, ghost start: nat)
      requires Valid() && task in tasks && tasks[task] == Integrate(expected)
      requires start <= |steps| && Taken(start, task) == Flow([], Some(task))
      modifies this
      ensures Valid() && FlowEnded() && worlds == old(worlds) + [Current()] && steps == old(steps) + [Step(CleanedUp(task), None)]
      ensures Ended(start, task, false) && row == AfterCleanup(worlds[|steps| - 1], expected)
    {
      ghost var before := Current();
      FinishIntegration(task, expected);
      RecordFlow(before, CleanedUp(task), start, task, None);
      assert before == worlds[|steps| - 1];
    }

    method FinishIntegration(task: nat, expected: nat)
      requires task in tasks && tasks[task] == Integrate(expected)
      modifies this`row, this`evidence, this`executions, this`tasks
      ensures Enabled(config, old(Current()), CleanedUp(task))
      ensures Current() == Apply(config, old(Current()), Step(CleanedUp(task), None))
      ensures OnlyDispatches(old(Current()), Current())
      ensures row == AfterCleanup(old(Current()), expected)
    {
      tasks := tasks - {task};
      if !IsFenced(expected) {
        CompletesFrom(row.state);
        var ok := TransitionMission(Completed, false, Some(expected));
      }
    }
  }

  lemma ApprovalApplies(c: Config, w: World, b: World)
    requires w.approvals > 0 && b == w.(approvals := w.approvals - 1)
    ensures Apply(c, w, Step(UserApproves, None)) == (if b.superseded then b else Finished(b, UserApproval(b)))
  {
    assert Begun(w, UserApproves) == b && Apply(c, w, Step(UserApproves, None)) == Finished(b, UserApproval(b));
  }

  lemma RejectionApplies(c: Config, w: World, b: World)
    requires w.approvals > 0 && b == w.(approvals := w.approvals - 1)
    ensures Apply(c, w, Step(UserRejects, None)) == (if b.superseded then b else Finished(b, UserRejection(b)))
  {
    assert Begun(w, UserRejects) == b && Apply(c, w, Step(UserRejects, None)) == Finished(b, UserRejection(b));
  }

  lemma ExtendsRun(c: Config, worlds: seq<World>, steps: seq<Step>, s: Step)
    requires IsRun(c, worlds, steps) && Enabled(c, worlds[|steps|], s.action)
    ensures IsRun(c, worlds + [Apply(c, worlds[|steps|], s)], steps + [s])
  {
  }

  lemma CompletesFrom(s: MissionState)
    ensures CanTransition(s, Completed) <==> s == Integrated
  {
  }

  lemma TasksAreNumbered(c: Config, worlds: seq<World>, steps: seq<Step>, task: nat)
    requires IsRun(c, worlds, steps) && task in worlds[|steps|].tasks
    ensures task < worlds[|steps|].nextTask
  {
    RunKeepsInvariant(c, worlds, steps, |steps|);
  }

  lemma SuccessorIs(c: Config, worlds: seq<World>, steps: seq<Step>, after: World, next: Option<nat>)
    requires IsRun(c, worlds, steps)
    requires if next.None? then OnlyDispatches(worlds[|steps|], after)
             else next == Some(worlds[|steps|].nextTask) && next.value in after.tasks && !after.tasks[next.value].Prepare?
    ensures Successor(worlds[|steps|], after) == next
  {
    if worlds[|steps|].nextTask in worlds[|steps|].tasks {
      TasksAreNumbered(c, worlds, steps, worlds[|steps|].nextTask);
    }
  }

  lemma ActedOnce(worlds: seq<World>, steps: seq<Step>, task: nat)
    requires |worlds| == |steps| + 1 && steps != [] && Acts(steps[|steps| - 1], task)
    ensures var n := |steps| - 1; FlowOf(worlds, steps, n, task) == Flow([steps[n].action], Successor(worlds[n], worlds[n + 1]))
  {
    var n := |steps| - 1;
    var next := Successor(worlds[n], worlds[n + 1]);
    if next.Some? {
      assert FlowOf(worlds, steps, n + 1, next.value) == Flow([], next);
    }
  }
}
