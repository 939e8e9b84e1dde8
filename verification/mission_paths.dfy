/** The order in which one flow of the engine acts, in every run: from one task to the task that goes on from there. */
module MissionPaths {
  import opened Wrappers
  import opened MissionFlow
  import opened MissionFlowProofs
  import opened MissionFlowTheorems

  // ------------------------------------------------------------ a flow in the history

  /** What a flow has done so far, and the task that it waits in, unless it has ended. */
  datatype Flow = Flow(actions: seq<Action>, waits: Option<nat>)

  predicate Acts(s: Step, task: nat) {
    OfTask(s.action) && s.action.task == task
  }

  /** The task that goes on after a step of another one; an execution is dispatched on its own. */
  function Successor(before: World, after: World): Option<nat> {
    if before.nextTask in after.tasks && !after.tasks[before.nextTask].Prepare? then Some(before.nextTask) else None
  }

  /** The flow of a task from a point of the history on. */
  function FlowOf(worlds: seq<World>, steps: seq<Step>, start: nat, task: nat): Flow
    requires |worlds| == |steps| + 1 && start <= |steps|
    decreases |steps| - start
  {
    if start == |steps| then Flow([], Some(task))
    else if !Acts(steps[start], task) then FlowOf(worlds, steps, start + 1, task)
    else
      var next := Successor(worlds[start], worlds[start + 1]);
      if next.None? then Flow([steps[start].action], None)
      else
        var rest := FlowOf(worlds, steps, start + 1, next.value);
        Flow([steps[start].action] + rest.actions, rest.waits)
  }

  /** A flow that waits goes on from where it waits when the history does. */
  lemma {:induction false} FlowGoesOn(
      worlds: seq<World>, steps: seq<Step>, start: nat, task: nat, longer: seq<World>, more: seq<Step>)
    requires |worlds| == |steps| + 1 && start <= |steps| && |longer| == |more| + 1 && worlds <= longer && steps <= more
    ensures var before, all := FlowOf(worlds, steps, start, task), FlowOf(longer, more, start, task);
      if before.waits.None? then all == before
      else var rest := FlowOf(longer, more, |steps|, before.waits.value);
        all == Flow(before.actions + rest.actions, rest.waits)
    decreases |steps| - start
  {
    if start == |steps| {
      var rest := FlowOf(longer, more, start, task);
      assert [] + rest.actions == rest.actions;
    } else if !Acts(steps[start], task) {
      FlowGoesOn(worlds, steps, start + 1, task, longer, more);
    } else {
      var next := Successor(worlds[start], worlds[start + 1]);
      if next.Some? {
        FlowGoesOn(worlds, steps, start + 1, next.value, longer, more);
        var inner := FlowOf(worlds, steps, start + 1, next.value);
        if inner.waits.Some? {
          var rest := FlowOf(longer, more, |steps|, inner.waits.value);
          assert [steps[start].action] + (inner.actions + rest.actions) == [steps[start].action] + inner.actions + rest.actions;
        }
      }
    }
  }

  /** A flow that has ended did so in a step of its own; one that waits has its task named by the history. */
  lemma {:induction false} EndedFlowActed(worlds: seq<World>, steps: seq<Step>, start: nat, task: nat)
    requires |worlds| == |steps| + 1 && start <= |steps|
    ensures var f := FlowOf(worlds, steps, start, task); f.waits.None? ==> f.actions != []
    decreases |steps| - start
  {
    if start < |steps| && !Acts(steps[start], task) {
      EndedFlowActed(worlds, steps, start + 1, task);
    }
  }

  // ------------------------------------------------------------ the paths

  /** Integration is one step. */
  predicate IntegrationPath(a: seq<Action>) {
    a == [] || (|a| == 1 && a[0].CleanedUp?)
  }

  /** A review is one verdict; integration follows only an approval. */
  predicate ReviewPath(a: seq<Action>) {
    a == [] || (a[0].ReviewFinished? && IntegrationPath(a[1..]) && (|a| > 1 ==> a[0].verdict.Approve?))
  }

  /** A validation is one step per check; what follows a check follows its passing, and review follows the last one. */
  predicate ValidationPath(a: seq<Action>, checks: nat)
    decreases checks
  {
    || a == []
    || (if checks > 0
        then (a[0].CheckFinished? || a[0].ValidationFailed?)
             && (|a| > 1 ==> a[0].CheckFinished? && a[0].ok && ValidationPath(a[1..], checks - 1))
        else (a[0].ChecksDone? || a[0].PublicationFailed? || a[0].ValidationFailed?)
             && (|a| > 1 ==> a[0].ChecksDone? && ReviewPath(a[1..])))
  }

  /** A validation follows only a run that completed, and a run only a preparation that succeeded. */
  predicate RunPath(a: seq<Action>, checks: nat) {
    a == [] || (a[0].RunFinished? && (|a| > 1 ==> a[0].completed && ValidationPath(a[1..], checks)))
  }

  predicate ExecutionPath(a: seq<Action>, checks: nat) {
    a == [] || (a[0].Prepared? && (|a| > 1 ==> a[0].ok && RunPath(a[1..], checks)))
  }

  /** The path of what starts in this task. */
  predicate PathOf(c: Config, t: Task, a: seq<Action>) {
    match t
    case Prepare(_) => ExecutionPath(a, c.requiredChecks)
    case RunProvider(_) => RunPath(a, c.requiredChecks)
    case Validate(_, _, next) => next <= c.requiredChecks && ValidationPath(a, c.requiredChecks - next)
    case Review(_) => ReviewPath(a)
    case Integrate(_) => IntegrationPath(a)
  }

  /** What may go on after an action of a task. */
  predicate Follows(t: Task, a: Action, next: Task) {
    match a
    case Prepared(_, ok) => ok && next.RunProvider?
    case RunFinished(_, completed) => completed && next.Validate? && next.next == 0
    case CheckFinished(_, ok) => ok && t.Validate? && next.Validate? && next.next == t.next + 1
    case ChecksDone(_) => next.Review?
    case ReviewFinished(_, verdict) => verdict.Approve? && next.Integrate?
    case _ => false
  }

  predicate InRange(c: Config, t: Task) {
    t.Validate? ==> t.next <= c.requiredChecks
  }

  lemma PathGoesOn(c: Config, t: Task, a: Action, next: Task, rest: seq<Action>)
    requires OfTask(a) && Fits(c, t, a) && InRange(c, t) && Follows(t, a, next) && PathOf(c, next, rest)
    ensures PathOf(c, t, [a] + rest)
  {
    assert ([a] + rest)[1..] == rest;
  }

  lemma PathEnds(c: Config, t: Task, a: Action)
    requires OfTask(a) && Fits(c, t, a) && InRange(c, t)
    ensures PathOf(c, t, [a])
  {
    assert [a][1..] == [];
  }

  // ------------------------------------------------------------ every flow keeps to its path

  /** What a task's segment starts. */
  lemma SegmentFollows(c: Config, w: World, t: Task, a: Action)
    requires OfTask(a) && Fits(c, t, a) && InRange(c, t)
    ensures var next := TaskSegment(c, w, t, a).starts;
      next.Some? && !next.value.Prepare? ==> Follows(t, a, next.value) && InRange(c, next.value)
  {
  }

  /** The task of a world goes on with another one only by starting it. */
  lemma SuccessorFollows(c: Config, w: World, s: Step)
    requires TasksSound(c, w) && Enabled(c, w, s.action) && OfTask(s.action) && InRange(c, w.tasks[s.action.task])
    ensures var v := Apply(c, w, s); var next := Successor(w, v);
      next.Some? ==> Follows(w.tasks[s.action.task], s.action, v.tasks[next.value]) && InRange(c, v.tasks[next.value])
  {
    CommitAllSameTasks(Begun(w, s.action), SegmentOf(c, w, s.action), 3);
    SegmentFollows(c, Begun(w, s.action), w.tasks[s.action.task], s.action);
  }

  /** A step of others leaves a task as it is, or takes it away for good. */
  lemma OthersKeepTask(c: Config, w: World, s: Step, task: nat)
    requires Enabled(c, w, s.action) && !Acts(s, task) && task < w.nextTask
    ensures var v := Apply(c, w, s); w.nextTask <= v.nextTask && (task in v.tasks ==> task in w.tasks && v.tasks[task] == w.tasks[task])
  {
    CommitAllSameTasks(Begun(w, s.action), SegmentOf(c, w, s.action), 3);
    if s.diedAfter.Some? {
      CommitAllSameTasks(Begun(w, s.action), SegmentOf(c, w, s.action), s.diedAfter.value);
    }
  }

  /** From a task on, its flow keeps to its path. */
  lemma {:induction false} FlowKeepsToPath(c: Config, worlds: seq<World>, steps: seq<Step>, start: nat, task: nat, t: Task)
    requires IsRun(c, worlds, steps) && start <= |steps| && InRange(c, t)
    requires task < worlds[start].nextTask && (task in worlds[start].tasks ==> worlds[start].tasks[task] == t)
    ensures PathOf(c, t, FlowOf(worlds, steps, start, task).actions)
    decreases |steps| - start, 1
  {
    if start < |steps| {
      var s := steps[start];
      assert Enabled(c, worlds[start], s.action);
      if !Acts(s, task) {
        OthersKeepTask(c, worlds[start], s, task);
        FlowKeepsToPath(c, worlds, steps, start + 1, task, t);
      } else {
        ActingKeepsToPath(c, worlds, steps, start, task, t);
      }
    }
  }

  lemma ActingKeepsToPath(c: Config, worlds: seq<World>, steps: seq<Step>, start: nat, task: nat, t: Task)
    requires IsRun(c, worlds, steps) && start < |steps| && InRange(c, t) && Acts(steps[start], task)
    requires task in worlds[start].tasks && worlds[start].tasks[task] == t
    ensures PathOf(c, t, FlowOf(worlds, steps, start, task).actions)
    decreases |steps| - start, 0
  {
    var s, v := steps[start], worlds[start + 1];
    assert Enabled(c, worlds[start], s.action) && v == Apply(c, worlds[start], s);
    RunKeepsInvariant(c, worlds, steps, start);
    SuccessorFollows(c, worlds[start], s);
    var next := Successor(worlds[start], v);
    if next.None? {
      PathEnds(c, t, s.action);
    } else {
      RunKeepsInvariant(c, worlds, steps, start + 1);
      FlowKeepsToPath(c, worlds, steps, start + 1, next.value, v.tasks[next.value]);
      PathGoesOn(c, t, s.action, v.tasks[next.value], FlowOf(worlds, steps, start + 1, next.value).actions);
    }
  }

  ghost predicate AllInRange(c: Config, w: World) {
    forall i :: i in w.tasks ==> InRange(c, w.tasks[i])
  }

  lemma SegmentInRange(c: Config, w: World, a: Action)
    requires Enabled(c, w, a) && AllInRange(c, w)
    ensures AllInRange(c, Begun(w, a))
    ensures SegmentOf(c, w, a).starts.Some? ==> InRange(c, SegmentOf(c, w, a).starts.value)
  {
    if OfTask(a) {
      var t, b := w.tasks[a.task], Begun(w, a);
      SegmentFollows(c, b, t, a);
    }
  }

  lemma StepInRange(c: Config, w: World, s: Step)
    requires Enabled(c, w, s.action) && AllInRange(c, w)
    ensures AllInRange(c, Apply(c, w, s))
  {
    SegmentInRange(c, w, s.action);
    CommitAllSameTasks(Begun(w, s.action), SegmentOf(c, w, s.action), 3);
  }

  lemma {:induction false} RunInRange(c: Config, worlds: seq<World>, steps: seq<Step>, n: nat)
    requires IsRun(c, worlds, steps) && n <= |steps|
    ensures AllInRange(c, worlds[n])
  {
    if n > 0 {
      RunInRange(c, worlds, steps, n - 1);
      StepInRange(c, worlds[n - 1], steps[n - 1]);
    }
  }

  /** In every run, whatever happens between its steps, the flow of a task keeps to the task's path. */
  lemma FlowsKeepToTheirPaths(c: Config, worlds: seq<World>, steps: seq<Step>, start: nat, task: nat)
    requires IsRun(c, worlds, steps) && start <= |steps| && task in worlds[start].tasks
    ensures PathOf(c, worlds[start].tasks[task], FlowOf(worlds, steps, start, task).actions)
  {
    RunInRange(c, worlds, steps, start);
    RunKeepsInvariant(c, worlds, steps, start);
    FlowKeepsToPath(c, worlds, steps, start, task, worlds[start].tasks[task]);
  }
}
