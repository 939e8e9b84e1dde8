/**
 The planning pipeline of one project: a slot in memory that admits one task at a time, a pause
 generation that fences stale tasks, and the plans in the store. A pause is two steps: its
 transaction, and later the release of the slot.
 */
module BrainSlot {
  import opened Wrappers

  /** A planning task; `replan` is the key of the evidence it replans from, `base` the plan version it started on. */
  datatype Task = Task(generation: nat, objective: nat, replan: Option<nat>, base: nat, done: bool)

  /** A stored plan version; `replan` is `None` for an initial plan. */
  datatype Plan = Plan(objective: nat, replan: Option<nat>)

  datatype Brain = Brain(
    paused: bool, generation: nat, slot: Option<nat>, tasks: map<nat, Task>, nextTask: nat,
    releases: nat, latest: nat, plans: seq<Plan>)

  const INITIAL := Brain(false, 0, None, map[], 0, 0, 0, [])

  datatype Action =
    | NewObjective
    | EnsurePlan(objective: nat, replan: Option<nat>)
    | Persist(task: nat, viaClarification: bool)
    | GiveUp(task: nat)
    | Finish(task: nat)
    | BeginPause | ReleaseSlot | Resume | Restart

  predicate Replans(p: Plan, objective: nat) {
    p.objective == objective && p.replan.Some?
  }

  function ReplanCount(plans: seq<Plan>, objective: nat): nat {
    if plans == [] then 0
    else ReplanCount(plans[..|plans| - 1], objective) + if Replans(plans[|plans| - 1], objective) then 1 else 0
  }

  predicate HasKey(plans: seq<Plan>, key: nat) {
    exists i :: 0 <= i < |plans| && plans[i].replan == Some(key)
  }

  /** The newest plan is the active one. */
  predicate HasActivePlan(plans: seq<Plan>, objective: nat) {
    plans != [] && plans[|plans| - 1].objective == objective
  }

  /** The checks before the first await: whether the task goes on to plan. */
  predicate Proceeds(b: Brain, maxReplans: nat, objective: nat, replan: Option<nat>) {
    && !b.paused && objective == b.latest
    && match replan
       case None => !HasActivePlan(b.plans, objective)
       case Some(key) => !HasKey(b.plans, key) && ReplanCount(b.plans, objective) < maxReplans
  }

  /** The plan that the store's transaction appends for a task, if it does not refuse it. */
  function NewPlan(b: Brain, t: Task, viaClarification: bool): Option<Plan> {
    if b.paused || t.generation != b.generation || t.objective != b.latest then None
    else if t.replan.None? || viaClarification then Some(Plan(t.objective, None))
    else if HasKey(b.plans, t.replan.value) || t.base != |b.plans| then None
    else Some(Plan(t.objective, t.replan))
  }

  predicate Unfinished(b: Brain, task: nat) {
    task in b.tasks && !b.tasks[task].done
  }

  predicate Enabled(b: Brain, a: Action) {
    match a
    case Persist(task, _) => Unfinished(b, task)
    case GiveUp(task) => Unfinished(b, task)
    case Finish(task) => task in b.tasks && b.tasks[task].done
    case BeginPause => !b.paused
    case ReleaseSlot => b.releases > 0
    case Resume => b.paused
    case _ => true
  }

  function Apply(b: Brain, maxReplans: nat, a: Action): Brain
    requires Enabled(b, a)
  {
    match a
    case NewObjective => b.(latest := b.latest + 1)
    case EnsurePlan(objective, replan) =>
      if b.slot.Some? then b
      else
        var t := Task(b.generation, objective, replan, |b.plans|, !Proceeds(b, maxReplans, objective, replan));
        b.(slot := Some(b.nextTask), tasks := b.tasks[b.nextTask := t], nextTask := b.nextTask + 1)
    case Persist(task, viaClarification) =>
      var t := b.tasks[task];
      var plan := NewPlan(b, t, viaClarification);
      b.(tasks := b.tasks[task := t.(done := true)], plans := if plan.Some? then b.plans + [plan.value] else b.plans)
    case GiveUp(task) => b.(tasks := b.tasks[task := b.tasks[task].(done := true)])
    case Finish(task) => b.(tasks := b.tasks - {task}, slot := if b.slot == Some(task) then None else b.slot)
    case BeginPause => b.(paused := true, generation := b.generation + 1, releases := b.releases + 1)
    case ReleaseSlot => b.(releases := b.releases - 1, slot := None)
    case Resume => b.(paused := false)
    case Restart => b.(tasks := map[], slot := None, releases := 0)
  }

  ghost predicate IsRun(maxReplans: nat, brains: seq<Brain>, actions: seq<Action>) {
    && |brains| == |actions| + 1 && brains[0] == INITIAL
    && forall i {:trigger actions[i]} :: 0 <= i < |actions| ==>
         Enabled(brains[i], actions[i]) && brains[i + 1] == Apply(brains[i], maxReplans, actions[i])
  }

  // ------------------------------------------------------------ invariants

  /** A task that plans for the current generation of a project that is not paused. */
  predicate Current(b: Brain, task: nat) {
    Unfinished(b, task) && !b.paused && b.tasks[task].generation == b.generation
  }

  ghost predicate OwnsSlot(b: Brain) {
    forall i: nat {:trigger Current(b, i)} :: Current(b, i) ==> b.slot == Some(i)
  }

  /** The objectives of the plans never go back to an older revision. */
  ghost predicate Ordered(b: Brain) {
    && (forall i, j :: 0 <= i <= j < |b.plans| ==> b.plans[i].objective <= b.plans[j].objective)
    && (forall i :: 0 <= i < |b.plans| ==> b.plans[i].objective <= b.latest)
  }

  ghost predicate TasksNumbered(b: Brain) {
    && (forall i :: i in b.tasks ==> i < b.nextTask && b.tasks[i].generation <= b.generation)
    && (forall i :: i in b.tasks && b.paused && !b.tasks[i].done ==> b.tasks[i].generation < b.generation)
    && (b.slot.Some? ==> b.slot.value < b.nextTask)
  }

  predicate PlansFor(plans: seq<Plan>, objective: nat) {
    exists i :: 0 <= i < |plans| && plans[i].objective == objective
  }

  /** What a task checked before it began to plan still holds. */
  ghost predicate StillJustified(b: Brain, maxReplans: nat, t: Task) {
    && t.base == |b.plans| && t.objective <= b.latest
    && match t.replan
       case None => !PlansFor(b.plans, t.objective)
       case Some(key) => !HasKey(b.plans, key) && ReplanCount(b.plans, t.objective) < maxReplans
  }

  ghost predicate TasksJustified(b: Brain, maxReplans: nat) {
    forall i: nat {:trigger Current(b, i)} :: Current(b, i) ==> StillJustified(b, maxReplans, b.tasks[i])
  }

  ghost predicate Inv(b: Brain, maxReplans: nat) {
    && (b.releases > 0 ==> b.paused)
    && TasksNumbered(b) && OwnsSlot(b) && Ordered(b) && TasksJustified(b, maxReplans)
  }

  /** No resume overtakes the release of the slot by the pause before it. */
  predicate Patient(b: Brain, a: Action) {
    a.Resume? ==> b.releases == 0
  }

  lemma NumberedKept(b: Brain, maxReplans: nat, a: Action)
    requires TasksNumbered(b) && Enabled(b, a)
    ensures TasksNumbered(Apply(b, maxReplans, a))
  {
  }

  lemma OrderedKept(b: Brain, maxReplans: nat, a: Action)
    requires Ordered(b) && Enabled(b, a)
    ensures Ordered(Apply(b, maxReplans, a))
  {
  }

  /** Only the entry of the pipeline makes a current task; a finished one, a pause and a restart end being current. */
  lemma CurrentBefore(b: Brain, maxReplans: nat, a: Action, task: nat)
    requires TasksNumbered(b) && Enabled(b, a) && Current(Apply(b, maxReplans, a), task)
    ensures (a.EnsurePlan? && b.slot.None? && task == b.nextTask) || (Current(b, task) && Apply(b, maxReplans, a).tasks[task] == b.tasks[task])
  {
  }

  /** A task of the current generation keeps the slot, except from a release that comes after the resume. */
  lemma SlotKeptExactly(b: Brain, maxReplans: nat, a: Action)
    requires TasksNumbered(b) && OwnsSlot(b) && Enabled(b, a)
    ensures OwnsSlot(Apply(b, maxReplans, a)) <==> !(a.ReleaseSlot? && exists i: nat :: Current(b, i))
  {
    var v := Apply(b, maxReplans, a);
    if a.ReleaseSlot? {
      if i: nat :| Current(b, i) {
        assert Current(v, i);
      }
    }
    forall i: nat | Current(v, i) ensures (a.EnsurePlan? && b.slot.None? && i == b.nextTask) || Current(b, i) {
      CurrentBefore(b, maxReplans, a, i);
    }
  }

  lemma StartIsJustified(b: Brain, maxReplans: nat, objective: nat, replan: Option<nat>)
    requires Ordered(b) && Proceeds(b, maxReplans, objective, replan)
    ensures StillJustified(b, maxReplans, Task(b.generation, objective, replan, |b.plans|, false))
  {
  }

  lemma StoringNeedsCurrency(b: Brain, maxReplans: nat, a: Action)
    requires Enabled(b, a) && a.Persist? && !Current(b, a.task)
    ensures Apply(b, maxReplans, a).plans == b.plans
  {
  }

  /** While one task plans and goes on planning, no plan is stored. */
  lemma PlansUntouched(b: Brain, maxReplans: nat, a: Action, task: nat)
    requires OwnsSlot(b) && Enabled(b, a) && Current(b, task) && Current(Apply(b, maxReplans, a), task)
    ensures Apply(b, maxReplans, a).plans == b.plans
  {
    if a.Persist? && !Current(b, a.task) {
      StoringNeedsCurrency(b, maxReplans, a);
    }
  }

  lemma JustifiedKept(b: Brain, maxReplans: nat, a: Action)
    requires Inv(b, maxReplans) && Enabled(b, a) && Patient(b, a)
    ensures TasksJustified(Apply(b, maxReplans, a), maxReplans)
  {
    var v := Apply(b, maxReplans, a);
    forall i: nat | Current(v, i) ensures StillJustified(v, maxReplans, v.tasks[i]) {
      CurrentBefore(b, maxReplans, a, i);
      if a.EnsurePlan? && i == b.nextTask && b.slot.None? {
        StartIsJustified(b, maxReplans, a.objective, a.replan);
      } else {
        PlansUntouched(b, maxReplans, a, i);
      }
    }
  }

  lemma InvKept(b: Brain, maxReplans: nat, a: Action)
    requires Inv(b, maxReplans) && Enabled(b, a) && Patient(b, a)
    ensures Inv(Apply(b, maxReplans, a), maxReplans)
  {
    NumberedKept(b, maxReplans, a);
    OrderedKept(b, maxReplans, a);
    SlotKeptExactly(b, maxReplans, a);
    JustifiedKept(b, maxReplans, a);
  }

  // ------------------------------------------------------------ whole runs

  ghost predicate PatientRun(maxReplans: nat, brains: seq<Brain>, actions: seq<Action>) {
    && IsRun(maxReplans, brains, actions)
    && forall i {:trigger actions[i]} :: 0 <= i < |actions| ==> Patient(brains[i], actions[i])
  }

  lemma {:induction false} RunKeepsInvariant(maxReplans: nat, brains: seq<Brain>, actions: seq<Action>, n: nat)
    requires PatientRun(maxReplans, brains, actions) && n < |brains|
    ensures Inv(brains[n], maxReplans)
  {
    if n > 0 {
      RunKeepsInvariant(maxReplans, brains, actions, n - 1);
      InvKept(brains[n - 1], maxReplans, actions[n - 1]);
    }
  }

  /** At most one task plans for the current generation, and it holds the slot. */
  lemma SingleFlight(maxReplans: nat, brains: seq<Brain>, actions: seq<Action>, n: nat, i: nat, j: nat)
    requires PatientRun(maxReplans, brains, actions) && n < |brains| && Current(brains[n], i) && Current(brains[n], j)
    ensures i == j && brains[n].slot == Some(i)
  {
    RunKeepsInvariant(maxReplans, brains, actions, n);
  }

  predicate ActsFor(a: Action, task: nat) {
    (a.Persist? && a.task == task) || (a.GiveUp? && a.task == task) || (a.Finish? && a.task == task)
  }

  /** While a task plans, no other one stores a plan or frees the slot. */
  lemma OthersAreHarmless(maxReplans: nat, brains: seq<Brain>, actions: seq<Action>, n: nat, i: nat, j: nat)
    requires PatientRun(maxReplans, brains, actions) && n < |actions| && i != j
    requires Current(brains[n], i) && ActsFor(actions[n], j)
    ensures brains[n + 1].plans == brains[n].plans && brains[n + 1].slot == Some(i) && Current(brains[n + 1], i)
  {
    RunKeepsInvariant(maxReplans, brains, actions, n);
    if actions[n].Persist? && !Current(brains[n], j) {
      StoringNeedsCurrency(brains[n], maxReplans, actions[n]);
    }
  }

  /** A task that a pause has made stale never stores a plan again, whatever happens in between. */
  lemma StaleNeverPersists(
      maxReplans: nat, brains: seq<Brain>, actions: seq<Action>, stale: nat, n: nat, task: nat)
    requires IsRun(maxReplans, brains, actions) && stale <= n < |actions|
    requires task in brains[stale].tasks && task < brains[stale].nextTask
    requires brains[stale].tasks[task].generation < brains[stale].generation
    requires actions[n].Persist? && actions[n].task == task
    ensures brains[n + 1].plans == brains[n].plans
  {
    StaleStaysStale(maxReplans, brains, actions, stale, n, task);
  }

  lemma {:induction false} StaleStaysStale(
      maxReplans: nat, brains: seq<Brain>, actions: seq<Action>, stale: nat, n: nat, task: nat)
    requires IsRun(maxReplans, brains, actions) && stale <= n < |brains|
    requires task in brains[stale].tasks && task < brains[stale].nextTask
    requires brains[stale].tasks[task].generation < brains[stale].generation
    ensures task < brains[n].nextTask
    ensures task in brains[n].tasks ==> brains[n].tasks[task].generation < brains[n].generation
    decreases n - stale
  {
    if stale < n {
      StaleStaysStale(maxReplans, brains, actions, stale, n - 1, task);
      var a := actions[n - 1];
      assert brains[n] == Apply(brains[n - 1], maxReplans, a);
    }
  }

  // ------------------------------------------------------------ the plans of an objective

  ghost predicate OneInitialEach(plans: seq<Plan>) {
    forall i, j :: 0 <= i < j < |plans| && plans[i].replan.None? && plans[j].replan.None? ==> plans[i].objective != plans[j].objective
  }

  predicate HasInitial(plans: seq<Plan>, objective: nat) {
    exists i :: 0 <= i < |plans| && plans[i].objective == objective && plans[i].replan.None?
  }

  /**
   A replan whose analysis was ambiguous but whose clarification found nothing to ask: it is
   stored without its replan key, as if the objective had not been planned before.
   */
  predicate LosesItsKey(b: Brain, a: Action) {
    a.Persist? && a.viaClarification && Current(b, a.task) && b.tasks[a.task].replan.Some? && b.tasks[a.task].objective == b.latest
  }

  /** A step gives an objective a second initial plan exactly when a replan loses its key. */
  lemma SecondInitialPlanExactly(b: Brain, maxReplans: nat, a: Action)
    requires Inv(b, maxReplans) && Enabled(b, a) && OneInitialEach(b.plans)
    ensures OneInitialEach(Apply(b, maxReplans, a).plans) <==> !(LosesItsKey(b, a) && HasInitial(b.plans, b.latest))
  {
    var v := Apply(b, maxReplans, a);
    if v.plans != b.plans {
      assert Current(b, a.task);
      var p := v.plans[|b.plans|];
      assert v.plans == b.plans + [p];
      if LosesItsKey(b, a) && HasInitial(b.plans, b.latest) {
        var i :| 0 <= i < |b.plans| && b.plans[i].objective == b.latest && b.plans[i].replan.None?;
        assert v.plans[i].objective == v.plans[|b.plans|].objective;
      }
    }
  }

  ghost predicate KeepsKeys(brains: seq<Brain>, actions: seq<Action>)
    requires |brains| == |actions| + 1
  {
    forall i {:trigger actions[i]} :: 0 <= i < |actions| ==> !LosesItsKey(brains[i], actions[i])
  }

  /** An objective never gets two initial plans unless a replan loses its key. */
  lemma {:induction false} OneInitialPlanPerObjective(maxReplans: nat, brains: seq<Brain>, actions: seq<Action>, n: nat)
    requires PatientRun(maxReplans, brains, actions) && n < |brains|
    requires KeepsKeys(brains, actions)
    ensures OneInitialEach(brains[n].plans)
  {
    if n > 0 {
      OneInitialPlanPerObjective(maxReplans, brains, actions, n - 1);
      RunKeepsInvariant(maxReplans, brains, actions, n - 1);
      SecondInitialPlanExactly(brains[n - 1], maxReplans, actions[n - 1]);
    }
  }

  /** An objective is replanned at most as often as the limit says. */
  lemma {:induction false} ReplansAreLimited(maxReplans: nat, brains: seq<Brain>, actions: seq<Action>, n: nat, objective: nat)
    requires PatientRun(maxReplans, brains, actions) && n < |brains|
    ensures ReplanCount(brains[n].plans, objective) <= maxReplans
  {
    if n > 0 {
      var b, v := brains[n - 1], brains[n];
      ReplansAreLimited(maxReplans, brains, actions, n - 1, objective);
      RunKeepsInvariant(maxReplans, brains, actions, n - 1);
      if v.plans != b.plans {
        assert Current(b, actions[n - 1].task);
        assert v.plans[..|v.plans| - 1] == b.plans;
      }
    }
  }

  /** The same evidence is never replanned from twice, not even when a resume overtakes a release. */
  lemma {:induction false} EvidenceReplansOnce(maxReplans: nat, brains: seq<Brain>, actions: seq<Action>, n: nat, i: nat, j: nat)
    requires IsRun(maxReplans, brains, actions) && n < |brains| && i < j < |brains[n].plans|
    ensures brains[n].plans[i].replan.Some? ==> brains[n].plans[i].replan != brains[n].plans[j].replan
  {
    var b, v := brains[n - 1], brains[n];
    assert v == Apply(b, maxReplans, actions[n - 1]);
    if j < |b.plans| {
      EvidenceReplansOnce(maxReplans, brains, actions, n - 1, i, j);
    } else if v.plans[i].replan.Some? {
      assert v.plans[..|b.plans|] == b.plans;
      assert HasKey(b.plans, v.plans[i].replan.value);
    }
  }

  // ------------------------------------------------------------ where the properties end

  ghost predicate Reaches(maxReplans: nat, brains: seq<Brain>, actions: seq<Action>, b: Brain) {
    IsRun(maxReplans, brains, actions) && brains[|actions|] == b
  }

  lemma Extend(maxReplans: nat, brains: seq<Brain>, actions: seq<Action>, b: Brain, a: Action)
    returns (brains': seq<Brain>, actions': seq<Action>, b': Brain)
    requires Reaches(maxReplans, brains, actions, b) && Enabled(b, a)
    ensures b' == Apply(b, maxReplans, a) && brains' == brains + [b'] && actions' == actions + [a]
    ensures Reaches(maxReplans, brains', actions', b')
  {
    b' := Apply(b, maxReplans, a);
    brains', actions' := brains + [b'], actions + [a];
  }

  /** The pipeline starts, is paused, and its slot is freed by the task itself before the pause gets to it. */
  lemma PausedOnce(maxReplans: nat) returns (brains: seq<Brain>, actions: seq<Action>, b: Brain)
    ensures Reaches(maxReplans, brains, actions, b)
    ensures b == INITIAL.(paused := true, generation := 1, nextTask := 1, releases := 1)
  {
    brains, actions, b := [INITIAL], [], INITIAL;
    brains, actions, b := Extend(maxReplans, brains, actions, b, EnsurePlan(0, None));
    brains, actions, b := Extend(maxReplans, brains, actions, b, BeginPause);
    brains, actions, b := Extend(maxReplans, brains, actions, b, GiveUp(0));
    brains, actions, b := Extend(maxReplans, brains, actions, b, Finish(0));
    assert b.tasks == map[];
  }

  /**
   A resume may overtake the release of the slot: the release then frees the slot of the task
   the resume started, a second task starts beside it, and both plan the same objective.
   */
  lemma OverlapPlansTwice(maxReplans: nat) returns (brains: seq<Brain>, actions: seq<Action>)
    ensures IsRun(maxReplans, brains, actions)
    ensures brains[|actions|].plans == [Plan(0, None), Plan(0, None)]
  {
    var b;
    brains, actions, b := PausedOnce(maxReplans);
    brains, actions, b := Extend(maxReplans, brains, actions, b, Resume);
    brains, actions, b := Extend(maxReplans, brains, actions, b, EnsurePlan(0, None));
    brains, actions, b := Extend(maxReplans, brains, actions, b, ReleaseSlot);
    brains, actions, b := Extend(maxReplans, brains, actions, b, EnsurePlan(0, None));
    brains, actions, b := Extend(maxReplans, brains, actions, b, Persist(1, false));
    brains, actions, b := Extend(maxReplans, brains, actions, b, Persist(2, false));
  }

  /** Without any pause, a replan that loses its key gives an objective a second initial plan. */
  lemma LostKeyPlansTwice(maxReplans: nat) returns (brains: seq<Brain>, actions: seq<Action>)
    requires maxReplans >= 1
    ensures PatientRun(maxReplans, brains, actions)
    ensures brains[|actions|].plans == [Plan(0, None), Plan(0, None)]
  {
    var b;
    brains, actions, b := [INITIAL], [], INITIAL;
    brains, actions, b := Extend(maxReplans, brains, actions, b, EnsurePlan(0, None));
    brains, actions, b := Extend(maxReplans, brains, actions, b, Persist(0, false));
    brains, actions, b := Extend(maxReplans, brains, actions, b, Finish(0));
    assert b.plans == [Plan(0, None)] && b.plans[..0] == [];
    assert Proceeds(b, maxReplans, 0, Some(7));
    brains, actions, b := Extend(maxReplans, brains, actions, b, EnsurePlan(0, Some(7)));
    brains, actions, b := Extend(maxReplans, brains, actions, b, Persist(1, true));
  }
}
