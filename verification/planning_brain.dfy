/**
 The planning brain of one project. While a task waits for its provider anything else may
 happen; the methods are proved to take only steps of `BrainSlot`.
 */
module PlanningBrain {
  import opened Wrappers
  import opened BrainSlot

  datatype Status = Deferred | NotStarted | Lost | Planned | Refused

  class ProjectBrain {
    const maxReplans: nat
    var paused: bool
    var generation: nat
    var slot: Option<nat>
    var tasks: map<nat, Task>
    var nextTask: nat
    var releases: nat
    var latest: nat
    var plans: seq<Plan>
    ghost var brains: seq<Brain>
    ghost var actions: seq<Action>

    constructor (maxReplans: nat)
      ensures this.maxReplans == maxReplans && Valid()
    {
      this.maxReplans := maxReplans;
      paused, generation, slot, tasks, nextTask, releases, latest, plans := false, 0, None, map[], 0, 0, 0, [];
      actions := [];
      new;
      brains := [State()];
    }

    function State(): Brain
      reads this
    {
      Brain(paused, generation, slot, tasks, nextTask, releases, latest, plans)
    }

    ghost predicate Valid()
      reads this
    {
      IsRun(maxReplans, brains, actions) && brains[|actions|] == State()
    }

    /** Notes the step that has just been taken. */
    ghost method Record(a: Action)
      requires IsRun(maxReplans, brains, actions) && Enabled(brains[|actions|], a)
      requires State() == Apply(brains[|actions|], maxReplans, a)
      modifies this`brains, this`actions
      ensures Valid() && actions == old(actions) + [a]
    {
      brains, actions := brains + [State()], actions + [a];
    }

    /** A step of anything else than the waiting task. */
    method OtherStep(task: nat)
      requires Valid() && task in tasks && task < nextTask
      modifies this
      ensures Valid() && old(actions) <= actions && task < nextTask
      ensures task in tasks ==> tasks[task] == old(tasks[task])
    {
      var a: Action := *;
      if Enabled(State(), a) && !ActsFor(a, task) {
        var b := Apply(State(), maxReplans, a);
        paused, generation, slot, tasks, nextTask, releases, latest, plans :=
          b.paused, b.generation, b.slot, b.tasks, b.nextTask, b.releases, b.latest, b.plans;
        Record(a);
      }
    }

    /** While a task waits, anything else may happen; only a restart takes the task away. */
    method Await(task: nat) returns (lost: bool)
      requires Valid() && task in tasks && task < nextTask
      modifies this
      ensures Valid() && old(actions) <= actions
      ensures lost <==> task !in tasks
      ensures !lost ==> tasks[task] == old(tasks[task])
    {
      var others: nat := *;
      while others > 0 && task in tasks
        invariant Valid() && old(actions) <= actions && task < nextTask
        invariant task in tasks ==> tasks[task] == old(tasks[task])
      {
        OtherStep(task);
        others := others - 1;
      }
      lost := task !in tasks;
    }

    /** Takes the slot, plans, and at the end frees the slot if it is still its own. */
    method EnsurePlan(objective: nat, replan: Option<nat>) returns (status: Status)
      requires Valid()
      modifies this
      ensures Valid() && old(actions) <= actions
      ensures status.Deferred? <==> old(slot).Some?
      ensures status.Deferred? || status.NotStarted? ==> plans == old(plans)
      ensures !status.Deferred? ==> old(nextTask) !in tasks && (status.Lost? || slot != Some(old(nextTask)))
    {
      if slot.Some? {
        Record(BrainSlot.EnsurePlan(objective, replan));
        return Deferred;
      }
      var token := nextTask;
      var proceeds := Proceeds(State(), maxReplans, objective, replan);
      slot, nextTask := Some(token), nextTask + 1;
      tasks := tasks[token := Task(generation, objective, replan, |plans|, !proceeds)];
      Record(BrainSlot.EnsurePlan(objective, replan));
      status := NotStarted;
      if proceeds {
        var lost := Await(token);
        if lost {
          return Lost;
        }
        status := Conclude(token);
      }
      Release(token);
    }

    /** The pipeline ends: with a plan to store, or with a question, a block or an error. */
    method Conclude(token: nat) returns (status: Status)
      requires Valid() && Unfinished(State(), token)
      modifies this
      ensures Valid() && old(actions) <= actions
      ensures token in tasks && tasks[token].done
      ensures status.Planned? || status.Refused?
      ensures status.Planned? <==> plans != old(plans)
    {
      var t := tasks[token];
      tasks := tasks[token := t.(done := true)];
      var proposed: bool, viaClarification: bool := *, *;
      if !proposed {
        Record(GiveUp(token));
        return Refused;
      }
      var stored := StorePlan(t, viaClarification);
      Record(Persist(token, viaClarification));
      status := if stored then Planned else Refused;
    }

    /** The store's transaction; it refuses stale tasks, superseded objectives, known keys and stale bases. */
    method StorePlan(t: Task, viaClarification: bool) returns (stored: bool)
      modifies this`plans
      ensures var plan := NewPlan(old(State()), t, viaClarification);
        plans == old(plans) + (if plan.Some? then [plan.value] else []) && stored == plan.Some?
    {
      if paused || t.generation != generation || t.objective != latest {
        return false;
      }
      var replan := if viaClarification then None else t.replan;
      if replan.Some? && (HasKey(plans, replan.value) || t.base != |plans|) {
        return false;
      }
      plans := plans + [Plan(t.objective, replan)];
      return true;
    }

    method Release(token: nat)
      requires Valid() && token in tasks && tasks[token].done
      modifies this
      ensures Valid() && actions == old(actions) + [Finish(token)] && plans == old(plans)
      ensures tasks == old(tasks) - {token} && slot == if old(slot) == Some(token) then None else old(slot)
    {
      tasks := tasks - {token};
      if slot == Some(token) {
        slot := None;
      }
      Record(Finish(token));
    }

    /** The transaction of a pause; the slot is freed later, by `CancelProject`. */
    method BeginProjectPause()
      requires Valid()
      modifies this
      ensures Valid() && paused
      ensures !old(paused) ==> generation == old(generation) + 1 && releases == old(releases) + 1
    {
      if paused {
        return;
      }
      paused, generation, releases := true, generation + 1, releases + 1;
      Record(BeginPause);
    }

    method CancelProject()
      requires Valid() && releases > 0
      modifies this
      ensures Valid() && slot == None && releases == old(releases) - 1
    {
      releases, slot := releases - 1, None;
      Record(ReleaseSlot);
    }

    method ResumeProject()
      requires Valid()
      modifies this
      ensures Valid() && !paused && generation == old(generation)
    {
      if paused {
        paused := false;
        Record(Resume);
      }
    }
  }
}
