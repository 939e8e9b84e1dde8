/** Which ready missions to start: the greedy selection under a global and a per-project cap. */
module Scheduler {
  import opened Sorting
  import opened Missions

  datatype SchedulingLimits = SchedulingLimits(maxConcurrentRuns: int, maxConcurrentRunsPerProject: int)

  /** Priority descending, then creation time, then id. */
  predicate Before(a: Mission, b: Mission) {
    if a.priority != b.priority then a.priority > b.priority
    else if a.createdAt != b.createdAt then StringLeq(a.createdAt, b.createdAt)
    else StringLeq(a.id, b.id)
  }

  lemma BeforeIsOrder()
    ensures TotalPreorder(Before)
  {
    StringOrder();
  }

  function CountProject(missions: seq<Mission>, project: string): nat {
    if missions == [] then 0
    else (if missions[0].projectId == project then 1 else 0) + CountProject(missions[1..], project)
  }

  /** Runs in progress per project. */
  type Usage = map<string, nat>

  function Used(usage: Usage, project: string): nat {
    if project in usage then usage[project] else 0
  }

  function Use(usage: Usage, project: string): Usage {
    usage[project := Used(usage, project) + 1]
  }

  function UsageOf(running: seq<Mission>): Usage {
    if running == [] then map[] else Use(UsageOf(running[..|running| - 1]), running[|running| - 1].projectId)
  }

  /** The greedy choice: in order, take what the capacity and the project's cap still allow. */
  function Greedy(sorted: seq<Mission>, capacity: int, usage: Usage, cap: int): seq<Mission> {
    if sorted == [] || capacity <= 0 then []
    else if Used(usage, sorted[0].projectId) >= cap then Greedy(sorted[1..], capacity, usage, cap)
    else [sorted[0]] + Greedy(sorted[1..], capacity - 1, Use(usage, sorted[0].projectId), cap)
  }

  /** What is started from `ready` with this capacity, runs in progress and cap per project. */
  function Selected(ready: seq<Mission>, capacity: int, usage: Usage, cap: int): seq<Mission> {
    Greedy(Sort(ready, Before), capacity, usage, cap)
  }

  /** Missions that may be started together. */
  ghost predicate Feasible(chosen: seq<Mission>, capacity: int, usage: Usage, cap: int) {
    && (|chosen| <= capacity || chosen == [])
    && forall p :: CountProject(chosen, p) == 0 || CountProject(chosen, p) + Used(usage, p) <= cap
  }

  /** The total of a valuation of priorities. */
  function Total(missions: seq<Mission>, worth: int -> nat): nat {
    if missions == [] then 0 else worth(missions[0].priority) + Total(missions[1..], worth)
  }

  predicate AtMost(a: int, b: int) {
    a <= b
  }

  ghost predicate Monotone(worth: int -> nat) {
    forall a, b {:trigger AtMost(a, b)} :: AtMost(a, b) ==> worth(a) <= worth(b)
  }

  /** No mission has a higher priority than one before it. */
  ghost predicate Descending(missions: seq<Mission>) {
    missions == [] ||
    ((forall m :: m in missions ==> m.priority <= missions[0].priority) && Descending(missions[1..]))
  }

  lemma {:induction false} SortedDescends(missions: seq<Mission>)
    requires SortedBy(missions, Before)
    ensures Descending(missions)
  {
    if missions != [] {
      forall m | m in missions ensures m.priority <= missions[0].priority {
        var i :| 0 <= i < |missions| && missions[i] == m;
        assert i > 0 ==> Before(missions[0], missions[i]);
      }
      SortedDescends(missions[1..]);
    }
  }

  // ------------------------------------------------------------ exchange argument

  lemma {:induction false} Without(s: seq<Mission>, i: nat, worth: int -> nat, p: string)
    requires i < |s|
    ensures Total(s, worth) == worth(s[i].priority) + Total(s[..i] + s[i + 1..], worth)
    ensures CountProject(s, p) == (if s[i].projectId == p then 1 else 0) + CountProject(s[..i] + s[i + 1..], p)
  {
    var rest := s[..i] + s[i + 1..];
    if i == 0 {
      assert rest == s[1..];
    } else {
      Without(s[1..], i - 1, worth, p);
      assert rest[1..] == s[1..][..i - 1] + s[1..][i..];
    }
  }

  lemma RemoveOne(s: seq<Mission>, i: nat)
    requires i < |s|
    ensures multiset(s[..i] + s[i + 1..]) == multiset(s) - multiset{s[i]}
  {
    assert s == s[..i] + [s[i]] + s[i + 1..];
  }

  lemma {:induction false} ProjectMember(s: seq<Mission>, p: string) returns (i: nat)
    requires CountProject(s, p) > 0
    ensures i < |s| && s[i].projectId == p
  {
    if s[0].projectId == p {
      i := 0;
    } else {
      i := ProjectMember(s[1..], p);
      i := i + 1;
    }
  }

  /**
   Which element of a feasible choice makes room for the first mission of the list:
   that mission itself, else one of its project, else any one when the choice is full.
   */
  lemma MakeRoom(chosen: seq<Mission>, first: Mission, capacity: int, usage: Usage, cap: int) returns (i: int)
    requires Feasible(chosen, capacity, usage, cap) && capacity > 0 && Used(usage, first.projectId) < cap
    ensures -1 <= i < |chosen|
    ensures i == -1 ==> first !in chosen && CountProject(chosen, first.projectId) == 0 && |chosen| < capacity
    ensures i >= 0 ==>
      && (first in chosen ==> chosen[i] == first)
      && (chosen[i].projectId == first.projectId || CountProject(chosen, first.projectId) == 0)
  {
    if first in chosen {
      i :| 0 <= i < |chosen| && chosen[i] == first;
    } else if CountProject(chosen, first.projectId) > 0 {
      i := ProjectMember(chosen, first.projectId);
    } else if |chosen| == capacity {
      i := 0;
    } else {
      i := -1;
    }
  }

  /** What is left of a feasible choice once greedy has taken the first mission. */
  lemma AfterFirst(chosen: seq<Mission>, sorted: seq<Mission>, capacity: int, usage: Usage, cap: int, worth: int -> nat)
    returns (left: seq<Mission>)
    requires sorted != [] && Descending(sorted) && multiset(chosen) <= multiset(sorted)
    requires Feasible(chosen, capacity, usage, cap) && Monotone(worth)
    requires capacity > 0 && Used(usage, sorted[0].projectId) < cap
    ensures Feasible(left, capacity - 1, Use(usage, sorted[0].projectId), cap)
    ensures multiset(left) <= multiset(sorted[1..])
    ensures Total(chosen, worth) <= worth(sorted[0].priority) + Total(left, worth)
  {
    var first := sorted[0];
    assert sorted == [first] + sorted[1..];
    var i := MakeRoom(chosen, first, capacity, usage, cap);
    if i == -1 {
      KeepChoice(chosen, first, capacity, usage, cap);
      left := chosen;
    } else {
      left := chosen[..i] + chosen[i + 1..];
      Exchange(chosen, i, first, capacity, usage, cap);
      RemoveOne(chosen, i);
      Without(chosen, i, worth, "");
      assert chosen[i] in multiset(sorted);
      assert AtMost(chosen[i].priority, first.priority);
    }
    LeftInRest(chosen, left, first, sorted, i);
  }

  lemma LeftInRest(chosen: seq<Mission>, left: seq<Mission>, first: Mission, sorted: seq<Mission>, i: int)
    requires sorted != [] && sorted[0] == first && multiset(chosen) <= multiset(sorted)
    requires -1 <= i < |chosen|
    requires i == -1 ==> first !in chosen && left == chosen
    requires i >= 0 ==> (first in chosen ==> chosen[i] == first) && multiset(left) == multiset(chosen) - multiset{chosen[i]}
    ensures multiset(left) <= multiset(sorted[1..])
  {
    assert sorted == [first] + sorted[1..];
    forall m ensures multiset(left)[m] <= multiset(sorted[1..])[m] {
      assert multiset(chosen)[m] <= multiset(sorted)[m];
      if m == first && first !in chosen {
        assert multiset(chosen)[m] == 0;
      }
    }
  }

  lemma GreedyTakes(sorted: seq<Mission>, capacity: int, usage: Usage, cap: int, next: Usage, worth: int -> nat)
    requires sorted != [] && capacity > 0 && Used(usage, sorted[0].projectId) < cap && next == Use(usage, sorted[0].projectId)
    ensures Total(Greedy(sorted, capacity, usage, cap), worth)
      == worth(sorted[0].priority) + Total(Greedy(sorted[1..], capacity - 1, next, cap), worth)
  {
  }

  /** Greedy takes a choice at least as good as any feasible one, under every monotone valuation of priority. */
  lemma {:induction false} GreedyDominates(sorted: seq<Mission>, capacity: int, usage: Usage, cap: int, chosen: seq<Mission>, worth: int -> nat)
    requires Descending(sorted) && multiset(chosen) <= multiset(sorted)
    requires Feasible(chosen, capacity, usage, cap) && Monotone(worth)
    ensures Total(chosen, worth) <= Total(Greedy(sorted, capacity, usage, cap), worth)
    decreases |sorted|
  {
    if sorted == [] || capacity <= 0 {
      assert |multiset(chosen)| == |chosen| && |multiset(sorted)| == |sorted|;
      assert chosen == [];
    } else if Used(usage, sorted[0].projectId) >= cap {
      SkipFirst(chosen, sorted, capacity, usage, cap);
      GreedyDominates(sorted[1..], capacity, usage, cap, chosen, worth);
    } else {
      var left := AfterFirst(chosen, sorted, capacity, usage, cap, worth);
      var next := Use(usage, sorted[0].projectId);
      GreedyTakes(sorted, capacity, usage, cap, next, worth);
      GreedyDominates(sorted[1..], capacity - 1, next, cap, left, worth);
    }
  }

  lemma SkipFirst(chosen: seq<Mission>, sorted: seq<Mission>, capacity: int, usage: Usage, cap: int)
    requires sorted != [] && Used(usage, sorted[0].projectId) >= cap
    requires multiset(chosen) <= multiset(sorted) && Feasible(chosen, capacity, usage, cap)
    ensures multiset(chosen) <= multiset(sorted[1..])
  {
    var first := sorted[0];
    assert sorted == [first] + sorted[1..];
    if first in chosen {
      var i :| 0 <= i < |chosen| && chosen[i] == first;
      Without(chosen, i, _ => 0, first.projectId);
      assert false;
    }
    assert multiset(chosen)[first] == 0;
  }

  lemma KeepChoice(chosen: seq<Mission>, first: Mission, capacity: int, usage: Usage, cap: int)
    requires Feasible(chosen, capacity, usage, cap) && CountProject(chosen, first.projectId) == 0 && |chosen| < capacity
    ensures Feasible(chosen, capacity - 1, Use(usage, first.projectId), cap)
  {
  }

  lemma Exchange(chosen: seq<Mission>, i: nat, first: Mission, capacity: int, usage: Usage, cap: int)
    requires i < |chosen| && Feasible(chosen, capacity, usage, cap) && capacity > 0 && Used(usage, first.projectId) < cap
    requires chosen[i].projectId == first.projectId || CountProject(chosen, first.projectId) == 0
    ensures Feasible(chosen[..i] + chosen[i + 1..], capacity - 1, Use(usage, first.projectId), cap)
  {
    forall p
      ensures CountProject(chosen[..i] + chosen[i + 1..], p) == 0
           || CountProject(chosen[..i] + chosen[i + 1..], p) + Used(Use(usage, first.projectId), p) <= cap
    {
      Without(chosen, i, _ => 0, p);
    }
  }

  /** What greedy takes can be started together, and comes from the list. */
  lemma {:induction false} GreedyIsFeasible(sorted: seq<Mission>, capacity: int, usage: Usage, cap: int)
    ensures Feasible(Greedy(sorted, capacity, usage, cap), capacity, usage, cap)
    ensures multiset(Greedy(sorted, capacity, usage, cap)) <= multiset(sorted)
    decreases |sorted|
  {
    if sorted != [] && capacity > 0 {
      assert sorted == [sorted[0]] + sorted[1..];
      if Used(usage, sorted[0].projectId) >= cap {
        GreedyIsFeasible(sorted[1..], capacity, usage, cap);
      } else {
        GreedyIsFeasible(sorted[1..], capacity - 1, Use(usage, sorted[0].projectId), cap);
      }
    }
  }

  // ------------------------------------------------------------ main theorems

  lemma SortReady(ready: seq<Mission>)
    ensures Descending(Sort(ready, Before)) && multiset(Sort(ready, Before)) == multiset(ready)
  {
    BeforeIsOrder();
    SortIsSortedPermutation(ready, Before);
    SortedDescends(Sort(ready, Before));
  }

  lemma SelectionIsFeasible(ready: seq<Mission>, capacity: int, usage: Usage, cap: int, selected: seq<Mission>)
    requires selected == Selected(ready, capacity, usage, cap)
    ensures Feasible(selected, capacity, usage, cap)
    ensures multiset(selected) <= multiset(ready)
  {
    SortReady(ready);
    GreedyIsFeasible(Sort(ready, Before), capacity, usage, cap);
  }

  /** Under every monotone valuation of priorities, no feasible choice is worth more than the selection. */
  lemma SelectionDominates(
      ready: seq<Mission>, capacity: int, usage: Usage, cap: int, selected: seq<Mission>, chosen: seq<Mission>, worth: int -> nat)
    requires selected == Selected(ready, capacity, usage, cap)
    requires multiset(chosen) <= multiset(ready)
    requires Feasible(chosen, capacity, usage, cap)
    requires Monotone(worth)
    ensures Total(chosen, worth) <= Total(selected, worth)
  {
    SortReady(ready);
    GreedyDominates(Sort(ready, Before), capacity, usage, cap, chosen, worth);
  }

  function PrioritySum(missions: seq<Mission>): int {
    if missions == [] then 0 else missions[0].priority + PrioritySum(missions[1..])
  }

  function AtLeast(missions: seq<Mission>, threshold: int): nat {
    if missions == [] then 0 else (if missions[0].priority >= threshold then 1 else 0) + AtLeast(missions[1..], threshold)
  }

  lemma {:induction false} TotalReads(missions: seq<Mission>, threshold: int)
    ensures Total(missions, _ => 1) == |missions|
    ensures Total(missions, p => if p >= threshold then 1 else 0) == AtLeast(missions, threshold)
    ensures (forall i :: 0 <= i < |missions| ==> missions[i].priority >= 0) ==>
      Total(missions, p => if p >= 0 then p else 0) == PrioritySum(missions)
  {
    if missions != [] {
      TotalReads(missions[1..], threshold);
    }
  }

  /**
   The selection is optimal: no set of ready missions that fits the limits has more
   missions, more missions above any priority, or (priorities are not negative) a
   greater total priority.
   */
  lemma SelectionIsOptimal(
      ready: seq<Mission>, capacity: int, usage: Usage, cap: int, selected: seq<Mission>, chosen: seq<Mission>, threshold: int)
    requires selected == Selected(ready, capacity, usage, cap)
    requires multiset(chosen) <= multiset(ready)
    requires Feasible(chosen, capacity, usage, cap)
    ensures |chosen| <= |selected|
    ensures AtLeast(chosen, threshold) <= AtLeast(selected, threshold)
    ensures (forall i :: 0 <= i < |ready| ==> ready[i].priority >= 0) ==> PrioritySum(chosen) <= PrioritySum(selected)
  {
    SelectionDominates(ready, capacity, usage, cap, selected, chosen, _ => 1);
    SelectionDominates(ready, capacity, usage, cap, selected, chosen, p => if p >= threshold then 1 else 0);
    SelectionDominates(ready, capacity, usage, cap, selected, chosen, p => if p >= 0 then p else 0);
    SelectionIsFeasible(ready, capacity, usage, cap, selected);
    AllIn(chosen, ready);
    AllIn(selected, ready);
    TotalReads(chosen, threshold);
    TotalReads(selected, threshold);
  }

  lemma AllIn(part: seq<Mission>, whole: seq<Mission>)
    requires multiset(part) <= multiset(whole)
    ensures forall i :: 0 <= i < |part| ==> part[i] in whole
  {
    forall i | 0 <= i < |part| ensures part[i] in whole {
      assert part[i] in multiset(part);
      assert part[i] in multiset(whole);
    }
  }

  /** The selection does not depend on the order of its input when ids are distinct. */
  lemma SelectionIgnoresInputOrder(ready: seq<Mission>, shuffled: seq<Mission>, capacity: int, usage: Usage, cap: int)
    requires multiset(ready) == multiset(shuffled)
    requires forall i, j :: 0 <= i < j < |ready| ==> ready[i].id != ready[j].id
    ensures Selected(ready, capacity, usage, cap) == Selected(shuffled, capacity, usage, cap)
  {
    BeforeIsOrder();
    StringOrder();
    SortIsSortedPermutation(ready, Before);
    SortIsSortedPermutation(shuffled, Before);
    var sorted := Sort(ready, Before);
    forall x, y | x in sorted && y in sorted && Before(x, y) && Before(y, x)
      ensures x == y
    {
      assert x in multiset(ready) && y in multiset(ready);
      var i :| 0 <= i < |ready| && ready[i] == x;
      var j :| 0 <= j < |ready| && ready[j] == y;
    }
    SortedIsUnique(sorted, Sort(shuffled, Before), Before);
  }

  /** The counts the selection starts from are those of the running missions. */
  lemma {:induction false} UsageCounts(running: seq<Mission>, project: string)
    ensures Used(UsageOf(running), project) == CountProject(running, project)
  {
    if running != [] {
      var before, m := running[..|running| - 1], running[|running| - 1];
      assert running == before + [m];
      UsageCounts(before, project);
      CountSnoc(before, m, project);
    }
  }

  lemma {:induction false} CountSnoc(missions: seq<Mission>, m: Mission, project: string)
    ensures CountProject(missions + [m], project) == CountProject(missions, project) + (if m.projectId == project then 1 else 0)
  {
    if missions != [] {
      assert (missions + [m])[1..] == missions[1..] + [m];
      CountSnoc(missions[1..], m, project);
    }
  }

  /** One turn of the selection. */
  lemma GreedyTurn(sorted: seq<Mission>, i: nat, capacity: int, usage: Usage, cap: int, rest: seq<Mission>)
    requires i < |sorted| && capacity > 0 && rest == Greedy(sorted[i..], capacity, usage, cap)
    ensures rest ==
      if Used(usage, sorted[i].projectId) >= cap then Greedy(sorted[i + 1..], capacity, usage, cap)
      else [sorted[i]] + Greedy(sorted[i + 1..], capacity - 1, Use(usage, sorted[i].projectId), cap)
  {
    assert sorted[i..][1..] == sorted[i + 1..];
  }

  /** The counts of the running missions. */
  method CountRunning(running: seq<Mission>) returns (perProject: Usage)
    ensures perProject == UsageOf(running)
  {
    perProject := map[];
    for i := 0 to |running|
      invariant perProject == UsageOf(running[..i])
    {
      assert running[..i + 1][..i] == running[..i];
      perProject := perProject[running[i].projectId := Used(perProject, running[i].projectId) + 1];
    }
    assert running[..|running|] == running;
  }

  /** The selection loop, with its running counts per project. */
  method SelectMissionsToStart(ready: seq<Mission>, running: seq<Mission>, limits: SchedulingLimits)
    returns (selected: seq<Mission>)
    ensures selected == Selected(ready, limits.maxConcurrentRuns - |running|, UsageOf(running), limits.maxConcurrentRunsPerProject)
  {
    var capacity := limits.maxConcurrentRuns - |running|;
    if capacity <= 0 {
      return [];
    }
    var perProject := CountRunning(running);
    selected := Select(Sort(ready, Before), capacity, perProject, limits.maxConcurrentRunsPerProject);
  }

  method Select(sorted: seq<Mission>, capacity: int, usage: Usage, cap: int) returns (selected: seq<Mission>)
    requires capacity > 0
    ensures selected == Greedy(sorted, capacity, usage, cap)
  {
    selected := [];
    var perProject: Usage := usage;
    ghost var whole := Greedy(sorted, capacity, usage, cap);
    ghost var rest := whole;
    assert sorted[0..] == sorted;
    for i := 0 to |sorted|
      invariant |selected| <= capacity && whole == selected + rest
      invariant rest == Greedy(sorted[i..], capacity - |selected|, perProject, cap)
    {
      if |selected| >= capacity { break; }
      GreedyTurn(sorted, i, capacity - |selected|, perProject, cap, rest);
      var mission := sorted[i];
      var projectCount := Used(perProject, mission.projectId);
      if projectCount >= cap { continue; }
      rest := rest[1..];
      selected := selected + [mission];
      perProject := perProject[mission.projectId := projectCount + 1];
    }
  }
}
