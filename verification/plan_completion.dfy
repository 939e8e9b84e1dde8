/** A validated plan always finishes: promote, select, complete, until every mission is done. */
module PlanCompletion {
  import opened Missions
  import opened Sorting
  import opened Scheduler
  import opened Dag
  import opened PlanValidation

  // ------------------------------------------------------------ one scheduling round

  /** Every proposed mission whose dependencies are satisfied becomes ready. */
  ghost function Promote(missions: seq<Mission>, deps: seq<Dependency>): (promoted: seq<Mission>)
    ensures |promoted| == |missions|
  {
    seq(|missions|, i requires 0 <= i < |missions| =>
      if IsUnblocked(missions[i], missions, deps) then missions[i].(state := Ready) else missions[i])
  }

  function ReadyOf(missions: seq<Mission>): seq<Mission> {
    if missions == [] then []
    else (if missions[0].state.Ready? then [missions[0]] else []) + ReadyOf(missions[1..])
  }

  /** Every started mission runs to completion, as one step. */
  function Complete(missions: seq<Mission>, started: seq<Mission>): (done: seq<Mission>)
    ensures |done| == |missions|
  {
    seq(|missions|, i requires 0 <= i < |missions| =>
      if missions[i] in started then missions[i].(state := Completed) else missions[i])
  }

  /** One tick with nothing in progress, and the runs it starts. */
  ghost function Round(missions: seq<Mission>, deps: seq<Dependency>, limits: SchedulingLimits): (next: seq<Mission>)
    ensures |next| == |missions|
  {
    var promoted := Promote(missions, deps);
    Complete(promoted, Selected(ReadyOf(promoted), limits.maxConcurrentRuns, map[], limits.maxConcurrentRunsPerProject))
  }

  ghost function Rounds(missions: seq<Mission>, deps: seq<Dependency>, limits: SchedulingLimits, count: nat): (next: seq<Mission>)
    ensures |next| == |missions|
    decreases count
  {
    if count == 0 then missions else Rounds(Round(missions, deps, limits), deps, limits, count - 1)
  }

  // ------------------------------------------------------------ what every round keeps

  ghost predicate DistinctIds(missions: seq<Mission>) {
    forall i, j :: 0 <= i < j < |missions| ==> missions[i].id != missions[j].id
  }

  ghost predicate HasId(missions: seq<Mission>, id: string) {
    exists i :: 0 <= i < |missions| && missions[i].id == id
  }

  /** Missions wait or are done, and dependencies name missions of the plan. */
  ghost predicate Scheduling(missions: seq<Mission>, deps: seq<Dependency>) {
    && DistinctIds(missions)
    && (forall d :: d in deps ==> HasId(missions, d.dependsOnMissionId))
    && (forall i :: 0 <= i < |missions| ==> missions[i].state in {Proposed, Ready, Completed})
  }

  function Open(missions: seq<Mission>): nat {
    if missions == [] then 0 else (if missions[0].state.Completed? then 0 else 1) + Open(missions[1..])
  }

  lemma {:induction false} StateOfMember(missions: seq<Mission>, i: nat)
    requires DistinctIds(missions) && i < |missions|
    ensures StateOf(missions, missions[i].id) == missions[i].state
  {
    if i < |missions| - 1 {
      StateOfMember(missions[..|missions| - 1], i);
    }
  }

  lemma {:induction false} ReadyMembers(missions: seq<Mission>, m: Mission)
    ensures m in ReadyOf(missions) <==> m in missions && m.state.Ready?
  {
    if missions != [] {
      ReadyMembers(missions[1..], m);
    }
  }

  /** Fewer open missions when none reopens and one closes. */
  lemma {:induction false} OpenFalls(before: seq<Mission>, after: seq<Mission>, k: nat)
    requires |before| == |after| && k < |before|
    requires forall i :: 0 <= i < |before| && before[i].state.Completed? ==> after[i].state.Completed?
    requires !before[k].state.Completed? && after[k].state.Completed?
    ensures Open(after) < Open(before)
  {
    OpenNeverRises(before[1..], after[1..]);
    if k > 0 {
      OpenFalls(before[1..], after[1..], k - 1);
    }
  }

  lemma {:induction false} OpenNeverRises(before: seq<Mission>, after: seq<Mission>)
    requires |before| == |after|
    requires forall i :: 0 <= i < |before| && before[i].state.Completed? ==> after[i].state.Completed?
    ensures Open(after) <= Open(before)
  {
    if before != [] {
      OpenNeverRises(before[1..], after[1..]);
    }
  }

  lemma {:induction false} OpenMember(missions: seq<Mission>) returns (k: nat)
    requires Open(missions) > 0
    ensures k < |missions| && !missions[k].state.Completed?
  {
    if !missions[0].state.Completed? {
      k := 0;
    } else {
      k := OpenMember(missions[1..]);
      k := k + 1;
    }
  }

  lemma {:induction false} NoneOpen(missions: seq<Mission>, k: nat)
    requires Open(missions) == 0 && k < |missions|
    ensures missions[k].state.Completed?
  {
    if k > 0 {
      NoneOpen(missions[1..], k - 1);
    }
  }

  // ------------------------------------------------------------ progress

  function RankOf(rank: map<string, nat>, id: string): nat {
    if id in rank then rank[id] else 0
  }

  /** While missions are open and none is ready, one of lowest rank can be promoted. */
  lemma SomeUnblocked(missions: seq<Mission>, deps: seq<Dependency>, rank: map<string, nat>, k: nat) returns (u: nat)
    requires Scheduling(missions, deps) && Ranked(deps, rank)
    requires k < |missions| && missions[k].state.Proposed?
    requires forall i :: 0 <= i < |missions| ==> !missions[i].state.Ready?
    ensures u < |missions| && IsUnblocked(missions[u], missions, deps)
    decreases RankOf(rank, missions[k].id)
  {
    if IsUnblocked(missions[k], missions, deps) {
      u := k;
    } else {
      var d :| d in deps && d.missionId == missions[k].id && !Satisfied(StateOf(missions, d.dependsOnMissionId));
      var j :| 0 <= j < |missions| && missions[j].id == d.dependsOnMissionId;
      StateOfMember(missions, j);
      u := SomeUnblocked(missions, deps, rank, j);
    }
  }

  /** With room for one run, a non-empty list of ready missions starts one. */
  lemma SomeSelected(ready: seq<Mission>, limits: SchedulingLimits) returns (m: Mission)
    requires ready != [] && limits.maxConcurrentRuns >= 1 && limits.maxConcurrentRunsPerProject >= 1
    ensures m in Selected(ready, limits.maxConcurrentRuns, map[], limits.maxConcurrentRunsPerProject) && m in ready
  {
    SortReady(ready);
    var sorted := Sort(ready, Before);
    assert |multiset(sorted)| == |sorted| && |multiset(ready)| == |ready|;
    m := sorted[0];
    assert Greedy(sorted, limits.maxConcurrentRuns, map[], limits.maxConcurrentRunsPerProject)[0] == m;
    assert m in multiset(sorted);
  }

  lemma SomeReady(missions: seq<Mission>, deps: seq<Dependency>, rank: map<string, nat>) returns (k: nat)
    requires Scheduling(missions, deps) && Ranked(deps, rank) && Open(missions) > 0
    ensures k < |missions| && Promote(missions, deps)[k].state.Ready?
  {
    if i :| 0 <= i < |missions| && missions[i].state.Ready? {
      k := i;
    } else {
      k := OpenMember(missions);
      k := SomeUnblocked(missions, deps, rank, k);
    }
  }

  lemma RoundKeeps(missions: seq<Mission>, deps: seq<Dependency>, limits: SchedulingLimits)
    requires Scheduling(missions, deps)
    ensures Scheduling(Round(missions, deps, limits), deps)
  {
    var next := Round(missions, deps, limits);
    forall i | 0 <= i < |missions| ensures next[i].id == missions[i].id && next[i].state in {Proposed, Ready, Completed} {
      assert Promote(missions, deps)[i].id == missions[i].id;
    }
    forall d | d in deps ensures HasId(next, d.dependsOnMissionId) {
      var i :| 0 <= i < |missions| && missions[i].id == d.dependsOnMissionId;
      assert next[i].id == d.dependsOnMissionId;
    }
  }

  /** A round never sticks: it completes at least one mission while any is open, and reopens none. */
  lemma RoundProgresses(missions: seq<Mission>, deps: seq<Dependency>, limits: SchedulingLimits, rank: map<string, nat>)
    requires Scheduling(missions, deps) && Ranked(deps, rank) && Open(missions) > 0
    requires limits.maxConcurrentRuns >= 1 && limits.maxConcurrentRunsPerProject >= 1
    ensures Open(Round(missions, deps, limits)) < Open(missions)
  {
    var promoted := Promote(missions, deps);
    var ready := ReadyOf(promoted);
    var k := SomeReady(missions, deps, rank);
    ReadyMembers(promoted, promoted[k]);
    var m := SomeSelected(ready, limits);
    ReadyMembers(promoted, m);
    var i :| 0 <= i < |promoted| && promoted[i] == m;
    assert Round(missions, deps, limits)[i].state.Completed?;
    assert !missions[i].state.Completed?;
    OpenFalls(missions, Round(missions, deps, limits), i);
  }

  /** As many rounds as there are open missions finish them all. */
  lemma {:induction false} RoundsFinish(
      missions: seq<Mission>, deps: seq<Dependency>, limits: SchedulingLimits, rank: map<string, nat>, count: nat)
    requires Scheduling(missions, deps) && Ranked(deps, rank) && Open(missions) <= count
    requires limits.maxConcurrentRuns >= 1 && limits.maxConcurrentRunsPerProject >= 1
    ensures Open(Rounds(missions, deps, limits, count)) == 0
    decreases count
  {
    if count > 0 {
      var next := Round(missions, deps, limits);
      RoundKeeps(missions, deps, limits);
      if Open(missions) > 0 {
        RoundProgresses(missions, deps, limits, rank);
      } else {
        forall i | 0 <= i < |missions| ensures next[i].state.Completed? {
          NoneOpen(missions, i);
          assert Promote(missions, deps)[i] == missions[i];
        }
        OpenNeverRises(missions, next);
      }
      RoundsFinish(next, deps, limits, rank, count - 1);
    }
  }

  lemma {:induction false} OpenAtMostAll(missions: seq<Mission>)
    ensures Open(missions) <= |missions|
  {
    if missions != [] {
      OpenAtMostAll(missions[1..]);
    }
  }

  lemma {:induction false} DependenciesAreKnown(missions: seq<PlannedMission>, d: Dependency)
    requires d in Dependencies(missions)
    ensures exists i, k :: 0 <= i < |missions| && 0 <= k < |missions[i].dependsOn|
              && d == Dependency(missions[i].key, missions[i].dependsOn[k])
  {
    var last, before := missions[|missions| - 1], missions[..|missions| - 1];
    if d in Dependencies(before) {
      DependenciesAreKnown(before, d);
      var i, k :| 0 <= i < |before| && 0 <= k < |before[i].dependsOn| && d == Dependency(before[i].key, before[i].dependsOn[k]);
      assert missions[i] == before[i];
    } else {
      var k :| 0 <= k < |last.dependsOn| && d == Dependency(last.key, last.dependsOn[k]);
      assert missions[|missions| - 1].dependsOn[k] == last.dependsOn[k];
    }
  }

  /** The proposed missions a plan is stored as. */
  ghost predicate StoredAs(plan: PlanProposal, missions: seq<Mission>) {
    && |missions| == |plan.missions|
    && forall i :: 0 <= i < |missions| ==> missions[i].id == plan.missions[i].key && missions[i].state.Proposed?
  }

  /** A validated plan of n missions is completed within n rounds, whatever the priorities and limits. */
  lemma ValidatedPlanFinishes(plan: PlanProposal, criteria: nat, missions: seq<Mission>, limits: SchedulingLimits)
    requires Sound(plan, criteria) && StoredAs(plan, missions)
    requires limits.maxConcurrentRuns >= 1 && limits.maxConcurrentRunsPerProject >= 1
    ensures var finished := Rounds(missions, Dependencies(plan.missions), limits, |missions|);
      forall i :: 0 <= i < |finished| ==> finished[i].state.Completed?
  {
    var deps := Dependencies(plan.missions);
    var rank :| Ranked(deps, rank);
    forall d | d in deps ensures HasId(missions, d.dependsOnMissionId) {
      DependenciesAreKnown(plan.missions, d);
      var i, k :| 0 <= i < |plan.missions| && 0 <= k < |plan.missions[i].dependsOn|
              && d == Dependency(plan.missions[i].key, plan.missions[i].dependsOn[k]);
      assert HasKey(plan.missions, plan.missions[i].dependsOn[k]);
      var j :| 0 <= j < |plan.missions| && plan.missions[j].key == d.dependsOnMissionId;
      assert missions[j].id == d.dependsOnMissionId;
    }
    assert Scheduling(missions, deps);
    OpenAtMostAll(missions);
    RoundsFinish(missions, deps, limits, rank, |missions|);
    var finished := Rounds(missions, deps, limits, |missions|);
    forall i | 0 <= i < |finished| ensures finished[i].state.Completed? {
      NoneOpen(finished, i);
    }
  }
}
