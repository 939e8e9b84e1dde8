/** Deterministic validation of a plan proposal: a plan passes exactly when it is sound. */
module PlanValidation {
  import opened Wrappers
  import opened Missions
  import opened Dag

  /**
   `objective` is trimmed and lower-cased. `policyIssues` counts what the path, command,
   check, artifact and budget rules say about this mission alone.
   */
  datatype PlannedMission = PlannedMission(
    key: string,
    objective: string,
    milestoneKey: string,
    dependsOn: seq<string>,
    coversCriteria: seq<nat>,
    policyIssues: nat)

  datatype PlanProposal = PlanProposal(milestones: seq<string>, missions: seq<PlannedMission>)

  datatype Issue =
    | DuplicateMilestone(key: string)
    | DuplicateMission(key: string)
    | DuplicateObjective(key: string, other: string)
    | UnknownMilestone(key: string, milestone: string)
    | SelfDependency(key: string)
    | UnknownDependency(key: string, dependency: string)
    | DependencyCycle(cycle: seq<string>)
    | UnknownCriterion(key: string, index: nat)
    | UncoveredCriterion(index: nat)
    | PolicyIssue(key: string)

  // ------------------------------------------------------------ what soundness means

  ghost predicate Distinct(s: seq<string>) {
    forall i, j :: 0 <= i < j < |s| ==> s[i] != s[j]
  }

  ghost predicate KeysOk(plan: PlanProposal) {
    Distinct(plan.milestones) && MissionsOk(plan.missions, plan.milestones)
  }

  /** Keys and objectives are distinct, and every mission belongs to a milestone. */
  ghost predicate MissionsOk(missions: seq<PlannedMission>, milestones: seq<string>) {
    && (forall i, j :: 0 <= i < j < |missions| ==> missions[i].key != missions[j].key && missions[i].objective != missions[j].objective)
    && (forall i :: 0 <= i < |missions| ==> missions[i].milestoneKey in milestones)
  }

  /** Some mission of the list has the key, or the objective. */
  ghost predicate HasKey(missions: seq<PlannedMission>, key: string) {
    exists i :: 0 <= i < |missions| && missions[i].key == key
  }

  ghost predicate DependenciesOk(plan: PlanProposal) {
    forall i, k :: 0 <= i < |plan.missions| && 0 <= k < |plan.missions[i].dependsOn| ==>
      plan.missions[i].dependsOn[k] != plan.missions[i].key && HasKey(plan.missions, plan.missions[i].dependsOn[k])
  }

  /** The dependencies of the plan, mission by mission. */
  function Dependencies(missions: seq<PlannedMission>): seq<Dependency> {
    if missions == [] then []
    else Dependencies(missions[..|missions| - 1])
         + seq(|missions[|missions| - 1].dependsOn|,
               i requires 0 <= i < |missions[|missions| - 1].dependsOn| =>
                 Dependency(missions[|missions| - 1].key, missions[|missions| - 1].dependsOn[i]))
  }

  ghost predicate Covers(missions: seq<PlannedMission>, index: nat) {
    exists i :: 0 <= i < |missions| && index in missions[i].coversCriteria
  }

  /** With criteria, every index is one of them and every one of them is covered. */
  ghost predicate CoverageOk(plan: PlanProposal, criteria: nat) {
    criteria > 0 ==>
      && (forall i, k :: 0 <= i < |plan.missions| && 0 <= k < |plan.missions[i].coversCriteria| ==>
            plan.missions[i].coversCriteria[k] < criteria)
      && (forall index: nat :: index < criteria ==> Covers(plan.missions, index))
  }

  ghost predicate PolicyOk(plan: PlanProposal) {
    forall i :: 0 <= i < |plan.missions| ==> plan.missions[i].policyIssues == 0
  }

  ghost predicate Sound(plan: PlanProposal, criteria: nat) {
    && KeysOk(plan) && DependenciesOk(plan)
    && (exists rank :: Ranked(Dependencies(plan.missions), rank))
    && CoverageOk(plan, criteria) && PolicyOk(plan)
  }

  // ------------------------------------------------------------ the checks

  method CheckMilestones(milestones: seq<string>) returns (issues: seq<Issue>, milestoneKeys: set<string>)
    ensures issues == [] <==> Distinct(milestones)
    ensures forall k :: k in milestoneKeys <==> k in milestones
  {
    issues, milestoneKeys := [], {};
    for i := 0 to |milestones|
      invariant forall k :: k in milestoneKeys <==> k in milestones[..i]
      invariant issues == [] <==> Distinct(milestones[..i])
    {
      var key := milestones[i];
      assert milestones[..i + 1] == milestones[..i] + [key];
      if key in milestoneKeys {
        issues := issues + [DuplicateMilestone(key)];
      }
      milestoneKeys := milestoneKeys + {key};
    }
    assert milestones[..|milestones|] == milestones;
  }

  ghost predicate HasObjective(missions: seq<PlannedMission>, objective: string) {
    exists i :: 0 <= i < |missions| && missions[i].objective == objective
  }

  lemma MissionsOkSnoc(missions: seq<PlannedMission>, m: PlannedMission, milestones: seq<string>)
    ensures MissionsOk(missions + [m], milestones) <==>
      MissionsOk(missions, milestones) && !HasKey(missions, m.key) && !HasObjective(missions, m.objective) && m.milestoneKey in milestones
  {
    var all := missions + [m];
    if MissionsOk(all, milestones) {
      forall i, j | 0 <= i < j < |missions| ensures missions[i].key != missions[j].key && missions[i].objective != missions[j].objective {
        assert all[i] == missions[i] && all[j] == missions[j];
      }
      forall i | 0 <= i < |missions|
        ensures missions[i].key != m.key && missions[i].objective != m.objective && missions[i].milestoneKey in milestones {
        assert all[i] == missions[i] && all[|missions|] == m;
      }
      assert all[|missions|] == m;
    }
  }

  lemma KeysSnoc(missions: seq<PlannedMission>, m: PlannedMission)
    ensures forall k :: HasKey(missions + [m], k) <==> HasKey(missions, k) || k == m.key
    ensures forall o :: HasObjective(missions + [m], o) <==> HasObjective(missions, o) || o == m.objective
  {
    var all := missions + [m];
    assert all[|missions|] == m && forall i :: 0 <= i < |missions| ==> all[i] == missions[i];
  }

  method CheckMissions(missions: seq<PlannedMission>, milestones: seq<string>, milestoneKeys: set<string>)
    returns (issues: seq<Issue>, missionKeys: set<string>)
    requires forall k :: k in milestoneKeys <==> k in milestones
    ensures issues == [] <==> MissionsOk(missions, milestones)
    ensures forall k :: k in missionKeys <==> HasKey(missions, k)
  {
    issues, missionKeys := [], {};
    var objectivesSeen: map<string, string> := map[];
    for i := 0 to |missions|
      invariant forall k :: k in missionKeys <==> HasKey(missions[..i], k)
      invariant forall o :: o in objectivesSeen <==> HasObjective(missions[..i], o)
      invariant issues == [] <==> MissionsOk(missions[..i], milestones)
    {
      var mission := missions[i];
      assert missions[..i + 1] == missions[..i] + [mission];
      MissionsOkSnoc(missions[..i], mission, milestones);
      KeysSnoc(missions[..i], mission);
      if mission.key in missionKeys {
        issues := issues + [DuplicateMission(mission.key)];
      }
      missionKeys := missionKeys + {mission.key};
      if mission.objective in objectivesSeen {
        issues := issues + [DuplicateObjective(mission.key, objectivesSeen[mission.objective])];
      } else {
        objectivesSeen := objectivesSeen[mission.objective := mission.key];
      }
      if mission.milestoneKey !in milestoneKeys {
        issues := issues + [UnknownMilestone(mission.key, mission.milestoneKey)];
      }
    }
    assert missions[..|missions|] == missions;
  }

  method CheckKeys(plan: PlanProposal) returns (issues: seq<Issue>, missionKeys: set<string>)
    ensures issues == [] <==> KeysOk(plan)
    ensures forall k :: k in missionKeys <==> HasKey(plan.missions, k)
  {
    var milestoneIssues, milestoneKeys := CheckMilestones(plan.milestones);
    var missionIssues;
    missionIssues, missionKeys := CheckMissions(plan.missions, plan.milestones, milestoneKeys);
    issues := milestoneIssues + missionIssues;
  }

  method CheckDependencies(plan: PlanProposal, missionKeys: set<string>) returns (issues: seq<Issue>)
    requires forall k :: k in missionKeys <==> HasKey(plan.missions, k)
    ensures issues == [] <==> DependenciesOk(plan)
  {
    issues := [];
    for i := 0 to |plan.missions|
      invariant issues == [] <==> forall j, k :: 0 <= j < i && 0 <= k < |plan.missions[j].dependsOn| ==>
        plan.missions[j].dependsOn[k] != plan.missions[j].key && HasKey(plan.missions, plan.missions[j].dependsOn[k])
    {
      var mission := plan.missions[i];
      ghost var clean := issues == [];
      for k := 0 to |mission.dependsOn|
        invariant issues == [] <==> clean && forall l :: 0 <= l < k ==>
          mission.dependsOn[l] != mission.key && HasKey(plan.missions, mission.dependsOn[l])
      {
        var dep := mission.dependsOn[k];
        if dep == mission.key {
          issues := issues + [SelfDependency(mission.key)];
        } else if dep !in missionKeys {
          issues := issues + [UnknownDependency(mission.key, dep)];
        }
      }
    }
  }

  method CheckCoverage(plan: PlanProposal, criteria: nat) returns (issues: seq<Issue>)
    ensures issues == [] <==> CoverageOk(plan, criteria)
  {
    issues := [];
    if criteria == 0 {
      return;
    }
    var covered: set<nat> := {};
    for i := 0 to |plan.missions|
      invariant issues == [] <==> forall j, k :: 0 <= j < i && 0 <= k < |plan.missions[j].coversCriteria| ==>
        plan.missions[j].coversCriteria[k] < criteria
      invariant forall index: nat :: index in covered <==> index < criteria && Covers(plan.missions[..i], index)
    {
      var mission := plan.missions[i];
      assert plan.missions[..i + 1] == plan.missions[..i] + [mission];
      ghost var clean, before := issues == [], covered;
      for k := 0 to |mission.coversCriteria|
        invariant issues == [] <==> clean && forall l :: 0 <= l < k ==> mission.coversCriteria[l] < criteria
        invariant forall index: nat :: index in covered <==> index in before || (index < criteria && index in mission.coversCriteria[..k])
      {
        var index := mission.coversCriteria[k];
        if index >= criteria {
          issues := issues + [UnknownCriterion(mission.key, index)];
        } else {
          covered := covered + {index};
        }
      }
      CoversSnoc(plan.missions[..i], mission);
    }
    assert plan.missions[..|plan.missions|] == plan.missions;
    ghost var inRange := issues == [];
    for index := 0 to criteria
      invariant issues == [] <==> inRange && forall j: nat :: j < index ==> Covers(plan.missions, j)
    {
      if index !in covered {
        issues := issues + [UncoveredCriterion(index)];
      }
    }
  }

  lemma CoversSnoc(missions: seq<PlannedMission>, m: PlannedMission)
    ensures forall index: nat :: Covers(missions + [m], index) <==> Covers(missions, index) || index in m.coversCriteria
  {
    var all := missions + [m];
    forall index: nat ensures Covers(all, index) <==> Covers(missions, index) || index in m.coversCriteria {
      if Covers(missions, index) {
        var i :| 0 <= i < |missions| && index in missions[i].coversCriteria;
        assert all[i] == missions[i];
      }
      assert all[|missions|] == m;
    }
  }

  /** A plan has no issue exactly when it is sound; cycles are looked for only in a plan without other graph issues. */
  method ValidatePlanProposal(plan: PlanProposal, criteria: nat) returns (issues: seq<Issue>)
    ensures issues == [] <==> Sound(plan, criteria)
  {
    var missionKeys, more;
    issues, missionKeys := CheckKeys(plan);
    more := CheckDependencies(plan, missionKeys);
    issues := issues + more;
    if issues == [] {
      var cycle, rank := AssertAcyclic(Dependencies(plan.missions));
      if cycle.Some? {
        issues := issues + [DependencyCycle(cycle.value)];
      }
    }
    ghost var graphOk := issues == [];
    more := CheckCoverage(plan, criteria);
    issues := issues + more;
    for i := 0 to |plan.missions|
      invariant issues == [] <==>
        graphOk && CoverageOk(plan, criteria) && forall j :: 0 <= j < i ==> plan.missions[j].policyIssues == 0
    {
      if plan.missions[i].policyIssues > 0 {
        issues := issues + [PolicyIssue(plan.missions[i].key)];
      }
    }
  }
}
