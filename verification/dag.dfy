/** Cycle detection over mission dependencies, and the missions that may become ready. */
module Dag {
  import opened Wrappers
  import opened Missions

  // ------------------------------------------------------------ walks and ranks

  ghost predicate Walk(deps: seq<Dependency>, nodes: seq<string>) {
    forall i :: 0 <= i < |nodes| - 1 ==> Dependency(nodes[i], nodes[i + 1]) in deps
  }

  /** A walk that ends where it starts and meets no other node twice. */
  ghost predicate Cycle(deps: seq<Dependency>, nodes: seq<string>) {
    && |nodes| >= 2 && nodes[0] == nodes[|nodes| - 1]
    && Walk(deps, nodes)
    && forall i, j :: 0 <= i < j < |nodes| - 1 ==> nodes[i] != nodes[j]
  }

  /** Every node ranks above what it depends on. */
  ghost predicate Ranked(deps: seq<Dependency>, rank: map<string, nat>) {
    forall d :: d in deps ==>
      d.missionId in rank && d.dependsOnMissionId in rank && rank[d.dependsOnMissionId] < rank[d.missionId]
  }

  lemma {:induction false} RankFalls(deps: seq<Dependency>, rank: map<string, nat>, nodes: seq<string>, k: nat)
    requires Ranked(deps, rank) && Walk(deps, nodes) && 1 <= k < |nodes|
    ensures nodes[0] in rank && nodes[k] in rank && rank[nodes[k]] < rank[nodes[0]]
  {
    assert Dependency(nodes[k - 1], nodes[k]) in deps;
    if k > 1 {
      RankFalls(deps, rank, nodes, k - 1);
    }
  }

  /** A rank leaves no closed walk. */
  lemma RankedHasNoClosedWalk(deps: seq<Dependency>, rank: map<string, nat>, nodes: seq<string>)
    requires Ranked(deps, rank) && |nodes| >= 2 && nodes[0] == nodes[|nodes| - 1]
    ensures !Walk(deps, nodes)
  {
    if Walk(deps, nodes) {
      RankFalls(deps, rank, nodes, |nodes| - 1);
    }
  }

  function Nodes(deps: seq<Dependency>): set<string> {
    (set d | d in deps :: d.missionId) + (set d | d in deps :: d.dependsOnMissionId)
  }

  // ------------------------------------------------------------ depth-first search

  type Adjacency = map<string, seq<string>>

  /** `adjacency` lists exactly the first `count` dependencies; `keys` are its keys in insertion order. */
  ghost predicate AdjacencyOf(deps: seq<Dependency>, count: nat, adjacency: Adjacency, keys: seq<string>)
    requires count <= |deps|
  {
    && (forall a, b :: a in adjacency && b in adjacency[a] ==> Dependency(a, b) in deps)
    && (forall i :: 0 <= i < count ==>
          deps[i].missionId in adjacency && deps[i].dependsOnMissionId in adjacency[deps[i].missionId])
    && (forall a :: a in adjacency <==> a in keys)
    && (forall a :: a in keys ==> a in Nodes(deps))
  }

  /** The current path is a walk without repetition, and exactly its nodes are being visited. */
  ghost predicate PathOf(deps: seq<Dependency>, visiting: set<string>, stack: seq<string>) {
    && (forall a :: a in visiting <==> a in stack)
    && (forall i, j :: 0 <= i < j < |stack| ==> stack[i] != stack[j])
    && Walk(deps, stack)
  }

  lemma PathExtends(deps: seq<Dependency>, visiting: set<string>, stack: seq<string>, node: string)
    requires PathOf(deps, visiting, stack) && node !in visiting
    requires stack != [] ==> Dependency(stack[|stack| - 1], node) in deps
    ensures PathOf(deps, visiting + {node}, stack + [node])
  {
  }

  method ListDependencies(deps: seq<Dependency>) returns (adjacency: Adjacency, keys: seq<string>)
    ensures AdjacencyOf(deps, |deps|, adjacency, keys)
  {
    adjacency, keys := map[], [];
    for i := 0 to |deps|
      invariant AdjacencyOf(deps, i, adjacency, keys)
    {
      var d := deps[i];
      var list := if d.missionId in adjacency then adjacency[d.missionId] else [];
      if d.missionId !in adjacency {
        keys := keys + [d.missionId];
      }
      adjacency := adjacency[d.missionId := list + [d.dependsOnMissionId]];
    }
  }

  /** The three-colour search: `visiting` is grey, `done` is black, `stack` the current path. */
  class CycleSearch {
    const deps: seq<Dependency>
    var adjacency: map<string, seq<string>>
    var keys: seq<string>
    var visiting: set<string>
    var done: set<string>
    var stack: seq<string>
    ghost var finished: seq<string>

    ghost predicate Adjacent()
      reads this`adjacency, this`keys
    {
      AdjacencyOf(deps, |deps|, adjacency, keys)
    }

    ghost predicate OnPath()
      reads this`visiting, this`stack
    {
      PathOf(deps, visiting, stack)
    }

    /** What a finished node depends on finished before it. */
    ghost predicate Ordered()
      reads this`done, this`finished
    {
      && (forall a :: a in done <==> a in finished)
      && (forall d, i :: d in deps && 0 <= i < |finished| && finished[i] == d.missionId ==> d.dependsOnMissionId in finished[..i])
    }

    ghost predicate Valid()
      reads this
    {
      Adjacent() && OnPath() && Ordered()
    }

    constructor (deps: seq<Dependency>)
      ensures this.deps == deps && Valid() && stack == [] && visiting == {}
    {
      this.deps := deps;
      var lists, order := ListDependencies(deps);
      adjacency, keys := lists, order;
      visiting, done, stack, finished := {}, {}, [], [];
    }

    /** The current path from `node` on, closed by `node`. */
    method CycleThrough(node: string) returns (nodes: seq<string>)
      requires Valid() && node in visiting
      requires Dependency(stack[|stack| - 1], node) in deps
      ensures Cycle(deps, nodes)
    {
      var k := IndexOf(stack, node);
      nodes := stack[k..] + [node];
      forall i | 0 <= i < |nodes| - 1 ensures Dependency(nodes[i], nodes[i + 1]) in deps {
        assert nodes[i] == stack[k + i];
        if i + 1 < |stack| - k {
          assert Dependency(stack[k + i], stack[k + i + 1]) in deps;
        }
      }
    }

    /** Puts a new node at the end of the current path. */
    method Enter(node: string)
      requires Valid() && node !in visiting && node !in done
      requires stack != [] ==> Dependency(stack[|stack| - 1], node) in deps
      modifies this`visiting, this`stack
      ensures Valid() && stack == old(stack) + [node] && visiting == old(visiting) + {node}
    {
      PathExtends(deps, visiting, stack, node);
      visiting := visiting + {node};
      stack := stack + [node];
    }

    lemma ListedAreDependencies(node: string)
      requires Adjacent() && node in adjacency
      ensures forall b :: b in adjacency[node] ==> Dependency(node, b) in deps && b in Nodes(deps)
    {
      forall b | b in adjacency[node] ensures b in Nodes(deps) {
        assert Dependency(node, b) in deps;
      }
    }

    /** Visits everything `node` depends on; the result is the cycle it ran into, if any. */
    method Visit(node: string) returns (cycle: Option<seq<string>>)
      requires Valid() && node in Nodes(deps)
      requires stack != [] ==> Dependency(stack[|stack| - 1], node) in deps
      modifies this`visiting, this`done, this`stack, this`finished
      ensures cycle.Some? ==> Cycle(deps, cycle.value)
      ensures cycle.None? ==>
        && Valid() && stack == old(stack) && visiting == old(visiting)
        && node in done && old(done) <= done
      decreases Nodes(deps) - visiting, 0
    {
      if node in done {
        return None;
      }
      if node in visiting {
        var nodes := CycleThrough(node);
        return Some(nodes);
      }
      Enter(node);
      if node in adjacency {
        ListedAreDependencies(node);
      }
      var nexts := if node in adjacency then adjacency[node] else [];
      cycle := VisitAll(node, nexts);
      if cycle.None? {
        Finish(node, nexts);
      }
    }

    /** Visits, one after the other, the dependencies of the node at the end of the path. */
    method VisitAll(node: string, nexts: seq<string>) returns (cycle: Option<seq<string>>)
      requires Valid() && stack != [] && stack[|stack| - 1] == node
      requires forall b :: b in nexts ==> Dependency(node, b) in deps && b in Nodes(deps)
      modifies this`visiting, this`done, this`stack, this`finished
      ensures cycle.Some? ==> Cycle(deps, cycle.value)
      ensures cycle.None? ==>
        && Valid() && stack == old(stack) && visiting == old(visiting)
        && old(done) <= done && forall b :: b in nexts ==> b in done
      decreases Nodes(deps) - visiting, 1
    {
      cycle := None;
      for i := 0 to |nexts|
        invariant Valid() && stack == old(stack) && visiting == old(visiting)
        invariant old(done) <= done
        invariant forall j :: 0 <= j < i ==> nexts[j] in done
        invariant cycle.None?
      {
        cycle := Visit(nexts[i]);
        if cycle.Some? { return; }
      }
    }

    /** Leaves a node whose dependencies have all finished. */
    method Finish(node: string, nexts: seq<string>)
      requires Valid() && stack != [] && stack[|stack| - 1] == node
      requires nexts == if node in adjacency then adjacency[node] else []
      requires forall j :: 0 <= j < |nexts| ==> nexts[j] in done
      modifies this`visiting, this`done, this`stack, this`finished
      ensures Valid() && stack == old(stack)[..|old(stack)| - 1] && visiting == old(visiting) - {node}
      ensures done == old(done) + {node}
    {
      stack := stack[..|stack| - 1];
      visiting := visiting - {node};
      done := done + {node};
      finished := finished + [node];
      forall d, i | d in deps && 0 <= i < |finished| && finished[i] == d.missionId
        ensures d.dependsOnMissionId in finished[..i]
      {
        if i < |finished| - 1 {
          assert finished[..i] == old(finished)[..i];
        } else {
          assert finished[..i] == old(finished);
          assert d.dependsOnMissionId in nexts;
        }
      }
    }
  }

  method IndexOf(stack: seq<string>, node: string) returns (k: nat)
    requires node in stack
    ensures k < |stack| && stack[k] == node && node !in stack[..k]
  {
    k := 0;
    while stack[k] != node
      decreases |stack| - k
      invariant k < |stack| && node !in stack[..k] && node in stack[k..]
    {
      k := k + 1;
    }
  }

  function FirstIndex(s: seq<string>, x: string): (k: nat)
    ensures k <= |s|
    ensures x in s ==> k < |s| && s[k] == x && x !in s[..k]
    ensures forall i :: 0 <= i <= |s| && x in s[..i] ==> k < i
  {
    if s == [] || s[0] == x then 0 else 1 + FirstIndex(s[1..], x)
  }

  /** The position of a node in the order of finishing is a rank. */
  lemma FinishOrderRanks(deps: seq<Dependency>, finished: seq<string>) returns (rank: map<string, nat>)
    requires forall d :: d in deps ==> d.missionId in finished
    requires forall d, i :: d in deps && 0 <= i < |finished| && finished[i] == d.missionId ==> d.dependsOnMissionId in finished[..i]
    ensures Ranked(deps, rank)
  {
    rank := map x | x in finished :: FirstIndex(finished, x);
    forall d | d in deps
      ensures d.missionId in rank && d.dependsOnMissionId in rank && rank[d.dependsOnMissionId] < rank[d.missionId]
    {
      var i := FirstIndex(finished, d.missionId);
      assert finished[i] == d.missionId;
      assert d.dependsOnMissionId in finished[..i];
    }
  }

  /**
   Throws exactly when the dependencies have a cycle: a reported list is a real cycle
   of dependencies, and without one there is a rank, hence no closed walk at all.
   */
  method AssertAcyclic(deps: seq<Dependency>) returns (cycle: Option<seq<string>>, ghost rank: map<string, nat>)
    ensures cycle.Some? ==> Cycle(deps, cycle.value)
    ensures cycle.None? ==> Ranked(deps, rank)
    ensures cycle.None? <==> exists r :: Ranked(deps, r)
  {
    var search := new CycleSearch(deps);
    rank := map[];
    ghost var keys := search.keys;
    for i := 0 to |search.keys|
      invariant search.keys == keys
      invariant search.Valid() && search.deps == deps && search.stack == [] && search.visiting == {}
      invariant forall j :: 0 <= j < i ==> search.keys[j] in search.done
    {
      cycle := search.Visit(search.keys[i]);
      if cycle.Some? {
        if r :| Ranked(deps, r) {
          RankedHasNoClosedWalk(deps, r, cycle.value);
        }
        return;
      }
    }
    rank := FinishOrderRanks(deps, search.finished);
    return None, rank;
  }

  // ------------------------------------------------------------ readiness

  predicate Satisfied(state: MissionState) {
    state.Completed? || state.Integrated? || state.Approved?
  }

  /** The state of the last mission with this id; an unknown one counts as proposed. */
  function StateOf(missions: seq<Mission>, id: string): MissionState {
    if missions == [] then Proposed
    else if missions[|missions| - 1].id == id then missions[|missions| - 1].state
    else StateOf(missions[..|missions| - 1], id)
  }

  /** Proposed, and everything it depends on is satisfied. */
  ghost predicate IsUnblocked(m: Mission, missions: seq<Mission>, deps: seq<Dependency>) {
    m.state.Proposed? && forall d :: d in deps && d.missionId == m.id ==> Satisfied(StateOf(missions, d.dependsOnMissionId))
  }

  ghost function Unblocked(candidates: seq<Mission>, missions: seq<Mission>, deps: seq<Dependency>): seq<Mission> {
    if candidates == [] then []
    else Unblocked(candidates[..|candidates| - 1], missions, deps)
         + (if IsUnblocked(candidates[|candidates| - 1], missions, deps) then [candidates[|candidates| - 1]] else [])
  }

  /** The missions that may be promoted, in their order. */
  method UnblockedMissions(missions: seq<Mission>, deps: seq<Dependency>) returns (unblocked: seq<Mission>)
    ensures unblocked == Unblocked(missions, missions, deps)
  {
    var stateById: map<string, MissionState> := map[];
    for i := 0 to |missions|
      invariant forall id :: (if id in stateById then stateById[id] else Proposed) == StateOf(missions[..i], id)
    {
      assert missions[..i + 1][..i] == missions[..i];
      stateById := stateById[missions[i].id := missions[i].state];
    }
    assert missions[..|missions|] == missions;
    var depsById: map<string, seq<string>> := map[];
    for i := 0 to |deps|
      invariant forall a, b :: a in depsById && b in depsById[a] ==> Dependency(a, b) in deps
      invariant forall j :: 0 <= j < i ==> deps[j].missionId in depsById && deps[j].dependsOnMissionId in depsById[deps[j].missionId]
    {
      var list := if deps[i].missionId in depsById then depsById[deps[i].missionId] else [];
      depsById := depsById[deps[i].missionId := list + [deps[i].dependsOnMissionId]];
    }
    unblocked := [];
    for i := 0 to |missions|
      invariant unblocked == Unblocked(missions[..i], missions, deps)
    {
      assert missions[..i + 1][..i] == missions[..i];
      var m := missions[i];
      var wanted := if m.id in depsById then depsById[m.id] else [];
      var ok := m.state.Proposed?
        && forall k :: 0 <= k < |wanted| ==> Satisfied(if wanted[k] in stateById then stateById[wanted[k]] else Proposed);
      assert ok <==> IsUnblocked(m, missions, deps) by {
        WantedAreDependencies(m, missions, deps, wanted);
      }
      if ok {
        unblocked := unblocked + [m];
      }
    }
  }

  lemma WantedAreDependencies(m: Mission, missions: seq<Mission>, deps: seq<Dependency>, wanted: seq<string>)
    requires forall b :: b in wanted <==> Dependency(m.id, b) in deps
    ensures IsUnblocked(m, missions, deps) <==>
      m.state.Proposed? && forall k :: 0 <= k < |wanted| ==> Satisfied(StateOf(missions, wanted[k]))
  {
    if m.state.Proposed? && (forall k :: 0 <= k < |wanted| ==> Satisfied(StateOf(missions, wanted[k]))) {
      forall d | d in deps && d.missionId == m.id ensures Satisfied(StateOf(missions, d.dependsOnMissionId)) {
        assert d == Dependency(m.id, d.dependsOnMissionId);
        assert d.dependsOnMissionId in wanted;
      }
    }
    if IsUnblocked(m, missions, deps) {
      forall k | 0 <= k < |wanted| ensures Satisfied(StateOf(missions, wanted[k])) {
        assert Dependency(m.id, wanted[k]) in deps;
      }
    }
  }
}
