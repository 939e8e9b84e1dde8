/**
 Composing completed dependency branches into one baseline commit. Commits are numbered
 in order of creation; a commit's parents were created before it.
 */
module GitComposition {
  import opened Wrappers
  import opened Sorting

  type Commit = nat
  type Graph = seq<seq<Commit>>

  datatype CompositionError = Unresolved(ref: string) | Conflict(baseline: Commit, dependency: Commit)

  ghost predicate Ordered(g: Graph) {
    forall c, k :: 0 <= c < |g| && 0 <= k < |g[c]| ==> g[c][k] < c
  }

  /** `a` is `c` or an ancestor of it. */
  predicate Reaches(g: Graph, c: Commit, a: Commit)
    decreases c
  {
    c == a || (c < |g| && exists k :: 0 <= k < |g[c]| && g[c][k] < c && Reaches(g, g[c][k], a))
  }

  lemma {:induction false} ReachesTransitive(g: Graph, c: Commit, b: Commit, a: Commit)
    requires Reaches(g, c, b) && Reaches(g, b, a)
    ensures Reaches(g, c, a)
    decreases c
  {
    if c != b {
      var k :| 0 <= k < |g[c]| && g[c][k] < c && Reaches(g, g[c][k], b);
      ReachesTransitive(g, g[c][k], b, a);
    }
  }

  /** Later commits do not change the ancestry of earlier ones. */
  lemma {:induction false} AncestryIsStable(g: Graph, h: Graph, c: Commit, a: Commit)
    requires g <= h && c < |g| && Ordered(h)
    ensures Reaches(g, c, a) <==> Reaches(h, c, a)
    decreases c
  {
    assert g[c] == h[c];
    forall k | 0 <= k < |g[c]| ensures Reaches(g, g[c][k], a) <==> Reaches(h, g[c][k], a) {
      AncestryIsStable(g, h, g[c][k], a);
    }
  }

  lemma MergeReaches(g: Graph, b: Commit, d: Commit, a: Commit)
    requires Ordered(g) && b < |g| && d < |g| && a < |g|
    ensures Ordered(g + [[b, d]])
    ensures Reaches(g + [[b, d]], |g|, a) <==> Reaches(g, b, a) || Reaches(g, d, a)
  {
    var h := g + [[b, d]];
    assert h[|g|] == [b, d];
    forall c, k | 0 <= c < |h| && 0 <= k < |h[c]| ensures h[c][k] < c {
      if c < |g| { assert h[c] == g[c]; }
    }
    AncestryIsStable(g, h, b, a);
    AncestryIsStable(g, h, d, a);
    if Reaches(g, b, a) { assert h[|g|][0] == b; }
    if Reaches(g, d, a) { assert h[|g|][1] == d; }
  }

  /** The distinct refs, in the order they are visited. */
  function Distinct(refs: seq<string>): seq<string> {
    if refs == [] then []
    else if refs[0] in refs[1..] then Distinct(refs[1..])
    else [refs[0]] + Distinct(refs[1..])
  }

  function Visited(refs: seq<string>): seq<string> {
    Sort(Distinct(refs), StringLeq)
  }

  lemma {:induction false} DistinctMembers(refs: seq<string>, ref: string)
    ensures ref in Distinct(refs) <==> ref in refs
    ensures |Distinct(refs)| <= |refs|
  {
    if refs != [] {
      DistinctMembers(refs[1..], ref);
    }
  }

  lemma {:induction false} DistinctCount(refs: seq<string>)
    ensures |Distinct(refs)| == |(set r | r in refs)|
  {
    if refs != [] {
      DistinctCount(refs[1..]);
      var all, rest := (set r | r in refs), (set r | r in refs[1..]);
      assert refs == [refs[0]] + refs[1..];
      assert all == {refs[0]} + rest;
    }
  }

  lemma VisitedMembers(refs: seq<string>)
    ensures forall ref :: ref in Visited(refs) <==> ref in refs
    ensures |Visited(refs)| == |(set r | r in refs)|
  {
    StringOrder();
    SortIsSortedPermutation(Distinct(refs), StringLeq);
    DistinctCount(refs);
    forall ref ensures ref in Visited(refs) <==> ref in refs {
      DistinctMembers(refs, ref);
      assert ref in Visited(refs) <==> ref in multiset(Visited(refs));
      assert ref in Distinct(refs) <==> ref in multiset(Distinct(refs));
    }
  }

  /** What the composition must contain: the history of the base and of each dependency. */
  ghost predicate Needed(g: Graph, refs: map<string, Commit>, base: Commit, dependencies: seq<string>, a: Commit) {
    Reaches(g, base, a) || exists r :: r in dependencies && r in refs && Reaches(g, refs[r], a)
  }

  /** The base and the dependencies lie on one line of history. */
  ghost predicate Chain(g: Graph, refs: map<string, Commit>, base: Commit, dependencies: seq<string>) {
    && (forall r :: r in dependencies && r in refs ==> Reaches(g, base, refs[r]) || Reaches(g, refs[r], base))
    && (forall r, q :: r in dependencies && q in dependencies && r in refs && q in refs ==>
          Reaches(g, refs[r], refs[q]) || Reaches(g, refs[q], refs[r]))
  }

  class Repository {
    const refs: map<string, Commit>
    var parents: Graph

    ghost predicate Valid()
      reads this
    {
      Ordered(parents) && forall r :: r in refs ==> refs[r] < |parents|
    }

    constructor (refs: map<string, Commit>, parents: Graph)
      requires Ordered(parents) && forall r :: r in refs ==> refs[r] < |parents|
      ensures Valid() && this.refs == refs && this.parents == parents
    {
      this.refs := refs;
      this.parents := parents;
    }

    method ResolveCommit(ref: string) returns (r: Result<Commit, CompositionError>)
      requires Valid()
      ensures r == if ref in refs then Ok(refs[ref]) else Err(Unresolved(ref))
    {
      r := if ref in refs then Ok(refs[ref]) else Err(Unresolved(ref));
    }

    /** A merge commit of two existing ones. */
    method CommitTree(first: Commit, second: Commit) returns (c: Commit)
      requires Valid() && first < |parents| && second < |parents|
      modifies this
      ensures Valid() && parents == old(parents) + [[first, second]] && c == |old(parents)|
      ensures forall a: Commit :: a < |old(parents)| ==>
        (Reaches(parents, c, a) <==> Reaches(old(parents), first, a) || Reaches(old(parents), second, a))
    {
      forall a: Commit | a < |parents|
        ensures Reaches(parents + [[first, second]], |parents|, a) <==> Reaches(parents, first, a) || Reaches(parents, second, a)
      {
        MergeReaches(parents, first, second, a);
      }
      MergeReaches(parents, first, second, first);
      c := |parents|;
      parents := parents + [[first, second]];
    }

    /**
     Exact composition: on success the earlier commits in the history of the result are
     precisely those of the base or of some dependency; existing ancestry is unchanged, at
     most one commit is made per dependency, and none when base and dependencies are a chain.
     */
    method ComposeDependencyBaseline(baseRef: string, dependencyRefs: seq<string>) returns (r: Result<Commit, CompositionError>)
      requires Valid()
      modifies this
      ensures Valid() && old(parents) <= parents
      ensures |parents| <= |old(parents)| + |(set d | d in dependencyRefs)|
      ensures r.Ok? ==>
        && baseRef in refs && (forall d :: d in dependencyRefs ==> d in refs)
        && r.value < |parents|
        && forall a: Commit :: a < |old(parents)| ==>
             (Reaches(parents, r.value, a) <==> Needed(old(parents), refs, refs[baseRef], dependencyRefs, a))
      ensures baseRef in refs && Chain(old(parents), refs, refs[baseRef], dependencyRefs) ==>
        parents == old(parents) && (r.Err? ==> r.error.Unresolved?)
      ensures r.Err? && r.error.Unresolved? ==> r.error.ref !in refs && (r.error.ref == baseRef || r.error.ref in dependencyRefs)
      ensures r.Err? && r.error.Conflict? ==>
        !Reaches(parents, r.error.baseline, r.error.dependency) && !Reaches(parents, r.error.dependency, r.error.baseline)
    {
      VisitedMembers(dependencyRefs);
      var base := ResolveCommit(baseRef);
      if base.Err? { return base; }
      var baseline: Commit := base.value;
      var visited := Visited(dependencyRefs);
      ghost var g0 := parents;
      for i := 0 to |visited|
        invariant Valid() && g0 <= parents && |parents| <= |g0| + i
        invariant baseline < |parents|
        invariant forall j :: 0 <= j < i ==> visited[j] in refs
        invariant forall a: Commit :: a < |g0| ==>
          (Reaches(parents, baseline, a) <==> Needed(g0, refs, base.value, visited[..i], a))
        invariant Chain(g0, refs, base.value, dependencyRefs) ==>
          parents == g0 && (baseline == base.value || exists j :: 0 <= j < i && baseline == refs[visited[j]])
      {
        var resolved := ResolveCommit(visited[i]);
        if resolved.Err? { return resolved; }
        var dependency: Commit := resolved.value;
        StableAncestry(g0, dependency);
        NeededSnoc(g0, refs, base.value, visited[..i], visited[i], visited[..i + 1]);
        if dependency == baseline || Reaches(parents, baseline, dependency) {
          Absorbs(parents, baseline, dependency, |g0|);
          continue;
        }
        if Reaches(parents, dependency, baseline) {
          Absorbs(parents, dependency, baseline, |g0|);
          baseline := dependency;
          continue;
        }
        var conflicts: bool := *;
        if conflicts { return Err(Conflict(baseline, dependency)); }
        baseline := CommitTree(baseline, dependency);
      }
      assert visited[..|visited|] == visited;
      return Ok(baseline);
    }

    lemma StableAncestry(g0: Graph, c: Commit)
      requires Valid() && g0 <= parents && c < |g0|
      ensures forall a: Commit :: Reaches(g0, c, a) <==> Reaches(parents, c, a)
    {
      forall a: Commit ensures Reaches(g0, c, a) <==> Reaches(parents, c, a) {
        AncestryIsStable(g0, parents, c, a);
      }
    }
  }

  lemma NeededSnoc(g: Graph, refs: map<string, Commit>, base: Commit, before: seq<string>, ref: string, all: seq<string>)
    requires ref in refs && all == before + [ref]
    ensures forall a: Commit :: Needed(g, refs, base, all, a) <==> Needed(g, refs, base, before, a) || Reaches(g, refs[ref], a)
  {
    forall a: Commit ensures Needed(g, refs, base, all, a) <==> Needed(g, refs, base, before, a) || Reaches(g, refs[ref], a) {
      assert all[|before|] == ref;
    }
  }

  lemma Absorbs(g: Graph, c: Commit, b: Commit, bound: nat)
    requires Reaches(g, c, b)
    ensures forall a: Commit :: a < bound && Reaches(g, b, a) ==> Reaches(g, c, a)
  {
    forall a: Commit | a < bound && Reaches(g, b, a) ensures Reaches(g, c, a) {
      ReachesTransitive(g, c, b, a);
    }
  }
}
