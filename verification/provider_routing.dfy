/** The provider chains that feed the fallback loops. */
module ProviderRouting {
  /** Keeps the first occurrence of each non-empty name. */
  function Unique(providers: seq<string>): seq<string> {
    if providers == [] then []
    else
      var before := Unique(providers[..|providers| - 1]);
      var last := providers[|providers| - 1];
      if last == "" || last in before then before else before + [last]
  }

  ghost predicate NoDuplicates(chain: seq<string>) {
    forall i, j :: 0 <= i < j < |chain| ==> chain[i] != chain[j]
  }

  /** The chain lists exactly the given names, each once. */
  lemma {:induction false} UniqueHasAllOnce(providers: seq<string>)
    ensures NoDuplicates(Unique(providers))
    ensures forall name :: name in Unique(providers) <==> name in providers && name != ""
  {
    if providers != [] {
      UniqueHasAllOnce(providers[..|providers| - 1]);
      assert providers == providers[..|providers| - 1] + [providers[|providers| - 1]];
    }
  }

  /** What comes later only adds to the end: names keep the order of their first occurrence. */
  lemma {:induction false} UniqueExtends(providers: seq<string>, more: seq<string>)
    ensures Unique(providers) <= Unique(providers + more)
  {
    if more == [] {
      assert providers + more == providers;
    } else {
      var all := providers + more;
      assert all[..|all| - 1] == providers + more[..|more| - 1];
      UniqueExtends(providers, more[..|more| - 1]);
    }
  }

  /** The role's own providers, then the global chain. */
  function EffectiveProviderChainForRole(providerChain: seq<string>, roleChains: map<string, seq<string>>, role: string): seq<string> {
    Unique((if role in roleChains then roleChains[role] else []) + providerChain)
  }

  lemma EffectiveChainPrefersTheRole(providerChain: seq<string>, roleChains: map<string, seq<string>>, role: string, chain: seq<string>)
    requires chain == EffectiveProviderChainForRole(providerChain, roleChains, role)
    ensures NoDuplicates(chain)
    ensures forall name :: name in chain <==> name != "" && (name in providerChain || (role in roleChains && name in roleChains[role]))
    ensures Unique(if role in roleChains then roleChains[role] else []) <= chain
  {
    var own := if role in roleChains then roleChains[role] else [];
    UniqueHasAllOnce(own + providerChain);
    UniqueExtends(own, providerChain);
  }

  function Distinct(chain: seq<string>, available: set<string>, author: string): seq<string> {
    if chain == [] then []
    else
      var before := Distinct(chain[..|chain| - 1], available, author);
      var last := chain[|chain| - 1];
      if last != author && last in available then before + [last] else before
  }

  lemma {:induction false} DistinctFilters(chain: seq<string>, available: set<string>, author: string)
    ensures forall name :: name in Distinct(chain, available, author) <==> name in chain && name != author && name in available
    ensures NoDuplicates(chain) ==> NoDuplicates(Distinct(chain, available, author))
  {
    if chain != [] {
      DistinctFilters(chain[..|chain| - 1], available, author);
      assert chain == chain[..|chain| - 1] + [chain[|chain| - 1]];
    }
  }

  /** The order in which two names are tried. */
  ghost predicate Precedes(chain: seq<string>, a: string, b: string) {
    exists i, j :: 0 <= i < j < |chain| && chain[i] == a && chain[j] == b
  }

  lemma {:induction false} DistinctKeepsOrder(chain: seq<string>, available: set<string>, author: string, a: string, b: string)
    requires Precedes(Distinct(chain, available, author), a, b)
    ensures Precedes(chain, a, b)
  {
    var all := Distinct(chain, available, author);
    var i, j :| 0 <= i < j < |all| && all[i] == a && all[j] == b;
    var shorter := chain[..|chain| - 1];
    var before := Distinct(shorter, available, author);
    if j < |before| {
      assert before[i] == a && before[j] == b;
      DistinctKeepsOrder(shorter, available, author, a, b);
      var k, l :| 0 <= k < l < |shorter| && shorter[k] == a && shorter[l] == b;
      assert chain[k] == a && chain[l] == b;
    } else {
      DistinctFilters(shorter, available, author);
      assert before[i] == a && a in shorter;
      var k :| 0 <= k < |shorter| && shorter[k] == a;
      assert chain[k] == a && chain[|chain| - 1] == b;
    }
  }

  function ReviewerProviderChain(chain: seq<string>, available: set<string>, author: string): seq<string> {
    Distinct(Unique(chain), available, author) + if author in available then [author] else []
  }

  /**
   Every available provider of the chain except the author, in chain order; the author only at
   the end, and whenever it is available, even if the chain does not list it.
   */
  lemma ReviewersAreIndependentFirst(chain: seq<string>, available: set<string>, author: string, reviewers: seq<string>)
    requires reviewers == ReviewerProviderChain(chain, available, author)
    ensures NoDuplicates(reviewers)
    ensures forall name :: name in reviewers <==>
      name in available && (name == author || (name in chain && name != ""))
    ensures author in available <==> reviewers != [] && reviewers[|reviewers| - 1] == author
    ensures forall a, b :: b != author && Precedes(reviewers, a, b) ==> Precedes(Unique(chain), a, b)
  {
    var unique := Unique(chain);
    UniqueHasAllOnce(chain);
    var distinct := Distinct(unique, available, author);
    DistinctFilters(unique, available, author);
    forall a, b | b != author && Precedes(reviewers, a, b) ensures Precedes(unique, a, b) {
      var i, j :| 0 <= i < j < |reviewers| && reviewers[i] == a && reviewers[j] == b;
      assert distinct[i] == a && distinct[j] == b;
      DistinctKeepsOrder(unique, available, author, a, b);
    }
  }
}
