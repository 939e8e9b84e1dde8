/** The three retry loops: running a mission, reviewing it, and one step of the planning pipeline. */
module FallbackLoops {
  import opened Wrappers
  import opened Fallback

  /** What a provider run ends with; only a planning step can complete with output that is refused. */
  datatype RunOutcome = Completed | InvalidOutput | Errored(failure: Failure)

  datatype Ending = Finished | Blocked

  // ------------------------------------------------------------ bounds

  /** (models + 1) * (retries + 1) for each provider. */
  function RunBound(chain: seq<Provider>, maxRetries: nat): nat {
    if chain == [] then 0 else (|chain[0].models| + 1) * (maxRetries + 1) + RunBound(chain[1..], maxRetries)
  }

  lemma {:induction false} ModelRunsCount(p: Provider, maxRetries: nat, pos: nat)
    requires pos <= |p.models|
    ensures |ModelRuns(p, maxRetries, pos)| == (|p.models| - pos) * (maxRetries + 1)
    decreases |p.models| - pos
  {
    if pos < |p.models| {
      ModelRunsCount(p, maxRetries, pos + 1);
      assert (|p.models| - pos) * (maxRetries + 1) == (|p.models| - pos - 1) * (maxRetries + 1) + (maxRetries + 1);
    }
  }

  /** Exactly so many when the provider's models are tried from a listed one on. */
  lemma ProviderRunsCount(p: Provider, policy: Policy, model: string)
    ensures |ProviderRuns(p, policy, model, 0)| <= (|p.models| + 1) * (policy.maxRetries + 1)
    ensures TriesModels(p, policy) ==>
      |ProviderRuns(p, policy, model, 0)| == (|p.models| - IndexOf(p.models, model)) * (policy.maxRetries + 1)
  {
    var each, later: nat := policy.maxRetries + 1, |p.models| - IndexOf(p.models, model) - 1;
    ModelRunsCount(p, policy.maxRetries, IndexOf(p.models, model) + 1);
    OneMore(later, each);
    Scale(later + 1, |p.models| + 1, each);
    Scale(1, |p.models| + 1, each);
  }

  lemma OneMore(count: nat, each: nat)
    ensures (count + 1) * each == count * each + each
  {
  }

  lemma Scale(a: nat, b: nat, r: nat)
    requires a <= b
    ensures a * r <= b * r
  {
  }

  lemma {:induction false} LaterRunsAreBounded(chain: seq<Provider>, policy: Policy, idx: nat)
    requires idx < |chain|
    ensures |LaterRuns(chain, policy, idx)| <= RunBound(chain[idx + 1..], policy.maxRetries)
    decreases |chain| - idx
  {
    if policy.allowProviderSwitch && idx + 1 < |chain| {
      LaterRunsAreBounded(chain, policy, idx + 1);
      assert chain[idx + 1..][1..] == chain[idx + 2..];
      ProviderRunsCount(chain[idx + 1], policy, StartModel(chain[idx + 1]));
    }
  }

  lemma AllRunsAreBounded(chain: seq<Provider>, policy: Policy)
    requires chain != []
    ensures |RunsToCome(chain, policy, FIRST)| <= RunBound(chain, policy.maxRetries)
  {
    ProviderRunsCount(chain[0], policy, StartModel(chain[0]));
    LaterRunsAreBounded(chain, policy, 0);
  }

  // ------------------------------------------------------------ the log of a loop

  ghost predicate OnlyTransientFailures(outcomes: nat -> RunOutcome) {
    forall n :: outcomes(n).Errored? && IsTransient(outcomes(n).failure.category)
  }

  /** A loop with the repairs that are left: refused output is asked for once more, with the same provider and model. */
  datatype LoopState = LoopState(at: Loop, repairs: nat)

  /** Where a run's outcome leads, unless it ends the loop. */
  function AfterRun(chain: seq<Provider>, policy: Policy, s: LoopState, outcome: RunOutcome): Option<LoopState>
    requires s.at.providerIdx < |chain|
  {
    match outcome
    case Completed => None
    case InvalidOutput =>
      if s.repairs == 0 then None
      else Some(LoopState(s.at.(model := Some(Chosen(chain[s.at.providerIdx], s.at.model))), s.repairs - 1))
    case Errored(f) =>
      match AfterFailure(chain, policy, s.at, f)
      case Stop => None
      case Continue(next) => Some(LoopState(next, s.repairs))
  }

  /** What is still to come, before and after a run that does not end the loop. */
  lemma RunLeaves(chain: seq<Provider>, policy: Policy, s: LoopState, outcome: RunOutcome, next: LoopState)
    returns (skipped: seq<Attempt>)
    requires Reached(chain, policy, s.at) && NoCycle(chain, policy) && AfterRun(chain, policy, s, outcome) == Some(next)
    ensures Reached(chain, policy, next.at)
    ensures outcome.InvalidOutput? ==>
      next.repairs == s.repairs - 1 && RunsToCome(chain, policy, next.at) == RunsToCome(chain, policy, s.at)
    ensures outcome.Errored? ==>
      && next.repairs == s.repairs
      && RunsToCome(chain, policy, s.at) == [Used(chain, s.at)] + skipped + RunsToCome(chain, policy, next.at)
      && (IsTransient(outcome.failure.category) ==> skipped == [])
  {
    skipped := [];
    if outcome.Errored? {
      skipped := FailureLeaves(chain, policy, s.at, outcome.failure, next.at);
    }
  }

  lemma RunCounts(chain: seq<Provider>, policy: Policy, s: LoopState, outcome: RunOutcome)
    requires Reached(chain, policy, s.at) && NoCycle(chain, policy)
    ensures var after := AfterRun(chain, policy, s, outcome);
      after.Some? ==>
        && Reached(chain, policy, after.value.at)
        && |RunsToCome(chain, policy, after.value.at)| + after.value.repairs < |RunsToCome(chain, policy, s.at)| + s.repairs
  {
    if AfterRun(chain, policy, s, outcome).Some? {
      var skipped := RunLeaves(chain, policy, s, outcome, AfterRun(chain, policy, s, outcome).value);
    }
  }

  /** The runs from a loop state on, when the n-th run of all ends as `outcomes(n)`. */
  function RunLog(chain: seq<Provider>, policy: Policy, s: LoopState, outcomes: nat -> RunOutcome, n: nat): seq<Attempt>
    requires Reached(chain, policy, s.at) && NoCycle(chain, policy)
    decreases |RunsToCome(chain, policy, s.at)| + s.repairs
  {
    var after := AfterRun(chain, policy, s, outcomes(n));
    if after.None? then [Used(chain, s.at)]
    else
      RunCounts(chain, policy, s, outcomes(n));
      [Used(chain, s.at)] + RunLog(chain, policy, after.value, outcomes, n + 1)
  }

  /** Every run but the last of the log failed or was refused. */
  lemma {:induction false} OnlyTheLastRunCompletes(
      chain: seq<Provider>, policy: Policy, s: LoopState, outcomes: nat -> RunOutcome, n: nat, k: nat)
    requires Reached(chain, policy, s.at) && NoCycle(chain, policy)
    requires k < |RunLog(chain, policy, s, outcomes, n)| - 1
    ensures !outcomes(n + k).Completed?
    decreases k
  {
    if k > 0 {
      var skipped := RunLeaves(chain, policy, s, outcomes(n), AfterRun(chain, policy, s, outcomes(n)).value);
      OnlyTheLastRunCompletes(chain, policy, AfterRun(chain, policy, s, outcomes(n)).value, outcomes, n + 1, k - 1);
    }
  }

  // ------------------------------------------------------------ in order, and no more than that

  /** The first sequence comes out of the second by leaving items out. */
  predicate Subsequence(a: seq<Attempt>, b: seq<Attempt>) {
    a == [] || (b != [] && ((a[0] == b[0] && Subsequence(a[1..], b[1..])) || Subsequence(a, b[1..])))
  }

  lemma {:induction false} LaterSubsequence(a: seq<Attempt>, before: seq<Attempt>, b: seq<Attempt>)
    requires Subsequence(a, b)
    ensures Subsequence(a, before + b)
  {
    if before == [] {
      assert before + b == b;
    } else {
      LaterSubsequence(a, before[1..], b);
      assert (before + b)[1..] == before[1..] + b;
    }
  }

  lemma {:induction false} SubsequenceIsNoLonger(a: seq<Attempt>, b: seq<Attempt>)
    requires Subsequence(a, b)
    ensures |a| <= |b|
  {
    if a != [] {
      if a[0] == b[0] && Subsequence(a[1..], b[1..]) {
        SubsequenceIsNoLonger(a[1..], b[1..]);
      } else {
        SubsequenceIsNoLonger(a, b[1..]);
      }
    }
  }

  lemma FirstOfSubsequence(first: Attempt, a: seq<Attempt>, skipped: seq<Attempt>, b: seq<Attempt>)
    requires Subsequence(a, b)
    ensures Subsequence([first] + a, [first] + skipped + b)
  {
    LaterSubsequence(a, skipped, b);
    assert ([first] + skipped + b)[1..] == skipped + b;
    assert ([first] + a)[1..] == a;
  }

  lemma OneOfSubsequence(first: Attempt, b: seq<Attempt>)
    requires b != [] && b[0] == first
    ensures Subsequence([first], b)
  {
    assert [first][1..] == [];
  }

  /** The runs that were made, without the repairs. */
  function Unrepaired(log: seq<Attempt>, outcomes: nat -> RunOutcome, n: nat): seq<Attempt> {
    if log == [] then []
    else (if outcomes(n).InvalidOutput? && |log| > 1 then [] else [log[0]]) + Unrepaired(log[1..], outcomes, n + 1)
  }

  lemma UnrepairedFirst(first: Attempt, rest: seq<Attempt>, outcomes: nat -> RunOutcome, n: nat)
    ensures Unrepaired([first] + rest, outcomes, n)
      == (if outcomes(n).InvalidOutput? && rest != [] then [] else [first]) + Unrepaired(rest, outcomes, n + 1)
  {
    assert ([first] + rest)[1..] == rest;
  }

  lemma {:induction false} UnrepairedIsShorter(log: seq<Attempt>, outcomes: nat -> RunOutcome, n: nat)
    ensures |Unrepaired(log, outcomes, n)| <= |log|
    ensures |Unrepaired(log, outcomes, n)| == |log| ==> Unrepaired(log, outcomes, n) == log
  {
    if log != [] {
      UnrepairedIsShorter(log[1..], outcomes, n + 1);
      assert log == [log[0]] + log[1..];
    }
  }

  lemma FirstToCome(chain: seq<Provider>, policy: Policy, l: Loop)
    requires l.providerIdx < |chain| && l.attempt <= policy.maxRetries
    ensures RunsToCome(chain, policy, l) != [] && RunsToCome(chain, policy, l)[0] == Used(chain, l)
  {
    var skipped := LastRuns(chain, policy, l);
  }

  /** Whatever the outcomes, the runs are made in chain order and none more often than is to come. */
  lemma {:induction false} RunsAreInOrder(chain: seq<Provider>, policy: Policy, s: LoopState, outcomes: nat -> RunOutcome, n: nat)
    requires Reached(chain, policy, s.at) && NoCycle(chain, policy)
    ensures var log := RunLog(chain, policy, s, outcomes, n);
      && Subsequence(Unrepaired(log, outcomes, n), RunsToCome(chain, policy, s.at))
      && |log| <= |Unrepaired(log, outcomes, n)| + s.repairs
    decreases |RunsToCome(chain, policy, s.at)| + s.repairs
  {
    var after := AfterRun(chain, policy, s, outcomes(n));
    if after.None? {
      LastInOrder(chain, policy, s.at, outcomes, n);
    } else {
      RunCounts(chain, policy, s, outcomes(n));
      RunsAreInOrder(chain, policy, after.value, outcomes, n + 1);
      OneMoreInOrder(chain, policy, s, outcomes, n, after.value, RunLog(chain, policy, after.value, outcomes, n + 1));
    }
  }

  lemma LastInOrder(chain: seq<Provider>, policy: Policy, l: Loop, outcomes: nat -> RunOutcome, n: nat)
    requires l.providerIdx < |chain| && l.attempt <= policy.maxRetries
    ensures var last := Unrepaired([Used(chain, l)], outcomes, n); Subsequence(last, RunsToCome(chain, policy, l)) && |last| == 1
  {
    FirstToCome(chain, policy, l);
    OneOfSubsequence(Used(chain, l), RunsToCome(chain, policy, l));
    UnrepairedFirst(Used(chain, l), [], outcomes, n);
    assert [Used(chain, l)] + [] == [Used(chain, l)];
  }

  lemma OneMoreInOrder(
      chain: seq<Provider>, policy: Policy, s: LoopState, outcomes: nat -> RunOutcome, n: nat, next: LoopState, rest: seq<Attempt>)
    requires Reached(chain, policy, s.at) && NoCycle(chain, policy) && AfterRun(chain, policy, s, outcomes(n)) == Some(next)
    requires Reached(chain, policy, next.at) && rest != []
    requires Subsequence(Unrepaired(rest, outcomes, n + 1), RunsToCome(chain, policy, next.at))
    requires |rest| <= |Unrepaired(rest, outcomes, n + 1)| + next.repairs
    ensures var log := [Used(chain, s.at)] + rest;
      && Subsequence(Unrepaired(log, outcomes, n), RunsToCome(chain, policy, s.at))
      && |log| <= |Unrepaired(log, outcomes, n)| + s.repairs
  {
    var skipped := RunLeaves(chain, policy, s, outcomes(n), next);
    UnrepairedFirst(Used(chain, s.at), rest, outcomes, n);
    if outcomes(n).Errored? {
      FirstOfSubsequence(Used(chain, s.at), Unrepaired(rest, outcomes, n + 1), skipped, RunsToCome(chain, policy, next.at));
    } else {
      assert [] + Unrepaired(rest, outcomes, n + 1) == Unrepaired(rest, outcomes, n + 1);
    }
  }

  /** Whatever the outcomes, at most (models + 1) * (retries + 1) runs per provider, and the repairs. */
  lemma ExecutionIsBounded(chain: seq<Provider>, policy: Policy, repairs: nat, outcomes: nat -> RunOutcome)
    requires chain != [] && NoCycle(chain, policy)
    ensures |RunLog(chain, policy, LoopState(FIRST, repairs), outcomes, 0)| <= RunBound(chain, policy.maxRetries) + repairs
  {
    var log := RunLog(chain, policy, LoopState(FIRST, repairs), outcomes, 0);
    RunsAreInOrder(chain, policy, LoopState(FIRST, repairs), outcomes, 0);
    SubsequenceIsNoLonger(Unrepaired(log, outcomes, 0), RunsToCome(chain, policy, FIRST));
    AllRunsAreBounded(chain, policy);
  }

  /** With transient failures only, exactly the runs to come are made: the bound of `RunsAreInOrder` is reached. */
  lemma {:induction false} TransientExecutionIsExact(
      chain: seq<Provider>, policy: Policy, s: LoopState, outcomes: nat -> RunOutcome, n: nat)
    requires Reached(chain, policy, s.at) && NoCycle(chain, policy) && OnlyTransientFailures(outcomes)
    ensures RunLog(chain, policy, s, outcomes, n) == RunsToCome(chain, policy, s.at)
    decreases |RunsToCome(chain, policy, s.at)|
  {
    var after := AfterRun(chain, policy, s, outcomes(n));
    if after.None? {
      TransientStop(chain, policy, s.at, outcomes(n).failure);
    } else {
      var skipped := RunLeaves(chain, policy, s, outcomes(n), after.value);
      TransientExecutionIsExact(chain, policy, after.value, outcomes, n + 1);
      assert [Used(chain, s.at)] + [] == [Used(chain, s.at)];
    }
  }

  // ------------------------------------------------------------ the loops

  /** One turn of a loop after a failed run: wait and retry, switch, or give up. */
  method FallBack(chain: seq<Provider>, policy: Policy, l: Loop, model: string, f: Failure) returns (after: NextStep)
    requires l.providerIdx < |chain| && model == Chosen(chain[l.providerIdx], l.model)
    ensures after == AfterFailure(chain, policy, l, f)
  {
    var models := chain[l.providerIdx].models;
    var decision := DecideFallback(Context(
      f.category, l.attempt, policy.maxRetries, f.retryAfterMs, policy.maxWaitMs,
      policy.allowModelSwitch && |models| > 1 && IndexOf(models, model) < |models| - 1,
      policy.allowProviderSwitch && l.providerIdx < |chain| - 1));
    match decision.action {
      case WaitForReset => after := Continue(Loop(l.providerIdx, Some(model), l.attempt + 1));
      case RetryBackoff => after := Continue(Loop(l.providerIdx, Some(model), l.attempt + 1));
      case SwitchModel =>
        var idx := IndexOf(models, model);
        var next := models[if idx + 1 < |models| - 1 then idx + 1 else |models| - 1];
        after := Continue(Loop(l.providerIdx, Some(next), 0));
      case SwitchProvider => after := Continue(Loop(l.providerIdx + 1, None, 0));
      case EscalateUser => after := Stop;
    }
  }

  /** The i-th run was made in the i-th state, and led to the next one. */
  predicate Turned(
      chain: seq<Provider>, policy: Policy, states: seq<LoopState>, log: seq<Attempt>, outcomes: nat -> RunOutcome, n: nat, i: nat)
    requires i < |log| == |states|
  {
    && states[i].at.providerIdx < |chain| && log[i] == Used(chain, states[i].at)
    && AfterRun(chain, policy, states[i], outcomes(n + i)) == if i + 1 < |log| then Some(states[i + 1]) else None
  }

  /** The states that a loop passes through, one for each run of its log. */
  ghost predicate PassesThrough(
      chain: seq<Provider>, policy: Policy, states: seq<LoopState>, log: seq<Attempt>, outcomes: nat -> RunOutcome, n: nat)
  {
    && |states| == |log| > 0
    && forall i: nat :: i < |log| ==> Turned(chain, policy, states, log, outcomes, n, i)
  }

  lemma {:induction false} LogHasStates(chain: seq<Provider>, policy: Policy, s: LoopState, outcomes: nat -> RunOutcome, n: nat)
    returns (states: seq<LoopState>)
    requires Reached(chain, policy, s.at) && NoCycle(chain, policy)
    ensures PassesThrough(chain, policy, states, RunLog(chain, policy, s, outcomes, n), outcomes, n) && states[0] == s
    decreases |RunsToCome(chain, policy, s.at)| + s.repairs
  {
    var after := AfterRun(chain, policy, s, outcomes(n));
    if after.None? {
      states := [s];
    } else {
      RunCounts(chain, policy, s, outcomes(n));
      var rest := LogHasStates(chain, policy, after.value, outcomes, n + 1);
      states := [s] + rest;
      OneMoreState(chain, policy, s, rest, RunLog(chain, policy, after.value, outcomes, n + 1), outcomes, n);
    }
  }

  lemma OneMoreState(
      chain: seq<Provider>, policy: Policy, s: LoopState, rest: seq<LoopState>, log: seq<Attempt>, outcomes: nat -> RunOutcome, n: nat)
    requires PassesThrough(chain, policy, rest, log, outcomes, n + 1)
    requires s.at.providerIdx < |chain| && AfterRun(chain, policy, s, outcomes(n)) == Some(rest[0])
    ensures PassesThrough(chain, policy, [s] + rest, [Used(chain, s.at)] + log, outcomes, n)
  {
    var states, all := [s] + rest, [Used(chain, s.at)] + log;
    forall i: nat | i < |all| ensures Turned(chain, policy, states, all, outcomes, n, i) {
      if i > 0 {
        assert Turned(chain, policy, rest, log, outcomes, n + 1, i - 1);
        assert n + 1 + (i - 1) == n + i;
      }
    }
  }

  /** One turn: a run of the model in use, or of the provider's starting one, and what follows when it fails. */
  method Turn(chain: seq<Provider>, policy: Policy, l: Loop, outcome: RunOutcome) returns (used: Attempt, after: NextStep)
    requires l.providerIdx < |chain|
    ensures used == Used(chain, l)
    ensures after == if outcome.Errored? then AfterFailure(chain, policy, l, outcome.failure)
                     else Continue(l.(model := Some(Chosen(chain[l.providerIdx], l.model))))
  {
    var p := chain[l.providerIdx];
    var model := if l.model.None? || l.model.value !in p.models then StartModel(p) else l.model.value;
    used := Attempt(p.name, model);
    if outcome.Errored? {
      after := FallBack(chain, policy, l, model, outcome.failure);
    } else {
      after := Continue(l.(model := Some(model)));
    }
  }

  /** Runs a mission until a run ends without an error or the fallback gives up; it always ends. */
  method ExecuteMission(chain: seq<Provider>, policy: Policy, outcomes: nat -> RunOutcome) returns (log: seq<Attempt>, ending: Ending)
    requires NoCycle(chain, policy)
    ensures chain == [] ==> log == [] && ending.Blocked?
    ensures chain != [] ==> log == RunLog(chain, policy, LoopState(FIRST, 0), outcomes, 0)
    ensures ending.Finished? <==> log != [] && !outcomes(|log| - 1).Errored?
  {
    if chain == [] {
      return [], Blocked;
    }
    ghost var states := LogHasStates(chain, policy, LoopState(FIRST, 0), outcomes, 0);
    log, ending := RunUntilDone(chain, policy, outcomes, states, RunLog(chain, policy, LoopState(FIRST, 0), outcomes, 0));
  }

  method RunUntilDone(
      chain: seq<Provider>, policy: Policy, outcomes: nat -> RunOutcome, ghost states: seq<LoopState>, ghost whole: seq<Attempt>)
    returns (log: seq<Attempt>, ending: Ending)
    requires PassesThrough(chain, policy, states, whole, outcomes, 0) && states[0] == LoopState(FIRST, 0)
    ensures log == whole
    ensures ending.Finished? <==> !outcomes(|log| - 1).Errored?
  {
    log := [];
    var l := FIRST;
    while true
      invariant |log| < |whole| && log == whole[..|log|] && states[|log|] == LoopState(l, 0)
      decreases |whole| - |log|
    {
      var outcome := outcomes(|log|);
      assert Turned(chain, policy, states, whole, outcomes, 0, |log|);
      var used, after := Turn(chain, policy, l, outcome);
      log := log + [used];
      if !outcome.Errored? {
        return log, Finished;
      }
      if after.Stop? {
        return log, Blocked;
      }
      l := after.loop;
    }
  }

  /**
   A planning step: refused output is repaired with the same provider and model, at most
   `maxRepairs` times, on top of the fallback.
   */
  method RunStep(chain: seq<Provider>, policy: Policy, maxRepairs: nat, outcomes: nat -> RunOutcome) returns (log: seq<Attempt>, ending: Ending)
    requires NoCycle(chain, policy)
    ensures chain == [] ==> log == [] && ending.Blocked?
    ensures chain != [] ==> log == RunLog(chain, policy, LoopState(FIRST, maxRepairs), outcomes, 0)
    ensures ending.Finished? <==> log != [] && outcomes(|log| - 1).Completed?
  {
    if chain == [] {
      return [], Blocked;
    }
    ghost var states := LogHasStates(chain, policy, LoopState(FIRST, maxRepairs), outcomes, 0);
    log, ending :=
      RunUntilAccepted(chain, policy, maxRepairs, outcomes, states, RunLog(chain, policy, LoopState(FIRST, maxRepairs), outcomes, 0));
  }

  method RunUntilAccepted(
      chain: seq<Provider>, policy: Policy, maxRepairs: nat, outcomes: nat -> RunOutcome,
      ghost states: seq<LoopState>, ghost whole: seq<Attempt>)
    returns (log: seq<Attempt>, ending: Ending)
    requires PassesThrough(chain, policy, states, whole, outcomes, 0) && states[0] == LoopState(FIRST, maxRepairs)
    ensures log == whole
    ensures ending.Finished? <==> outcomes(|log| - 1).Completed?
  {
    log := [];
    var l, repairs := FIRST, 0;
    while true
      invariant |log| < |whole| && log == whole[..|log|]
      invariant repairs <= maxRepairs && states[|log|] == LoopState(l, maxRepairs - repairs)
      decreases |whole| - |log|
    {
      var outcome := outcomes(|log|);
      assert Turned(chain, policy, states, whole, outcomes, 0, |log|);
      var used, after := Turn(chain, policy, l, outcome);
      log := log + [used];
      if outcome.Completed? {
        return log, Finished;
      }
      if outcome.InvalidOutput? {
        if repairs == maxRepairs {
          return log, Blocked;
        }
        repairs := repairs + 1;
      }
      if after.Stop? {
        return log, Blocked;
      }
      l := after.loop;
    }
  }

  // ------------------------------------------------------------ review

  /** A reviewer is a provider with one model, so retries and switches of provider are all that remains. */
  function AsChain(reviewers: seq<Attempt>): (chain: seq<Provider>)
    ensures |chain| == |reviewers|
    ensures forall i :: 0 <= i < |chain| ==> chain[i] == Provider(reviewers[i].provider, [reviewers[i].model], None)
  {
    seq(|reviewers|, i requires 0 <= i < |reviewers| => Provider(reviewers[i].provider, [reviewers[i].model], None))
  }

  lemma ReviewersEnd(reviewers: seq<Attempt>, policy: Policy)
    ensures NoCycle(AsChain(reviewers), policy)
  {
    if reviewers != [] {
      forall i | 0 <= i < |Within(AsChain(reviewers), policy)| ensures NoRepeats(Within(AsChain(reviewers), policy)[i]) {
        assert Within(AsChain(reviewers), policy)[i] == AsChain(reviewers)[i];
      }
    }
  }

  /** Every reviewer in order, each with all its retries. */
  function ReviewerRuns(reviewers: seq<Attempt>, maxRetries: nat): seq<Attempt> {
    if reviewers == [] then [] else Repeated(reviewers[0], maxRetries + 1) + ReviewerRuns(reviewers[1..], maxRetries)
  }

  /** The reviewers that the policy may lead to. */
  function Reachable(reviewers: seq<Attempt>, policy: Policy): seq<Attempt> {
    if policy.allowProviderSwitch || reviewers == [] then reviewers else reviewers[..1]
  }

  lemma {:induction false} LaterReviewers(reviewers: seq<Attempt>, policy: Policy, idx: nat)
    requires idx < |reviewers|
    ensures LaterRuns(AsChain(reviewers), policy, idx)
      == if policy.allowProviderSwitch then ReviewerRuns(reviewers[idx + 1..], policy.maxRetries) else []
    decreases |reviewers| - idx
  {
    if policy.allowProviderSwitch && idx + 1 < |reviewers| {
      LaterReviewers(reviewers, policy, idx + 1);
      assert reviewers[idx + 1..][1..] == reviewers[idx + 2..];
    }
  }

  /** What there is to come of a review: each reviewer retries + 1 times, in order; the first one only, without switches. */
  lemma ReviewsToCome(reviewers: seq<Attempt>, policy: Policy)
    requires reviewers != []
    ensures RunsToCome(AsChain(reviewers), policy, FIRST)
      == ReviewerRuns(Reachable(reviewers, policy), policy.maxRetries)
  {
    LaterReviewers(reviewers, policy, 0);
    assert reviewers[..1][1..] == [];
    assert ReviewerRuns(reviewers[..1], policy.maxRetries) == Repeated(reviewers[0], policy.maxRetries + 1);
  }

  /** The log of a review, and what it is: the reviewers in order, none more than retries + 1 times. */
  lemma ReviewLog(reviewers: seq<Attempt>, policy: Policy, outcomes: nat -> RunOutcome)
    returns (states: seq<LoopState>, log: seq<Attempt>)
    requires reviewers != []
    ensures PassesThrough(AsChain(reviewers), policy, states, log, outcomes, 0) && states[0] == LoopState(FIRST, 0)
    ensures Subsequence(log, ReviewerRuns(Reachable(reviewers, policy), policy.maxRetries)) && log[0] == reviewers[0]
    ensures OnlyTransientFailures(outcomes) ==> log == ReviewerRuns(Reachable(reviewers, policy), policy.maxRetries)
  {
    var chain := AsChain(reviewers);
    ReviewersEnd(reviewers, policy);
    ReviewsToCome(reviewers, policy);
    log := RunLog(chain, policy, LoopState(FIRST, 0), outcomes, 0);
    states := LogHasStates(chain, policy, LoopState(FIRST, 0), outcomes, 0);
    RunsAreInOrder(chain, policy, LoopState(FIRST, 0), outcomes, 0);
    UnrepairedIsShorter(log, outcomes, 0);
    if OnlyTransientFailures(outcomes) {
      TransientExecutionIsExact(chain, policy, LoopState(FIRST, 0), outcomes, 0);
    }
    assert Turned(chain, policy, states, log, outcomes, 0, 0);
  }

  /**
   Independent review: the reviewers are tried in order, none of them more than retries + 1 times;
   with transient failures only, each of them exactly so often.
   */
  method ReviewMission(reviewers: seq<Attempt>, policy: Policy, outcomes: nat -> RunOutcome) returns (log: seq<Attempt>, ending: Ending)
    ensures reviewers == [] ==> log == [] && ending.Blocked?
    ensures reviewers != [] ==> log != [] && log[0] == reviewers[0]
    ensures Subsequence(log, ReviewerRuns(Reachable(reviewers, policy), policy.maxRetries))
    ensures OnlyTransientFailures(outcomes) ==> log == ReviewerRuns(Reachable(reviewers, policy), policy.maxRetries)
    ensures ending.Finished? <==> log != [] && !outcomes(|log| - 1).Errored?
    ensures forall k :: 0 <= k < |log| - 1 ==> outcomes(k).Errored?
  {
    if reviewers == [] {
      return [], Blocked;
    }
    ghost var states, whole := ReviewLog(reviewers, policy, outcomes);
    log, ending := AskReviewers(reviewers, policy, outcomes, states, whole);
  }

  method AskReviewers(
      reviewers: seq<Attempt>, policy: Policy, outcomes: nat -> RunOutcome, ghost states: seq<LoopState>, ghost whole: seq<Attempt>)
    returns (log: seq<Attempt>, ending: Ending)
    requires reviewers != [] && states != [] && states[0] == LoopState(FIRST, 0)
    requires PassesThrough(AsChain(reviewers), policy, states, whole, outcomes, 0)
    ensures log == whole
    ensures ending.Finished? <==> !outcomes(|log| - 1).Errored?
    ensures forall k :: 0 <= k < |log| - 1 ==> outcomes(k).Errored?
  {
    log := [];
    ghost var chain := AsChain(reviewers);
    var reviewerIdx, attempt := 0, 0;
    while true
      invariant |log| < |whole| && log == whole[..|log|]
      invariant AtReviewer(reviewers, states[|log|], reviewerIdx, attempt)
      invariant forall k :: 0 <= k < |log| ==> outcomes(k).Errored?
      decreases |whole| - |log|
    {
      var outcome := outcomes(|log|);
      assert Turned(chain, policy, states, whole, outcomes, 0, |log|);
      ghost var s := states[|log|];
      ReviewerUsed(reviewers, s, reviewerIdx, attempt);
      log := log + [reviewers[reviewerIdx]];
      if !outcome.Errored? {
        return log, Finished;
      }
      ReviewerFails(reviewers, policy, s, reviewerIdx, attempt, outcome.failure);
      var decision := DecideFallback(Context(
        outcome.failure.category, attempt, policy.maxRetries, outcome.failure.retryAfterMs, policy.maxWaitMs,
        false, policy.allowProviderSwitch && reviewerIdx < |reviewers| - 1));
      match decision.action {
        case WaitForReset => attempt := attempt + 1;
        case RetryBackoff => attempt := attempt + 1;
        case SwitchProvider => reviewerIdx, attempt := reviewerIdx + 1, 0;
        case _ => return log, Blocked;
      }
    }
  }

  /** A review that has come to this reviewer and attempt. */
  predicate AtReviewer(reviewers: seq<Attempt>, s: LoopState, idx: nat, attempt: nat) {
    && idx < |reviewers| && s.repairs == 0 && s.at.providerIdx == idx && s.at.attempt == attempt
    && (s.at.model == None || s.at.model == Some(reviewers[idx].model))
  }

  lemma ReviewerUsed(reviewers: seq<Attempt>, s: LoopState, idx: nat, attempt: nat)
    requires AtReviewer(reviewers, s, idx, attempt)
    ensures Used(AsChain(reviewers), s.at) == reviewers[idx]
  {
  }

  /** The same decision as for a chain of providers with one model each. */
  lemma ReviewerFails(reviewers: seq<Attempt>, policy: Policy, s: LoopState, idx: nat, attempt: nat, f: Failure)
    requires AtReviewer(reviewers, s, idx, attempt)
    ensures var after := AfterRun(AsChain(reviewers), policy, s, Errored(f));
      match DecideFallback(Context(f.category, attempt, policy.maxRetries, f.retryAfterMs, policy.maxWaitMs,
                                   false, policy.allowProviderSwitch && idx < |reviewers| - 1)).action
      case WaitForReset => after.Some? && AtReviewer(reviewers, after.value, idx, attempt + 1)
      case RetryBackoff => after.Some? && AtReviewer(reviewers, after.value, idx, attempt + 1)
      case SwitchProvider => after.Some? && AtReviewer(reviewers, after.value, idx + 1, 0)
      case _ => after.None?
  {
    var p := AsChain(reviewers)[idx];
    assert Chosen(p, s.at.model) == reviewers[idx].model;
  }
}
