/** Provider fallback: the decision after a failed run, and the state it leaves the retry loop in. */
module Fallback {
  import opened Wrappers

  datatype Category =
    | Auth | QuotaExhausted | RateLimited | TransientNetwork | InvalidRequest | ContextOverflow
    | ToolFailure | AgentCrash | PolicyDenied | SandboxUnavailable | Unknown

  datatype Action = WaitForReset | RetryBackoff | SwitchModel | SwitchProvider | EscalateUser

  datatype Context = Context(
    category: Category,
    attempt: nat,
    maxRetries: nat,
    retryAfterMs: Option<nat>,
    maxWaitMs: nat,
    alternateModelsAvailable: bool,
    alternateProvidersAllowed: bool)

  datatype Decision = Decision(action: Action, waitMs: nat)

  function Doubled(times: nat): nat {
    if times == 0 then 1 else 2 * Doubled(times - 1)
  }

  /** 1s, 2s, 4s, ... and never more than a minute. */
  function BackoffMs(attempt: nat): nat {
    if 1000 * Doubled(attempt) < 60000 then 1000 * Doubled(attempt) else 60000
  }

  function SwitchOrEscalate(ctx: Context): Decision {
    if ctx.alternateModelsAvailable then Decision(SwitchModel, 0)
    else if ctx.alternateProvidersAllowed then Decision(SwitchProvider, 0)
    else Decision(EscalateUser, 0)
  }

  /** Failures that may go away by themselves. */
  predicate IsTransient(c: Category) {
    c in {TransientNetwork, ToolFailure, AgentCrash, Unknown}
  }

  /** A rate limit that ends within the longest wait. */
  predicate Waitable(ctx: Context) {
    ctx.category.RateLimited? && ctx.retryAfterMs.Some? && ctx.retryAfterMs.value <= ctx.maxWaitMs
  }

  /** The same model is of no use any more, but another model or provider may be. */
  predicate UsedUp(ctx: Context) {
    || ctx.category.QuotaExhausted?
    || (ctx.category.RateLimited? && !(Waitable(ctx) && ctx.attempt < ctx.maxRetries))
    || (IsTransient(ctx.category) && ctx.attempt >= ctx.maxRetries)
  }

  /** Exactly when each action is taken; what is left goes to the user. */
  function DecideFallback(ctx: Context): (d: Decision)
    ensures d.action.WaitForReset? <==> Waitable(ctx) && ctx.attempt < ctx.maxRetries
    ensures d.action.WaitForReset? ==> ctx.retryAfterMs == Some(d.waitMs) && d.waitMs <= ctx.maxWaitMs
    ensures d.action.RetryBackoff? <==> IsTransient(ctx.category) && ctx.attempt < ctx.maxRetries
    ensures d.action.RetryBackoff? ==> d.waitMs == BackoffMs(ctx.attempt) <= 60000
    ensures d.action.SwitchModel? <==> ctx.alternateModelsAvailable && (UsedUp(ctx) || ctx.category.ContextOverflow?)
    ensures d.action.SwitchProvider? <==>
      ctx.alternateProvidersAllowed && (ctx.category.Auth? || (UsedUp(ctx) && !ctx.alternateModelsAvailable))
  {
    match ctx.category
    case Auth => if ctx.alternateProvidersAllowed then Decision(SwitchProvider, 0) else Decision(EscalateUser, 0)
    case PolicyDenied => Decision(EscalateUser, 0)
    case SandboxUnavailable => Decision(EscalateUser, 0)
    case InvalidRequest => Decision(EscalateUser, 0)
    case RateLimited =>
      if ctx.retryAfterMs.Some? && ctx.retryAfterMs.value <= ctx.maxWaitMs && ctx.attempt < ctx.maxRetries
      then Decision(WaitForReset, ctx.retryAfterMs.value)
      else SwitchOrEscalate(ctx)
    case QuotaExhausted => SwitchOrEscalate(ctx)
    case ContextOverflow => if ctx.alternateModelsAvailable then Decision(SwitchModel, 0) else Decision(EscalateUser, 0)
    case _ =>
      if ctx.attempt < ctx.maxRetries then Decision(RetryBackoff, BackoffMs(ctx.attempt)) else SwitchOrEscalate(ctx)
  }

  /** Waits double from one retry to the next until they reach the cap. */
  lemma BackoffDoubles(attempt: nat)
    ensures BackoffMs(attempt + 1) == if 2 * BackoffMs(attempt) < 60000 then 2 * BackoffMs(attempt) else 60000
    ensures BackoffMs(0) == 1000 && BackoffMs(attempt) <= BackoffMs(attempt + 1)
  {
    assert Doubled(attempt + 1) == 2 * Doubled(attempt);
  }

  // ------------------------------------------------------------ the loop state

  datatype Provider = Provider(name: string, models: seq<string>, defaultModel: Option<string>)

  datatype Policy = Policy(maxRetries: nat, maxWaitMs: nat, allowModelSwitch: bool, allowProviderSwitch: bool)

  datatype Failure = Failure(category: Category, retryAfterMs: Option<nat>)

  datatype Loop = Loop(providerIdx: nat, model: Option<string>, attempt: nat)

  datatype NextStep = Continue(loop: Loop) | Stop

  /** The first position of a model in the list, or -1. */
  function IndexOf(models: seq<string>, model: string): (i: int)
    ensures -1 <= i < |models|
    ensures i >= 0 ==> models[i] == model && model !in models[..i]
    ensures i == -1 <==> model !in models
  {
    if models == [] then -1
    else if models[0] == model then 0
    else
      var rest := IndexOf(models[1..], model);
      assert models == [models[0]] + models[1..];
      if rest == -1 then -1 else
        assert models[..rest + 1] == [models[0]] + models[1..][..rest];
        rest + 1
  }

  /** The model a provider is entered with. */
  function StartModel(p: Provider): string {
    if p.defaultModel.Some? then p.defaultModel.value
    else if p.models != [] then p.models[0]
    else "default"
  }

  /** The model the next run uses. */
  function Chosen(p: Provider, model: Option<string>): string {
    if model.None? || model.value !in p.models then StartModel(p) else model.value
  }

  predicate CanSwitchModel(models: seq<string>, model: string) {
    |models| > 1 && IndexOf(models, model) < |models| - 1
  }

  function SwitchedModel(models: seq<string>, model: string): string
    requires models != []
  {
    var next := IndexOf(models, model) + 1;
    models[if next <= |models| - 1 then next else |models| - 1]
  }

  /** What the loop does after a failed run. */
  function AfterFailure(chain: seq<Provider>, policy: Policy, l: Loop, f: Failure): NextStep
    requires l.providerIdx < |chain|
  {
    var p := chain[l.providerIdx];
    var model := Chosen(p, l.model);
    var d := DecideFallback(Context(
      f.category, l.attempt, policy.maxRetries, f.retryAfterMs, policy.maxWaitMs,
      policy.allowModelSwitch && CanSwitchModel(p.models, model),
      policy.allowProviderSwitch && l.providerIdx < |chain| - 1));
    match d.action
    case WaitForReset => Continue(Loop(l.providerIdx, Some(model), l.attempt + 1))
    case RetryBackoff => Continue(Loop(l.providerIdx, Some(model), l.attempt + 1))
    case SwitchModel => Continue(Loop(l.providerIdx, Some(SwitchedModel(p.models, model)), 0))
    case SwitchProvider => Continue(Loop(l.providerIdx + 1, None, 0))
    case EscalateUser => Stop
  }

  const FIRST := Loop(0, None, 0)

  // ------------------------------------------------------------ the runs that are still to come

  datatype Attempt = Attempt(provider: string, model: string)

  /** What the next run uses. */
  function Used(chain: seq<Provider>, l: Loop): Attempt
    requires l.providerIdx < |chain|
  {
    Attempt(chain[l.providerIdx].name, Chosen(chain[l.providerIdx], l.model))
  }

  function Repeated(a: Attempt, count: nat): (s: seq<Attempt>)
    ensures |s| == count
  {
    seq(count, _ => a)
  }

  /** Every model from a position on, each with all its retries. */
  function ModelRuns(p: Provider, maxRetries: nat, pos: nat): seq<Attempt>
    decreases |p.models| - pos
  {
    if pos >= |p.models| then []
    else Repeated(Attempt(p.name, p.models[pos]), maxRetries + 1) + ModelRuns(p, maxRetries, pos + 1)
  }

  predicate TriesModels(p: Provider, policy: Policy) {
    policy.allowModelSwitch && |p.models| > 1
  }

  /** What is left of a model's attempts, and the models after it; a model outside the list counts as one before it. */
  function ProviderRuns(p: Provider, policy: Policy, model: string, attempt: nat): seq<Attempt>
    requires attempt <= policy.maxRetries
  {
    Repeated(Attempt(p.name, model), policy.maxRetries + 1 - attempt)
      + if TriesModels(p, policy) then ModelRuns(p, policy.maxRetries, IndexOf(p.models, model) + 1) else []
  }

  /** The providers after one, each from its starting model on. */
  function LaterRuns(chain: seq<Provider>, policy: Policy, idx: nat): seq<Attempt>
    requires idx < |chain|
    decreases |chain| - idx
  {
    if policy.allowProviderSwitch && idx + 1 < |chain|
    then ProviderRuns(chain[idx + 1], policy, StartModel(chain[idx + 1]), 0) + LaterRuns(chain, policy, idx + 1)
    else []
  }

  /** All runs from here on, if none of them succeeds and no retry is passed over. */
  function RunsToCome(chain: seq<Provider>, policy: Policy, l: Loop): seq<Attempt>
    requires l.providerIdx < |chain| && l.attempt <= policy.maxRetries
  {
    ProviderRuns(chain[l.providerIdx], policy, Chosen(chain[l.providerIdx], l.model), l.attempt)
      + LaterRuns(chain, policy, l.providerIdx)
  }

  /** No model after the starting one repeats an earlier one. */
  predicate NoRepeats(p: Provider) {
    forall k :: IndexOf(p.models, StartModel(p)) < k < |p.models| && 0 <= k ==> p.models[k] !in p.models[..k]
  }

  /** The providers that the policy may lead to. */
  function Within(chain: seq<Provider>, policy: Policy): seq<Provider>
    requires chain != []
  {
    if policy.allowProviderSwitch then chain else chain[..1]
  }

  /** Wherever the policy switches models, none of them repeats. */
  ghost predicate NoCycle(chain: seq<Provider>, policy: Policy) {
    chain != [] && policy.allowModelSwitch ==> forall i :: 0 <= i < |Within(chain, policy)| ==> NoRepeats(Within(chain, policy)[i])
  }

  /** The provider was entered with its starting model and has only moved forward since. */
  predicate Reached(chain: seq<Provider>, policy: Policy, l: Loop) {
    && l.providerIdx < |chain| && l.attempt <= policy.maxRetries
    && (l.providerIdx == 0 || policy.allowProviderSwitch)
    && IndexOf(chain[l.providerIdx].models, StartModel(chain[l.providerIdx]))
         <= IndexOf(chain[l.providerIdx].models, Chosen(chain[l.providerIdx], l.model))
  }

  /** A switch moves to the next position when models do not repeat. */
  lemma SwitchAdvances(p: Provider, model: string)
    requires NoRepeats(p) && CanSwitchModel(p.models, model)
    requires IndexOf(p.models, StartModel(p)) <= IndexOf(p.models, model)
    ensures IndexOf(p.models, SwitchedModel(p.models, model)) == IndexOf(p.models, model) + 1
    ensures SwitchedModel(p.models, model) in p.models
  {
    var k := IndexOf(p.models, model) + 1;
    assert p.models[k] !in p.models[..k];
  }

  lemma RetryLeaves(chain: seq<Provider>, policy: Policy, l: Loop, model: string)
    requires Reached(chain, policy, l) && l.attempt < policy.maxRetries && model == Chosen(chain[l.providerIdx], l.model)
    ensures var next := Loop(l.providerIdx, Some(model), l.attempt + 1);
      Reached(chain, policy, next) && RunsToCome(chain, policy, l) == [Used(chain, l)] + RunsToCome(chain, policy, next)
  {
    assert Chosen(chain[l.providerIdx], Some(model)) == model;
    RetryRuns(chain[l.providerIdx], policy, model, l.attempt);
  }

  lemma RetryRuns(p: Provider, policy: Policy, model: string, attempt: nat)
    requires attempt < policy.maxRetries
    ensures ProviderRuns(p, policy, model, attempt) == [Attempt(p.name, model)] + ProviderRuns(p, policy, model, attempt + 1)
  {
    OneRepeated(Attempt(p.name, model), policy.maxRetries - attempt);
  }

  lemma OneRepeated(a: Attempt, count: nat)
    ensures Repeated(a, count + 1) == [a] + Repeated(a, count)
  {
  }

  lemma NextModelRuns(p: Provider, policy: Policy, next: string)
    requires TriesModels(p, policy) && next in p.models
    ensures ModelRuns(p, policy.maxRetries, IndexOf(p.models, next)) == ProviderRuns(p, policy, next, 0)
  {
  }

  /** The runs of the next model follow those of this one. */
  lemma SwitchRuns(p: Provider, policy: Policy, model: string, attempt: nat)
    requires NoRepeats(p) && policy.allowModelSwitch && CanSwitchModel(p.models, model) && attempt <= policy.maxRetries
    requires IndexOf(p.models, StartModel(p)) <= IndexOf(p.models, model)
    ensures ProviderRuns(p, policy, model, attempt)
      == [Attempt(p.name, model)] + Repeated(Attempt(p.name, model), policy.maxRetries - attempt)
           + ProviderRuns(p, policy, SwitchedModel(p.models, model), 0)
  {
    SwitchAdvances(p, model);
    OneRepeated(Attempt(p.name, model), policy.maxRetries - attempt);
    NextModelRuns(p, policy, SwitchedModel(p.models, model));
  }

  lemma SameProvider(chain: seq<Provider>, policy: Policy, l: Loop, next: Loop, first: seq<Attempt>)
    requires l.providerIdx == next.providerIdx < |chain| && l.attempt <= policy.maxRetries && next.attempt <= policy.maxRetries
    requires var p := chain[l.providerIdx];
      ProviderRuns(p, policy, Chosen(p, l.model), l.attempt) == first + ProviderRuns(p, policy, Chosen(p, next.model), next.attempt)
    ensures RunsToCome(chain, policy, l) == first + RunsToCome(chain, policy, next)
  {
  }

  lemma SwitchLeaves(chain: seq<Provider>, policy: Policy, l: Loop, model: string, next: Loop)
    requires Reached(chain, policy, l) && NoRepeats(chain[l.providerIdx]) && model == Chosen(chain[l.providerIdx], l.model)
    requires policy.allowModelSwitch && CanSwitchModel(chain[l.providerIdx].models, model)
    requires next == Loop(l.providerIdx, Some(SwitchedModel(chain[l.providerIdx].models, model)), 0)
    ensures Reached(chain, policy, next)
    ensures RunsToCome(chain, policy, l)
      == [Used(chain, l)] + Repeated(Used(chain, l), policy.maxRetries - l.attempt) + RunsToCome(chain, policy, next)
  {
    var p := chain[l.providerIdx];
    SwitchAdvances(p, model);
    SwitchRuns(p, policy, model, l.attempt);
    SameProvider(chain, policy, l, next, [Used(chain, l)] + Repeated(Used(chain, l), policy.maxRetries - l.attempt));
  }

  /** The runs of the next provider follow those of this one. */
  lemma ProviderLeaves(chain: seq<Provider>, policy: Policy, l: Loop, next: Loop) returns (skipped: seq<Attempt>)
    requires Reached(chain, policy, l) && policy.allowProviderSwitch && l.providerIdx + 1 < |chain|
    requires next == Loop(l.providerIdx + 1, None, 0)
    ensures Reached(chain, policy, next)
    ensures RunsToCome(chain, policy, l) == [Used(chain, l)] + skipped + RunsToCome(chain, policy, next)
    ensures Exhausted(chain, policy, l) ==> skipped == []
  {
    skipped := LastRuns(chain, policy, l);
  }

  /** All attempts are used, and there is no other model to switch to. */
  predicate Exhausted(chain: seq<Provider>, policy: Policy, l: Loop)
    requires l.providerIdx < |chain|
  {
    && l.attempt == policy.maxRetries
    && !(policy.allowModelSwitch && CanSwitchModel(chain[l.providerIdx].models, Chosen(chain[l.providerIdx], l.model)))
  }

  lemma LastRuns(chain: seq<Provider>, policy: Policy, l: Loop) returns (skipped: seq<Attempt>)
    requires l.providerIdx < |chain| && l.attempt <= policy.maxRetries
    ensures RunsToCome(chain, policy, l) == [Used(chain, l)] + skipped + LaterRuns(chain, policy, l.providerIdx)
    ensures Exhausted(chain, policy, l) ==> skipped == []
  {
    var p := chain[l.providerIdx];
    var model := Chosen(p, l.model);
    var runs := ProviderRuns(p, policy, model, l.attempt);
    skipped := runs[1..];
    assert runs == [Used(chain, l)] + skipped;
    if Exhausted(chain, policy, l) && TriesModels(p, policy) {
      assert ModelRuns(p, policy.maxRetries, IndexOf(p.models, model) + 1) == [];
    }
  }

  /** The ways a loop goes on after a failure. */
  lemma GoesOn(chain: seq<Provider>, policy: Policy, l: Loop, f: Failure)
    requires l.providerIdx < |chain| && l.attempt <= policy.maxRetries
    ensures var p := chain[l.providerIdx]; var model := Chosen(p, l.model); var after := AfterFailure(chain, policy, l, f);
      || (after.Stop? && (IsTransient(f.category) ==> Exhausted(chain, policy, l) && LaterRuns(chain, policy, l.providerIdx) == []))
      || (l.attempt < policy.maxRetries && after == Continue(Loop(l.providerIdx, Some(model), l.attempt + 1)))
      || (policy.allowModelSwitch && CanSwitchModel(p.models, model)
          && after == Continue(Loop(l.providerIdx, Some(SwitchedModel(p.models, model)), 0))
          && (IsTransient(f.category) ==> l.attempt == policy.maxRetries))
      || (policy.allowProviderSwitch && l.providerIdx + 1 < |chain|
          && after == Continue(Loop(l.providerIdx + 1, None, 0))
          && (IsTransient(f.category) ==> Exhausted(chain, policy, l)))
  {
  }

  /**
   What a failure leaves to come: some runs may be passed over, but none is added or changes
   its place. A transient failure passes over none.
   */
  lemma FailureLeaves(chain: seq<Provider>, policy: Policy, l: Loop, f: Failure, next: Loop) returns (skipped: seq<Attempt>)
    requires Reached(chain, policy, l) && NoCycle(chain, policy) && AfterFailure(chain, policy, l, f) == Continue(next)
    ensures Reached(chain, policy, next)
    ensures RunsToCome(chain, policy, l) == [Used(chain, l)] + skipped + RunsToCome(chain, policy, next)
    ensures IsTransient(f.category) ==> skipped == []
  {
    var p := chain[l.providerIdx];
    var model := Chosen(p, l.model);
    GoesOn(chain, policy, l, f);
    if l.attempt < policy.maxRetries && next == Loop(l.providerIdx, Some(model), l.attempt + 1) {
      RetryLeaves(chain, policy, l, model);
      skipped := [];
    } else if next.providerIdx == l.providerIdx {
      assert NoRepeats(Within(chain, policy)[l.providerIdx]);
      SwitchLeaves(chain, policy, l, model, next);
      skipped := Repeated(Used(chain, l), policy.maxRetries - l.attempt);
    } else {
      skipped := ProviderLeaves(chain, policy, l, next);
    }
  }

  /** Every failure that does not stop the loop leaves fewer runs. */
  lemma FailureUsesRuns(chain: seq<Provider>, policy: Policy, l: Loop, f: Failure)
    requires Reached(chain, policy, l) && NoCycle(chain, policy)
    ensures |RunsToCome(chain, policy, l)| >= 1
    ensures AfterFailure(chain, policy, l, f).Continue? ==>
      var next := AfterFailure(chain, policy, l, f).loop;
      Reached(chain, policy, next) && |RunsToCome(chain, policy, next)| < |RunsToCome(chain, policy, l)|
  {
    if AfterFailure(chain, policy, l, f).Continue? {
      var skipped := FailureLeaves(chain, policy, l, f, AfterFailure(chain, policy, l, f).loop);
    }
  }

  /** A transient failure stops the loop only when nothing else is to come. */
  lemma TransientStop(chain: seq<Provider>, policy: Policy, l: Loop, f: Failure)
    requires l.providerIdx < |chain| && l.attempt <= policy.maxRetries
    requires IsTransient(f.category) && AfterFailure(chain, policy, l, f).Stop?
    ensures RunsToCome(chain, policy, l) == [Used(chain, l)]
  {
    GoesOn(chain, policy, l, f);
    var skipped := LastRuns(chain, policy, l);
  }

  // ------------------------------------------------------------ exactly when the loop ends

  /** The loop after a series of failures. */
  function Replay(chain: seq<Provider>, policy: Policy, l: Loop, failures: seq<Failure>): NextStep
    requires l.providerIdx < |chain|
    decreases failures
  {
    if failures == [] then Continue(l)
    else
      match AfterFailure(chain, policy, l, failures[0])
      case Stop => Stop
      case Continue(next) => Replay(chain, policy, next, failures[1..])
  }

  function Overflows(count: nat): seq<Failure> {
    if count == 0 then [] else [Failure(ContextOverflow, None)] + Overflows(count - 1)
  }

  function AuthFailures(count: nat): seq<Failure> {
    if count == 0 then [] else [Failure(Auth, None)] + AuthFailures(count - 1)
  }

  ghost predicate EndsWithin(chain: seq<Provider>, policy: Policy, bound: nat)
    requires chain != []
  {
    forall failures :: |failures| >= bound ==> Replay(chain, policy, FIRST, failures).Stop?
  }

  /** However runs fail, the loop stops after boundedly many of them. */
  ghost predicate AlwaysEnds(chain: seq<Provider>, policy: Policy)
    requires chain != []
  {
    exists bound: nat :: EndsWithin(chain, policy, bound)
  }

  lemma {:induction false} ReplayEnds(chain: seq<Provider>, policy: Policy, l: Loop, failures: seq<Failure>)
    requires Reached(chain, policy, l) && NoCycle(chain, policy)
    requires |failures| >= |RunsToCome(chain, policy, l)|
    ensures Replay(chain, policy, l, failures).Stop?
    decreases failures
  {
    FailureUsesRuns(chain, policy, l, if failures == [] then Failure(Unknown, None) else failures[0]);
    if AfterFailure(chain, policy, l, failures[0]).Continue? {
      ReplayEnds(chain, policy, AfterFailure(chain, policy, l, failures[0]).loop, failures[1..]);
    }
  }

  lemma {:induction false} OverflowCount(count: nat)
    ensures |Overflows(count)| == count
  {
    if count > 0 { OverflowCount(count - 1); }
  }

  /** Before a repeated model every switch leads to a position before it. */
  lemma {:induction false} RepeatNeverEnds(chain: seq<Provider>, policy: Policy, l: Loop, k: nat, count: nat)
    requires l.providerIdx < |chain| && policy.allowModelSwitch
    requires var models := chain[l.providerIdx].models;
      k < |models| && models[k] in models[..k] && IndexOf(models, Chosen(chain[l.providerIdx], l.model)) < k
    ensures Replay(chain, policy, l, Overflows(count)).Continue?
    decreases count
  {
    if count > 0 {
      var p := chain[l.providerIdx];
      var model := Chosen(p, l.model);
      var failures := Overflows(count);
      var switched := SwitchedModel(p.models, model);
      var next := IndexOf(p.models, model) + 1;
      assert p.models[next] == switched;
      assert switched in p.models[..k];
      var j :| 0 <= j < k && p.models[j] == switched;
      assert IndexOf(p.models, switched) <= j;
      assert AfterFailure(chain, policy, l, failures[0]) == Continue(Loop(l.providerIdx, Some(switched), 0));
      assert failures[1..] == Overflows(count - 1);
      RepeatNeverEnds(chain, policy, Loop(l.providerIdx, Some(switched), 0), k, count - 1);
    }
  }

  /** Authentication failures lead to any provider of the chain. */
  lemma {:induction false} ReachProvider(chain: seq<Provider>, policy: Policy, first: nat, target: nat, more: seq<Failure>)
    requires first <= target < |chain| && (first == target || policy.allowProviderSwitch)
    ensures Replay(chain, policy, Loop(first, None, 0), AuthFailures(target - first) + more)
         == Replay(chain, policy, Loop(target, None, 0), more)
    decreases target - first
  {
    var failures := AuthFailures(target - first) + more;
    if first < target {
      assert failures[1..] == AuthFailures(target - first - 1) + more;
      assert AfterFailure(chain, policy, Loop(first, None, 0), failures[0]) == Continue(Loop(first + 1, None, 0));
      ReachProvider(chain, policy, first + 1, target, more);
    } else {
      assert failures == more;
    }
  }

  /**
   Under any policy, the loop ends for all failures exactly when none of the lists it may switch
   models in repeats a model after the starting one.
   */
  lemma EndsExactlyWithoutRepeats(chain: seq<Provider>, policy: Policy)
    requires chain != []
    ensures AlwaysEnds(chain, policy) <==> NoCycle(chain, policy)
  {
    if NoCycle(chain, policy) {
      forall failures | |failures| >= |RunsToCome(chain, policy, FIRST)| ensures Replay(chain, policy, FIRST, failures).Stop? {
        ReplayEnds(chain, policy, FIRST, failures);
      }
      assert EndsWithin(chain, policy, |RunsToCome(chain, policy, FIRST)|);
    } else {
      var i :| 0 <= i < |Within(chain, policy)| && !NoRepeats(Within(chain, policy)[i]);
      forall bound: nat ensures !EndsWithin(chain, policy, bound) {
        RepeatOutlasts(chain, policy, i, bound);
      }
    }
  }

  lemma RepeatOutlasts(chain: seq<Provider>, policy: Policy, i: nat, bound: nat)
    requires i < |chain| && policy.allowModelSwitch && (i == 0 || policy.allowProviderSwitch) && !NoRepeats(chain[i])
    ensures !EndsWithin(chain, policy, bound)
  {
    var p := chain[i];
    var k :| IndexOf(p.models, StartModel(p)) < k < |p.models| && 0 <= k && p.models[k] in p.models[..k];
    var failures := AuthFailures(i) + Overflows(bound);
    RepeatNeverEnds(chain, policy, Loop(i, None, 0), k, bound);
    ReachProvider(chain, policy, 0, i, Overflows(bound));
    OverflowCount(bound);
    assert |failures| >= bound && Replay(chain, policy, FIRST, failures).Continue?;
  }
}
