/**
 Rotations of the administrator's token by operators: prepare at the server, swap the value in
 the vault, prove it, commit; or swap back and abort. Any number of operators may be at work,
 each may fail or die between any two calls.
 */
module TokenRotation {
  import opened Wrappers
  import opened ApiToken

  /** Where an operator is; `id` is the rotation it was given. */
  datatype Phase =
    | Preparing
    | Staging(id: RotationId)
    | AbortingStage(id: RotationId)
    | Verifying(id: RotationId)
    | RollingBack(id: RotationId)
    | AbortingRollback(id: RotationId)
    | Checking(id: RotationId)
    | AbortingChange(id: RotationId)
    | Committing(id: RotationId)
    | Resuming
    | VerifyingResumed(id: RotationId)
    | CommittingResumed(id: RotationId)

  datatype Operator = Operator(previous: Token, next: Token, phase: Phase)

  /** The server's row, the vault's token, the operators alive, and the ids used and promoted so far. */
  datatype System = System(
    row: Row, vault: Token, operators: map<nat, Operator>, ids: set<RotationId>, promoted: seq<RotationId>)

  /** A new operator, or the next call of one; `fails` when the call fails or its answer is lost. */
  datatype Step =
    | Begin(operator: nat, next: Token)
    | Advance(operator: nat, fails: bool, newId: RotationId)
    | Die(operator: nat)

  function Done(s: System, i: nat): System {
    s.(operators := s.operators - {i})
  }

  function Goes(s: System, i: nat, phase: Phase): System
    requires i in s.operators
  {
    s.(operators := s.operators[i := s.operators[i].(phase := phase)])
  }

  /** The server prepares even when its answer is lost on the way back. */
  function PrepareCall(s: System, i: nat, fails: bool, newId: RotationId): System
    requires i in s.operators
  {
    var o := s.operators[i];
    match Prepare(s.row, o.previous, o.next, newId)
    case Err(_) => Done(s, i)
    case Ok((row, id)) =>
      var prepared := s.(row := row, ids := s.ids + {id});
      if fails then Done(prepared, i) else Goes(prepared, i, Staging(id))
  }

  function CommitCall(s: System, i: nat, id: RotationId): System
    requires i in s.operators
  {
    match Commit(s.row, id, s.operators[i].next)
    case Err(_) => Done(s, i)
    case Ok(row) => Done(s.(row := row, promoted := if row == s.row then s.promoted else s.promoted + [id]), i)
  }

  function AbortCall(s: System, i: nat, id: RotationId): System
    requires i in s.operators
  {
    match Abort(s.row, id, s.operators[i].previous)
    case Err(_) => Done(s, i)
    case Ok(row) => Done(s.(row := row), i)
  }

  /** What the operator learns about its token when it finds it in the vault already. */
  function StatusCall(s: System, i: nat): System
    requires i in s.operators
  {
    if RoleOf(s.row, s.operators[i].next) == Some(PendingRole) && s.row.rotation.Some?
    then Goes(s, i, VerifyingResumed(s.row.rotation.value)) else Done(s, i)
  }

  /** A call that fails before it reaches the server or the vault leaves both alone. */
  function Advanced(s: System, i: nat, fails: bool, newId: RotationId): System
    requires i in s.operators
  {
    var o := s.operators[i];
    match o.phase
    case Preparing => PrepareCall(s, i, fails, newId)
    case Staging(id) =>
      if fails || s.vault != o.previous then Goes(s, i, AbortingStage(id)) else Goes(s.(vault := o.next), i, Verifying(id))
    case AbortingStage(id) => if fails then Done(s, i) else AbortCall(s, i, id)
    case Verifying(id) => if fails || RoleOf(s.row, o.next).None? then Goes(s, i, RollingBack(id)) else Goes(s, i, Checking(id))
    case RollingBack(id) =>
      if fails || s.vault != o.next then Done(s, i) else Goes(s.(vault := o.previous), i, AbortingRollback(id))
    case AbortingRollback(id) => if fails then Done(s, i) else AbortCall(s, i, id)
    case Checking(id) => Goes(s, i, if s.vault == o.next then Committing(id) else AbortingChange(id))
    case AbortingChange(id) => if fails then Done(s, i) else AbortCall(s, i, id)
    case Committing(id) => if fails then Done(s, i) else CommitCall(s, i, id)
    case Resuming => if fails then Done(s, i) else StatusCall(s, i)
    case VerifyingResumed(id) => if fails || RoleOf(s.row, o.next).None? then Done(s, i) else Goes(s, i, CommittingResumed(id))
    case CommittingResumed(id) => if fails then Done(s, i) else CommitCall(s, i, id)
  }

  predicate Enabled(s: System, step: Step) {
    match step
    case Begin(i, _) => i !in s.operators
    case Advance(i, _, newId) => i in s.operators && newId !in s.ids
    case Die(i) => i in s.operators
  }

  function Apply(s: System, step: Step): System
    requires Enabled(s, step)
  {
    match step
    case Begin(i, next) =>
      s.(operators := s.operators[i := Operator(s.vault, next, if s.vault == next then Resuming else Preparing)])
    case Advance(i, fails, newId) => Advanced(s, i, fails, newId)
    case Die(i) => Done(s, i)
  }

  /** No other operator alive rotates to the same token. */
  ghost predicate Alone(s: System, step: Step) {
    step.Begin? ==> forall j :: j in s.operators ==> s.operators[j].next != step.next
  }

  function Initial(token: Token): System {
    System(Row(Hash(token), None, None, None), token, map[], {}, [])
  }

  ghost predicate IsRun(systems: seq<System>, steps: seq<Step>) {
    && |systems| == |steps| + 1
    && (exists token :: systems[0] == Initial(token))
    && forall i {:trigger steps[i]} :: 0 <= i < |steps| ==> Enabled(systems[i], steps[i]) && systems[i + 1] == Apply(systems[i], steps[i])
  }

  // ------------------------------------------------------------ invariant

  predicate Staged(phase: Phase) {
    phase.Verifying? || phase.RollingBack? || phase.Checking? || phase.Committing? || phase.VerifyingResumed? || phase.CommittingResumed?
  }

  predicate Resumed(phase: Phase) {
    phase.VerifyingResumed? || phase.CommittingResumed?
  }

  /** What an operator that is alive knows about the server and the vault. */
  predicate Knows(s: System, o: Operator) {
    match o.phase
    case Preparing =>
      o.previous != o.next
      && (s.row.pending == Some(Hash(o.next)) && s.row.current == Hash(o.previous) ==> s.vault == o.previous)
    case Resuming => o.previous == o.next && (s.row.pending == Some(Hash(o.next)) ==> s.vault == o.next)
    case _ =>
      && s.row.pending == Some(Hash(o.next)) && s.row.rotation == Some(o.phase.id) && !o.phase.AbortingChange?
      && s.vault == (if Staged(o.phase) then o.next else o.previous)
      && (!Resumed(o.phase) ==> s.row.current == Hash(o.previous))
  }

  predicate HasRole(s: System) {
    RoleOf(s.row, s.vault).Some?
  }

  /** The row is consistent, and its ids are known. */
  predicate RowValid(s: System) {
    && Valid(s.row)
    && (s.row.rotation.Some? ==> s.row.rotation.value in s.ids)
    && (s.row.lastCommitted.Some? ==> s.row.lastCommitted.value in s.ids)
  }

  predicate RowSound(s: System) {
    HasRole(s) && RowValid(s)
  }

  ghost predicate Distinct(s: System) {
    forall i, j :: i in s.operators && j in s.operators && i != j ==> s.operators[i].next != s.operators[j].next
  }

  ghost predicate AllKnow(s: System) {
    forall i :: i in s.operators ==> Knows(s, s.operators[i])
  }

  ghost predicate Inv(s: System) {
    RowSound(s) && Distinct(s) && AllKnow(s)
  }

  lemma AdvanceTouchesOne(s: System, i: nat, fails: bool, newId: RotationId, j: nat)
    requires i in s.operators && j in Advanced(s, i, fails, newId).operators
    ensures j in s.operators && Advanced(s, i, fails, newId).operators[j].next == s.operators[j].next
    ensures j != i ==> Advanced(s, i, fails, newId).operators[j] == s.operators[j]
  {
  }

  lemma DistinctKept(s: System, step: Step, v: System)
    requires Distinct(s) && Enabled(s, step) && Alone(s, step) && v == Apply(s, step)
    ensures Distinct(v)
  {
    if step.Advance? {
      forall j | j in v.operators ensures j in s.operators && v.operators[j].next == s.operators[j].next {
        AdvanceTouchesOne(s, step.operator, step.fails, step.newId, j);
      }
    }
  }

  lemma PrepareKeepsSound(s: System, i: nat, fails: bool, newId: RotationId)
    requires RowSound(s) && i in s.operators && s.operators[i].phase.Preparing? && Knows(s, s.operators[i]) && newId !in s.ids
    ensures var v := PrepareCall(s, i, fails, newId); RowSound(v) && (i in v.operators ==> Knows(v, v.operators[i]))
  {
  }

  lemma AbortKeepsSound(s: System, i: nat, id: RotationId)
    requires RowSound(s) && i in s.operators && s.vault == s.operators[i].previous
    ensures RowSound(AbortCall(s, i, id))
  {
  }

  lemma CommitKeepsSound(s: System, i: nat, id: RotationId)
    requires RowSound(s) && i in s.operators && s.vault == s.operators[i].next && s.row.rotation == Some(id)
    ensures RowSound(CommitCall(s, i, id))
  {
  }

  /** A call keeps the row sound, and the operator that made it knows what it needs. */
  lemma AdvanceKeepsSound(s: System, i: nat, fails: bool, newId: RotationId)
    requires RowSound(s) && i in s.operators && Knows(s, s.operators[i]) && newId !in s.ids
    ensures var v := Advanced(s, i, fails, newId); RowSound(v) && (i in v.operators ==> Knows(v, v.operators[i]))
  {
    match s.operators[i].phase
    case Preparing => PrepareKeepsSound(s, i, fails, newId);
    case AbortingStage(id) => AbortKeepsSound(s, i, id);
    case AbortingRollback(id) => AbortKeepsSound(s, i, id);
    case Committing(id) => CommitKeepsSound(s, i, id);
    case CommittingResumed(id) => CommitKeepsSound(s, i, id);
    case _ =>
  }

  /** A call leaves alone what another operator with another token knows. */
  lemma OthersStillKnow(s: System, i: nat, fails: bool, newId: RotationId, o: Operator)
    requires RowSound(s) && i in s.operators && Knows(s, s.operators[i]) && Knows(s, o) && o.next != s.operators[i].next
    ensures Knows(Advanced(s, i, fails, newId), o)
  {
    match s.operators[i].phase
    case Preparing =>
    case AbortingStage(id) =>
    case AbortingRollback(id) =>
    case Committing(id) =>
    case CommittingResumed(id) =>
    case _ =>
  }

  lemma AdvanceKeepsKnowing(s: System, i: nat, fails: bool, newId: RotationId, v: System, j: nat)
    requires Inv(s) && i in s.operators && newId !in s.ids && v == Advanced(s, i, fails, newId) && j in v.operators
    ensures Knows(v, v.operators[j])
  {
    AdvanceTouchesOne(s, i, fails, newId, j);
    if j == i {
      AdvanceKeepsSound(s, i, fails, newId);
    } else {
      OthersStillKnow(s, i, fails, newId, s.operators[j]);
    }
  }

  lemma InvKept(s: System, step: Step)
    requires Inv(s) && Enabled(s, step) && Alone(s, step)
    ensures Inv(Apply(s, step))
  {
    var v := Apply(s, step);
    DistinctKept(s, step, v);
    if step.Advance? {
      AdvanceKeepsSound(s, step.operator, step.fails, step.newId);
      forall j | j in v.operators ensures Knows(v, v.operators[j]) {
        AdvanceKeepsKnowing(s, step.operator, step.fails, step.newId, v, j);
      }
    }
  }

  // ------------------------------------------------------------ whole runs

  ghost predicate AloneRun(systems: seq<System>, steps: seq<Step>) {
    IsRun(systems, steps) && forall i {:trigger steps[i]} :: 0 <= i < |steps| ==> Alone(systems[i], steps[i])
  }

  lemma {:induction false} RunKeepsInvariant(systems: seq<System>, steps: seq<Step>, n: nat)
    requires AloneRun(systems, steps) && n < |systems|
    ensures Inv(systems[n])
  {
    if n > 0 {
      RunKeepsInvariant(systems, steps, n - 1);
      InvKept(systems[n - 1], steps[n - 1]);
    }
  }

  /** Whoever fails or dies when, the vault's token always has a role, so the server can be started with it. */
  lemma VaultTokenAlwaysHasRole(systems: seq<System>, steps: seq<Step>, n: nat)
    requires AloneRun(systems, steps) && n < |systems|
    ensures HasRole(systems[n])
  {
    RunKeepsInvariant(systems, steps, n);
  }

  /** A commit that reaches the server makes the new token, which is in the vault, the only one. */
  lemma CommitReplacesTheToken(systems: seq<System>, steps: seq<Step>, n: nat)
    requires AloneRun(systems, steps) && n < |steps| && steps[n].Advance? && !steps[n].fails
    requires var phase := systems[n].operators[steps[n].operator].phase; phase.Committing? || phase.CommittingResumed?
    ensures var next := systems[n].operators[steps[n].operator].next; var v := systems[n + 1];
      v.vault == next && v.row.current == Hash(next) && v.row.pending.None? && |v.promoted| == |systems[n].promoted| + 1
  {
    RunKeepsInvariant(systems, steps, n);
  }

  /** The ids promoted so far are known, differ, and do not include the prepared one. */
  ghost predicate PromotedSound(s: System) {
    && (forall i :: 0 <= i < |s.promoted| ==> s.promoted[i] in s.ids && s.row.rotation != Some(s.promoted[i]))
    && (forall i, j :: 0 <= i < j < |s.promoted| ==> s.promoted[i] != s.promoted[j])
    && (s.row.rotation.Some? ==> s.row.rotation.value in s.ids)
  }

  lemma PromotedSoundKept(s: System, step: Step)
    requires PromotedSound(s) && Enabled(s, step)
    ensures PromotedSound(Apply(s, step))
  {
  }

  /** Each rotation promotes its token at most once, also when operators share a token. */
  lemma PromotedAtMostOnce(systems: seq<System>, steps: seq<Step>, n: nat, i: nat, j: nat)
    requires IsRun(systems, steps) && n < |systems| && i < j < |systems[n].promoted|
    ensures systems[n].promoted[i] != systems[n].promoted[j]
  {
    PromotedAlwaysSound(systems, steps, n);
  }

  lemma {:induction false} PromotedAlwaysSound(systems: seq<System>, steps: seq<Step>, n: nat)
    requires IsRun(systems, steps) && n < |systems|
    ensures PromotedSound(systems[n])
  {
    if n > 0 {
      PromotedAlwaysSound(systems, steps, n - 1);
      PromotedSoundKept(systems[n - 1], steps[n - 1]);
    }
  }

  // ------------------------------------------------------------ exactly when the vault's token loses its role

  /** The abort is for the prepared rotation and shows the current token, so it takes effect. */
  predicate AbortTakesEffect(s: System, id: RotationId, previous: Token) {
    s.row.rotation == Some(id) && IsCurrent(s.row, previous)
  }

  predicate CommitTakesEffect(s: System, id: RotationId, next: Token) {
    s.row.rotation == Some(id) && s.row.pending == Some(Hash(next))
  }

  /**
   A token is swapped in that the server does not know, or the rotation is ended on one side
   while the vault holds the other.
   */
  predicate LosesRole(s: System, step: Step)
    requires Enabled(s, step)
  {
    && step.Advance? && !step.fails
    && var o := s.operators[step.operator];
       match o.phase
       case Staging(_) => s.vault == o.previous && RoleOf(s.row, o.next).None?
       case RollingBack(_) => s.vault == o.next && RoleOf(s.row, o.previous).None?
       case AbortingStage(id) => AbortTakesEffect(s, id, o.previous) && s.vault != o.previous
       case AbortingRollback(id) => AbortTakesEffect(s, id, o.previous) && s.vault != o.previous
       case AbortingChange(id) => AbortTakesEffect(s, id, o.previous) && s.vault != o.previous
       case Committing(id) => CommitTakesEffect(s, id, o.next) && s.vault != o.next
       case CommittingResumed(id) => CommitTakesEffect(s, id, o.next) && s.vault != o.next
       case _ => false
  }

  lemma AbortLosesExactly(s: System, i: nat, id: RotationId)
    requires Valid(s.row) && HasRole(s) && i in s.operators
    ensures var previous := s.operators[i].previous;
      !HasRole(AbortCall(s, i, id)) <==> AbortTakesEffect(s, id, previous) && s.vault != previous
  {
  }

  lemma CommitLosesExactly(s: System, i: nat, id: RotationId)
    requires Valid(s.row) && HasRole(s) && i in s.operators
    ensures var next := s.operators[i].next;
      !HasRole(CommitCall(s, i, id)) <==> CommitTakesEffect(s, id, next) && s.vault != next
  {
  }

  /** One step, whatever else is going on. */
  lemma RoleLostExactly(s: System, step: Step)
    requires Valid(s.row) && HasRole(s) && Enabled(s, step)
    ensures !HasRole(Apply(s, step)) <==> LosesRole(s, step)
  {
    if step.Advance? {
      match s.operators[step.operator].phase
      case AbortingStage(id) => AbortLosesExactly(s, step.operator, id);
      case AbortingRollback(id) => AbortLosesExactly(s, step.operator, id);
      case AbortingChange(id) => AbortLosesExactly(s, step.operator, id);
      case Committing(id) => CommitLosesExactly(s, step.operator, id);
      case CommittingResumed(id) => CommitLosesExactly(s, step.operator, id);
      case _ =>
    }
  }

  lemma RowValidKept(s: System, step: Step)
    requires RowValid(s) && Enabled(s, step)
    ensures RowValid(Apply(s, step))
  {
    if step.Advance? {
      var o := s.operators[step.operator];
      match o.phase
      case Preparing => assert RowValid(PrepareCall(s, step.operator, step.fails, step.newId));
      case Committing(id) => assert RowValid(CommitCall(s, step.operator, id));
      case CommittingResumed(id) => assert RowValid(CommitCall(s, step.operator, id));
      case _ =>
    }
  }

  lemma {:induction false} RowAlwaysValid(systems: seq<System>, steps: seq<Step>, n: nat)
    requires IsRun(systems, steps) && n < |systems|
    ensures RowValid(systems[n])
  {
    if n > 0 {
      RowAlwaysValid(systems, steps, n - 1);
      RowValidKept(systems[n - 1], steps[n - 1]);
    }
  }

  ghost predicate RoleSoFar(systems: seq<System>, n: nat)
    requires n < |systems|
  {
    forall k :: 0 <= k <= n ==> HasRole(systems[k])
  }

  ghost predicate NoneLost(systems: seq<System>, steps: seq<Step>, n: nat)
    requires IsRun(systems, steps) && n <= |steps|
  {
    forall k {:trigger steps[k]} :: 0 <= k < n ==> !LosesRole(systems[k], steps[k])
  }

  lemma RunStepLoses(systems: seq<System>, steps: seq<Step>, k: nat)
    requires IsRun(systems, steps) && k < |steps| && HasRole(systems[k])
    ensures HasRole(systems[k + 1]) <==> !LosesRole(systems[k], steps[k])
  {
    RowAlwaysValid(systems, steps, k);
    RoleLostExactly(systems[k], steps[k]);
  }

  /** The vault's token has a role up to a point of a run, with any operators, exactly when no step so far lost it. */
  lemma {:induction false} RoleKeptExactly(systems: seq<System>, steps: seq<Step>, n: nat)
    requires IsRun(systems, steps) && n < |systems|
    ensures RoleSoFar(systems, n) <==> NoneLost(systems, steps, n)
  {
    if n > 0 {
      RoleKeptExactly(systems, steps, n - 1);
      assert RoleSoFar(systems, n) <==> RoleSoFar(systems, n - 1) && HasRole(systems[n]);
      assert NoneLost(systems, steps, n) <==> NoneLost(systems, steps, n - 1) && !LosesRole(systems[n - 1], steps[n - 1]);
      if RoleSoFar(systems, n - 1) {
        RunStepLoses(systems, steps, n - 1);
      }
    }
  }

  // ------------------------------------------------------------ two operators with one token

  ghost predicate Reaches(systems: seq<System>, steps: seq<Step>, s: System) {
    IsRun(systems, steps) && systems[|steps|] == s
  }

  lemma Extend(systems: seq<System>, steps: seq<Step>, s: System, step: Step)
    returns (systems': seq<System>, steps': seq<Step>, s': System)
    requires Reaches(systems, steps, s) && Enabled(s, step)
    ensures s' == Apply(s, step) && Reaches(systems', steps', s')
  {
    s' := Apply(s, step);
    systems', steps' := systems + [s'], steps + [step];
    assert systems'[0] == systems[0];
  }

  /**
   Two operators that rotate to the same token at once share one rotation: the second finds the
   vault changed and aborts it under the first, and the vault is left with a token without role.
   */
  lemma SharedTokenLosesItsRole(oldToken: Token, newToken: Token) returns (systems: seq<System>, steps: seq<Step>, s: System)
    requires oldToken != newToken && oldToken != ""
    ensures Reaches(systems, steps, s) && s.vault == newToken && !HasRole(s)
  {
    s := Initial(oldToken);
    systems, steps := [s], [];
    systems, steps, s := Extend(systems, steps, s, Begin(0, newToken));
    systems, steps, s := Extend(systems, steps, s, Begin(1, newToken));
    systems, steps, s := Extend(systems, steps, s, Advance(0, false, 5));
    systems, steps, s := Extend(systems, steps, s, Advance(1, false, 6));
    systems, steps, s := Extend(systems, steps, s, Advance(0, false, 7));
    systems, steps, s := Extend(systems, steps, s, Advance(1, false, 8));
    systems, steps, s := Extend(systems, steps, s, Advance(1, false, 9));
  }
}
