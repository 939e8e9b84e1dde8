/** What holds over whole lives of a mission: evidence before completion, legality, bounded autonomy. */
module MissionFlowTheorems {
  import opened Wrappers
  import opened Missions
  import opened MissionFlow
  import opened MissionFlowProofs

  lemma {:induction false} RunKeepsInvariant(c: Config, worlds: seq<World>, steps: seq<Step>, n: nat)
    requires IsRun(c, worlds, steps) && n < |worlds|
    ensures Inv(c, worlds[n])
  {
    if n > 0 {
      RunKeepsInvariant(c, worlds, steps, n - 1);
      var s := steps[n - 1];
      RowKept(c, worlds[n - 1], s);
      TasksKept(c, worlds[n - 1], s);
    }
  }

  /** A completed mission has all its evidence, and the attempts never exceed their maximum. */
  lemma CompletedOnlyWithEvidence(c: Config, worlds: seq<World>, steps: seq<Step>, n: nat)
    requires IsRun(c, worlds, steps) && n < |worlds|
    ensures worlds[n].row.state == Completed ==> worlds[n].evidence == Evidence(true, c.requiredChecks, true)
    ensures worlds[n].row.correctionAttempts <= c.maxCorrectionAttempts
  {
    RunKeepsInvariant(c, worlds, steps, n);
  }

  // ------------------------------------------------------------ where evidence comes from

  /** The mission has been run as often before one step as in a later world: both belong to one cycle. */
  predicate SameCycle(w: World, v: World) {
    w.executions == v.executions
  }

  predicate SuccessfulRun(w: World, a: Action) {
    a.RunFinished? && a.completed
  }

  predicate CheckPassed(w: World, a: Action, index: nat) {
    a.CheckFinished? && a.ok && a.task in w.tasks && w.tasks[a.task].Validate? && w.tasks[a.task].next == index
  }

  /** A reviewer or the user approves what is under review. */
  predicate Approval(w: World, a: Action) {
    w.row.state == ReviewRequired && (a.UserApproves? || (a.ReviewFinished? && a.verdict.Approve?))
  }

  predicate Has(s: Segment, write: Write) {
    write in {s.first, s.second, s.third}
  }

  lemma CommitEvidence(w: World, fence: Option<nat>, write: Write, index: nat)
    ensures var v := Commit(w, fence, write).world;
      && (v.evidence.runSucceeded ==> SameCycle(w, v) && (w.evidence.runSucceeded || write == RecordSuccess))
      && (v.evidence.checksPassed > index ==> SameCycle(w, v) && (w.evidence.checksPassed > index || write == RecordCheck(index)))
      && (write != Move(Running) ==> SameCycle(w, v))
  {
  }

  /** Starting to run is a segment of its own, approving is one without a move to review, and no segment pauses. */
  predicate Plain(s: Segment) {
    && (Has(s, Move(Running)) ==> s.second.Nothing? && s.third.Nothing?)
    && (Has(s, Move(Approved)) ==> !Has(s, Move(ReviewRequired)))
    && !Has(s, Move(Paused))
  }

  lemma SegmentEvidence(w: World, s: Segment, count: nat, index: nat)
    requires Plain(s)
    ensures var v := CommitAll(w, s, count).world;
      && (v.evidence.runSucceeded ==> SameCycle(w, v) && (w.evidence.runSucceeded || Has(s, RecordSuccess)))
      && (v.evidence.checksPassed > index ==> SameCycle(w, v) && (w.evidence.checksPassed > index || Has(s, RecordCheck(index))))
  {
    var a := Commit(w, s.fence, s.first);
    var b := Commit(a.world, s.fence, s.second);
    CommitEvidence(w, s.fence, s.first, index);
    CommitEvidence(a.world, s.fence, s.second, index);
    CommitEvidence(b.world, s.fence, s.third, index);
  }

  predicate Late(s: MissionState) {
    s in {Approved, Integrated, Completed}
  }

  /** Where the states past review, and review itself, can be reached from. */
  lemma LateEntries(s: MissionState)
    ensures Approved in Exits(s) ==> s in {ReviewRequired, Paused}
    ensures Integrated in Exits(s) ==> s in {Approved, Paused}
    ensures Completed in Exits(s) ==> s == Integrated
  {
  }

  lemma CommitLate(w: World, fence: Option<nat>, write: Write)
    requires w.row.state != Paused && write != Move(Paused)
    ensures var v := Commit(w, fence, write).world;
      && v.row.state != Paused
      && (Late(v.row.state) ==> SameCycle(w, v) && (Late(w.row.state) || (w.row.state == ReviewRequired && write == Move(Approved))))
      && (v.row.state == ReviewRequired ==> w.row.state == ReviewRequired || write == Move(ReviewRequired))
      && (v.row.state == ReviewRequired ==> SameCycle(w, v))
  {
    LateEntries(w.row.state);
  }

  lemma SegmentLate(w: World, s: Segment, count: nat)
    requires w.row.state != Paused && Plain(s)
    ensures var v := CommitAll(w, s, count).world;
      Late(Standing(v.row)) ==> SameCycle(w, v) && (Late(Standing(w.row)) || (w.row.state == ReviewRequired && Has(s, Move(Approved))))
  {
    var a := Commit(w, s.fence, s.first);
    var b := Commit(a.world, s.fence, s.second);
    CommitLate(w, s.fence, s.first);
    CommitLate(a.world, s.fence, s.second);
    CommitLate(b.world, s.fence, s.third);
  }

  /** Which of the writes that make evidence an action can have. */
  lemma WritesOfAction(c: Config, w: World, a: Action, index: nat)
    requires Enabled(c, w, a)
    ensures var s := SegmentOf(c, w, a);
      && (Has(s, RecordSuccess) ==> SuccessfulRun(w, a))
      && (Has(s, RecordCheck(index)) ==> CheckPassed(w, a, index))
      && Plain(s)
      && (Has(s, Move(Approved)) ==> a.UserApproves? || (a.ReviewFinished? && a.verdict.Approve?))
  {
  }

  lemma EvidenceGrowsBySteps(c: Config, w: World, s: Step, index: nat)
    requires Enabled(c, w, s.action)
    ensures var v := Apply(c, w, s);
      && (v.evidence.runSucceeded ==> SameCycle(w, v) && (w.evidence.runSucceeded || SuccessfulRun(w, s.action)))
      && (v.evidence.checksPassed > index ==> SameCycle(w, v) && (w.evidence.checksPassed > index || CheckPassed(w, s.action, index)))
  {
    var b, seg := Begun(w, s.action), SegmentOf(c, w, s.action);
    assert SameCycle(w, b) && b.evidence == w.evidence;
    WritesOfAction(c, w, s.action, index);
    SegmentEvidence(b, seg, if s.diedAfter.Some? then s.diedAfter.value else 3, index);
  }

  lemma PausedIsIdle(c: Config, w: World, a: Action)
    requires RowSound(c, w) && Enabled(c, w, a) && Begun(w, a).row.state == Paused
    ensures SegmentOf(c, w, a) == IDLE
  {
  }

  lemma BegunLate(c: Config, w: World, a: Action)
    requires RowSound(c, w) && Enabled(c, w, a)
    ensures var b := Begun(w, a);
      && SameCycle(w, b) && (Late(Standing(b.row)) ==> Late(Standing(w.row)))
      && (b.row.state == ReviewRequired ==> w.row.state == ReviewRequired || a.Resume?)
  {
  }

  lemma SegmentOfActionLate(c: Config, w: World, a: Action, count: nat)
    requires RowSound(c, w) && Enabled(c, w, a)
    ensures var b, s := Begun(w, a), SegmentOf(c, w, a); var v := CommitAll(b, s, count).world;
      Late(Standing(v.row)) ==> SameCycle(b, v) && (Late(Standing(b.row)) || (b.row.state == ReviewRequired && Has(s, Move(Approved))))
  {
    var b, s := Begun(w, a), SegmentOf(c, w, a);
    if b.row.state == Paused {
      PausedIsIdle(c, w, a);
    } else {
      WritesOfAction(c, w, a, 0);
      SegmentLate(b, s, count);
    }
  }

  lemma ApprovedBySteps(c: Config, w: World, s: Step)
    requires RowSound(c, w) && Enabled(c, w, s.action)
    ensures var v := Apply(c, w, s);
      Late(Standing(v.row)) ==> SameCycle(w, v) && (Late(Standing(w.row)) || Approval(w, s.action))
  {
    BegunLate(c, w, s.action);
    WritesOfAction(c, w, s.action, 0);
    SegmentOfActionLate(c, w, s.action, if s.diedAfter.Some? then s.diedAfter.value else 3);
    SpawnKeepsRowAndCycle(CommitAll(Begun(w, s.action), SegmentOf(c, w, s.action), 3).world, SegmentOf(c, w, s.action).starts);
  }

  lemma SpawnKeepsRowAndCycle(w: World, task: Option<Task>)
    ensures Spawn(w, task).row == w.row && SameCycle(w, Spawn(w, task))
  {
  }

  // ------------------------------------------------------------ evidence over whole runs

  lemma {:induction false} SuccessHasWitness(c: Config, worlds: seq<World>, steps: seq<Step>, n: nat) returns (k: nat)
    requires IsRun(c, worlds, steps) && n < |worlds| && worlds[n].evidence.runSucceeded
    ensures k < n && SameCycle(worlds[k], worlds[n]) && SuccessfulRun(worlds[k], steps[k].action)
  {
    EvidenceGrowsBySteps(c, worlds[n - 1], steps[n - 1], 0);
    if worlds[n - 1].evidence.runSucceeded {
      k := SuccessHasWitness(c, worlds, steps, n - 1);
    } else {
      k := n - 1;
    }
  }

  lemma {:induction false} CheckHasWitness(c: Config, worlds: seq<World>, steps: seq<Step>, n: nat, index: nat) returns (k: nat)
    requires IsRun(c, worlds, steps) && n < |worlds| && worlds[n].evidence.checksPassed > index
    ensures k < n && SameCycle(worlds[k], worlds[n]) && CheckPassed(worlds[k], steps[k].action, index)
  {
    EvidenceGrowsBySteps(c, worlds[n - 1], steps[n - 1], index);
    if worlds[n - 1].evidence.checksPassed > index {
      k := CheckHasWitness(c, worlds, steps, n - 1, index);
    } else {
      k := n - 1;
    }
  }

  lemma {:induction false} ApprovalHasWitness(c: Config, worlds: seq<World>, steps: seq<Step>, n: nat) returns (k: nat)
    requires IsRun(c, worlds, steps) && n < |worlds| && Late(Standing(worlds[n].row))
    ensures k < n && SameCycle(worlds[k], worlds[n]) && Approval(worlds[k], steps[k].action)
  {
    RunKeepsInvariant(c, worlds, steps, n - 1);
    ApprovedBySteps(c, worlds[n - 1], steps[n - 1]);
    if Late(Standing(worlds[n - 1].row)) {
      k := ApprovalHasWitness(c, worlds, steps, n - 1);
    } else {
      k := n - 1;
    }
  }

  ghost predicate CheckedBefore(worlds: seq<World>, steps: seq<Step>, index: nat, k: nat)
    requires |worlds| == |steps| + 1
  {
    exists m :: 0 <= m < k < |worlds| && SameCycle(worlds[m], worlds[k]) && CheckPassed(worlds[m], steps[m].action, index)
  }

  /**
   A completed mission was approved in its latest cycle while it was under review, and before
   that, in the same cycle, a run of it had succeeded and every required check had passed.
   */
  lemma CompletionIsEarned(c: Config, worlds: seq<World>, steps: seq<Step>, n: nat) returns (succeeded: nat, approved: nat)
    requires IsRun(c, worlds, steps) && n < |worlds| && worlds[n].row.state == Completed
    ensures succeeded < approved < n
    ensures SameCycle(worlds[approved], worlds[n]) && Approval(worlds[approved], steps[approved].action)
    ensures SameCycle(worlds[succeeded], worlds[n]) && SuccessfulRun(worlds[succeeded], steps[succeeded].action)
    ensures forall index: nat :: index < c.requiredChecks ==> CheckedBefore(worlds, steps, index, approved)
  {
    RunKeepsInvariant(c, worlds, steps, n);
    approved := ApprovalHasWitness(c, worlds, steps, n);
    RunKeepsInvariant(c, worlds, steps, approved);
    succeeded := SuccessHasWitness(c, worlds, steps, approved);
    forall index: nat | index < c.requiredChecks ensures CheckedBefore(worlds, steps, index, approved) {
      var m := CheckHasWitness(c, worlds, steps, approved, index);
    }
  }
}
