/** What every step of a mission's life keeps. */
module MissionFlowProofs {
  import opened Wrappers
  import opened Missions
  import opened MissionFlow

  predicate Live(w: World, t: Task) {
    !Fenced(w, t.generation)
  }

  /** The state of the mission, looking through a pause. */
  function Standing(row: Row): MissionState {
    if row.state == Paused && row.pausedFrom.Some? then row.pausedFrom.value else row.state
  }

  /** The evidence that a state calls for is there. */
  predicate Supported(c: Config, s: MissionState, e: Evidence) {
    && (s in {ResultSubmitted, Validating, ReviewRequired, Approved, Integrated, Completed} ==> e.runSucceeded)
    && (s in {ReviewRequired, Approved, Integrated, Completed} ==> e.checksPassed == c.requiredChecks)
    && (s in {Approved, Integrated, Completed} ==> e.approved)
  }

  predicate RowSound(c: Config, w: World) {
    && w.row.correctionAttempts <= c.maxCorrectionAttempts
    && Supported(c, Standing(w.row), w.evidence)
    && (w.row.reviewBlocked ==> w.row.state == Blocked && w.evidence.runSucceeded && w.evidence.checksPassed == c.requiredChecks)
    && (w.row.state == Paused <==> w.row.pausedFrom.Some?)
    && (w.row.pausedFrom.Some? ==> w.paused && Pauseable(w.row.pausedFrom.value))
    && (w.paused ==> !Pauseable(w.row.state) || w.row.state in {Ready, Assigned, Retrying})
  }

  /** A task that is not fenced is where the mission is. */
  predicate Owns(c: Config, w: World, t: Task) {
    match t
    case Prepare(_) => w.row.state == Assigned
    case RunProvider(_) => w.row.state == Running
    case Validate(_, attempts, next) =>
      w.row.state == Validating && attempts == w.row.correctionAttempts && next == w.evidence.checksPassed && next <= c.requiredChecks
    case Review(_) => w.row.state in {ReviewRequired, Approved, Integrated, Completed, Cancelled}
    case Integrate(_) => true
  }

  predicate Driving(w: World, t: Task) {
    Live(w, t) && !t.Integrate?
  }

  ghost predicate TasksSound(c: Config, w: World) {
    && (forall i :: i in w.tasks ==> i < w.nextTask && w.tasks[i].generation <= w.generation)
    && (forall i :: i in w.tasks && w.paused ==> w.tasks[i].generation < w.generation)
    && (forall i :: i in w.tasks && Driving(w, w.tasks[i]) ==> Owns(c, w, w.tasks[i]))
    && (forall i, j :: i in w.tasks && j in w.tasks && Driving(w, w.tasks[i]) && Driving(w, w.tasks[j]) ==> i == j)
  }

  ghost predicate Inv(c: Config, w: World) {
    RowSound(c, w) && TasksSound(c, w)
  }

  // ------------------------------------------------------------ the row

  /** Why a transaction keeps the row sound, if it commits. */
  predicate Justified(c: Config, w: World, write: Write) {
    match write
    case Move(next) => CanTransition(w.row.state, next) ==>
      && w.row.state != Paused && next != Paused
      && Supported(c, next, if next == Running then NO_EVIDENCE else w.evidence)
      && (w.paused ==> !Pauseable(next) || next in {Ready, Assigned, Retrying})
    case BlockReview => w.row.state == ReviewRequired && !w.paused
    case SetAttempts(count) => count <= c.maxCorrectionAttempts
    case RecordCheck(_) => w.row.state == Validating
    case _ => true
  }

  predicate SegmentJustified(c: Config, w: World, s: Segment) {
    var a := Commit(w, s.fence, s.first);
    var b := Commit(a.world, s.fence, s.second);
    && Justified(c, w, s.first)
    && (!a.threw ==> Justified(c, a.world, s.second))
    && (!a.threw && !b.threw ==> Justified(c, b.world, s.third))
    && (s.starts.Some? && s.starts.value.Validate? && s.starts.value.next == 0 && !CommitAll(w, s, 3).threw ==>
          CommitAll(w, s, 3).world.row.state == Validating)
  }

  lemma CommitKeepsRow(c: Config, w: World, fence: Option<nat>, write: Write)
    requires RowSound(c, w) && Justified(c, w, write)
    ensures RowSound(c, Commit(w, fence, write).world)
  {
  }

  lemma CommitAllKeepsRow(c: Config, w: World, s: Segment, count: nat)
    requires RowSound(c, w) && SegmentJustified(c, w, s)
    ensures RowSound(c, CommitAll(w, s, count).world)
  {
    CommitKeepsRow(c, w, s.fence, s.first);
    var a := Commit(w, s.fence, s.first);
    if !a.threw {
      CommitKeepsRow(c, a.world, s.fence, s.second);
      var b := Commit(a.world, s.fence, s.second);
      if !b.threw {
        CommitKeepsRow(c, b.world, s.fence, s.third);
      }
    }
  }

  lemma BegunKeepsRow(c: Config, w: World, a: Action)
    requires RowSound(c, w) && Enabled(c, w, a)
    ensures RowSound(c, Begun(w, a))
  {
  }

  lemma CorrectionJustified(c: Config, w: World, fence: Option<nat>, attempts: nat)
    requires w.row.state != Paused && (w.paused ==> w.row.state in {Ready, Assigned, Retrying})
    ensures SegmentJustified(c, w, Correction(c, w, fence, attempts))
  {
  }

  lemma ReviewJustified(c: Config, w: World, fence: Option<nat>, verdict: Verdict)
    requires RowSound(c, w) && !w.paused && w.row.state in {ReviewRequired, Approved, Integrated, Completed, Cancelled}
    ensures SegmentJustified(c, w, AfterReview(c, w, fence, verdict))
  {
    if verdict.Reject? {
      CorrectionJustified(c, w, fence, w.row.correctionAttempts);
    }
  }

  lemma TaskSegmentJustified(c: Config, w: World, t: Task, a: Action)
    requires OfTask(a) && Fits(c, t, a) && RowSound(c, w)
    requires Driving(w, t) ==> Owns(c, w, t)
    ensures SegmentJustified(c, w, TaskSegment(c, w, t, a))
  {
    if !Fenced(w, t.generation) {
      var fence := Some(t.generation);
      match a
      case CheckFinished(_, ok) =>
        if !ok {
          CorrectionJustified(c, w, fence, t.attempts);
        }
      case ValidationFailed(_) => CorrectionJustified(c, w, fence, t.attempts);
      case ReviewFinished(_, verdict) => ReviewJustified(c, w, fence, verdict);
      case _ =>
    }
  }

  lemma DecisionJustified(c: Config, w: World)
    requires RowSound(c, w)
    ensures SegmentJustified(c, w, UserApproval(w)) && SegmentJustified(c, w, UserRejection(w))
  {
  }

  lemma OtherSegmentJustified(c: Config, w: World, a: Action)
    requires !OfTask(a) && Inv(c, w) && Enabled(c, w, a)
    ensures SegmentJustified(c, Begun(w, a), SegmentOf(c, w, a))
  {
    if a.UserApproves? || a.UserRejects? {
      DecisionJustified(c, Begun(w, a));
    } else if a.Restart? && w.row.state == Running && a.orphan {
      CorrectionJustified(c, Begun(w, a), None, w.row.correctionAttempts);
    }
  }

  /** Every step keeps the row sound, also one that the process dies in. */
  lemma RowKept(c: Config, w: World, s: Step)
    requires Inv(c, w) && Enabled(c, w, s.action)
    ensures RowSound(c, Apply(c, w, s))
  {
    var b, seg := Begun(w, s.action), SegmentOf(c, w, s.action);
    BegunKeepsRow(c, w, s.action);
    if OfTask(s.action) {
      TaskSegmentJustified(c, b, w.tasks[s.action.task], s.action);
    } else {
      OtherSegmentJustified(c, w, s.action);
    }
    CommitAllKeepsRow(c, b, seg, if s.diedAfter.Some? then s.diedAfter.value else 3);
  }

  // ------------------------------------------------------------ the tasks

  predicate UnderReview(s: MissionState) {
    s in {ReviewRequired, Approved, Integrated, Completed, Cancelled}
  }

  ghost predicate NoDriver(w: World) {
    forall i :: i in w.tasks ==> !Driving(w, w.tasks[i])
  }

  predicate SameTasks(w: World, v: World) {
    v.tasks == w.tasks && v.nextTask == w.nextTask && v.paused == w.paused && v.generation == w.generation
  }

  lemma CommitSameTasks(w: World, fence: Option<nat>, write: Write)
    ensures SameTasks(w, Commit(w, fence, write).world)
  {
  }

  lemma CommitAllSameTasks(w: World, s: Segment, count: nat)
    ensures SameTasks(w, CommitAll(w, s, count).world)
  {
    var a := Commit(w, s.fence, s.first);
    var b := Commit(a.world, s.fence, s.second);
    CommitSameTasks(w, s.fence, s.first);
    CommitSameTasks(a.world, s.fence, s.second);
    CommitSameTasks(b.world, s.fence, s.third);
  }

  /** Tasks stay sound over transactions when none drives the mission, or a review does and it stays under review. */
  lemma SameTasksKept(c: Config, w: World, v: World)
    requires TasksSound(c, w) && SameTasks(w, v)
    requires NoDriver(w) || (UnderReview(w.row.state) && UnderReview(v.row.state)) || (v.row == w.row && v.evidence == w.evidence)
    ensures TasksSound(c, v)
    ensures NoDriver(w) ==> NoDriver(v)
  {
  }

  lemma SpawnKeeps(c: Config, w: World, task: Option<Task>)
    requires TasksSound(c, w)
    requires task.Some? ==> !w.paused && task.value.generation == w.generation
    requires task.Some? && !task.value.Integrate? ==> NoDriver(w) && Owns(c, Spawn(w, task), task.value)
    ensures TasksSound(c, Spawn(w, task))
  {
  }

  /** What a segment does to the tasks is sound: who drove the mission before, and who drives it next. */
  ghost predicate HandsOver(c: Config, b: World, s: Segment) {
    var o := CommitAll(b, s, 3);
    && (NoDriver(b) || (UnderReview(b.row.state) && UnderReview(o.world.row.state))
        || (o.world.row == b.row && o.world.evidence == b.evidence))
    && (s.starts.Some? && !o.threw ==>
          && !b.paused && s.starts.value.generation == b.generation
          && (!s.starts.value.Integrate? ==> NoDriver(b) && Owns(c, Spawn(o.world, s.starts), s.starts.value)))
  }

  lemma HandingOverKeepsTasks(c: Config, b: World, s: Segment)
    requires TasksSound(c, b) && HandsOver(c, b, s)
    ensures TasksSound(c, Finished(b, s))
  {
    var o := CommitAll(b, s, 3);
    CommitAllSameTasks(b, s, 3);
    SameTasksKept(c, b, o.world);
    if !o.threw {
      SpawnKeeps(c, o.world, s.starts);
    }
  }

  lemma BegunOwns(c: Config, w: World, a: Action, t: Task)
    requires Owns(c, w, t) && Driving(w, t) && !a.Pause? && !a.Resume?
    ensures Owns(c, Begun(w, a), t)
  {
  }

  lemma SuspendedKeepsTasks(c: Config, w: World, a: Action)
    requires TasksSound(c, w) && Enabled(c, w, a) && (a.Pause? || a.Resume? || a.Restart?)
    ensures TasksSound(c, Begun(w, a))
    ensures NoDriver(Begun(w, a))
  {
  }

  lemma TakenUpKeepsTasks(c: Config, w: World, a: Action)
    requires TasksSound(c, w) && Enabled(c, w, a) && OfTask(a)
    ensures TasksSound(c, Begun(w, a))
    ensures Driving(w, w.tasks[a.task]) ==> NoDriver(Begun(w, a))
  {
  }

  lemma BegunKeepsTasks(c: Config, w: World, a: Action)
    requires TasksSound(c, w) && Enabled(c, w, a)
    ensures TasksSound(c, Begun(w, a))
    ensures OfTask(a) && Driving(w, w.tasks[a.task]) ==> NoDriver(Begun(w, a))
    ensures a.Resume? || a.Restart? ==> NoDriver(Begun(w, a))
  {
    if a.Pause? || a.Resume? || a.Restart? {
      SuspendedKeepsTasks(c, w, a);
    } else if OfTask(a) {
      TakenUpKeepsTasks(c, w, a);
    } else {
      var b := Begun(w, a);
      assert b.tasks == w.tasks && b.paused == w.paused && b.generation == w.generation;
      forall i | i in b.tasks && Driving(b, b.tasks[i]) ensures Owns(c, b, b.tasks[i]) {
        BegunOwns(c, w, a, w.tasks[i]);
      }
    }
  }

  lemma CorrectionHandsOver(c: Config, b: World, fence: Option<nat>, attempts: nat)
    requires NoDriver(b)
    ensures HandsOver(c, b, Correction(c, b, fence, attempts))
  {
  }

  lemma ReviewHandsOver(c: Config, b: World, generation: nat, verdict: Verdict)
    requires NoDriver(b) && !Fenced(b, generation)
    ensures HandsOver(c, b, AfterReview(c, b, Some(generation), verdict))
  {
    if verdict.Reject? {
      CorrectionHandsOver(c, b, Some(generation), b.row.correctionAttempts);
    }
  }

  lemma ExecutionHandsOver(c: Config, b: World, t: Task, a: Action)
    requires (a.Prepared? || a.RunFinished? || a.ChecksDone? || a.PublicationFailed? || a.CleanedUp?) && Fits(c, t, a)
    requires !Fenced(b, t.generation) && (Driving(b, t) ==> NoDriver(b) && Owns(c, b, t))
    ensures HandsOver(c, b, TaskSegment(c, b, t, a))
  {
  }

  lemma CheckHandsOver(c: Config, b: World, t: Task, a: Action)
    requires (a.CheckFinished? || a.ValidationFailed?) && Fits(c, t, a)
    requires !Fenced(b, t.generation) && (Driving(b, t) ==> NoDriver(b) && Owns(c, b, t))
    ensures HandsOver(c, b, TaskSegment(c, b, t, a))
  {
    if a.ValidationFailed? || !a.ok {
      CorrectionHandsOver(c, b, Some(t.generation), t.attempts);
    }
  }

  lemma TaskHandsOver(c: Config, b: World, t: Task, a: Action)
    requires OfTask(a) && Fits(c, t, a)
    requires Driving(b, t) ==> NoDriver(b) && Owns(c, b, t)
    ensures HandsOver(c, b, TaskSegment(c, b, t, a))
  {
    if !Fenced(b, t.generation) {
      match a
      case CheckFinished(_, _) => CheckHandsOver(c, b, t, a);
      case ValidationFailed(_) => CheckHandsOver(c, b, t, a);
      case ReviewFinished(_, verdict) => ReviewHandsOver(c, b, t.generation, verdict);
      case _ => ExecutionHandsOver(c, b, t, a);
    }
  }

  lemma DecisionHandsOver(c: Config, b: World, a: Action)
    requires (a.UserApproves? || a.UserRejects?) && Inv(c, b)
    ensures HandsOver(c, b, if a.UserApproves? then UserApproval(b) else UserRejection(b))
  {
    assert b.row.state in {Blocked, Failed} ==> NoDriver(b);
  }

  lemma OtherHandsOver(c: Config, w: World, a: Action)
    requires !OfTask(a) && Inv(c, w) && Enabled(c, w, a)
    ensures HandsOver(c, Begun(w, a), SegmentOf(c, w, a))
  {
    var b := Begun(w, a);
    BegunKeepsTasks(c, w, a);
    match a
    case Restart(orphan) =>
      if w.row.state == Running && orphan {
        CorrectionHandsOver(c, b, None, b.row.correctionAttempts);
      }
    case UserApproves => DecisionHandsOver(c, b, a);
    case UserRejects => DecisionHandsOver(c, b, a);
    case _ =>
  }

  /** Every step keeps the tasks sound; a step that the process dies in leaves none. */
  lemma TasksKept(c: Config, w: World, s: Step)
    requires Inv(c, w) && Enabled(c, w, s.action)
    ensures TasksSound(c, Apply(c, w, s))
  {
    if s.diedAfter.None? {
      var b := Begun(w, s.action);
      BegunKeepsTasks(c, w, s.action);
      if OfTask(s.action) {
        TaskHandsOver(c, b, w.tasks[s.action.task], s.action);
      } else {
        OtherHandsOver(c, w, s.action);
      }
      HandingOverKeepsTasks(c, b, SegmentOf(c, w, s.action));
    }
  }

  // ------------------------------------------------------------ what the segments of tasks come to

  predicate Unfenced(w: World, s: Segment) {
    s.fence.Some? ==> !Fenced(w, s.fence.value)
  }

  /** One move, and perhaps a question to the user. */
  lemma MoveOutcome(w: World, s: Segment, next: MissionState)
    requires Unfenced(w, s) && s.first == Move(next) && s.second in {Nothing, OpenApproval} && s.third.Nothing?
    ensures Finished(w, s) ==
      if CanTransition(w.row.state, next)
      then Spawn(Moved(w, next, false).(approvals := w.approvals + if s.second.OpenApproval? then 1 else 0), s.starts)
      else w
  {
  }

  /** Another attempt; a refused move leaves the attempt counted. */
  lemma RetryOutcome(w: World, s: Segment, count: nat)
    requires Unfenced(w, s) && s.first == SetAttempts(count) && s.second == Move(Retrying) && s.third == Move(Assigned)
    ensures Finished(w, s) ==
      if CanTransition(w.row.state, Retrying)
      then Spawn(w.(row := w.row.(state := Assigned, reviewBlocked := false, correctionAttempts := count)), s.starts)
      else w.(row := w.row.(correctionAttempts := count))
  {
  }

  /** A completed run is submitted and goes into validation. */
  lemma SubmitOutcome(w: World, s: Segment)
    requires Unfenced(w, s) && s.first == RecordSuccess && s.second == Move(ResultSubmitted) && s.third == Move(Validating)
    ensures Finished(w, s) ==
      var v := w.(evidence := w.evidence.(runSucceeded := true));
      if CanTransition(w.row.state, ResultSubmitted)
      then Spawn(v.(row := w.row.(state := Validating, reviewBlocked := false)), s.starts)
      else v
  {
  }

  /** An approved result goes into integration. */
  lemma ApprovalOutcome(w: World, s: Segment)
    requires Unfenced(w, s) && s.first == RecordApproval && s.second == Move(Approved) && s.third == Move(Integrated)
    ensures Finished(w, s) ==
      var v := w.(evidence := w.evidence.(approved := true));
      if CanTransition(w.row.state, Approved)
      then Spawn(v.(row := w.row.(state := Integrated, reviewBlocked := false)), s.starts)
      else v
  {
  }
}
