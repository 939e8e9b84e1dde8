/**
 One mission driven by the engine. The engine's functions are tasks that run from one `await`
 to the next; between two such segments anything else may happen: other tasks, a user's
 decision, a pause, a resume, a restart. A crash may cut a segment off after any of its
 transactions.
 */
module MissionFlow {
  import opened Wrappers
  import opened Missions

  datatype Config = Config(requiredChecks: nat, maxCorrectionAttempts: nat)

  /** The stored mission; `reviewBlocked` stands for a reason starting with the review prefix. */
  datatype Row = Row(state: MissionState, reviewBlocked: bool, correctionAttempts: nat, pausedFrom: Option<MissionState>)

  /** What was recorded since the mission last began to run. */
  datatype Evidence = Evidence(runSucceeded: bool, checksPassed: nat, approved: bool)

  const NO_EVIDENCE := Evidence(false, 0, false)

  datatype Task =
    | Prepare(generation: nat)
    | RunProvider(generation: nat)
    | Validate(generation: nat, attempts: nat, next: nat)
    | Review(generation: nat)
    | Integrate(generation: nat)

  /**
   The mission with its project: `approvals` counts the open approvals of the mission, and
   `superseded` says that its plan is no longer the active one.
   */
  datatype World = World(
    row: Row, approvals: nat, superseded: bool, paused: bool, generation: nat, supervised: bool,
    tasks: map<nat, Task>, nextTask: nat, evidence: Evidence, executions: nat)

  function Initial(supervised: bool): World {
    World(Row(Proposed, false, 0, None), 0, false, false, 0, supervised, map[], 0, NO_EVIDENCE, 0)
  }

  datatype Verdict = Approve | Reject | Unavailable

  datatype Action =
    | DependenciesMet | Schedule
    | Prepared(task: nat, ok: bool)
    | RunFinished(task: nat, completed: bool)
    | CheckFinished(task: nat, ok: bool)
    | ValidationFailed(task: nat)
    | PublicationFailed(task: nat)
    | ChecksDone(task: nat)
    | ReviewFinished(task: nat, verdict: Verdict)
    | CleanedUp(task: nat)
    | UserApproves | UserRejects | Supersede | SetProfile(supervised: bool)
    | Pause | Resume | Restart(orphan: bool)

  /** An action, and after how many transactions the process died in it, if it did. */
  datatype Step = Step(action: Action, diedAfter: Option<nat>)

  // ------------------------------------------------------------ transactions

  datatype Write =
    | Nothing | Move(next: MissionState) | BlockReview | SetAttempts(count: nat)
    | RecordSuccess | RecordCheck(index: nat) | RecordApproval | OpenApproval

  datatype Committed = Committed(world: World, threw: bool)

  predicate Fenced(w: World, generation: nat) {
    w.paused || w.generation != generation
  }

  /** A mission changes its state; the evidence starts afresh when it begins to run. */
  function Moved(w: World, next: MissionState, reviewBlocked: bool): World {
    w.(row := w.row.(state := next, reviewBlocked := reviewBlocked),
       evidence := if next == Running then NO_EVIDENCE else w.evidence,
       executions := if next == Running then w.executions + 1 else w.executions)
  }

  /** One transaction of the store; it refuses stale work and illegal transitions. */
  function Commit(w: World, fence: Option<nat>, write: Write): Committed {
    if write.Nothing? then Committed(w, false)
    else if fence.Some? && Fenced(w, fence.value) then Committed(w, true)
    else match write
      case Nothing => Committed(w, false)
      case Move(next) => if CanTransition(w.row.state, next) then Committed(Moved(w, next, false), false) else Committed(w, true)
      case BlockReview => if CanTransition(w.row.state, Blocked) then Committed(Moved(w, Blocked, true), false) else Committed(w, true)
      case SetAttempts(count) => Committed(w.(row := w.row.(correctionAttempts := count)), false)
      case RecordSuccess => Committed(w.(evidence := w.evidence.(runSucceeded := true)), false)
      case RecordCheck(index) =>
        Committed(w.(evidence := w.evidence.(checksPassed := if w.evidence.checksPassed == index then index + 1 else w.evidence.checksPassed)), false)
      case RecordApproval => Committed(w.(evidence := w.evidence.(approved := true)), false)
      case OpenApproval => Committed(w.(approvals := w.approvals + 1), false)
  }

  /** The transactions of one segment and the task that goes on from there. */
  datatype Segment = Segment(fence: Option<nat>, first: Write, second: Write, third: Write, starts: Option<Task>)

  const IDLE := Segment(None, Nothing, Nothing, Nothing, None)

  /** The first `count` transactions, up to one that throws. */
  function CommitAll(w: World, s: Segment, count: nat): Committed {
    var a := if count > 0 then Commit(w, s.fence, s.first) else Committed(w, false);
    if a.threw then a
    else
      var b := if count > 1 then Commit(a.world, s.fence, s.second) else a;
      if b.threw then b else if count > 2 then Commit(b.world, s.fence, s.third) else b
  }

  /** A task goes on; a validation starts with no check passed. */
  function Spawn(w: World, task: Option<Task>): World {
    if task.None? then w
    else w.(tasks := w.tasks[w.nextTask := task.value], nextTask := w.nextTask + 1,
            evidence := if task.value.Validate? && task.value.next == 0 then w.evidence.(checksPassed := 0) else w.evidence)
  }

  /** A segment that nothing cuts off: its transactions, and then the task that goes on unless one threw. */
  function Finished(w: World, s: Segment): World {
    var o := CommitAll(w, s, 3);
    if o.threw then o.world else Spawn(o.world, s.starts)
  }

  // ------------------------------------------------------------ the engine's segments

  /** A review asks the user in a supervised project, and starts a reviewer in another one. */
  function ReviewRequest(w: World): Write {
    if w.supervised then OpenApproval else Nothing
  }

  function ReviewTask(w: World): Option<Task> {
    if w.supervised then None else Some(Review(w.generation))
  }

  /** Bounded correction: another attempt while the limit allows, failure otherwise. */
  function Correction(c: Config, w: World, fence: Option<nat>, attempts: nat): Segment {
    if attempts + 1 > c.maxCorrectionAttempts then Segment(fence, Move(Failed), OpenApproval, Nothing, None)
    else Segment(fence, SetAttempts(attempts + 1), Move(Retrying), Move(Assigned), if w.paused then None else Some(Prepare(w.generation)))
  }

  function UserApproval(w: World): Segment {
    if w.superseded then IDLE
    else match w.row.state
      case Blocked =>
        if w.row.reviewBlocked then Segment(None, Move(ReviewRequired), ReviewRequest(w), Nothing, ReviewTask(w))
        else Segment(None, Move(Ready), Nothing, Nothing, None)
      case Failed =>
        Segment(None, SetAttempts(0), Move(Retrying), Move(Assigned), if w.paused then None else Some(Prepare(w.generation)))
      case ReviewRequired =>
        if w.paused then Segment(None, RecordApproval, Move(Approved), Nothing, None)
        else Segment(None, RecordApproval, Move(Approved), Move(Integrated), Some(Integrate(w.generation)))
      case _ => IDLE
  }

  function UserRejection(w: World): Segment {
    if w.superseded then IDLE
    else match w.row.state
      case Blocked => Segment(None, Move(Cancelled), Nothing, Nothing, None)
      case ReviewRequired => Segment(None, Move(Cancelled), Nothing, Nothing, None)
      case Failed => Segment(None, Move(Retrying), Move(Cancelled), Nothing, None)
      case _ => IDLE
  }

  /** What the engine does after a resume, once the store has restored the mission. */
  function AfterResume(w: World): Segment {
    match w.row.state
    case Validating => Segment(None, Nothing, Nothing, Nothing, Some(Validate(w.generation, w.row.correctionAttempts, 0)))
    case ReviewRequired => Segment(None, ReviewRequest(w), Nothing, Nothing, ReviewTask(w))
    case Approved => Segment(Some(w.generation), Move(Integrated), Nothing, Nothing, Some(Integrate(w.generation)))
    case _ => IDLE
  }

  /** Reconciliation at startup; `orphan` when a run of the mission was still recorded as active. */
  function Reconciliation(c: Config, w: World, orphan: bool): Segment {
    match w.row.state
    case Running => if orphan then Correction(c, w, None, w.row.correctionAttempts) else IDLE
    case Assigned => Segment(None, Move(Ready), Nothing, Nothing, None)
    case Validating =>
      if w.paused then IDLE else Segment(None, Nothing, Nothing, Nothing, Some(Validate(w.generation, w.row.correctionAttempts, 0)))
    case ReviewRequired => if w.paused then IDLE else Segment(None, ReviewRequest(w), Nothing, Nothing, ReviewTask(w))
    case _ => IDLE
  }

  /** What a review's verdict leads to. */
  function AfterReview(c: Config, w: World, fence: Option<nat>, verdict: Verdict): Segment {
    match verdict
    case Approve => Segment(fence, RecordApproval, Move(Approved), Move(Integrated), Some(Integrate(w.generation)))
    case Reject => Correction(c, w, fence, w.row.correctionAttempts)
    case Unavailable => if w.row.state == ReviewRequired then Segment(fence, BlockReview, OpenApproval, Nothing, None) else IDLE
  }

  predicate OfTask(a: Action) {
    || a.Prepared? || a.RunFinished? || a.CheckFinished? || a.ValidationFailed? || a.PublicationFailed?
    || a.ChecksDone? || a.ReviewFinished? || a.CleanedUp?
  }

  /** The action is one of this task's; a fenced task may always find itself fenced and end. */
  predicate Fits(c: Config, t: Task, a: Action)
    requires OfTask(a)
  {
    match a
    case Prepared(_, _) => t.Prepare?
    case RunFinished(_, _) => t.RunProvider?
    case CheckFinished(_, _) => t.Validate? && t.next < c.requiredChecks
    case ValidationFailed(_) => t.Validate?
    case PublicationFailed(_) => t.Validate? && t.next == c.requiredChecks
    case ChecksDone(_) => t.Validate? && t.next == c.requiredChecks
    case ReviewFinished(_, _) => t.Review?
    case CleanedUp(_) => t.Integrate?
  }

  function TaskSegment(c: Config, w: World, t: Task, a: Action): Segment
    requires OfTask(a) && Fits(c, t, a)
  {
    var fence := Some(t.generation);
    if Fenced(w, t.generation) then IDLE
    else match a
      case Prepared(_, ok) =>
        if ok then Segment(fence, Move(Running), Nothing, Nothing, Some(RunProvider(t.generation)))
        else Segment(fence, Move(Blocked), OpenApproval, Nothing, None)
      case RunFinished(_, completed) =>
        if completed then
          Segment(fence, RecordSuccess, Move(ResultSubmitted), Move(Validating), Some(Validate(t.generation, w.row.correctionAttempts, 0)))
        else Segment(fence, Move(Blocked), OpenApproval, Nothing, None)
      case CheckFinished(_, ok) =>
        if ok then Segment(fence, RecordCheck(t.next), Nothing, Nothing, Some(t.(next := t.next + 1)))
        else Correction(c, w, fence, t.attempts)
      case ValidationFailed(_) => Correction(c, w, fence, t.attempts)
      case PublicationFailed(_) => Segment(fence, Move(Blocked), OpenApproval, Nothing, None)
      case ChecksDone(_) => Segment(fence, Move(ReviewRequired), ReviewRequest(w), Nothing, ReviewTask(w))
      case ReviewFinished(_, verdict) => AfterReview(c, w, fence, verdict)
      case CleanedUp(_) => Segment(fence, Move(Completed), Nothing, Nothing, None)
  }

  // ------------------------------------------------------------ steps and runs

  predicate Enabled(c: Config, w: World, a: Action) {
    if OfTask(a) then a.task in w.tasks && Fits(c, w.tasks[a.task], a)
    else match a
      case DependenciesMet => w.row.state == Proposed && !w.paused
      case Schedule => w.row.state == Ready && !w.paused
      case UserApproves => w.approvals > 0
      case UserRejects => w.approvals > 0
      case Supersede => !w.paused
      case SetProfile(_) => true
      case Pause => !w.paused
      case Resume => w.paused
      case Restart(_) => true
  }

  /** The states in which a mission is cancelled when its plan is replaced. */
  predicate Replaceable(s: MissionState) {
    s in {Proposed, Ready, Blocked}
  }

  /**
   What happens at once: the acting task is taken up, an approval is answered, the plan is
   replaced, the project changes its profile, is paused or resumed, or all tasks are lost.
   */
  function Begun(w: World, a: Action): World {
    if OfTask(a) then w.(tasks := w.tasks - {a.task})
    else match a
      case Pause =>
        w.(paused := true, generation := w.generation + 1,
           row := if Pauseable(w.row.state) then w.row.(state := Paused, reviewBlocked := false, pausedFrom := Some(w.row.state)) else w.row)
      case Resume =>
        w.(paused := false,
           row := if w.row.state == Paused
             then w.row.(state := ResumeTarget(if w.row.pausedFrom.Some? then w.row.pausedFrom.value else Ready),
                         reviewBlocked := false, pausedFrom := None)
             else w.row)
      case Restart(_) => w.(tasks := map[])
      case UserApproves => w.(approvals := if w.approvals > 0 then w.approvals - 1 else 0)
      case UserRejects => w.(approvals := if w.approvals > 0 then w.approvals - 1 else 0)
      case Supersede =>
        w.(approvals := 0, superseded := true,
           row := if Replaceable(w.row.state) then w.row.(state := Cancelled, reviewBlocked := false) else w.row)
      case SetProfile(supervised) => w.(supervised := supervised)
      case _ => w
  }

  /** The transactions that follow, in the world as `Begun` left it. */
  function SegmentOf(c: Config, w: World, a: Action): Segment
    requires Enabled(c, w, a)
  {
    var b := Begun(w, a);
    if OfTask(a) then TaskSegment(c, b, w.tasks[a.task], a)
    else match a
      case DependenciesMet => Segment(Some(b.generation), Move(Ready), Nothing, Nothing, None)
      case Schedule => Segment(Some(b.generation), Move(Assigned), Nothing, Nothing, Some(Prepare(b.generation)))
      case UserApproves => UserApproval(b)
      case UserRejects => UserRejection(b)
      case Supersede => IDLE
      case SetProfile(_) => IDLE
      case Pause => IDLE
      case Resume => AfterResume(b)
      case Restart(orphan) => Reconciliation(c, b, orphan)
  }

  function Apply(c: Config, w: World, s: Step): World
    requires Enabled(c, w, s.action)
  {
    var b, seg := Begun(w, s.action), SegmentOf(c, w, s.action);
    if s.diedAfter.Some? then CommitAll(b, seg, s.diedAfter.value).world.(tasks := map[])
    else Finished(b, seg)
  }

  /** From the new mission on, each world follows from the one before by an enabled step. */
  ghost predicate IsRun(c: Config, worlds: seq<World>, steps: seq<Step>) {
    && |worlds| == |steps| + 1 && worlds[0] == Initial(worlds[0].supervised)
    && forall i {:trigger steps[i]} :: 0 <= i < |steps| ==>
         Enabled(c, worlds[i], steps[i].action) && worlds[i + 1] == Apply(c, worlds[i], steps[i])
  }
}
