/** Bounded autonomy: between decisions of the user the engine comes to rest after a bounded number of steps. */
module MissionAutonomy {
  import opened Wrappers
  import opened Missions
  import opened MissionFlow
  import opened MissionFlowProofs
  import opened MissionFlowTheorems

  /** A step the engine takes by itself, without a crash. */
  predicate Autonomous(s: Step) {
    s.diedAfter.None? && (OfTask(s.action) || s.action.DependenciesMet? || s.action.Schedule?)
  }

  /** How many times the mission may still begin to run without a decision of the user. */
  function RunsAllowed(c: Config, w: World): (n: nat)
    requires w.row.correctionAttempts <= c.maxCorrectionAttempts
    ensures n <= c.maxCorrectionAttempts + 1
  {
    c.maxCorrectionAttempts - w.row.correctionAttempts
      + if w.row.state in {Proposed, Ready, Assigned, Retrying} then 1 else 0
  }

  function Phase(s: MissionState): nat {
    match s
    case Running => 7
    case ResultSubmitted => 6
    case Validating => 6
    case ReviewRequired => 5
    case Approved => 4
    case Integrated => 4
    case Proposed => 3
    case Ready => 2
    case Assigned => 1
    case _ => 0
  }

  /** Progress of the mission itself: runs allowed, then the phase, then the checks to come. */
  function Distance(c: Config, w: World): (n: nat)
    requires w.row.correctionAttempts <= c.maxCorrectionAttempts
  {
    (RunsAllowed(c, w) * 8 + Phase(w.row.state)) * (c.requiredChecks + 1)
      + if w.row.state == Validating && w.evidence.checksPassed <= c.requiredChecks then c.requiredChecks - w.evidence.checksPassed else 0
  }

  /** A bound on the steps the engine can still take by itself. */
  function StepsAllowed(c: Config, w: World): nat
    requires w.row.correctionAttempts <= c.maxCorrectionAttempts
  {
    2 * Distance(c, w) + |w.tasks|
  }

  /** The order behind `Distance`, component by component. */
  predicate Nearer(c: Config, w: World, v: World)
    requires w.row.correctionAttempts <= c.maxCorrectionAttempts && v.row.correctionAttempts <= c.maxCorrectionAttempts
  {
    || RunsAllowed(c, v) < RunsAllowed(c, w)
    || (RunsAllowed(c, v) == RunsAllowed(c, w) && Phase(v.row.state) < Phase(w.row.state))
    || (RunsAllowed(c, v) == RunsAllowed(c, w) && v.row.state == w.row.state == Validating
        && w.evidence.checksPassed < v.evidence.checksPassed <= c.requiredChecks)
  }

  lemma {:induction false} Scaled(a: int, b: int, m: nat)
    requires a < b
    ensures a * m + m <= b * m
    decreases b - a
  {
    if a + 1 < b {
      Scaled(a + 1, b, m);
    }
    assert (a + 1) * m == a * m + m;
  }

  lemma NearerIsShorter(c: Config, w: World, v: World)
    requires w.row.correctionAttempts <= c.maxCorrectionAttempts && v.row.correctionAttempts <= c.maxCorrectionAttempts
    requires Nearer(c, w, v)
    ensures Distance(c, v) < Distance(c, w)
  {
    var before, after := RunsAllowed(c, w) * 8 + Phase(w.row.state), RunsAllowed(c, v) * 8 + Phase(v.row.state);
    if after < before {
      Scaled(after, before, c.requiredChecks + 1);
    }
  }

  /** What a segment achieves: it brings the mission nearer to rest, or leaves it as it is and starts nothing. */
  predicate Advances(c: Config, b: World, v: World)
    requires b.row.correctionAttempts <= c.maxCorrectionAttempts
  {
    && v.row.correctionAttempts <= c.maxCorrectionAttempts
    && v.executions + RunsAllowed(c, v) <= b.executions + RunsAllowed(c, b)
    && (Nearer(c, b, v) || (v.row == b.row && v.evidence.checksPassed == b.evidence.checksPassed && v.tasks == b.tasks))
  }

  lemma CorrectionAdvances(c: Config, b: World, generation: nat, s: Segment)
    requires !Fenced(b, generation) && b.row.correctionAttempts <= c.maxCorrectionAttempts
    requires s == Correction(c, b, Some(generation), b.row.correctionAttempts)
    requires b.row.state == Validating || UnderReview(b.row.state)
    ensures Advances(c, b, Finished(b, s))
  {
    if b.row.correctionAttempts < c.maxCorrectionAttempts {
      RetryOutcome(b, s, b.row.correctionAttempts + 1);
    } else {
      MoveOutcome(b, s, Failed);
    }
  }

  lemma ExecutionAdvances(c: Config, b: World, t: Task, a: Action, s: Segment)
    requires (a.Prepared? || a.RunFinished?) && Fits(c, t, a) && s == TaskSegment(c, b, t, a)
    requires b.row.correctionAttempts <= c.maxCorrectionAttempts && Live(b, t) && Owns(c, b, t)
    ensures Advances(c, b, Finished(b, s))
  {
    if a.Prepared? {
      MoveOutcome(b, s, if a.ok then Running else Blocked);
    } else if a.completed {
      SubmitOutcome(b, s);
    } else {
      MoveOutcome(b, s, Blocked);
    }
  }

  lemma CheckAdvances(c: Config, b: World, t: Task, a: Action, s: Segment)
    requires (a.CheckFinished? || a.ValidationFailed? || a.PublicationFailed? || a.ChecksDone?) && Fits(c, t, a)
    requires s == TaskSegment(c, b, t, a)
    requires b.row.correctionAttempts <= c.maxCorrectionAttempts && Live(b, t) && Owns(c, b, t)
    ensures Advances(c, b, Finished(b, s))
  {
    if a.ChecksDone? {
      MoveOutcome(b, s, ReviewRequired);
    } else if a.PublicationFailed? {
      MoveOutcome(b, s, Blocked);
    } else if a.ValidationFailed? || !a.ok {
      CorrectionAdvances(c, b, t.generation, s);
    }
  }

  lemma ReviewAdvances(c: Config, b: World, generation: nat, verdict: Verdict, s: Segment)
    requires !Fenced(b, generation) && b.row.correctionAttempts <= c.maxCorrectionAttempts
    requires UnderReview(b.row.state) && s == AfterReview(c, b, Some(generation), verdict)
    ensures Advances(c, b, Finished(b, s))
  {
    match verdict
    case Approve => ApprovalOutcome(b, s);
    case Reject => CorrectionAdvances(c, b, generation, s);
    case Unavailable =>
  }

  lemma TaskAdvances(c: Config, b: World, t: Task, a: Action, s: Segment)
    requires OfTask(a) && Fits(c, t, a) && b.row.correctionAttempts <= c.maxCorrectionAttempts
    requires Driving(b, t) ==> Owns(c, b, t)
    requires s == TaskSegment(c, b, t, a)
    ensures Advances(c, b, Finished(b, s))
  {
    if Fenced(b, t.generation) {
    } else if t.Integrate? {
      MoveOutcome(b, s, Completed);
    } else if t.Review? {
      ReviewAdvances(c, b, t.generation, a.verdict, s);
    } else if t.Validate? {
      CheckAdvances(c, b, t, a, s);
    } else {
      ExecutionAdvances(c, b, t, a, s);
    }
  }

  lemma SegmentTasks(w: World, s: Segment)
    ensures |Finished(w, s).tasks| <= |w.tasks| + 1
  {
    CommitAllSameTasks(w, s, 3);
  }

  lemma TickAdvances(c: Config, w: World, a: Action, s: Segment)
    requires (a.DependenciesMet? || a.Schedule?) && RowSound(c, w) && Enabled(c, w, a) && s == SegmentOf(c, w, a)
    ensures Advances(c, w, Finished(w, s)) && Nearer(c, w, Finished(w, s))
  {
    MoveOutcome(w, s, if a.Schedule? then Assigned else Ready);
  }

  lemma AdvancingUsesSteps(c: Config, b: World, s: Segment, v: World, taken: nat)
    requires b.row.correctionAttempts <= c.maxCorrectionAttempts && v == Finished(b, s) && Advances(c, b, v)
    requires taken >= 1 || Nearer(c, b, v)
    ensures StepsAllowed(c, v) < StepsAllowed(c, b) + taken
  {
    SegmentTasks(b, s);
    if Nearer(c, b, v) {
      NearerIsShorter(c, b, v);
    } else {
      assert v.tasks == b.tasks && Distance(c, v) == Distance(c, b);
    }
  }

  lemma TakingUpATask(c: Config, w: World, task: nat)
    requires w.row.correctionAttempts <= c.maxCorrectionAttempts && task in w.tasks
    ensures StepsAllowed(c, w.(tasks := w.tasks - {task})) == StepsAllowed(c, w) - 1
  {
    assert |w.tasks - {task}| == |w.tasks| - 1;
  }

  lemma SegmentUsesSteps(c: Config, w: World, a: Action, b: World, s: Segment)
    requires Inv(c, w) && Enabled(c, w, a) && Autonomous(Step(a, None))
    requires b == Begun(w, a) && s == SegmentOf(c, w, a)
    ensures Advances(c, b, Finished(b, s)) && StepsAllowed(c, Finished(b, s)) < StepsAllowed(c, w)
  {
    if OfTask(a) {
      TaskAdvances(c, b, w.tasks[a.task], a, s);
      TakingUpATask(c, w, a.task);
      AdvancingUsesSteps(c, b, s, Finished(b, s), 1);
    } else {
      TickAdvances(c, w, a, s);
      AdvancingUsesSteps(c, b, s, Finished(b, s), 0);
    }
  }

  /** Each step the engine takes by itself uses up at least one of the steps it is allowed. */
  lemma StepsAreUsedUp(c: Config, w: World, s: Step)
    requires Inv(c, w) && Enabled(c, w, s.action) && Autonomous(s)
    ensures var v := Apply(c, w, s);
      && v.row.correctionAttempts <= c.maxCorrectionAttempts
      && StepsAllowed(c, v) < StepsAllowed(c, w)
      && v.executions + RunsAllowed(c, v) <= w.executions + RunsAllowed(c, w)
  {
    SegmentUsesSteps(c, w, s.action, Begun(w, s.action), SegmentOf(c, w, s.action));
  }

  ghost predicate AutonomousFrom(steps: seq<Step>, start: nat, end: nat)
    requires start <= end <= |steps|
  {
    forall i :: start <= i < end ==> Autonomous(steps[i])
  }

  /**
   Between two decisions of the user, and without restart or pause, the engine takes a bounded
   number of steps, and the mission begins to run at most as often as its attempts allow.
   */
  lemma {:induction false} AutonomyIsBounded(c: Config, worlds: seq<World>, steps: seq<Step>, start: nat, end: nat)
    requires IsRun(c, worlds, steps) && start <= end <= |steps| && AutonomousFrom(steps, start, end)
    ensures worlds[start].row.correctionAttempts <= c.maxCorrectionAttempts && worlds[end].row.correctionAttempts <= c.maxCorrectionAttempts
    ensures end - start + StepsAllowed(c, worlds[end]) <= StepsAllowed(c, worlds[start])
    ensures worlds[end].executions - worlds[start].executions
      <= RunsAllowed(c, worlds[start]) - RunsAllowed(c, worlds[end]) <= c.maxCorrectionAttempts + 1
    decreases end - start
  {
    RunKeepsInvariant(c, worlds, steps, start);
    if start < end {
      StepsAreUsedUp(c, worlds[start], steps[start]);
      AutonomyIsBounded(c, worlds, steps, start + 1, end);
    }
  }

  // ------------------------------------------------------------ where the mission comes to rest

  /** A step without pause, resume, restart, crash or change of profile. */
  predicate Uninterrupted(s: Step) {
    s.diedAfter.None? && !s.action.Pause? && !s.action.Resume? && !s.action.Restart? && !s.action.SetProfile?
  }

  /** States in which a task of the engine works on the mission, and states no segment ends in. */
  predicate WorkedOn(supervised: bool, s: MissionState) {
    s in {Assigned, Running, Validating, Integrated} || (s == ReviewRequired && !supervised)
  }

  predicate Passing(s: MissionState) {
    s in {ResultSubmitted, Approved, Retrying, Paused}
  }

  predicate Serves(t: Task, s: MissionState) {
    match t
    case Prepare(_) => s == Assigned
    case RunProvider(_) => s == Running
    case Validate(_, _, _) => s == Validating
    case Review(_) => s == ReviewRequired
    case Integrate(_) => s == Integrated
  }

  /** A live task works on the mission. */
  ghost predicate Served(w: World) {
    exists i :: i in w.tasks && Live(w, w.tasks[i]) && Serves(w.tasks[i], w.row.state)
  }

  /** The engine goes on with the mission: a state that it works on has its live task. */
  ghost predicate Attended(w: World) {
    && !w.paused && !Passing(w.row.state)
    && (WorkedOn(w.supervised, w.row.state) ==> Served(w))
  }

  /** Where the mission waits for the user, there is an approval to answer. */
  predicate Asked(w: World) {
    && (w.row.state in {Blocked, Failed} ==> w.approvals > 0 || w.superseded)
    && (w.row.state == ReviewRequired && w.supervised ==> w.approvals > 0 || w.superseded)
  }

  /** A segment that leaves the state or moves it to one that is served by the task it starts. */
  predicate LeavesServed(b: World, s: Segment, served: bool) {
    var v := Finished(b, s);
    && !Passing(v.row.state)
    && (WorkedOn(b.supervised, v.row.state) ==>
          (served && v.row.state == b.row.state)
          || (s.starts.Some? && Serves(s.starts.value, v.row.state) && v.tasks == b.tasks[b.nextTask := s.starts.value]))
  }

  lemma CorrectionLeavesServed(c: Config, b: World, s: Segment, attempts: nat, served: bool)
    requires !b.paused && !Passing(b.row.state) && attempts <= c.maxCorrectionAttempts
    requires b.row.state in {Validating, ReviewRequired} || (UnderReview(b.row.state) && (WorkedOn(b.supervised, b.row.state) ==> served))
    requires s == Correction(c, b, Some(b.generation), attempts)
    ensures LeavesServed(b, s, served)
  {
    if attempts < c.maxCorrectionAttempts {
      RetryOutcome(b, s, attempts + 1);
    } else {
      MoveOutcome(b, s, Failed);
    }
  }

  lemma ReviewLeavesServed(c: Config, b: World, s: Segment, verdict: Verdict, served: bool)
    requires !b.paused && !Passing(b.row.state) && b.row.correctionAttempts <= c.maxCorrectionAttempts
    requires b.row.state == ReviewRequired || (UnderReview(b.row.state) && (WorkedOn(b.supervised, b.row.state) ==> served))
    requires s == AfterReview(c, b, Some(b.generation), verdict)
    ensures LeavesServed(b, s, served)
  {
    match verdict
    case Approve => ApprovalOutcome(b, s);
    case Reject => CorrectionLeavesServed(c, b, s, b.row.correctionAttempts, served);
    case Unavailable =>
  }

  lemma ExecutionLeavesServed(c: Config, b: World, t: Task, a: Action, s: Segment, served: bool)
    requires (a.Prepared? || a.RunFinished? || a.CleanedUp?) && Fits(c, t, a) && s == TaskSegment(c, b, t, a)
    requires Live(b, t) && Owns(c, b, t)
    requires !Passing(b.row.state) && (WorkedOn(b.supervised, b.row.state) ==> served || Serves(t, b.row.state))
    ensures LeavesServed(b, s, served)
  {
    if a.Prepared? {
      MoveOutcome(b, s, if a.ok then Running else Blocked);
    } else if a.CleanedUp? {
      MoveOutcome(b, s, Completed);
    } else if a.completed {
      SubmitOutcome(b, s);
    } else {
      MoveOutcome(b, s, Blocked);
    }
  }

  lemma CheckLeavesServed(c: Config, b: World, t: Task, a: Action, s: Segment, served: bool)
    requires (a.CheckFinished? || a.ValidationFailed? || a.PublicationFailed? || a.ChecksDone?) && Fits(c, t, a)
    requires s == TaskSegment(c, b, t, a) && Live(b, t) && Owns(c, b, t) && b.row.correctionAttempts <= c.maxCorrectionAttempts
    ensures LeavesServed(b, s, served)
  {
    if a.ChecksDone? {
      MoveOutcome(b, s, ReviewRequired);
    } else if a.PublicationFailed? {
      MoveOutcome(b, s, Blocked);
    } else if a.ValidationFailed? || !a.ok {
      CorrectionLeavesServed(c, b, s, t.attempts, served);
    }
  }

  lemma TaskLeavesServed(c: Config, b: World, t: Task, a: Action, s: Segment, served: bool)
    requires OfTask(a) && Fits(c, t, a) && b.row.correctionAttempts <= c.maxCorrectionAttempts && !b.paused
    requires Driving(b, t) ==> Owns(c, b, t)
    requires !Passing(b.row.state) && (WorkedOn(b.supervised, b.row.state) ==> served || (Live(b, t) && Serves(t, b.row.state)))
    requires s == TaskSegment(c, b, t, a)
    ensures LeavesServed(b, s, served)
  {
    if Live(b, t) {
      if t.Validate? {
        CheckLeavesServed(c, b, t, a, s, served);
      } else if t.Review? {
        ReviewLeavesServed(c, b, s, a.verdict, served);
      } else {
        ExecutionLeavesServed(c, b, t, a, s, served);
      }
    }
  }

  lemma ApprovalLeavesServed(b: World)
    requires !b.paused && !Passing(b.row.state)
    ensures LeavesServed(b, UserApproval(b), true)
  {
    if !b.superseded {
      match b.row.state
      case Failed => RetryOutcome(b, UserApproval(b), 0);
      case ReviewRequired => ApprovalOutcome(b, UserApproval(b));
      case _ =>
    }
  }

  lemma RejectionLeavesServed(b: World)
    requires !b.paused && !Passing(b.row.state)
    ensures LeavesServed(b, UserRejection(b), true)
  {
  }

  lemma OthersLeaveServed(c: Config, w: World, a: Action)
    requires !OfTask(a) && Enabled(c, w, a) && !w.paused && !Passing(w.row.state)
    requires !a.Pause? && !a.Resume? && !a.Restart? && !a.SetProfile?
    ensures LeavesServed(Begun(w, a), SegmentOf(c, w, a), true) && !Begun(w, a).paused
  {
    if a.UserApproves? {
      ApprovalLeavesServed(Begun(w, a));
    } else if a.UserRejects? {
      RejectionLeavesServed(Begun(w, a));
    }
  }

  lemma ServedAfter(b: World, s: Segment, served: bool)
    requires LeavesServed(b, s, served) && (served ==> Served(b) || !WorkedOn(b.supervised, b.row.state)) && !b.paused
    requires forall i :: i in b.tasks ==> i < b.nextTask
    requires s.starts.Some? ==> s.starts.value.generation == b.generation
    ensures Attended(Finished(b, s))
  {
    CommitAllSameTasks(b, s, 3);
    CommitAllSameProfile(b, s);
    var v := Finished(b, s);
    if WorkedOn(v.supervised, v.row.state) {
      if served && v.row.state == b.row.state {
        var i :| i in b.tasks && Live(b, b.tasks[i]) && Serves(b.tasks[i], b.row.state);
        assert i in v.tasks && v.tasks[i] == b.tasks[i];
      } else {
        assert b.nextTask in v.tasks && Serves(v.tasks[b.nextTask], v.row.state);
      }
    }
  }

  lemma CommitSameProfile(w: World, fence: Option<nat>, write: Write)
    ensures Commit(w, fence, write).world.supervised == w.supervised
  {
  }

  lemma CommitAllSameProfile(b: World, s: Segment)
    ensures CommitAll(b, s, 3).world.supervised == b.supervised
  {
    var x := Commit(b, s.fence, s.first);
    var y := Commit(x.world, s.fence, s.second);
    CommitSameProfile(b, s.fence, s.first);
    CommitSameProfile(x.world, s.fence, s.second);
    CommitSameProfile(y.world, s.fence, s.third);
  }

  lemma StartsAreCurrent(c: Config, w: World, a: Action)
    requires Enabled(c, w, a)
    ensures var b, s := Begun(w, a), SegmentOf(c, w, a); s.starts.Some? ==> s.starts.value.generation == b.generation
  {
  }

  lemma TaskKeepsAttended(c: Config, w: World, a: Action)
    requires OfTask(a) && Inv(c, w) && Attended(w) && Enabled(c, w, a)
    ensures Attended(Apply(c, w, Step(a, None)))
  {
    var b, seg, t := Begun(w, a), SegmentOf(c, w, a), w.tasks[a.task];
    StartsAreCurrent(c, w, a);
    if WorkedOn(w.supervised, w.row.state) && !(Live(w, t) && Serves(t, w.row.state)) {
      var i :| i in w.tasks && Live(w, w.tasks[i]) && Serves(w.tasks[i], w.row.state);
      assert i in b.tasks && Live(b, b.tasks[i]) && Serves(b.tasks[i], b.row.state);
    }
    TaskLeavesServed(c, b, t, a, seg, Served(b));
    ServedAfter(b, seg, Served(b));
  }

  lemma OtherKeepsAttended(c: Config, w: World, a: Action)
    requires !OfTask(a) && Inv(c, w) && Attended(w) && Enabled(c, w, a) && Uninterrupted(Step(a, None))
    ensures Attended(Apply(c, w, Step(a, None)))
  {
    var b, seg := Begun(w, a), SegmentOf(c, w, a);
    StartsAreCurrent(c, w, a);
    OthersLeaveServed(c, w, a);
    assert b.tasks == w.tasks;
    if WorkedOn(b.supervised, b.row.state) {
      var i :| i in w.tasks && Live(w, w.tasks[i]) && Serves(w.tasks[i], w.row.state);
      assert i in b.tasks && Live(b, b.tasks[i]) && Serves(b.tasks[i], b.row.state);
    }
    ServedAfter(b, seg, true);
  }

  lemma AttendedKept(c: Config, w: World, s: Step)
    requires Inv(c, w) && Attended(w) && Enabled(c, w, s.action) && Uninterrupted(s)
    ensures Attended(Apply(c, w, s))
  {
    assert s == Step(s.action, None);
    if OfTask(s.action) {
      TaskKeepsAttended(c, w, s.action);
    } else {
      OtherKeepsAttended(c, w, s.action);
    }
  }

  /** At rest: no task is left, and no dependency or slot is waited for. */
  predicate AtRest(w: World) {
    w.tasks == map[] && w.row.state !in {Proposed, Ready}
  }

  /** As long as the mission is not at rest the engine can take a step by itself. */
  lemma TasksCanAct(c: Config, w: World) returns (s: Step)
    requires Inv(c, w) && Attended(w) && !AtRest(w)
    ensures Autonomous(s)
    ensures Enabled(c, w, s.action)
  {
    if i :| i in w.tasks {
      s := Step(match w.tasks[i]
        case Prepare(_) => Prepared(i, true)
        case RunProvider(_) => RunFinished(i, true)
        case Validate(_, _, _) => ValidationFailed(i)
        case Review(_) => ReviewFinished(i, Approve)
        case Integrate(_) => CleanedUp(i), None);
    } else {
      s := Step(if w.row.state == Proposed then DependenciesMet else Schedule, None);
    }
  }

  // ------------------------------------------------------------ the user is asked

  lemma CorrectionAsks(c: Config, b: World, s: Segment, attempts: nat)
    requires !b.paused && s == Correction(c, b, Some(b.generation), attempts) && (b.row.state == Validating || UnderReview(b.row.state))
    requires Asked(b)
    ensures Asked(Finished(b, s))
  {
    if attempts < c.maxCorrectionAttempts {
      RetryOutcome(b, s, attempts + 1);
    } else {
      MoveOutcome(b, s, Failed);
    }
  }

  lemma TaskAsks(c: Config, b: World, t: Task, a: Action, s: Segment)
    requires OfTask(a) && Fits(c, t, a) && (Driving(b, t) ==> Owns(c, b, t)) && Asked(b) && s == TaskSegment(c, b, t, a)
    ensures Asked(Finished(b, s))
  {
    if Live(b, t) {
      match a
      case Prepared(_, ok) => MoveOutcome(b, s, if ok then Running else Blocked);
      case RunFinished(_, completed) =>
        if completed { SubmitOutcome(b, s); } else { MoveOutcome(b, s, Blocked); }
      case CheckFinished(_, ok) =>
        if !ok { CorrectionAsks(c, b, s, t.attempts); }
      case ValidationFailed(_) => CorrectionAsks(c, b, s, t.attempts);
      case PublicationFailed(_) => MoveOutcome(b, s, Blocked);
      case ChecksDone(_) => MoveOutcome(b, s, ReviewRequired);
      case CleanedUp(_) => MoveOutcome(b, s, Completed);
      case ReviewFinished(_, verdict) =>
        if verdict.Approve? { ApprovalOutcome(b, s); } else if verdict.Reject? { CorrectionAsks(c, b, s, b.row.correctionAttempts); }
    }
  }

  /** An answered approval moves the mission on, unless its plan was replaced. */
  lemma AnswerMovesOn(c: Config, w: World, a: Action)
    requires (a.UserApproves? || a.UserRejects?) && Enabled(c, w, a) && !w.paused && Asked(w)
    ensures Asked(Apply(c, w, Step(a, None)))
  {
  }

  lemma AskedKept(c: Config, w: World, s: Step)
    requires Inv(c, w) && Attended(w) && Asked(w) && Enabled(c, w, s.action) && Uninterrupted(s)
    ensures Asked(Apply(c, w, s))
  {
    if OfTask(s.action) {
      TaskAsks(c, Begun(w, s.action), w.tasks[s.action.task], s.action, SegmentOf(c, w, s.action));
    } else if s.action.UserApproves? || s.action.UserRejects? {
      AnswerMovesOn(c, w, s.action);
    } else if s.action.DependenciesMet? || s.action.Schedule? {
      MoveOutcome(w, SegmentOf(c, w, s.action), if s.action.Schedule? then Assigned else Ready);
    }
  }

  // ------------------------------------------------------------ rest

  ghost predicate UninterruptedFrom(steps: seq<Step>, start: nat, end: nat)
    requires start <= end <= |steps|
  {
    forall i {:trigger steps[i]} :: start <= i < end ==> Uninterrupted(steps[i])
  }

  lemma {:induction false} StaysAttended(c: Config, worlds: seq<World>, steps: seq<Step>, start: nat, n: nat)
    requires IsRun(c, worlds, steps) && start <= n <= |steps| && UninterruptedFrom(steps, start, n)
    requires Attended(worlds[start])
    ensures Attended(worlds[n]) && (Asked(worlds[start]) ==> Asked(worlds[n]))
    decreases n - start
  {
    if start < n {
      StaysAttended(c, worlds, steps, start, n - 1);
      RunKeepsInvariant(c, worlds, steps, n - 1);
      AttendedKept(c, worlds[n - 1], steps[n - 1]);
      if Asked(worlds[start]) {
        AskedKept(c, worlds[n - 1], steps[n - 1]);
      }
    }
  }

  /**
   From any world whose mission is attended, and until the next interruption, the mission is at
   rest exactly when the engine can take no step by itself. It rests only where it is done or
   where a user has to decide, and there is an approval to decide if there was one whenever it
   was needed before.
   */
  lemma RestsWithTheUser(c: Config, worlds: seq<World>, steps: seq<Step>, start: nat, n: nat)
    requires IsRun(c, worlds, steps) && start <= n <= |steps| && UninterruptedFrom(steps, start, n)
    requires Attended(worlds[start])
    ensures AtRest(worlds[n]) <==> forall s: Step :: Autonomous(s) ==> !Enabled(c, worlds[n], s.action)
    ensures AtRest(worlds[n]) ==>
      worlds[n].row.state in {Completed, Blocked, Failed, Cancelled} || (worlds[n].supervised && worlds[n].row.state == ReviewRequired)
    ensures AtRest(worlds[n]) && Asked(worlds[start]) ==>
      worlds[n].row.state in {Completed, Cancelled} || worlds[n].approvals > 0 || worlds[n].superseded
  {
    StaysAttended(c, worlds, steps, start, n);
    RunKeepsInvariant(c, worlds, steps, n);
    if !AtRest(worlds[n]) {
      var s := TasksCanAct(c, worlds[n]);
    }
  }
}
