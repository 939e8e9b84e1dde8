/** When the engine asks for an illegal transition, and what it takes to bring it there. */
module MissionLegality {
  import opened Wrappers
  import opened Missions
  import opened MissionFlow
  import opened MissionFlowProofs
  import opened MissionFlowTheorems
  import opened MissionRuns

  predicate Throws(w: World, s: Segment) {
    CommitAll(w, s, 3).threw
  }

  /** A task acts on a mission that a user's decision has meanwhile moved on. */
  predicate Overtaken(c: Config, w: World, t: Task, a: Action) {
    && Live(w, t)
    && match a
       case ReviewFinished(_, Approve) => w.row.state != ReviewRequired
       case ReviewFinished(_, Reject) =>
         w.row.state != ReviewRequired && !(w.row.state == Integrated && w.row.correctionAttempts == c.maxCorrectionAttempts)
       case CleanedUp(_) => w.row.state != Integrated
       case _ => false
  }

  lemma CorrectionThrows(c: Config, w: World, fence: Option<nat>, attempts: nat)
    requires fence.Some? ==> !Fenced(w, fence.value)
    requires attempts <= c.maxCorrectionAttempts
    ensures Throws(w, Correction(c, w, fence, attempts)) <==>
      !CanTransition(w.row.state, if attempts == c.maxCorrectionAttempts then Failed else Retrying)
  {
  }

  lemma ReviewThrows(c: Config, w: World, generation: nat, verdict: Verdict, a: Action)
    requires !Fenced(w, generation) && w.row.correctionAttempts <= c.maxCorrectionAttempts && UnderReview(w.row.state)
    requires a.ReviewFinished? && a.verdict == verdict
    ensures Throws(w, AfterReview(c, w, Some(generation), verdict)) <==> Overtaken(c, w, Review(generation), a)
  {
    CorrectionThrows(c, w, Some(generation), w.row.correctionAttempts);
  }

  lemma TaskThrows(c: Config, w: World, t: Task, a: Action)
    requires OfTask(a) && Fits(c, t, a) && w.row.correctionAttempts <= c.maxCorrectionAttempts
    requires Driving(w, t) ==> Owns(c, w, t)
    ensures Throws(w, TaskSegment(c, w, t, a)) <==> Overtaken(c, w, t, a)
  {
    if !Fenced(w, t.generation) {
      match a
      case CheckFinished(_, ok) => CorrectionThrows(c, w, Some(t.generation), t.attempts);
      case ValidationFailed(_) => CorrectionThrows(c, w, Some(t.generation), t.attempts);
      case ReviewFinished(_, verdict) => ReviewThrows(c, w, t.generation, verdict, a);
      case _ =>
    }
  }

  lemma OthersNeverThrow(c: Config, w: World, a: Action)
    requires Inv(c, w) && Enabled(c, w, a) && !OfTask(a)
    ensures !Throws(Begun(w, a), SegmentOf(c, w, a))
  {
    if a.Restart? && w.row.state == Running && a.orphan {
      CorrectionThrows(c, Begun(w, a), None, w.row.correctionAttempts);
    }
  }

  /** The engine asks for an illegal transition exactly when a decision has overtaken a review or an integration. */
  lemma ThrowsExactlyWhenOvertaken(c: Config, w: World, a: Action)
    requires Inv(c, w) && Enabled(c, w, a)
    ensures Throws(Begun(w, a), SegmentOf(c, w, a)) <==> OfTask(a) && Overtaken(c, w, w.tasks[a.task], a)
  {
    if OfTask(a) {
      TaskThrows(c, Begun(w, a), w.tasks[a.task], a);
    } else {
      OthersNeverThrow(c, w, a);
    }
  }

  /** The moves of a pause, of a resume and of a replaced plan are legal too. */
  lemma PauseAndResumeAreLegal(c: Config, w: World, a: Action)
    requires Inv(c, w) && Enabled(c, w, a) && (a.Pause? || a.Resume? || a.Supersede?)
    ensures Begun(w, a).row.state != w.row.state ==> CanTransition(w.row.state, Begun(w, a).row.state)
  {
  }

  // ------------------------------------------------------------ nothing is overtaken while approvals fit

  /** Open approvals belong to what the mission waits for, or come too late to matter. */
  predicate ApprovalsFit(w: World) {
    || w.approvals == 0
    || (w.approvals == 1 && Standing(w.row) in {Blocked, Failed})
    || (w.supervised && Standing(w.row) == ReviewRequired)
    || Standing(w.row) in {Approved, Integrated, Completed, Cancelled}
  }

  /** A live task is where the mission is, and no open approval can move the mission away under a review. */
  predicate Fitting(w: World, t: Task) {
    && (t.Review? ==> w.row.state == ReviewRequired && w.approvals == 0)
    && (t.Integrate? ==> w.row.state == Integrated)
  }

  ghost predicate NoLive(w: World) {
    forall i :: i in w.tasks ==> !Live(w, w.tasks[i])
  }

  ghost predicate TasksFit(w: World) {
    && (forall i :: i in w.tasks && Live(w, w.tasks[i]) ==> Fitting(w, w.tasks[i]))
    && (forall i, j :: i in w.tasks && j in w.tasks && Live(w, w.tasks[i]) && Live(w, w.tasks[j]) ==> i == j)
  }

  ghost predicate Orderly(w: World) {
    ApprovalsFit(w) && TasksFit(w)
  }

  /** The project is not made autonomous while the mission is under review with an open approval. */
  predicate QuietProfile(w: World, a: Action) {
    a.SetProfile? && !a.supervised ==> w.approvals == 0 || Standing(w.row) != ReviewRequired
  }

  /** Why a transaction keeps the approvals fit, if it commits. */
  predicate ApprovalJustified(w: World, write: Write) {
    match write
    case Move(next) =>
      CanTransition(w.row.state, next) ==>
        w.row.state != Paused && next != Paused && (w.approvals == 0 || next in {Approved, Integrated, Completed, Cancelled})
    case BlockReview => w.approvals == 0 && w.row.state != Paused
    case OpenApproval => (w.approvals == 0 && w.row.state in {Blocked, Failed}) || (w.supervised && w.row.state == ReviewRequired)
    case _ => true
  }

  predicate SegmentApprovals(w: World, s: Segment) {
    var a := Commit(w, s.fence, s.first);
    var b := Commit(a.world, s.fence, s.second);
    && ApprovalJustified(w, s.first)
    && (!a.threw ==> ApprovalJustified(a.world, s.second))
    && (!a.threw && !b.threw ==> ApprovalJustified(b.world, s.third))
  }

  lemma CommitKeepsApprovals(w: World, fence: Option<nat>, write: Write)
    requires ApprovalsFit(w) && ApprovalJustified(w, write)
    ensures ApprovalsFit(Commit(w, fence, write).world)
  {
  }

  lemma CommitAllKeepsApprovals(w: World, s: Segment, count: nat)
    requires ApprovalsFit(w) && SegmentApprovals(w, s)
    ensures ApprovalsFit(CommitAll(w, s, count).world)
  {
    CommitKeepsApprovals(w, s.fence, s.first);
    var a := Commit(w, s.fence, s.first);
    if !a.threw {
      CommitKeepsApprovals(a.world, s.fence, s.second);
      var b := Commit(a.world, s.fence, s.second);
      if !b.threw {
        CommitKeepsApprovals(b.world, s.fence, s.third);
      }
    }
  }

  lemma BegunKeepsApprovals(c: Config, w: World, a: Action)
    requires RowSound(c, w) && ApprovalsFit(w) && Enabled(c, w, a)
    ensures ApprovalsFit(Begun(w, a)) <==> QuietProfile(w, a)
  {
  }

  lemma CorrectionApprovals(c: Config, w: World, fence: Option<nat>, attempts: nat)
    requires w.approvals == 0 && w.row.state != Paused
    ensures SegmentApprovals(w, Correction(c, w, fence, attempts))
  {
  }

  lemma TaskApprovals(c: Config, w: World, t: Task, a: Action)
    requires OfTask(a) && Fits(c, t, a) && ApprovalsFit(w)
    requires Live(w, t) ==> w.row.state != Paused && Owns(c, w, t) && Fitting(w, t)
    ensures SegmentApprovals(w, TaskSegment(c, w, t, a))
  {
    if !Fenced(w, t.generation) {
      match a
      case CheckFinished(_, ok) => CorrectionApprovals(c, w, Some(t.generation), t.attempts);
      case ValidationFailed(_) => CorrectionApprovals(c, w, Some(t.generation), t.attempts);
      case ReviewFinished(_, verdict) => CorrectionApprovals(c, w, Some(t.generation), w.row.correctionAttempts);
      case _ =>
    }
  }

  lemma OtherApprovals(c: Config, w: World, a: Action)
    requires !OfTask(a) && Inv(c, w) && ApprovalsFit(w) && Enabled(c, w, a) && QuietProfile(w, a)
    ensures SegmentApprovals(Begun(w, a), SegmentOf(c, w, a))
  {
    if a.Restart? && w.row.state == Running && a.orphan {
      CorrectionApprovals(c, Begun(w, a), None, w.row.correctionAttempts);
    }
  }

  lemma ApprovalsKept(c: Config, w: World, s: Step)
    requires Inv(c, w) && Orderly(w) && Enabled(c, w, s.action) && QuietProfile(w, s.action)
    ensures ApprovalsFit(Apply(c, w, s))
  {
    var b, seg := Begun(w, s.action), SegmentOf(c, w, s.action);
    BegunKeepsApprovals(c, w, s.action);
    if OfTask(s.action) {
      TaskApprovals(c, b, w.tasks[s.action.task], s.action);
    } else {
      OtherApprovals(c, w, s.action);
    }
    CommitAllKeepsApprovals(b, seg, if s.diedAfter.Some? then s.diedAfter.value else 3);
  }

  // ------------------------------------------------------------ the tasks

  /** A segment that only one task, or none, is live beside; or one that moves and starts nothing. */
  ghost predicate FitsOn(b: World, s: Segment) {
    var v := Finished(b, s);
    || (NoLive(b) && (s.starts.Some? && !Throws(b, s) ==> Fitting(v, s.starts.value)))
    || s == IDLE
  }

  lemma FitsOnKeepsTasks(b: World, s: Segment)
    requires TasksFit(b) && FitsOn(b, s) && forall i :: i in b.tasks ==> i < b.nextTask
    ensures TasksFit(Finished(b, s))
  {
    CommitAllSameTasks(b, s, 3);
  }

  lemma CorrectionFits(c: Config, b: World, fence: Option<nat>, attempts: nat)
    requires NoLive(b)
    ensures FitsOn(b, Correction(c, b, fence, attempts))
  {
  }

  lemma TaskFits(c: Config, b: World, t: Task, a: Action)
    requires OfTask(a) && Fits(c, t, a)
    requires Live(b, t) ==> NoLive(b) && Owns(c, b, t) && Fitting(b, t) && ApprovalsFit(b)
    ensures FitsOn(b, TaskSegment(c, b, t, a))
  {
    if !Fenced(b, t.generation) {
      match a
      case CheckFinished(_, ok) => CorrectionFits(c, b, Some(t.generation), t.attempts);
      case ValidationFailed(_) => CorrectionFits(c, b, Some(t.generation), t.attempts);
      case ReviewFinished(_, verdict) => CorrectionFits(c, b, Some(t.generation), b.row.correctionAttempts);
      case _ =>
    }
  }

  /** A task that is live after the beginning of a step was live before, and is not the acting one. */
  lemma BegunLive(c: Config, w: World, a: Action, i: nat)
    requires TasksSound(c, w) && Enabled(c, w, a) && i in Begun(w, a).tasks && Live(Begun(w, a), Begun(w, a).tasks[i])
    ensures i in w.tasks && Live(w, w.tasks[i]) && Begun(w, a).tasks[i] == w.tasks[i]
    ensures !a.Pause? && !a.Resume? && !a.Restart? && (OfTask(a) ==> i != a.task)
  {
  }

  lemma BegunFitting(w: World, a: Action, t: Task)
    requires Fitting(w, t) && !a.Pause? && !a.Resume? && (a.UserApproves? || a.UserRejects? ==> !t.Review?)
    ensures Fitting(Begun(w, a), t)
  {
  }

  lemma BegunFits(c: Config, w: World, a: Action)
    requires TasksSound(c, w) && TasksFit(w) && Enabled(c, w, a)
    requires w.approvals > 0 ==> forall i :: i in w.tasks && Live(w, w.tasks[i]) ==> !w.tasks[i].Review?
    ensures TasksFit(Begun(w, a))
    ensures OfTask(a) && Live(w, w.tasks[a.task]) ==> NoLive(Begun(w, a))
    ensures a.Resume? || a.Restart? || a.Pause? || NoLive(w) ==> NoLive(Begun(w, a))
  {
    var b := Begun(w, a);
    forall i | i in b.tasks && Live(b, b.tasks[i]) ensures Fitting(b, b.tasks[i]) && i in w.tasks && Live(w, w.tasks[i]) {
      BegunLive(c, w, a, i);
      BegunFitting(w, a, w.tasks[i]);
    }
    if a.Resume? || a.Restart? || a.Pause? {
      forall i | i in b.tasks ensures !Live(b, b.tasks[i]) {
        if Live(b, b.tasks[i]) {
          BegunLive(c, w, a, i);
        }
      }
    }
    if OfTask(a) && Live(w, w.tasks[a.task]) {
      forall i | i in b.tasks ensures !Live(b, b.tasks[i]) {
        if Live(b, b.tasks[i]) {
          BegunLive(c, w, a, i);
        }
      }
    }
  }

  lemma BegunNumbered(c: Config, w: World, a: Action)
    requires TasksSound(c, w) && Enabled(c, w, a)
    ensures forall i :: i in Begun(w, a).tasks ==> i < Begun(w, a).nextTask
  {
  }

  /** Where the engine waits for the user, the scheduler or a dependency, nothing is live. */
  lemma NothingLive(c: Config, w: World)
    requires Inv(c, w) && TasksFit(w)
    requires w.row.state in {Proposed, Ready, Blocked, Failed} || (w.approvals > 0 && w.row.state == ReviewRequired)
    ensures NoLive(w)
  {
    forall i | i in w.tasks ensures !Live(w, w.tasks[i]) {
      assert Driving(w, w.tasks[i]) ==> Owns(c, w, w.tasks[i]);
    }
  }

  lemma NoReviewUnderApproval(w: World)
    requires TasksFit(w) && w.approvals > 0
    ensures forall i :: i in w.tasks && Live(w, w.tasks[i]) ==> !w.tasks[i].Review?
  {
  }

  lemma RestartFits(c: Config, w: World, a: Action)
    requires a.Restart? && Inv(c, w) && Orderly(w)
    ensures FitsOn(Begun(w, a), SegmentOf(c, w, a))
  {
    BegunFits(c, w, a);
    if w.row.state == Running && a.orphan {
      CorrectionFits(c, Begun(w, a), None, w.row.correctionAttempts);
    }
  }

  lemma OtherFits(c: Config, w: World, a: Action)
    requires !OfTask(a) && Inv(c, w) && Orderly(w) && Enabled(c, w, a) && QuietProfile(w, a)
    ensures FitsOn(Begun(w, a), SegmentOf(c, w, a))
  {
    if a.Restart? {
      RestartFits(c, w, a);
      return;
    }
    if w.approvals > 0 {
      NoReviewUnderApproval(w);
    }
    BegunFits(c, w, a);
    if w.row.state in {Proposed, Ready, Blocked, Failed} || (w.approvals > 0 && w.row.state == ReviewRequired) {
      NothingLive(c, w);
    }
  }

  lemma TasksFitKept(c: Config, w: World, s: Step)
    requires Inv(c, w) && Orderly(w) && Enabled(c, w, s.action) && QuietProfile(w, s.action)
    ensures TasksFit(Apply(c, w, s))
  {
    if s.diedAfter.None? {
      var b := Begun(w, s.action);
      if w.approvals > 0 {
        NoReviewUnderApproval(w);
      }
      BegunFits(c, w, s.action);
      BegunNumbered(c, w, s.action);
      if OfTask(s.action) {
        TaskFits(c, b, w.tasks[s.action.task], s.action);
      } else {
        OtherFits(c, w, s.action);
      }
      FitsOnKeepsTasks(b, SegmentOf(c, w, s.action));
    }
  }

  /** Order is lost by exactly one kind of step: a project made autonomous while an approval is open under review. */
  lemma OrderKeptExactly(c: Config, w: World, s: Step)
    requires Inv(c, w) && Orderly(w) && Enabled(c, w, s.action)
    ensures Orderly(Apply(c, w, s)) <==> QuietProfile(w, s.action)
  {
    if QuietProfile(w, s.action) {
      ApprovalsKept(c, w, s);
      TasksFitKept(c, w, s);
    } else {
      BegunKeepsApprovals(c, w, s.action);
    }
  }

  ghost predicate QuietRun(c: Config, worlds: seq<World>, steps: seq<Step>) {
    IsRun(c, worlds, steps) && forall i {:trigger steps[i]} :: 0 <= i < |steps| ==> QuietProfile(worlds[i], steps[i].action)
  }

  lemma {:induction false} QuietRunIsOrderly(c: Config, worlds: seq<World>, steps: seq<Step>, n: nat)
    requires QuietRun(c, worlds, steps) && n < |worlds|
    ensures Orderly(worlds[n])
  {
    if n > 0 {
      QuietRunIsOrderly(c, worlds, steps, n - 1);
      RunKeepsInvariant(c, worlds, steps, n - 1);
      OrderKeptExactly(c, worlds[n - 1], steps[n - 1]);
    }
  }

  /** Unless a project is made autonomous at such a moment, no flow ever asks for an illegal transition. */
  lemma FlowsAreLegal(c: Config, worlds: seq<World>, steps: seq<Step>, n: nat)
    requires QuietRun(c, worlds, steps) && n < |steps|
    ensures !Throws(Begun(worlds[n], steps[n].action), SegmentOf(c, worlds[n], steps[n].action))
  {
    QuietRunIsOrderly(c, worlds, steps, n);
    RunKeepsInvariant(c, worlds, steps, n);
    ThrowsExactlyWhenOvertaken(c, worlds[n], steps[n].action);
  }

  // ------------------------------------------------------------ a run that is overtaken

  /** Under review in a project made autonomous meanwhile, with a reviewer beside the open approval. */
  function Contested(checks: nat): World {
    UnderReviewOfUser(checks).(supervised := false, generation := 1, tasks := map[3 + checks := Review(1)], nextTask := 4 + checks)
  }

  lemma ContestedFollows(c: Config, checks: nat, w: World)
    requires w == UnderReviewOfUser(checks).(supervised := false)
    ensures Follows(c, UnderReviewOfUser(checks), SetProfile(false), w)
    ensures Follows(c, w, Pause, PausedFrom(w))
  {
  }

  lemma ContestedResumed(c: Config, checks: nat, w: World)
    requires w == UnderReviewOfUser(checks).(supervised := false)
    ensures Follows(c, PausedFrom(w), Resume, Contested(checks))
  {
  }

  function ContestedApproved(checks: nat): World {
    Contested(checks).(row := Row(Integrated, false, 0, None), approvals := 0,
      tasks := map[3 + checks := Review(1), 4 + checks := Integrate(1)], nextTask := 5 + checks, evidence := Evidence(true, checks, true))
  }

  lemma ContestedIsApproved(c: Config, checks: nat)
    ensures Follows(c, Contested(checks), UserApproves, ContestedApproved(checks))
    ensures var v, a := ContestedApproved(checks), ReviewFinished(3 + checks, Approve);
      Enabled(c, v, a) && Overtaken(c, v, v.tasks[3 + checks], a)
  {
  }

  /**
   A supervised mission waits under review; the project is made autonomous, paused and resumed,
   which starts a reviewer beside the approval that is still open. The user approves, the
   mission is integrated, and then the reviewer's approval asks for an illegal transition.
   */
  lemma DecisionOvertakesReview(c: Config) returns (worlds: seq<World>, steps: seq<Step>, w: World, a: Action)
    ensures Reaches(c, worlds, steps, w)
    ensures Enabled(c, w, a) && OfTask(a) && Overtaken(c, w, w.tasks[a.task], a)
  {
    var checks := c.requiredChecks;
    var v := UnderReviewOfUser(checks).(supervised := false);
    worlds, steps, w := RunToUsersReview(c);
    ContestedFollows(c, checks, v);
    worlds, steps, w := Extend(c, worlds, steps, w, SetProfile(false), v);
    worlds, steps, w := Extend(c, worlds, steps, w, Pause, PausedFrom(v));
    ContestedResumed(c, checks, v);
    worlds, steps, w := Extend(c, worlds, steps, w, Resume, Contested(checks));
    ContestedIsApproved(c, checks);
    worlds, steps, w := Extend(c, worlds, steps, w, UserApproves, ContestedApproved(checks));
    a := ReviewFinished(3 + checks, Approve);
  }
}
