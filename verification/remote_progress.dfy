/** Which requests can still be answered: exactly those with nothing refused at or before them. */
module RemoteProgress {
  import opened Wrappers
  import opened RemoteProtocol
  import opened RemoteProtocolTheorems

  /** The last sequence of each sender, once these requests have been handled. */
  function LastAccepted(requests: seq<Envelope>): map<Device, nat> {
    if requests == [] then map[]
    else var e := requests[|requests| - 1]; LastAccepted(requests[..|requests| - 1])[e.sender := e.sequence]
  }

  /** The request is newer than every earlier one of its sender's. */
  predicate Fresh(inbox: seq<Envelope>, i: nat)
    requires i < |inbox|
  {
    inbox[i].sequence > Last(LastAccepted(inbox[..i]), inbox[i].sender)
  }

  predicate RecordedFailed(s: System, id: MessageId) {
    id in s.audit && s.audit[id] == Failed
  }

  /** The request is fresh, and no failure of its handler was recorded. */
  predicate Answerable(s: System, i: nat)
    requires i < |s.relay.inbox|
  {
    Fresh(s.relay.inbox, i) && !RecordedFailed(s, s.relay.inbox[i].messageId)
  }

  /** A request and all those before it that have no answer yet are answerable. */
  predicate Passable(s: System, cursor: nat)
    requires cursor <= |s.relay.inbox|
  {
    forall i :: |s.decisions| <= i < cursor ==> Answerable(s, i)
  }

  /** One run continues another one. */
  ghost predicate Continues(states: seq<System>, actions: seq<Action>, longer: seq<System>, more: seq<Action>) {
    IsRun(longer, more) && states <= longer && actions <= more
  }

  ghost predicate CanBeDecided(states: seq<System>, actions: seq<Action>, cursor: nat) {
    exists longer: seq<System>, more: seq<Action> ::
      Continues(states, actions, longer, more) && |longer| > 0 && |longer[|longer| - 1].decisions| >= cursor
  }

  lemma {:induction false} AcceptedByReplay(log: seq<Decision>, inbox: seq<Envelope>)
    requires |log| <= |inbox| && forall i :: 0 <= i < |log| ==> log[i].request == inbox[i]
    ensures Replay(log).inbound == LastAccepted(inbox[..|log|])
  {
    if log != [] {
      AcceptedByReplay(log[..|log| - 1], inbox);
      assert inbox[..|log|][..|log| - 1] == inbox[..|log| - 1];
    }
  }

  // ------------------------------------------------------------ what is answered was answerable

  lemma {:induction false} AdmittedAt(log: seq<Decision>, i: nat)
    requires AdmissibleLog(log) && i < |log|
    ensures Admissible(Replay(log[..i]), log[i])
  {
    var before := log[..|log| - 1];
    if i < |log| - 1 {
      AdmittedAt(before, i);
      assert before[..i] == log[..i];
    }
  }

  lemma DecidedWasAnswerable(states: seq<System>, actions: seq<Action>, start: nat, end: nat, i: nat)
    requires IsRun(states, actions) && start <= end < |states|
    requires i < |states[start].relay.inbox| && i < |states[end].decisions|
    requires |states[start].decisions| <= i
    ensures Answerable(states[start], i)
  {
    var s, t := states[start], states[end];
    if RecordedFailed(s, s.relay.inbox[i].messageId) {
      FailedRequestBlocksForever(states, actions, start, end, i + 1);
    }
    RunKeepsInvariant(states, actions, end);
    RecordsAreFinal(states, actions, start, end, |s.relay.inbox|);
    InboxIsKept(states, actions, start, end);
    AdmittedAt(t.decisions, i);
    AcceptedByReplay(t.decisions[..i], t.relay.inbox);
    assert t.relay.inbox[..i] == s.relay.inbox[..i];
  }

  lemma {:induction false} InboxIsKept(states: seq<System>, actions: seq<Action>, i: nat, j: nat)
    requires IsRun(states, actions) && i <= j < |states|
    ensures states[i].relay.inbox <= states[j].relay.inbox
  {
    if i < j {
      InboxIsKept(states, actions, i, j - 1);
      assert Step(states[j - 1], actions[j - 1], states[j]);
    }
  }

  // ------------------------------------------------------------ what is answerable can be answered

  /** The relay and the records, as far as later answers depend on them. */
  predicate SameRecords(s: System, t: System) {
    t.relay.inbox == s.relay.inbox && t.audit == s.audit && t.decisions == s.decisions
  }

  /** Nothing is pending, and the memory is stored. */
  predicate Idle(s: System) {
    s.memory == s.store && s.memory.pending.None?
  }

  lemma Go(states: seq<System>, actions: seq<Action>, s: System, a: Action)
    returns (longer: seq<System>, more: seq<Action>, t: System)
    requires IsRun(states, actions) && s == states[|states| - 1] && Enabled(s, a)
    ensures t == Apply(s, a) && Continues(states, actions, longer, more) && t == longer[|longer| - 1]
  {
    t := Apply(s, a);
    longer, more := states + [t], actions + [a];
    assert longer[0] == states[0];
  }

  /** A pending record is published and stored as such. */
  lemma GoPublish(states: seq<System>, actions: seq<Action>, s: System)
    returns (longer: seq<System>, more: seq<Action>, t: System)
    requires IsRun(states, actions) && s == states[|states| - 1] && s.memory == s.store && s.memory.pending.Some?
    ensures Continues(states, actions, longer, more) && t == longer[|longer| - 1] && SameRecords(s, t)
    ensures t.memory == t.store && t.memory.pending.Some?
    ensures var p := t.memory.pending.value; p.response.None? || p.responsePublished
  {
    longer, more, t := states, actions, s;
    if s.memory.pending.value.response.Some? && !s.memory.pending.value.responsePublished {
      PublicationNeverConflicts(states, actions, |actions|);
      longer, more, t := Go(longer, more, t, Publish(false));
      longer, more, t := Go(longer, more, t, Persist);
    }
  }

  /** Its sequences are committed and stored. */
  lemma GoCommit(states: seq<System>, actions: seq<Action>, s: System)
    returns (longer: seq<System>, more: seq<Action>, t: System)
    requires IsRun(states, actions) && s == states[|states| - 1] && s.memory == s.store && s.memory.pending.Some?
    requires var p := s.memory.pending.value; p.response.None? || p.responsePublished
    ensures Continues(states, actions, longer, more) && t == longer[|longer| - 1] && SameRecords(s, t)
    ensures t.memory == t.store && t.memory.pending.Some? && t.memory.pending.value.sequencesCommitted
  {
    longer, more, t := states, actions, s;
    if !s.memory.pending.value.sequencesCommitted {
      longer, more, t := Go(longer, more, t, Commit);
      longer, more, t := Go(longer, more, t, Persist);
    }
  }

  /** Whatever a run left behind is finished after a restart. */
  lemma GoIdle(states: seq<System>, actions: seq<Action>, s: System)
    returns (longer: seq<System>, more: seq<Action>, t: System)
    requires IsRun(states, actions) && s == states[|states| - 1]
    ensures Continues(states, actions, longer, more) && t == longer[|longer| - 1] && SameRecords(s, t) && Idle(t)
  {
    longer, more, t := Go(states, actions, s, Crash);
    if t.memory.pending.Some? {
      longer, more, t := GoPublish(longer, more, t);
      longer, more, t := GoCommit(longer, more, t);
      longer, more, t := Go(longer, more, t, Acknowledge(false));
      longer, more, t := Go(longer, more, t, Persist);
    }
  }

  lemma ReadyForNext(s: System)
    requires Inv(s) && Idle(s) && |s.decisions| < |s.relay.inbox| && Answerable(s, |s.decisions|)
    ensures Ready(s) && Head(s) == s.relay.inbox[|s.decisions|]
  {
    AcceptedByReplay(s.decisions, s.relay.inbox);
  }

  lemma DecidingSteps(s: System) returns (handled: System, recorded: System)
    requires Ready(s) && !RecordedFailed(s, Head(s).messageId)
    ensures Step(s, Invoke, handled) && Step(handled, Audit(Accepted), recorded) && Enabled(recorded, Stage(None))
    ensures recorded == s.(handled := s.handled + {s.memory.relayCursor + 1}, audit := s.audit[Head(s).messageId := Accepted])
  {
    handled := Apply(s, Invoke);
    recorded := Apply(handled, Audit(Accepted));
  }

  /** The handler accepts the next request, and its answer, without a reply, is stored. */
  lemma GoDecide(states: seq<System>, actions: seq<Action>, s: System)
    returns (longer: seq<System>, more: seq<Action>, t: System)
    requires IsRun(states, actions) && s == states[|states| - 1] && Idle(s)
    requires |s.decisions| < |s.relay.inbox| && Answerable(s, |s.decisions|)
    ensures Continues(states, actions, longer, more) && t == longer[|longer| - 1]
    ensures t.relay.inbox == s.relay.inbox && |t.decisions| == |s.decisions| + 1
    ensures t.audit == s.audit[s.relay.inbox[|s.decisions|].messageId := Accepted]
  {
    RunKeepsInvariant(states, actions, |actions|);
    ReadyForNext(s);
    var handled, recorded := DecidingSteps(s);
    longer, more, t := Go(states, actions, s, Invoke);
    longer, more, t := Go(longer, more, handled, Audit(Accepted));
    longer, more, t := Go(longer, more, recorded, Stage(None));
    longer, more, t := Go(longer, more, t, Persist);
  }

  /** Every request up to the cursor is answered, one after the other. */
  lemma {:induction false} GoOn(states: seq<System>, actions: seq<Action>, s: System, cursor: nat)
    returns (longer: seq<System>, more: seq<Action>, t: System)
    requires IsRun(states, actions) && s == states[|states| - 1] && cursor <= |s.relay.inbox| && Passable(s, cursor)
    ensures Continues(states, actions, longer, more) && t == longer[|longer| - 1] && |t.decisions| >= cursor
    decreases cursor - |s.decisions|
  {
    longer, more, t := states, actions, s;
    if |s.decisions| < cursor {
      longer, more, t := GoIdle(longer, more, t);
      assert Answerable(s, |s.decisions|);
      longer, more, t := GoDecide(longer, more, t);
      assert Passable(t, cursor) by {
        forall i | |t.decisions| <= i < cursor ensures Answerable(t, i) {
          assert Answerable(s, i);
        }
      }
      longer, more, t := GoOn(longer, more, t, cursor);
    }
  }

  /**
   A request in the inbox can still be answered, in some continuation of the run, exactly
   when it and every request before it that has no answer is fresh and not recorded as failed.
   */
  lemma DecidableExactly(states: seq<System>, actions: seq<Action>, cursor: nat)
    requires IsRun(states, actions) && cursor <= |states[|actions|].relay.inbox|
    ensures CanBeDecided(states, actions, cursor) <==> Passable(states[|actions|], cursor)
  {
    var s := states[|actions|];
    if Passable(s, cursor) {
      var longer, more, t := GoOn(states, actions, s, cursor);
    }
    if CanBeDecided(states, actions, cursor) {
      var longer: seq<System>, more: seq<Action> :|
        Continues(states, actions, longer, more) && |longer| > 0 && |longer[|longer| - 1].decisions| >= cursor;
      forall i | |s.decisions| <= i < cursor ensures Answerable(s, i) {
        assert longer[|actions|] == s;
        DecidedWasAnswerable(longer, more, |actions|, |longer| - 1, i);
      }
    }
  }

  // ------------------------------------------------------------ the runs

  const NEW := System(NOTHING_PERSISTED, NOTHING_PERSISTED, Relay([], 0, []), map[], {}, {}, [])

  /** One failing handler is enough: the first request is never answered, nor any that follows it. */
  lemma OneFailureBlocks(e: Envelope) returns (states: seq<System>, actions: seq<Action>, s: System)
    requires e.sequence > 0
    ensures IsRun(states, actions) && s == states[|actions|]
    ensures s.relay.inbox == [e] && s.decisions == [] && RecordedFailed(s, e.messageId)
    ensures !CanBeDecided(states, actions, 1)
  {
    states, actions, s := [NEW], [], NEW;
    states, actions, s := Go(states, actions, s, Arrive(e));
    states, actions, s := Go(states, actions, s, Invoke);
    states, actions, s := Go(states, actions, s, Audit(Failed));
    assert !Answerable(s, 0);
    DecidableExactly(states, actions, 1);
  }

  /** So is one request whose sequence is not above an earlier one of its sender's. */
  lemma StaleRequestBlocks(first: Envelope, second: Envelope) returns (states: seq<System>, actions: seq<Action>, s: System)
    requires first.sender == second.sender && second.sequence <= first.sequence
    ensures IsRun(states, actions) && s == states[|actions|]
    ensures s.relay.inbox == [first, second] && s.audit == map[]
    ensures !CanBeDecided(states, actions, 2)
  {
    states, actions, s := [NEW], [], NEW;
    states, actions, s := Go(states, actions, s, Arrive(first));
    states, actions, s := Go(states, actions, s, Arrive(second));
    assert s.relay.inbox[..1] == [first];
    assert !Answerable(s, 1);
    DecidableExactly(states, actions, 2);
  }
}
