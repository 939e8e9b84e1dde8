/** What every run of the remote protocol guarantees, crashes and lost replies included. */
module RemoteProtocolTheorems {
  import opened Wrappers
  import opened RemoteProtocol
  import opened RemoteProtocolProofs

  lemma {:induction false} RunKeepsInvariant(states: seq<System>, actions: seq<Action>, k: nat)
    requires IsRun(states, actions) && k < |states|
    ensures Inv(states[k])
  {
    if k == 0 {
      assert LandedLog(states[0]) == [] && CommittedLog(states[0]) == [];
    } else {
      RunKeepsInvariant(states, actions, k - 1);
      assert Step(states[k - 1], actions[k - 1], states[k]);
      StepKeeps(states[k - 1], actions[k - 1], states[k]);
    }
  }

  // ------------------------------------------------------------ refinement

  function Reply(d: Decision): seq<Envelope> {
    if d.response.Some? then [d.response.value] else []
  }

  /** The responses of a log, in order. */
  function Responses(log: seq<Decision>): seq<Envelope> {
    if log == [] then [] else Reply(log[0]) + Responses(log[1..])
  }

  lemma {:induction false} ResponsesSnoc(log: seq<Decision>, d: Decision)
    ensures Responses(log + [d]) == Responses(log) + Reply(d)
  {
    var all := log + [d];
    if log == [] {
      assert all[1..] == [];
    } else {
      assert all[0] == log[0] && all[1..] == log[1..] + [d];
      ResponsesSnoc(log[1..], d);
    }
  }

  /** The reference publishes exactly the responses, in order, and counts the requests. */
  lemma {:induction false} ReplayPublishesResponses(log: seq<Decision>)
    ensures Replay(log).output == Responses(log) && Replay(log).cursor == |log|
  {
    if log != [] {
      var before, d := log[..|log| - 1], log[|log| - 1];
      assert log == before + [d];
      ReplayPublishesResponses(before);
      ResponsesSnoc(before, d);
    }
  }

  /**
   Crash refinement. In every reachable state the relay shows exactly one response
   per visible request that has one, in cursor order, as if each request had been
   handled atomically; the visible requests are the first ones of the inbox, and
   they are all finished ones plus at most the one in progress.
   */
  lemma CrashRefinement(states: seq<System>, actions: seq<Action>, k: nat)
    requires IsRun(states, actions) && k < |states|
    ensures var s := states[k]; var log := LandedLog(s);
      && s.relay.output == Replay(log).output == Responses(log)
      && AdmissibleLog(log)
      && s.store.relayCursor <= |log| <= s.store.relayCursor + 1
      && |log| <= |s.relay.inbox|
      && (forall i :: 0 <= i < |log| ==> log[i].request == s.relay.inbox[i])
  {
    RunKeepsInvariant(states, actions, k);
    ReplayPublishesResponses(LandedLog(states[k]));
  }

  /** One atomic action of the reference: the next request of the inbox is handled. */
  predicate HandlesNext(log: seq<Decision>, next: seq<Decision>, inbox: seq<Envelope>) {
    && |next| == |log| + 1 && next[..|log|] == log
    && |log| < |inbox| && next[|log|].request == inbox[|log|]
    && Admissible(Replay(log), next[|log|])
    && Replay(next) == Handle(Replay(log), next[|log|])
  }

  /** Forward simulation: a step either leaves the visible log alone or handles the next request in it. */
  lemma StepSimulates(s: System, a: Action, t: System)
    requires Inv(s) && Step(s, a, t)
    ensures LandedLog(t) == LandedLog(s)
         || ((a.Persist? || a.Publish?) && HandlesNext(LandedLog(s), LandedLog(t), s.relay.inbox))
  {
    StepKeeps(s, a, t);
    if a.Persist? && s.memory != s.store {
      PersistSimulates(s, t);
    } else if a.Publish? {
      PublishSimulates(s, a, t);
    } else {
      assert t.decisions == s.decisions;
    }
  }

  /** Storing a staged record handles the next request of the inbox, now or when it is published. */
  lemma PersistStagedSimulates(s: System, t: System)
    requires s.store.pending.None? && LogOk(t) && t.store.pending.Some? && t.relay == s.relay
    requires |t.decisions| == |s.decisions| + 1 && t.decisions[..|s.decisions|] == s.decisions
    ensures LandedLog(t) == LandedLog(s) || HandlesNext(LandedLog(s), LandedLog(t), s.relay.inbox)
  {
    var before, d := LastDecision(t);
    assert before == s.decisions == LandedLog(s);
  }

  lemma PersistSimulates(s: System, t: System)
    requires Inv(s) && LogOk(t) && t == Apply(s, Persist) && s.memory != s.store
    ensures LandedLog(t) == LandedLog(s) || HandlesNext(LandedLog(s), LandedLog(t), s.relay.inbox)
  {
    if s.store.pending.None? {
      assert t.decisions == s.decisions + [Decision(Head(s), s.memory.pending.value.response)];
      PersistStagedSimulates(s, t);
    } else {
      assert t.decisions == s.decisions;
    }
  }

  lemma PublishSimulates(s: System, a: Action, t: System)
    requires Inv(s) && Inv(t) && a.Publish? && Step(s, a, t)
    ensures LandedLog(t) == LandedLog(s) || HandlesNext(LandedLog(s), LandedLog(t), s.relay.inbox)
  {
    var before, d := LastDecision(s);
    assert t.decisions == s.decisions;
    assert HandlesNext(before, s.decisions, s.relay.inbox);
    assert LandedLog(s) == before || LandedLog(s) == s.decisions;
    assert LandedLog(t) == before || LandedLog(t) == s.decisions;
    PublishOnceAdds(s.relay.output, s.store.pending.value.response.value);
    assert Landed(t);
  }

  // ------------------------------------------------------------ outbound sequences

  /** The sequence numbers of the envelopes for one peer, in publication order. */
  function SequencesTo(output: seq<Envelope>, peer: Device): seq<nat> {
    if output == [] then []
    else SequencesTo(output[..|output| - 1], peer)
         + (if output[|output| - 1].recipient == peer then [output[|output| - 1].sequence] else [])
  }

  lemma SequencesToSnoc(output: seq<Envelope>, e: Envelope, peer: Device)
    ensures SequencesTo(output + [e], peer) == SequencesTo(output, peer) + (if e.recipient == peer then [e.sequence] else [])
  {
    assert (output + [e])[..|output|] == output;
  }

  function UpTo(n: nat): seq<nat> {
    seq(n, i => i + 1)
  }

  lemma UpToNext(n: nat)
    ensures UpTo(n + 1) == UpTo(n) + [n + 1]
  {
  }

  /** An admissible decision goes on with the numbers of its peer. */
  lemma NextNumber(a: Atomic, d: Decision, peer: Device)
    requires Admissible(a, d) && SequencesTo(a.output, peer) == UpTo(Last(a.outbound, peer))
    ensures SequencesTo(Handle(a, d).output, peer) == UpTo(Last(Handle(a, d).outbound, peer))
  {
    if d.response.Some? {
      SequencesToSnoc(a.output, d.response.value, peer);
      if d.response.value.recipient == peer {
        UpToNext(Last(a.outbound, peer));
        assert Last(Handle(a, d).outbound, peer) == Last(a.outbound, peer) + 1;
      } else {
        assert Last(Handle(a, d).outbound, peer) == Last(a.outbound, peer);
      }
    }
  }

  lemma {:induction false} LogNumbersReplies(log: seq<Decision>, peer: Device)
    requires AdmissibleLog(log)
    ensures SequencesTo(Replay(log).output, peer) == UpTo(Last(Replay(log).outbound, peer))
  {
    if log != [] {
      LogNumbersReplies(log[..|log| - 1], peer);
      NextNumber(Replay(log[..|log| - 1]), log[|log| - 1], peer);
    }
  }

  /** No reuse and no gap: the sequences published to a peer are 1, 2, 3, ... in that order. */
  lemma NoOutboundSequenceReuse(states: seq<System>, actions: seq<Action>, k: nat, peer: Device)
    requires IsRun(states, actions) && k < |states|
    ensures var numbers := SequencesTo(states[k].relay.output, peer);
      forall i :: 0 <= i < |numbers| ==> numbers[i] == i + 1
  {
    RunKeepsInvariant(states, actions, k);
    CrashRefinement(states, actions, k);
    LogNumbersReplies(LandedLog(states[k]), peer);
  }

  // ------------------------------------------------------------ acknowledgement

  /**
   No loss and no early acknowledgement: an acknowledged request was handled and
   answered durably, its response is at the relay, and its sequences are stored.
   */
  lemma NoEarlyAcknowledgement(states: seq<System>, actions: seq<Action>, k: nat, cursor: nat)
    requires IsRun(states, actions) && k < |states| && 1 <= cursor <= states[k].relay.acked
    ensures var s := states[k];
      && cursor in s.handled
      && cursor <= |CommittedLog(s)| && cursor <= |LandedLog(s)| <= |s.relay.inbox|
      && s.store.inbound == Replay(CommittedLog(s)).inbound && s.store.outbound == Replay(CommittedLog(s)).outbound
      && LandedLog(s)[cursor - 1].request == s.relay.inbox[cursor - 1]
      && (LandedLog(s)[cursor - 1].response.Some? ==> Published(s.relay.output, LandedLog(s)[cursor - 1].response.value))
  {
    RunKeepsInvariant(states, actions, k);
    CrashRefinement(states, actions, k);
    if LandedLog(states[k])[cursor - 1].response.Some? {
      ResponseIsPublished(LandedLog(states[k]), cursor - 1);
    }
  }

  lemma {:induction false} ResponseIsPublished(log: seq<Decision>, i: nat)
    requires i < |log| && log[i].response.Some?
    ensures Published(Responses(log), log[i].response.value)
  {
    if i == 0 {
      assert Responses(log)[0] == log[0].response.value;
    } else {
      ResponseIsPublished(log[1..], i - 1);
      var rest := Responses(log[1..]);
      var j :| 0 <= j < |rest| && rest[j] == log[i].response.value;
      assert Responses(log)[|Responses(log)| - |rest| + j] == rest[j];
    }
  }

  /** The durable cursor never goes back and moves by at most one per step. */
  lemma DurableCursorAdvancesByOne(s: System, a: Action, t: System)
    requires Inv(s) && Step(s, a, t)
    ensures s.store.relayCursor <= t.store.relayCursor <= s.store.relayCursor + 1
    ensures s.relay.acked <= t.relay.acked <= s.relay.acked + 1
  {
  }

  lemma DecisionsGrow(s: System, a: Action, t: System)
    requires Step(s, a, t)
    ensures s.decisions <= t.decisions
  {
  }

  /** A durable answer is never withdrawn or changed. */
  lemma {:induction false} DecisionsAreFinal(states: seq<System>, actions: seq<Action>, i: nat, j: nat)
    requires IsRun(states, actions) && i <= j < |states|
    ensures states[i].decisions <= states[j].decisions
  {
    if i < j {
      DecisionsAreFinal(states, actions, i, j - 1);
      DecisionsGrow(states[j - 1], actions[j - 1], states[j]);
    }
  }

  /** Once the answer to a request is durable, the handler never runs for it again. */
  lemma NeverHandledAgain(states: seq<System>, actions: seq<Action>, i: nat, j: nat, cursor: nat)
    requires IsRun(states, actions) && i <= j < |actions|
    requires 1 <= cursor <= |states[i].decisions|
    requires actions[j].Invoke?
    ensures states[j].memory.relayCursor + 1 != cursor
  {
    DecisionsAreFinal(states, actions, i, j);
    RunKeepsInvariant(states, actions, j);
    assert Step(states[j], actions[j], states[j + 1]);
  }

  // ------------------------------------------------------------ restart and refusal

  /** The checks the constructor makes on a loaded record. */
  predicate AcceptsPersisted(st: Persisted) {
    st.pending.Some? ==>
      && st.pending.value.relayCursor > st.relayCursor
      && st.pending.value.inboundSequence > 0
      && (st.pending.value.outboundSequence.Some? ==> st.pending.value.outboundSequence.value > 0)
  }

  /** A restart never refuses what the connector itself stored (envelope sequences are positive). */
  lemma RestartAccepts(states: seq<System>, actions: seq<Action>, k: nat)
    requires IsRun(states, actions) && k < |states|
    requires forall i :: 0 <= i < |states[k].relay.inbox| ==> states[k].relay.inbox[i].sequence > 0
    ensures AcceptsPersisted(states[k].store)
  {
    RunKeepsInvariant(states, actions, k);
    var s := states[k];
    if s.store.pending.Some? && s.store.pending.value.outboundSequence.Some? {
      var before, d := LastDecision(s);
    }
  }

  /** The relay never answers a publication of ours with a conflict. */
  lemma PublicationNeverConflicts(states: seq<System>, actions: seq<Action>, k: nat)
    requires IsRun(states, actions) && k < |states|
    requires states[k].memory.pending.Some? && states[k].memory.pending.value.response.Some?
    ensures !Conflicts(states[k].relay.output, states[k].memory.pending.value.response.value)
  {
    RunKeepsInvariant(states, actions, k);
    var s := states[k];
    var e := s.memory.pending.value.response.value;
    assert PendingIdOk(s, e);
    if Published(s.relay.output, e) {
      OutputIdsUnique(states, actions, k);
    }
  }

  lemma {:induction false} OutputIdsUnique(states: seq<System>, actions: seq<Action>, k: nat)
    requires IsRun(states, actions) && k < |states|
    ensures var o := states[k].relay.output;
      forall i, j :: 0 <= i < j < |o| ==> o[i].messageId != o[j].messageId
  {
    if k > 0 {
      OutputIdsUnique(states, actions, k - 1);
      assert Step(states[k - 1], actions[k - 1], states[k]);
    }
  }

  /**
   A request whose handler failed once, and whose failure was recorded, is never
   answered: the later "accepted" record is refused, so it stays at the head of the
   inbox for good and nothing behind it is ever acknowledged.
   */
  lemma {:induction false} FailedRequestBlocksForever(states: seq<System>, actions: seq<Action>, i: nat, j: nat, cursor: nat)
    requires IsRun(states, actions) && i <= j < |states|
    requires 1 <= cursor <= |states[i].relay.inbox|
    requires |states[i].decisions| < cursor
    requires var id := states[i].relay.inbox[cursor - 1].messageId; id in states[i].audit && states[i].audit[id] == Failed
    ensures |states[j].decisions| < cursor
    ensures states[j].relay.acked < cursor && states[j].store.relayCursor < cursor
  {
    RunKeepsInvariant(states, actions, i);
    RunKeepsInvariant(states, actions, j);
    RecordsAreFinal(states, actions, i, j, cursor);
  }

  lemma {:induction false} RecordsAreFinal(states: seq<System>, actions: seq<Action>, i: nat, j: nat, cursor: nat)
    requires IsRun(states, actions) && i <= j < |states|
    requires 1 <= cursor <= |states[i].relay.inbox|
    ensures |states[j].relay.inbox| >= cursor && states[j].relay.inbox[cursor - 1] == states[i].relay.inbox[cursor - 1]
    ensures forall id :: id in states[i].audit ==> id in states[j].audit && states[j].audit[id] == states[i].audit[id]
  {
    if i < j {
      RecordsAreFinal(states, actions, i, j - 1, cursor);
      assert Step(states[j - 1], actions[j - 1], states[j]);
    }
  }
}
