/** Every step of the remote protocol keeps its invariant and is a step, or no step, of the reference. */
module RemoteProtocolProofs {
  import opened Wrappers
  import opened RemoteProtocol

  lemma ReplaySnoc(log: seq<Decision>, d: Decision)
    ensures Replay(log + [d]) == Handle(Replay(log), d)
    ensures AdmissibleLog(log + [d]) <==> AdmissibleLog(log) && Admissible(Replay(log), d)
  {
    assert (log + [d])[..|log|] == log;
  }

  lemma ArriveKeeps(s: System, e: Envelope)
    requires Inv(s)
    ensures Inv(Apply(s, Arrive(e)))
  {
  }

  /** All but the last decision, and the last one. */
  lemma LastDecision(s: System) returns (before: seq<Decision>, d: Decision)
    requires LogOk(s) && s.store.pending.Some?
    ensures s.decisions == before + [d] && before == s.decisions[..|s.decisions| - 1]
    ensures d.response == s.store.pending.value.response
    ensures |before| == s.store.relayCursor && d.request == s.relay.inbox[s.store.relayCursor]
    ensures AdmissibleLog(before) && Admissible(Replay(before), d)
    ensures Replay(s.decisions) == Handle(Replay(before), d)
  {
    before, d := s.decisions[..|s.decisions| - 1], s.decisions[|s.decisions| - 1];
    assert s.decisions == before + [d];
    ReplaySnoc(before, d);
  }

  /** Storing a staged record decides its request. */
  lemma PersistStagedLog(s: System, t: System)
    requires Inv(s) && s.store.pending.None? && s.memory.pending.Some?
    requires s.memory == s.store.(pending := s.memory.pending) && t == Apply(s, Persist)
    ensures LogOk(t) && t.decisions[..|t.decisions| - 1] == s.decisions
    ensures Replay(t.decisions).output == Replay(s.decisions).output
              + (if s.memory.pending.value.response.Some? then [s.memory.pending.value.response.value] else [])
  {
    var d := Decision(Head(s), s.memory.pending.value.response);
    ReplaySnoc(s.decisions, d);
    assert t.decisions == s.decisions + [d];
    assert Admissible(Replay(s.decisions), d) by {
      assert CommittedLog(s) == s.decisions;
    }
  }

  lemma PersistStagedEffects(s: System, t: System)
    requires EffectsOk(s) && LogOk(t) && s.store.pending.None? && s.memory.pending.Some?
    requires t.relay == s.relay && t.memory == t.store && t.store == s.store.(pending := s.memory.pending)
    requires !s.memory.pending.value.responsePublished && !s.memory.pending.value.sequencesCommitted
    requires t.decisions[..|t.decisions| - 1] == s.decisions && t.decisions != []
    requires Replay(t.decisions).output == Replay(s.decisions).output
              + (if s.memory.pending.value.response.Some? then [s.memory.pending.value.response.value] else [])
    ensures EffectsOk(t)
  {
    assert LandedLog(s) == s.decisions && CommittedLog(s) == s.decisions;
    assert CommittedLog(t) == s.decisions;
    if s.memory.pending.value.response.None? {
      assert LandedLog(t) == t.decisions;
    } else {
      assert LandedLog(t) == s.decisions;
    }
  }

  lemma PersistStagedWitness(s: System, t: System)
    requires PersistedOk(s.memory, s.relay.inbox) && IdsOk(s) && WitnessOk(s) && s.store.pending.None? && s.memory.pending.Some?
    requires s.memory == s.store.(pending := s.memory.pending) && |s.decisions| == s.store.relayCursor
    requires t == s.(store := s.memory, decisions := s.decisions + [Decision(Head(s), s.memory.pending.value.response)])
    ensures PersistedOk(t.store, t.relay.inbox) && PersistedOk(t.memory, t.relay.inbox)
    ensures MemoryAhead(t) && IdsOk(t) && WitnessOk(t)
  {
  }

  lemma PersistStagedKeeps(s: System)
    requires Inv(s) && s.store.pending.None? && s.memory.pending.Some?
    requires s.memory == s.store.(pending := s.memory.pending)
    ensures Inv(Apply(s, Persist))
  {
    var t := s.(store := s.memory, decisions := s.decisions + [Decision(Head(s), s.memory.pending.value.response)]);
    assert t == Apply(s, Persist);
    PersistStagedLog(s, t);
    PersistStagedEffects(s, t);
    PersistStagedWitness(s, t);
  }

  /** Storing the published flag changes nothing the relay shows. */
  lemma PersistFlagKeeps(s: System)
    requires Inv(s) && s.store.pending.Some? && s.memory != s.store
    requires s.memory == s.store.(pending := Some(s.store.pending.value.(responsePublished := true)))
    ensures Inv(Apply(s, Persist))
  {
    var t := Apply(s, Persist);
    assert t.decisions == s.decisions;
    assert Landed(s) && Landed(t);
    assert LandedLog(t) == LandedLog(s) && CommittedLog(t) == CommittedLog(s);
  }

  /** Storing the sequences moves them past the last decision. */
  lemma PersistCommitEffects(s: System, t: System)
    requires PersistedOk(s.store, s.relay.inbox) && LogOk(s) && EffectsOk(s)
    requires s.store.pending.Some? && !s.store.pending.value.sequencesCommitted
    requires s.memory == Committed(s.store, s.store.pending.value) && t == s.(store := s.memory)
    ensures EffectsOk(t)
  {
    var before, d := LastDecision(s);
    assert CommittedLog(s) == before && CommittedLog(t) == s.decisions;
    assert Landed(t) == Landed(s) && LandedLog(t) == LandedLog(s);
    assert t.store.inbound == Handle(Replay(before), d).inbound;
    assert t.store.outbound == Handle(Replay(before), d).outbound;
  }

  lemma PersistCommitKeeps(s: System)
    requires Inv(s) && s.store.pending.Some? && !s.store.pending.value.sequencesCommitted
    requires s.memory == Committed(s.store, s.store.pending.value)
    ensures Inv(Apply(s, Persist))
  {
    var t := s.(store := s.memory);
    assert Apply(s, Persist) == t;
    PersistCommitEffects(s, t);
  }

  lemma PersistAcknowledgedKeeps(s: System)
    requires Inv(s) && s.store.pending.Some? && s.memory.pending.None?
    ensures Inv(Apply(s, Persist))
  {
    var t := Apply(s, Persist);
    assert t.decisions == s.decisions;
    assert Landed(s);
    assert LandedLog(t) == LandedLog(s) && CommittedLog(t) == CommittedLog(s);
    assert LogOk(t) && EffectsOk(t);
  }

  lemma PersistKeeps(s: System)
    requires Inv(s)
    ensures Inv(Apply(s, Persist))
  {
    if s.memory == s.store {
      assert Apply(s, Persist) == s;
    } else if s.store.pending.None? {
      PersistStagedKeeps(s);
    } else if s.memory.pending.Some? {
      if s.memory == Committed(s.store, s.store.pending.value) && !s.store.pending.value.sequencesCommitted {
        PersistCommitKeeps(s);
      } else {
        PersistFlagKeeps(s);
      }
    } else {
      PersistAcknowledgedKeeps(s);
    }
  }

  lemma HandleKeeps(s: System, a: Action)
    requires Inv(s) && (a.Invoke? || a.Audit? || a.Stage?) && Enabled(s, a)
    ensures Inv(Apply(s, a))
  {
    var t := Apply(s, a);
    assert LandedLog(t) == LandedLog(s);
    assert CommittedLog(t) == CommittedLog(s);
  }

  /** The relay keeps one copy of the pending response, new or known. */
  lemma PublishOnceAdds(output: seq<Envelope>, e: Envelope)
    requires !Conflicts(output, e)
    ensures PublishOnce(output, e) == if Published(output, e) then output else output + [e]
    ensures Published(PublishOnce(output, e), e)
  {
    if !Published(output, e) {
      assert (output + [e])[|output|] == e;
    }
  }

  /** Publishing a response makes its decision visible, and nothing else. */
  lemma PublishLands(s: System, e: Envelope, output: seq<Envelope>)
    requires LogOk(s) && s.store.pending.Some? && s.store.pending.value.response == Some(e)
    requires s.relay.output == Replay(LandedLog(s)).output
    requires output == if Published(s.relay.output, e) then s.relay.output else s.relay.output + [e]
    ensures output == Replay(s.decisions).output
  {
    var before, d := LastDecision(s);
    if Published(s.relay.output, e) {
      assert LandedLog(s) == s.decisions;
    } else {
      assert LandedLog(s) == before;
    }
  }

  /** The ids stay apart when the pending envelope is published. */
  lemma PublishIds(s: System, e: Envelope, t: System)
    requires IdsOk(s) && s.memory == s.store && s.store.pending.Some? && s.store.pending.value.response == Some(e)
    requires t.sealed == s.sealed && t.store == s.store && Published(t.relay.output, e)
    requires t.relay.output == if Published(s.relay.output, e) then s.relay.output else s.relay.output + [e]
    requires t.memory.pending.Some? && t.memory.pending.value.response == Some(e)
    ensures IdsOk(t)
  {
  }

  lemma PublishEffects(s: System, e: Envelope, t: System)
    requires LogOk(s) && EffectsOk(s) && s.store.pending.Some? && s.store.pending.value.response == Some(e)
    requires t.store == s.store && t.decisions == s.decisions && Published(t.relay.output, e)
    requires t.relay.output == if Published(s.relay.output, e) then s.relay.output else s.relay.output + [e]
    ensures EffectsOk(t)
  {
    PublishLands(s, e, t.relay.output);
    assert Landed(t) && LandedLog(t) == s.decisions;
    assert CommittedLog(t) == CommittedLog(s);
  }

  lemma PublishKeeps(s: System, lost: bool)
    requires Inv(s) && Enabled(s, Publish(lost))
    ensures Inv(Apply(s, Publish(lost)))
  {
    var t := Apply(s, Publish(lost));
    var e := s.store.pending.value.response.value;
    PublishOnceAdds(s.relay.output, e);
    PublishIds(s, e, t);
    PublishEffects(s, e, t);
  }

  lemma CrashKeeps(s: System)
    requires Inv(s)
    ensures Inv(Apply(s, Crash))
  {
    var t := Apply(s, Crash);
    assert LandedLog(t) == LandedLog(s);
    assert CommittedLog(t) == CommittedLog(s);
  }

  lemma FinishKeeps(s: System, a: Action)
    requires Inv(s) && (a.Commit? || a.Acknowledge?) && Enabled(s, a)
    ensures Inv(Apply(s, a))
  {
    var t := Apply(s, a);
    assert LandedLog(t) == LandedLog(s);
    assert CommittedLog(t) == CommittedLog(s);
  }

  /** Every step keeps the invariant. */
  lemma StepKeeps(s: System, a: Action, t: System)
    requires Inv(s) && Step(s, a, t)
    ensures Inv(t)
  {
    match a
    case Arrive(e) => ArriveKeeps(s, e);
    case Persist => PersistKeeps(s);
    case Invoke => HandleKeeps(s, a);
    case Audit(_) => HandleKeeps(s, a);
    case Stage(_) => HandleKeeps(s, a);
    case Publish(lost) => PublishKeeps(s, lost);
    case Commit => FinishKeeps(s, a);
    case Acknowledge(_) => FinishKeeps(s, a);
    case Crash => CrashKeeps(s);
  }
}
