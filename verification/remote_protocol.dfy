/**
 The durable remote connector as a protocol: the connector's memory, its durable
 store and the relay are the three parts of one state, and every `await` of the
 connector is one step. A crash reloads the memory from the store.

 The reference is `Replay`: a connector that handles each request in one
 uninterrupted action. The main theorems say that every run of the protocol,
 with crashes and lost replies anywhere, publishes exactly what `Replay` does.
 */
module RemoteProtocol {
  import opened Wrappers

  type Device = string
  type MessageId = string

  /** An opaque sealed envelope: only its identity, routing and sequence matter here. */
  datatype Envelope = Envelope(messageId: MessageId, sender: Device, recipient: Device, sequence: nat, body: string)

  datatype Pending = Pending(
    relayCursor: nat,
    sender: Device,
    inboundSequence: nat,
    response: Option<Envelope>,
    outboundSequence: Option<nat>,
    responsePublished: bool,
    sequencesCommitted: bool)

  datatype Persisted = Persisted(
    relayCursor: nat,
    inbound: map<Device, nat>,
    outbound: map<Device, nat>,
    pending: Option<Pending>)

  const NOTHING_PERSISTED := Persisted(0, map[], map[], None)

  /** The inbox entry with cursor k is inbox[k - 1]; `output` holds each published envelope once. */
  datatype Relay = Relay(inbox: seq<Envelope>, acked: nat, output: seq<Envelope>)

  datatype Verdict = Accepted | Failed

  /** The durable answer to one request; it exists once the pending record is stored. */
  datatype Decision = Decision(request: Envelope, response: Option<Envelope>)

  /**
   `handled` and `decisions` are history: the connector never reads them. `sealed` holds the
   ids drawn so far; it stands for the randomness that never draws an id twice.
   */
  datatype System = System(
    memory: Persisted,
    store: Persisted,
    relay: Relay,
    audit: map<MessageId, Verdict>,
    sealed: set<MessageId>,
    handled: set<nat>,
    decisions: seq<Decision>)

  function Last(sequences: map<Device, nat>, device: Device): nat {
    if device in sequences then sequences[device] else 0
  }

  // ---------------------------------------------------------------- reference

  /** A connector that handles every request in one atomic action. */
  datatype Atomic = Atomic(cursor: nat, inbound: map<Device, nat>, outbound: map<Device, nat>, output: seq<Envelope>)

  function Handle(a: Atomic, d: Decision): Atomic {
    Atomic(
      a.cursor + 1,
      a.inbound[d.request.sender := d.request.sequence],
      if d.response.None? then a.outbound else a.outbound[d.request.sender := Last(a.outbound, d.request.sender) + 1],
      if d.response.None? then a.output else a.output + [d.response.value])
  }

  function Replay(log: seq<Decision>): Atomic {
    if log == [] then Atomic(0, map[], map[], []) else Handle(Replay(log[..|log| - 1]), log[|log| - 1])
  }

  /** The request is newer than anything accepted from its sender; the reply has the next number for that peer. */
  predicate Admissible(a: Atomic, d: Decision) {
    && d.request.sequence > Last(a.inbound, d.request.sender)
    && (d.response.Some? ==>
          && d.response.value.recipient == d.request.sender
          && d.response.value.sequence == Last(a.outbound, d.request.sender) + 1)
  }

  predicate AdmissibleLog(log: seq<Decision>) {
    log == [] || (AdmissibleLog(log[..|log| - 1]) && Admissible(Replay(log[..|log| - 1]), log[|log| - 1]))
  }

  // ---------------------------------------------------------------- the steps

  datatype Action =
    | Arrive(envelope: Envelope)
    | Persist
    | Invoke
    | Audit(verdict: Verdict)
    | Stage(reply: Option<Envelope>)
    | Publish(replyLost: bool)
    | Commit
    | Acknowledge(replyLost: bool)
    | Crash

  /** The head of the inbox may be handled: nothing is pending and memory is durable. */
  predicate Ready(s: System) {
    && s.memory == s.store
    && s.memory.pending.None?
    && s.memory.relayCursor < |s.relay.inbox|
    && Head(s).sequence > Last(s.memory.inbound, Head(s).sender)
  }

  function Head(s: System): Envelope
    requires s.memory.relayCursor < |s.relay.inbox|
  {
    s.relay.inbox[s.memory.relayCursor]
  }

  predicate Enabled(s: System, a: Action) {
    match a
    case Arrive(_) => true
    case Persist => true
    case Invoke => Ready(s)
    case Audit(v) =>
      && Ready(s)
      && s.memory.relayCursor + 1 in s.handled
      && (Head(s).messageId in s.audit ==> s.audit[Head(s).messageId] == v)
    case Stage(reply) =>
      && Ready(s)
      && s.memory.relayCursor + 1 in s.handled
      && Head(s).messageId in s.audit && s.audit[Head(s).messageId] == Accepted
      && (reply.Some? ==>
            && reply.value.recipient == Head(s).sender
            && reply.value.sequence == Last(s.memory.outbound, Head(s).sender) + 1
            && reply.value.messageId !in s.sealed)
    case Publish(_) =>
      && s.memory == s.store && s.memory.pending.Some?
      && s.memory.pending.value.response.Some? && !s.memory.pending.value.responsePublished
      && !Conflicts(s.relay.output, s.memory.pending.value.response.value)
    case Commit =>
      && s.memory == s.store && s.memory.pending.Some?
      && (s.memory.pending.value.response.None? || s.memory.pending.value.responsePublished)
      && !s.memory.pending.value.sequencesCommitted
    case Acknowledge(_) =>
      && s.memory == s.store && s.memory.pending.Some? && s.memory.pending.value.sequencesCommitted
    case Crash => true
  }

  /** The record the connector stages for the head of its inbox. */
  function Staged(s: System, reply: Option<Envelope>): Pending
    requires s.memory.relayCursor < |s.relay.inbox|
  {
    Pending(s.memory.relayCursor + 1, Head(s).sender, Head(s).sequence, reply,
            if reply.Some? then Some(reply.value.sequence) else None, false, false)
  }

  function Committed(m: Persisted, p: Pending): Persisted {
    Persisted(
      m.relayCursor,
      m.inbound[p.sender := p.inboundSequence],
      if p.outboundSequence.Some? then m.outbound[p.sender := p.outboundSequence.value] else m.outbound,
      Some(p.(sequencesCommitted := true)))
  }

  /** The relay refuses an id that is bound to another envelope. */
  predicate Conflicts(output: seq<Envelope>, e: Envelope) {
    exists i :: 0 <= i < |output| && output[i].messageId == e.messageId && output[i] != e
  }

  /** The relay keeps one copy of an envelope however often it is published. */
  function PublishOnce(output: seq<Envelope>, e: Envelope): seq<Envelope> {
    if exists i :: 0 <= i < |output| && output[i].messageId == e.messageId then output else output + [e]
  }

  function Apply(s: System, a: Action): System
    requires Enabled(s, a)
  {
    match a
    case Arrive(e) => s.(relay := s.relay.(inbox := s.relay.inbox + [e]))
    case Persist =>
      s.(store := s.memory,
         decisions :=
           if s.store.pending.None? && s.memory.pending.Some? && s.memory.relayCursor < |s.relay.inbox|
           then s.decisions + [Decision(Head(s), s.memory.pending.value.response)]
           else s.decisions)
    case Invoke => s.(handled := s.handled + {s.memory.relayCursor + 1})
    case Audit(v) => s.(audit := s.audit[Head(s).messageId := v])
    case Stage(reply) =>
      s.(memory := s.memory.(pending := Some(Staged(s, reply))),
         sealed := if reply.Some? then s.sealed + {reply.value.messageId} else s.sealed)
    case Publish(lost) =>
      var p := s.memory.pending.value;
      s.(relay := s.relay.(output := PublishOnce(s.relay.output, p.response.value)),
         memory := if lost then s.memory else s.memory.(pending := Some(p.(responsePublished := true))))
    case Commit => s.(memory := Committed(s.memory, s.memory.pending.value))
    case Acknowledge(lost) =>
      var c := s.memory.pending.value.relayCursor;
      s.(relay := s.relay.(acked := if c > s.relay.acked then c else s.relay.acked),
         memory := if lost then s.memory else s.memory.(relayCursor := c, pending := None))
    case Crash => s.(memory := s.store)
  }

  predicate Step(s: System, a: Action, t: System) {
    Enabled(s, a) && t == Apply(s, a)
  }

  predicate Initial(s: System) {
    && s.memory == s.store == NOTHING_PERSISTED
    && s.relay.acked == 0 && s.relay.output == []
    && s.audit == map[] && s.sealed == {} && s.handled == {} && s.decisions == []
  }

  /** A run: states[i] goes to states[i + 1] by actions[i]. */
  ghost predicate IsRun(states: seq<System>, actions: seq<Action>) {
    && |states| == |actions| + 1
    && Initial(states[0])
    && forall i :: 0 <= i < |actions| ==> Step(states[i], actions[i], states[i + 1])
  }

  // ---------------------------------------------------------------- invariant

  predicate Published(output: seq<Envelope>, e: Envelope) {
    exists i :: 0 <= i < |output| && output[i] == e
  }

  /** The pending record of `st` has taken effect at the relay (a record without response does so at once). */
  predicate Landed(s: System) {
    s.store.pending.Some? && (s.store.pending.value.response.Some? ==> Published(s.relay.output, s.store.pending.value.response.value))
  }

  /** The decisions whose effect is visible at the relay. */
  function LandedLog(s: System): seq<Decision> {
    if s.store.pending.None? || Landed(s) || s.decisions == [] then s.decisions else s.decisions[..|s.decisions| - 1]
  }

  /** The decisions whose sequences are in `st`. */
  function CommittedLog(s: System): seq<Decision> {
    if s.store.pending.None? || s.store.pending.value.sequencesCommitted || s.decisions == [] then s.decisions
    else s.decisions[..|s.decisions| - 1]
  }

  /** What a pending record must say about the request it answers. */
  predicate PendingOk(st: Persisted, p: Pending, request: Envelope) {
    && p.relayCursor == st.relayCursor + 1
    && p.sender == request.sender && p.inboundSequence == request.sequence
    && (p.response.Some? <==> p.outboundSequence.Some?)
    && (p.response.Some? ==> p.response.value.sequence == p.outboundSequence.value && p.response.value.recipient == p.sender)
    && (p.responsePublished ==> p.response.Some?)
    && (p.sequencesCommitted ==> p.response.None? || p.responsePublished)
    && (!p.sequencesCommitted ==>
          && p.inboundSequence > Last(st.inbound, p.sender)
          && (p.outboundSequence.Some? ==> p.outboundSequence.value == Last(st.outbound, p.sender) + 1))
  }

  predicate PersistedOk(st: Persisted, inbox: seq<Envelope>) {
    && st.relayCursor <= |inbox|
    && (st.pending.Some? ==> st.relayCursor < |inbox| && PendingOk(st, st.pending.value, inbox[st.relayCursor]))
  }

  /** Memory is at most one update ahead of the store. */
  predicate MemoryAhead(s: System) {
    var st, m := s.store, s.memory;
    || m == st
    || (st.pending.None? && m.pending.Some? && m == st.(pending := m.pending)
        && !m.pending.value.responsePublished && !m.pending.value.sequencesCommitted)
    || (st.pending.Some? && !st.pending.value.responsePublished && Landed(s) && st.pending.value.response.Some?
        && m == st.(pending := Some(st.pending.value.(responsePublished := true))))
    || (st.pending.Some? && !st.pending.value.sequencesCommitted
        && (st.pending.value.response.None? || st.pending.value.responsePublished)
        && m == Committed(st, st.pending.value))
    || (st.pending.Some? && st.pending.value.sequencesCommitted && s.relay.acked == st.relayCursor + 1
        && m == st.(relayCursor := st.relayCursor + 1, pending := None))
  }

  /** No two published envelopes share an id, and an unpublished pending envelope has a new one. */
  predicate IdsOk(s: System) {
    && (forall i :: 0 <= i < |s.relay.output| ==> s.relay.output[i].messageId in s.sealed)
    && (s.memory.pending.Some? && s.memory.pending.value.response.Some? ==> PendingIdOk(s, s.memory.pending.value.response.value))
    && (s.store.pending.Some? && s.store.pending.value.response.Some? ==> PendingIdOk(s, s.store.pending.value.response.value))
  }

  predicate PendingIdOk(s: System, e: Envelope) {
    && e.messageId in s.sealed
    && (Published(s.relay.output, e) || forall i :: 0 <= i < |s.relay.output| ==> s.relay.output[i].messageId != e.messageId)
  }

  predicate LogOk(s: System) {
    && |s.decisions| == s.store.relayCursor + (if s.store.pending.Some? then 1 else 0)
    && |s.decisions| <= |s.relay.inbox|
    && (forall i :: 0 <= i < |s.decisions| ==> s.decisions[i].request == s.relay.inbox[i])
    && (s.store.pending.Some? ==> s.decisions[s.store.relayCursor].response == s.store.pending.value.response)
    && AdmissibleLog(s.decisions)
  }

  predicate EffectsOk(s: System) {
    && s.relay.output == Replay(LandedLog(s)).output
    && s.store.inbound == Replay(CommittedLog(s)).inbound
    && s.store.outbound == Replay(CommittedLog(s)).outbound
    && (s.store.pending.Some? && s.store.pending.value.responsePublished ==> Landed(s))
    && (s.memory.pending.Some? && s.store.pending.None? && s.memory.pending.value.response.Some? ==>
          !Published(s.relay.output, s.memory.pending.value.response.value))
  }

  predicate WitnessOk(s: System) {
    && (forall c :: 1 <= c <= |s.decisions| ==> c in s.handled)
    && (s.memory.pending.Some? ==> s.memory.pending.value.relayCursor in s.handled)
    && (forall i :: 0 <= i < |s.decisions| ==>
          s.decisions[i].request.messageId in s.audit && s.audit[s.decisions[i].request.messageId] == Accepted)
    && (s.memory.pending.Some? && s.memory.relayCursor < |s.relay.inbox| ==>
          Head(s).messageId in s.audit && s.audit[Head(s).messageId] == Accepted)
    && (s.relay.acked == s.store.relayCursor
        || (s.relay.acked == s.store.relayCursor + 1 && s.store.pending.Some? && s.store.pending.value.sequencesCommitted))
  }

  predicate Inv(s: System) {
    && PersistedOk(s.store, s.relay.inbox) && PersistedOk(s.memory, s.relay.inbox)
    && MemoryAhead(s) && IdsOk(s) && LogOk(s) && EffectsOk(s) && WitnessOk(s)
  }
}
