/**
 The remote outbound connector itself. Every `await` is a method that may fail before
 or after its effect took place; the connector's methods are proved to be runs of the
 protocol, so all its theorems hold of them.
 */
module RemoteConnector {
  import opened Wrappers
  import opened RemoteProtocol
  import opened RemoteProtocolTheorems

  /** What a method of the connector ends with: a number of processed items, or a thrown error. */
  datatype Outcome = Processed(count: nat) | Threw

  /** What the local request handler may do. */
  datatype Handled = Replied(body: string) | NoReply | HandlerThrew

  datatype InboxItem = InboxItem(cursor: nat, envelope: Envelope)

  /** The services outside the connector: its durable store and the relay. */
  class Services {
    var store: Persisted
    var relay: Relay
    var audit: map<MessageId, Verdict>
    var sealed: set<MessageId>
    ghost var handled: set<nat>
    ghost var decisions: seq<Decision>
  }

  /** The services are as this state of the protocol has them; a process that ended has left no memory. */
  ghost predicate LeftBehind(services: Services, s: System)
    reads services
  {
    && services.store == s.store && services.relay == s.relay && services.audit == s.audit
    && services.sealed == s.sealed && services.handled == s.handled && services.decisions == s.decisions
  }

  class RemoteOutboundConnector {
    const device: Device
    const services: Services
    var relayCursor: nat
    var inboundSequences: map<Device, nat>
    var outboundSequences: map<Device, nat>
    var pending: Option<Pending>
    ghost var states: seq<System>
    ghost var actions: seq<Action>

    /**
     A connector on whatever an earlier one has left, after any run of the protocol: it loads
     what is stored, as after a crash. On new services that run is the empty one.
     */
    constructor (device: Device, services: Services, ghost states: seq<System>, ghost actions: seq<Action>)
      requires IsRun(states, actions) && LeftBehind(services, states[|actions|])
      ensures this.services == services && this.device == device && PersistedState() == services.store
      ensures Valid() && this.states == states + [Current()] && this.actions == actions + [Crash]
    {
      this.device := device;
      this.services := services;
      relayCursor := services.store.relayCursor;
      inboundSequences := services.store.inbound;
      outboundSequences := services.store.outbound;
      pending := services.store.pending;
      this.states, this.actions := states, actions;
      new;
      Record(Crash);
    }

    function PersistedState(): (p: Persisted)
      reads this
    {
      Persisted(relayCursor, inboundSequences, outboundSequences, pending)
    }

    ghost function Current(): System
      reads this, services
    {
      System(PersistedState(), services.store, services.relay, services.audit, services.sealed, services.handled, services.decisions)
    }

    /** The history so far is a run of the protocol that ends in the current state. */
    ghost predicate Valid()
      reads this, services
    {
      IsRun(states, actions) && states[|states| - 1] == Current()
    }

    /** Notes the step that has just been taken. */
    ghost method Record(a: Action)
      requires IsRun(states, actions) && Step(states[|states| - 1], a, Current())
      modifies this`states, this`actions
      ensures Valid()
      ensures states == old(states) + [Current()] && actions == old(actions) + [a]
    {
      states := states + [Current()];
      actions := actions + [a];
    }

    method PersistCurrentState() returns (ok: bool)
      requires Valid()
      modifies this`states, this`actions, services`store, services`decisions
      ensures Valid() && old(states) <= states
      ensures ok ==> services.store == PersistedState()
      ensures services.store == old(services.store) || services.store == PersistedState()
    {
      var reached: bool, answered: bool := *, *;
      if reached {
        services.decisions := Apply(Current(), Persist).decisions;
        services.store := PersistedState();
        Record(Persist);
      }
      ok := reached && answered;
    }

    method PublishToRelay(e: Envelope) returns (ok: bool)
      requires Valid() && services.store == PersistedState()
      requires pending.Some? && pending.value.response == Some(e) && !pending.value.responsePublished
      modifies this`pending, this`states, this`actions, services`relay
      ensures Valid() && old(states) <= states
      ensures pending == if ok then Some(old(pending).value.(responsePublished := true)) else old(pending)
      ensures services.relay.inbox == old(services.relay.inbox)
    {
      RunKeepsInvariant(states, actions, |states| - 1);
      PublicationNeverConflicts(states, actions, |states| - 1);
      var reached: bool, answered: bool := *, *;
      ok := reached && answered;
      if reached {
        ghost var before := Current();
        services.relay := services.relay.(output := PublishOnce(services.relay.output, e));
        if ok {
          pending := Some(pending.value.(responsePublished := true));
        }
        assert Current() == Apply(before, Publish(!ok));
        Record(Publish(!ok));
      }
    }

    method AcknowledgeToRelay() returns (ok: bool)
      requires Valid() && services.store == PersistedState()
      requires pending.Some? && pending.value.sequencesCommitted
      modifies this`pending, this`relayCursor, this`states, this`actions, services`relay
      ensures Valid() && old(states) <= states
      ensures ok ==> relayCursor == old(pending).value.relayCursor && pending == None
      ensures !ok ==> relayCursor == old(relayCursor) && pending == old(pending)
      ensures services.relay.inbox == old(services.relay.inbox)
    {
      var reached: bool, answered: bool := *, *;
      ok := reached && answered;
      if reached {
        ghost var before := Current();
        var c := pending.value.relayCursor;
        services.relay := services.relay.(acked := if c > services.relay.acked then c else services.relay.acked);
        if ok {
          relayCursor := c;
          pending := None;
        }
        assert Current() == Apply(before, Acknowledge(!ok));
        Record(Acknowledge(!ok));
      }
    }

    /** Moves both sequences of the sender in memory; the caller stores them. */
    method CommitSequences()
      requires Valid() && services.store == PersistedState()
      requires pending.Some? && !pending.value.sequencesCommitted
      requires pending.value.response.None? || pending.value.responsePublished
      modifies this
      ensures Valid() && old(states) <= states
      ensures pending == Some(old(pending).value.(sequencesCommitted := true)) && relayCursor == old(relayCursor)
    {
      ghost var before := Current();
      inboundSequences := inboundSequences[pending.value.sender := pending.value.inboundSequence];
      if pending.value.outboundSequence.Some? {
        outboundSequences := outboundSequences[pending.value.sender := pending.value.outboundSequence.value];
      }
      pending := Some(pending.value.(sequencesCommitted := true));
      assert Current() == Apply(before, Commit);
      Record(Commit);
    }

    /** What the invariant says about the pending record. */
    lemma PendingFacts()
      requires Valid() && pending.Some?
      ensures pending.value.relayCursor == relayCursor + 1
      ensures pending.value.sequencesCommitted ==> pending.value.response.None? || pending.value.responsePublished
    {
      RunKeepsInvariant(states, actions, |states| - 1);
    }

    /** Drives a stored pending record to its end: publish, commit the sequences, acknowledge. */
    method FinishPending() returns (ok: bool)
      requires Valid() && services.store == PersistedState()
      modifies this, services
      ensures Valid() && old(states) <= states
      ensures ok ==> pending == None && services.store == PersistedState()
      ensures ok ==> relayCursor == old(relayCursor) + (if old(pending).Some? then 1 else 0)
      ensures services.relay.inbox == old(services.relay.inbox)
    {
      if pending.None? {
        return true;
      }
      PendingFacts();
      if pending.value.response.Some? && !pending.value.responsePublished {
        ok := PublishToRelay(pending.value.response.value);
        if !ok { return; }
        ok := PersistCurrentState();
        if !ok { return; }
      }
      if !pending.value.sequencesCommitted {
        CommitSequences();
        ok := PersistCurrentState();
        if !ok { return; }
      }
      ok := AcknowledgeToRelay();
      if !ok { return; }
      ok := PersistCurrentState();
    }

    /** Waits for the relay; other devices may publish to this inbox meanwhile. */
    method Poll() returns (ok: bool, items: seq<InboxItem>, nextCursor: nat)
      requires Valid()
      modifies this`states, this`actions, services`relay
      ensures Valid() && old(states) <= states
      ensures ok ==> Genuine(items, services.relay.inbox)
    {
      var arrived: seq<Envelope> := *;
      for i := 0 to |arrived|
        invariant Valid() && old(states) <= states
      {
        services.relay := services.relay.(inbox := services.relay.inbox + [arrived[i]]);
        Record(Arrive(arrived[i]));
      }
      items, nextCursor := *, *;
      ok := Genuine(items, services.relay.inbox);
    }

    /** Runs the local handler for the head of the inbox. */
    method HandleRequest() returns (handled: Handled)
      requires Valid() && Ready(Current())
      modifies this`states, this`actions, services`handled
      ensures Valid() && old(states) <= states
      ensures Ready(Current()) && relayCursor + 1 in services.handled
    {
      ghost var before := Current();
      services.handled := services.handled + {relayCursor + 1};
      assert Current() == Apply(before, Invoke);
      Record(Invoke);
      handled := *;
    }

    /** Appends the audit row of a request; a different verdict on the same message is refused. */
    method RecordAudit(e: Envelope, verdict: Verdict) returns (ok: bool)
      requires Valid() && Ready(Current()) && relayCursor + 1 in services.handled && e == Head(Current())
      modifies this`states, this`actions, services`audit
      ensures Valid() && old(states) <= states
      ensures Ready(Current())
      ensures ok ==> e.messageId in services.audit && services.audit[e.messageId] == verdict
    {
      var reached: bool, answered: bool := *, *;
      if e.messageId in services.audit && services.audit[e.messageId] != verdict {
        return false;
      }
      if reached {
        ghost var before := Current();
        services.audit := services.audit[e.messageId := verdict];
        assert Current() == Apply(before, Audit(verdict));
        Record(Audit(verdict));
      }
      ok := reached && answered;
    }

    /** Seals a response under a random id; ids never repeat, so a repeated draw counts as a failure. */
    method Seal(recipient: Device, sequence: nat, body: string) returns (ok: bool, e: Envelope)
      ensures e.recipient == recipient && e.sequence == sequence
      ensures ok ==> e.messageId !in services.sealed
    {
      var messageId: MessageId := *;
      e := Envelope(messageId, device, recipient, sequence, body);
      ok := messageId !in services.sealed;
    }

    /** Stages the answer to the head of the inbox in memory; the caller stores it. */
    method StagePending(item: InboxItem, response: Option<Envelope>, outboundSequence: Option<nat>)
      requires Valid() && Ready(Current()) && relayCursor + 1 in services.handled
      requires item.cursor == relayCursor + 1 && item.envelope == Head(Current())
      requires item.envelope.messageId in services.audit && services.audit[item.envelope.messageId] == Accepted
      requires response.Some? <==> outboundSequence.Some?
      requires response.Some? ==>
        && response.value.recipient == item.envelope.sender && response.value.messageId !in services.sealed
        && response.value.sequence == outboundSequence.value == Last(outboundSequences, item.envelope.sender) + 1
      modifies this`pending, this`states, this`actions, services`sealed
      ensures Valid() && old(states) <= states
      ensures pending.Some?
    {
      ghost var before := Current();
      pending := Some(Pending(item.cursor, item.envelope.sender, item.envelope.sequence, response, outboundSequence, false, false));
      services.sealed := if response.Some? then services.sealed + {response.value.messageId} else services.sealed;
      assert Current() == Apply(before, Stage(response));
      Record(Stage(response));
    }

    /** Handles the head of the inbox and stages the answer in memory. */
    method AnswerItem(item: InboxItem) returns (ok: bool)
      requires Valid() && pending.None? && services.store == PersistedState()
      requires item.cursor == relayCursor + 1 && item.cursor <= |services.relay.inbox|
      requires services.relay.inbox[item.cursor - 1] == item.envelope
      modifies this`pending, this`states, this`actions, services`handled, services`audit, services`sealed
      ensures Valid() && old(states) <= states
      ensures ok ==> pending.Some?
    {
      var opens: bool := *;
      if !opens || item.envelope.sequence <= Last(inboundSequences, item.envelope.sender) {
        return false;
      }
      var handled := HandleRequest();
      if handled.HandlerThrew? {
        var _ := RecordAudit(item.envelope, Failed);
        return false;
      }
      ok := RecordAudit(item.envelope, Accepted);
      if !ok { return; }
      var outboundSequence, response := None, None;
      if handled.Replied? {
        outboundSequence := Some(Last(outboundSequences, item.envelope.sender) + 1);
        var e;
        ok, e := Seal(item.envelope.sender, outboundSequence.value, handled.body);
        if !ok { return; }
        response := Some(e);
      }
      StagePending(item, response, outboundSequence);
    }

    /** Answers, stores and finishes one polled item. */
    method ProcessItem(item: InboxItem) returns (ok: bool)
      requires Valid() && pending.None? && services.store == PersistedState()
      requires item.cursor == relayCursor + 1 && item.cursor <= |services.relay.inbox|
      requires services.relay.inbox[item.cursor - 1] == item.envelope
      modifies this, services
      ensures Valid() && old(states) <= states
      ensures ok ==> pending.None? && services.store == PersistedState() && relayCursor == old(relayCursor) + 1
      ensures services.relay.inbox == old(services.relay.inbox)
    {
      ok := AnswerItem(item);
      if !ok { return; }
      ok := PersistCurrentState();
      if !ok { return; }
      ok := FinishPending();
    }

    /**
     One pass: finish what is pending, poll, check that the cursors are contiguous, and
     process every item. Without an error the cursor has moved by exactly one per item.
     */
    method ProcessOnce() returns (outcome: Outcome)
      requires Valid()
      modifies this, services
      ensures Valid() && old(states) <= states
      ensures outcome.Processed? ==>
        pending.None? && services.store == PersistedState() && relayCursor == old(relayCursor) + outcome.count
    {
      var processed := 0;
      var ok := PersistCurrentState();
      if !ok { return Threw; }
      if pending.Some? {
        ok := FinishPending();
        if !ok { return Threw; }
        processed := processed + 1;
      }
      var items, nextCursor;
      ok, items, nextCursor := Poll();
      if !ok { return Threw; }
      var expectedCursor := relayCursor;
      for i := 0 to |items|
        invariant expectedCursor == relayCursor + i
        invariant forall j :: 0 <= j < i ==> items[j].cursor == relayCursor + 1 + j
      {
        expectedCursor := expectedCursor + 1;
        if items[i].cursor != expectedCursor { return Threw; }
      }
      if nextCursor != expectedCursor { return Threw; }
      ghost var start, inbox := relayCursor, services.relay.inbox;
      for i := 0 to |items|
        invariant Valid() && old(states) <= states
        invariant pending.None? && services.store == PersistedState()
        invariant relayCursor == start + i && relayCursor == old(relayCursor) + processed
        invariant services.relay.inbox == inbox
      {
        ok := ProcessItem(items[i]);
        if !ok { return Threw; }
        processed := processed + 1;
      }
      return Processed(processed);
    }
  }

  /** Every polled item is the relay's item at its cursor; order and completeness are not promised. */
  predicate Genuine(items: seq<InboxItem>, inbox: seq<Envelope>) {
    forall i :: 0 <= i < |items| ==> 1 <= items[i].cursor <= |inbox| && inbox[items[i].cursor - 1] == items[i].envelope
  }
}
