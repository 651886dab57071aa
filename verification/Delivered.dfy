/** The hand-over of stream deliveries to the poller (delivered.rs) and the relay
    that feeds it (the forwarding loop of datasource.rs). */
module Delivered {
  import opened Primitives
  import opened Progress

  /** What a datasource puts on the pipeline's channel. */
  datatype PipelineUpdate = Transaction(update: Update) | OtherUpdate

  function Transactions(updates: seq<PipelineUpdate>): seq<Update> {
    if updates == [] then []
    else
      Transactions(updates[..|updates| - 1])
      + match updates[|updates| - 1] case Transaction(update) => [update] case OtherUpdate => []
  }

  lemma {:induction false} FirstTransaction(queue: seq<PipelineUpdate>)
    requires queue != []
    ensures Transactions(queue) == (if queue[0].Transaction? then [queue[0].update] else []) + Transactions(queue[1..])
  {
    if |queue| > 1 {
      var n := |queue| - 1;
      FirstTransaction(queue[..n]);
      assert queue[1..][..n - 1] == queue[..n][1..];
    }
  }

  /** The pipeline's channel. `room` is how many more updates the
      receiver takes before it goes away; `None` if it never does. */
  class UpdateChannel {
    var queue: seq<PipelineUpdate>
    var room: Option<nat>

    constructor (room: Option<nat>)
      ensures queue == [] && this.room == room
    {
      queue, this.room := [], room;
    }

    method Send(update: PipelineUpdate) returns (accepted: bool)
      modifies this
      ensures accepted <==> old(room) != Some(0)
      ensures queue == if accepted then old(queue) + [update] else old(queue)
      ensures room == if accepted && old(room).Some? then Some(old(room).value - 1) else old(room)
    {
      if room == Some(0) {
        return false;
      }
      queue := queue + [update];
      room := if room.Some? then Some(room.value - 1) else None;
      return true;
    }

    /** The receiving half. */
    method Take() returns (update: PipelineUpdate)
      requires queue != []
      modifies this`queue
      ensures update == old(queue)[0] && queue == old(queue)[1..]
      ensures Transactions(old(queue)) == (if update.Transaction? then [update.update] else []) + Transactions(queue)
    {
      FirstTransaction(queue);
      update, queue := queue[0], queue[1..];
    }
  }

  class DeliveredSignatures {
    var pending: seq<Update>
    var recording: bool

    constructor ()
      ensures pending == [] && recording
    {
      pending, recording := [], true;
    }

    method Record(signature: Signature, slot: u64)
      modifies this`pending
      ensures pending == old(pending) + if recording then [Update(signature, slot)] else []
    {
      if !recording {
        return;
      }
      pending := pending + [Update(signature, slot)];
    }

    method Drain() returns (drained: seq<Update>)
      modifies this`pending
      ensures drained == old(pending) && pending == []
    {
      drained := [];
      while pending != []
        invariant drained + pending == old(pending)
      {
        drained, pending := drained + [pending[0]], pending[1..];
      }
    }

    method Stop()
      modifies this
      ensures pending == [] && !recording
    {
      recording := false;
      var _ := Drain();
    }
  }

  /** The forwarding loop: send first, record after, and stop at the first update the
      pipeline does not take. */
  method Forward(incoming: seq<PipelineUpdate>, sender: UpdateChannel, delivered: DeliveredSignatures)
    returns (forwarded: nat)
    modifies sender, delivered`pending
    ensures forwarded == if old(sender.room).Some? then Min(old(sender.room).value, |incoming|) else |incoming|
    ensures sender.queue == old(sender.queue) + incoming[..forwarded]
    ensures delivered.pending ==
            old(delivered.pending) + if delivered.recording then Transactions(incoming[..forwarded]) else []
  {
    forwarded := 0;
    while forwarded < |incoming|
      invariant forwarded <= |incoming|
      invariant sender.queue == old(sender.queue) + incoming[..forwarded]
      invariant sender.room.Some? == old(sender.room).Some?
      invariant sender.room.Some? ==> sender.room.value + forwarded == old(sender.room).value
      invariant delivered.pending ==
                old(delivered.pending) + if delivered.recording then Transactions(incoming[..forwarded]) else []
    {
      var update := incoming[forwarded];
      var accepted := sender.Send(update);
      if !accepted {
        return;
      }
      assert incoming[..forwarded + 1] == incoming[..forwarded] + [update];
      assert (incoming[..forwarded] + [update])[..forwarded] == incoming[..forwarded];
      match update {
        case Transaction(transaction) => delivered.Record(transaction.signature, transaction.slot);
        case OtherUpdate =>
      }
      forwarded := forwarded + 1;
    }
  }

  // ---------------------------------------------------------------------------
  // The relay and the poller, interleaved
  // ---------------------------------------------------------------------------

  /** Where the forwarding task stands with the transaction it sent last. */
  datatype Stage = Idle | Sent(update: Update) | Allowed(update: Update)

  datatype Relay = Relay(
    sent: seq<PipelineUpdate>,
    stage: Stage,
    recorded: seq<Update>,
    pending: seq<Update>,
    drained: seq<Update>,
    recording: bool)

  /** `ReadFlag` and `Enqueue` are the two halves of `record`: the flag is read
      without a lock, so a stop can fall between them. */
  datatype Event = Send(update: PipelineUpdate) | ReadFlag | Enqueue | DrainPending | ClearFlag

  const START: Relay := Relay([], Idle, [], [], [], true)

  function Next(relay: Relay, event: Event): Relay {
    match event
    case Send(update) =>
      if !relay.stage.Idle? then relay
      else relay.(sent := relay.sent + [update],
                  stage := if update.Transaction? then Sent(update.update) else Idle)
    case ReadFlag =>
      if !relay.stage.Sent? then relay
      else relay.(stage := if relay.recording then Allowed(relay.stage.update) else Idle)
    case Enqueue =>
      if !relay.stage.Allowed? then relay
      else relay.(stage := Idle,
                  recorded := relay.recorded + [relay.stage.update],
                  pending := relay.pending + [relay.stage.update])
    case DrainPending =>
      relay.(drained := relay.drained + relay.pending, pending := [])
    case ClearFlag =>
      relay.(recording := false)
  }

  function Run(events: seq<Event>): Relay {
    if events == [] then START else Next(Run(events[..|events| - 1]), events[|events| - 1])
  }

  function Unrecorded(stage: Stage): seq<Update> {
    if stage.Idle? then [] else [stage.update]
  }

  ghost predicate Conserved(relay: Relay) {
    && relay.recorded == relay.drained + relay.pending
    && (relay.recording ==> Transactions(relay.sent) == relay.recorded + Unrecorded(relay.stage))
    && (relay.stage.Allowed? ==> Transactions(relay.sent) == relay.recorded + Unrecorded(relay.stage))
    && relay.recorded <= Transactions(relay.sent)
  }

  lemma StepConserves(relay: Relay, event: Event)
    requires Conserved(relay)
    ensures Conserved(Next(relay, event))
  {
    match event
    case Send(update) =>
      var grown := relay.sent + [update];
      assert grown[..|relay.sent|] == relay.sent;
      assert Transactions(grown) ==
             Transactions(relay.sent) + if update.Transaction? then [update.update] else [];
    case ReadFlag =>
    case Enqueue =>
      if relay.stage.Allowed? {
        assert relay.drained + (relay.pending + [relay.stage.update])
            == relay.drained + relay.pending + [relay.stage.update];
      }
    case DrainPending =>
      assert relay.drained + relay.pending + [] == relay.drained + relay.pending;
    case ClearFlag =>
  }

  /** Under every interleaving of the relay with drains and a stop: what was recorded
      is a prefix of the transactions already sent; it is drained, in order and once,
      or still pending; and while recording is on only the transaction being handled
      right now is missing from it. */
  lemma {:induction false} RelayConserves(events: seq<Event>)
    ensures Conserved(Run(events))
  {
    if events != [] {
      RelayConserves(events[..|events| - 1]);
      StepConserves(Run(events[..|events| - 1]), events[|events| - 1]);
    }
  }

  /** After recording stops, at most the one delivery that had already read the flag
      still arrives. */
  lemma {:induction false} StopAdmitsAtMostOneMore(relay: Relay, events: seq<Event>)
    requires !relay.recording
    ensures var later := RunFrom(relay, events);
            && !later.recording
            && later.recorded <= relay.recorded + Unrecorded(relay.stage)
            && (relay.stage.Allowed? || later.recorded == relay.recorded)
            && (later.stage.Allowed? ==> later.stage == relay.stage && later.recorded == relay.recorded)
  {
    if events != [] {
      StopAdmitsAtMostOneMore(relay, events[..|events| - 1]);
    }
  }

  function RunFrom(relay: Relay, events: seq<Event>): Relay {
    if events == [] then relay else Next(RunFrom(relay, events[..|events| - 1]), events[|events| - 1])
  }
}
