/** The imperative poll, run against an endpoint that serves the ledger, takes exactly
    the protocol's poll steps. */
module Refinement {
  import opened Primitives
  import opened Signatures
  import opened Progress
  import opened PollSpec
  import opened Delivered
  import opened Poller
  import opened Protocol

  /** A replica that has seen every slot up to `context` serves one address's index:
      that address's transactions up to there, each once, newest slot first. */
  ghost predicate ServesLedger(world: World, address: Address, context: u64, entries: seq<IndexEntry>) {
    && NewestFirst(entries)
    && DistinctSignatures(entries)
    && (forall e :: e in entries ==>
          && e.signature.Some? && Touches(world, e.signature.value, address)
          && e.slot == world.ledger[e.signature.value].slot <= context)
    && (forall t :: Touches(world, t, address) && world.ledger[t].slot <= context ==>
          IndexEntry(world.ledger[t].slot, Some(t)) in entries)
  }

  ghost predicate Serves(endpoint: Endpoint, world: World, contexts: map<Address, u64>) {
    && (forall a :: a in world.addresses ==>
          && a in contexts
          && (endpoint.head.Some? ==> contexts[a] >= MinContextSlot(endpoint.head.value, world.window))
          && ServesLedger(world, a, contexts[a], endpoint.index(a).entries))
    && (forall t :: endpoint.fetch(t).Fetched? ==>
          t in world.ledger && endpoint.fetch(t).slot == world.ledger[t].slot)
  }

  lemma ScanListsTheLedger(world: World, address: Address, context: u64, entries: seq<IndexEntry>, floor: u64, t: Signature)
    requires ServesLedger(world, address, context, entries)
    requires Scan(entries, floor).Ok?
    ensures (exists d :: d in Scan(entries, floor).value && d.signature == t) <==>
            Touches(world, t, address) && floor < world.ledger[t].slot <= context
  {
    ScanFindsExactlyWhatIsAboveTheFloor(entries, floor);
    var found := Scan(entries, floor).value;
    if Touches(world, t, address) && floor < world.ledger[t].slot <= context {
      var i :| 0 <= i < |entries| && entries[i] == IndexEntry(world.ledger[t].slot, Some(t));
      assert i < |found|;
      assert found[i] in found && found[i].signature == t;
    }
    if d :| d in found && d.signature == t {
      var i :| 0 <= i < |found| && found[i] == d;
      assert entries[i] in entries;
    }
  }

  /** A whole scan of a served index is a faithful answer. */
  lemma WholeScanIsFaithful(
      world: World, cursors: map<Address, u64>, head: u64, batch: AddressBatch, address: Address,
      entries: seq<IndexEntry>, context: u64)
    requires address in cursors && context >= MinContextSlot(head, world.window)
    requires ServesLedger(world, address, context, entries)
    requires IsWholeScan(batch, address, entries, cursors[address], head, world.window)
    ensures FaithfulBatch(world, cursors, head, batch, context)
  {
    var floor := Floor(cursors[address], world.window);
    forall t ensures Lists(batch, t) <==>
               Touches(world, t, batch.address) && floor < world.ledger[t].slot <= context {
      ScanListsTheLedger(world, address, context, entries, floor, t);
    }
    ScanFindsExactlyWhatIsAboveTheFloor(entries, floor);
    forall d | d in batch.signatures ensures d.signature in world.ledger && d.slot == world.ledger[d.signature].slot {
      var i :| 0 <= i < |batch.signatures| && batch.signatures[i] == d;
      assert entries[i] in entries;
    }
  }

  lemma AnswersAreFaithful(world: World, endpoint: Endpoint, contexts: map<Address, u64>, pre: Progress, answers: Answers)
    requires Serves(endpoint, world, contexts)
    requires NothingAnswered(answers) || AnsweredBy(endpoint, world.addresses, world.window, pre, answers)
    ensures Faithful(world, pre, answers, contexts)
  {
    var cursors := Initialized(pre.cursors, AddressSet(world.addresses), answers.head, world.window);
    if answers.batches != [] {
      forall b | b in answers.batches
        ensures b.address in contexts && FaithfulBatch(world, cursors, answers.head, b, contexts[b.address])
      {
        var i :| 0 <= i < |answers.batches| && answers.batches[i] == b;
        var a := world.addresses[i];
        WholeScanIsFaithful(world, cursors, answers.head, b, a, endpoint.index(a).entries, contexts[a]);
      }
    }
  }

  ghost function Polled(s: System, post: Progress, sent: seq<Update>, scope: map<Address, u64>, highWater: u64): System {
    s.(progress := post, pending := [], queue := s.queue + sent, scope := scope, highWater := highWater)
  }

  /** What `Poll` reports is one protocol step: a successful poll or a failed one. */
  lemma PollTakesAProtocolStep(
      world: World, endpoint: Endpoint, contexts: map<Address, u64>, s: System, post: Progress,
      result: Result<PollOutcome, PollError>, answers: Answers, planned: seq<Update>, sent: seq<Update>)
    returns (s': System, step: Step)
    requires Serves(endpoint, world, contexts)
    requires !s.parked
    requires Poller.Reports(endpoint, world.window, world.addresses, Absorbed(s.progress, s.pending), post, result, answers, planned, sent)
    ensures Protocol.Next(world, s, s', step)
    ensures step == if result.Ok? then PollOk(answers, contexts, sent) else PollErr(answers, contexts, planned, sent)
    ensures s' == Polled(s, post, sent, s'.scope, s'.highWater)
  {
    var pre := Absorbed(s.progress, s.pending);
    AnswersAreFaithful(world, endpoint, contexts, pre, answers);
    if result.Ok? {
      step := PollOk(answers, contexts, sent);
      s' := Polled(s, post, sent, ScopeAfter(world, s, answers.head),
                   Max(s.highWater, MinimumCursor(post.cursors, answers.head)));
    } else {
      step := PollErr(answers, contexts, planned, sent);
      s' := Polled(s, post, sent,
                   if post.cursors == pre.cursors then s.scope else ScopeAfter(world, s, answers.head), s.highWater);
    }
  }

  // ---------------------------------------------------------------------------
  // Paths of protocol steps
  // ---------------------------------------------------------------------------

  datatype Path = Path(states: seq<System>, steps: seq<Step>)

  /** Said so that the steps only come into a proof that asks for them. */
  ghost predicate Leads(world: World, from: System, path: Path, to: System) {
    forall same :: Same(path, same) ==> Connects(world, from, same, to)
  }

  lemma LeadingConnects(world: World, from: System, path: Path, to: System)
    requires Leads(world, from, path, to)
    ensures Connects(world, from, path, to)
  {
    assert Same(path, path);
  }

  ghost predicate Connects(world: World, from: System, path: Path, to: System) {
    && |path.states| == |path.steps| + 1
    && path.states[0] == from && path.states[|path.steps|] == to
    && forall i {:trigger path.steps[i]} :: 0 <= i < |path.steps| ==>
         Protocol.Next(world, path.states[i], path.states[i + 1], path.steps[i])
  }

  function Stay(s: System): Path {
    Path([s], [])
  }

  function Went(s: System, step: Step, s': System): Path {
    Path([s, s'], [step])
  }

  /** The steps of a part that may not have happened. */
  function Taken(happened: bool, step: Step): seq<Step> {
    if happened then [step] else []
  }

  function Joined(first: Path, second: Path): Path
    requires first.states != []
  {
    Path(first.states[..|first.states| - 1] + second.states, first.steps + second.steps)
  }

  lemma PathsJoin(world: World, from: System, first: Path, middle: System, second: Path, to: System) returns (path: Path)
    requires Leads(world, from, first, middle) && Leads(world, middle, second, to)
    ensures Leads(world, from, path, to) && path.steps == first.steps + second.steps
  {
    LeadingConnects(world, from, first, middle);
    LeadingConnects(world, middle, second, to);
    JoinedConnects(world, from, first, middle, second, to);
    path := Joined(first, second);
  }

  lemma JoinedConnects(world: World, from: System, first: Path, middle: System, second: Path, to: System)
    requires Connects(world, from, first, middle) && Connects(world, middle, second, to)
    ensures Connects(world, from, Joined(first, second), to)
  {
    JoinedEnds(first, second);
    forall i {:trigger Joined(first, second).steps[i]} | 0 <= i < |Joined(first, second).steps|
      ensures Protocol.Next(world, Joined(first, second).states[i], Joined(first, second).states[i + 1], Joined(first, second).steps[i])
    {
      JoinedStep(world, from, first, middle, second, to, i);
    }
  }

  lemma JoinedEnds(first: Path, second: Path)
    requires |first.states| == |first.steps| + 1 && |second.states| == |second.steps| + 1
    requires first.states[|first.steps|] == second.states[0]
    ensures var path := Joined(first, second);
            && |path.states| == |path.steps| + 1
            && path.states[0] == first.states[0]
            && path.states[|path.steps|] == second.states[|second.steps|]
  {
  }

  lemma JoinedStep(world: World, from: System, first: Path, middle: System, second: Path, to: System, i: nat)
    requires Connects(world, from, first, middle) && Connects(world, middle, second, to)
    requires i < |Joined(first, second).steps|
    ensures |Joined(first, second).states| == |Joined(first, second).steps| + 1
    ensures Protocol.Next(world, Joined(first, second).states[i], Joined(first, second).states[i + 1], Joined(first, second).steps[i])
  {
    var n, path := |first.steps|, Joined(first, second);
    if i < n {
      assert path.steps[i] == first.steps[i] && path.states[i] == first.states[i] && path.states[i + 1] == first.states[i + 1];
    } else {
      assert path.steps[i] == second.steps[i - n];
      assert path.states[i] == second.states[i - n] && path.states[i + 1] == second.states[i - n + 1];
    }
  }

  /** The path of one step. */
  lemma StepLeads(world: World, s: System, step: Step, s': System)
    requires Protocol.Next(world, s, s', step)
    ensures Leads(world, s, Went(s, step, s'), s')
  {
    assert Connects(world, s, Went(s, step, s'), s');
  }

  lemma OnlyStep(world: World, s: System, path: Path, s': System)
    requires Leads(world, s, path, s') && |path.steps| == 1
    ensures Protocol.Next(world, s, s', path.steps[0])
  {
    LeadingConnects(world, s, path, s');
    assert Protocol.Next(world, path.states[0], path.states[1], path.steps[0]);
  }

  lemma {:induction false} SentTransactions(queue: seq<PipelineUpdate>, sent: seq<Update>)
    ensures Transactions(queue + AsTransactions(sent)) == Transactions(queue) + sent
  {
    if sent == [] {
      assert queue + AsTransactions(sent) == queue;
      assert Transactions(queue) + sent == Transactions(queue);
    } else {
      var n := |sent| - 1;
      var whole := queue + AsTransactions(sent);
      SentTransactions(queue, sent[..n]);
      assert whole[..|whole| - 1] == queue + AsTransactions(sent[..n]);
      assert sent == sent[..n] + [sent[n]];
    }
  }

  /** `Poll` on objects that are in the protocol's state `s`. */
  method PollAsStep(
      endpoint: Endpoint, window: Window, addresses: seq<Address>, delivered: DeliveredSignatures?,
      sender: UpdateChannel, state: PollingState, now: nat,
      ghost world: World, ghost s: System, ghost contexts: map<Address, u64>)
    returns (result: Result<PollOutcome, PollError>, ghost s': System, ghost step: Step)
    requires ServesDistinct(endpoint) && Serves(endpoint, world, contexts)
    requires world.window == window && world.addresses == addresses
    requires !s.parked && s.progress == state.View() && s.queue == Transactions(sender.queue)
    requires s.pending == if delivered == null then [] else delivered.pending
    modifies state, sender, (if delivered == null then {} else {delivered})`pending
    ensures Leads(world, s, Went(s, step, s'), s')
    ensures if result.Ok? then step.PollOk? else step.PollErr?
    ensures delivered != null ==> delivered.pending == []
    ensures s' == s.(progress := state.View(), pending := [], queue := Transactions(sender.queue), scope := s'.scope,
                     highWater := s'.highWater)
    ensures Healthy(endpoint, window, addresses, Absorbed(s.progress, s.pending)) && old(sender.room).None? ==>
              result.Ok?
  {
    ghost var answers, planned, sent;
    ghost var before := sender.queue;
    result, answers, planned, sent := Poll(endpoint, window, addresses, delivered, sender, state, now);
    SentTransactions(before, sent);
    s', step := PollTakesAProtocolStep(world, endpoint, contexts, s, state.View(), result, answers, planned, sent);
    StepLeads(world, s, step, s');
  }
}
