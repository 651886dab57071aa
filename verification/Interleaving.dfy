/** Why a poll may be shown as one step: whatever the pipeline and the relay's recording
    do between its sends, they could as well have done after them. */
module Interleaving {
  import opened Primitives
  import opened Progress
  import opened Protocol

  /** Part of a poll once it has begun: it changes the poller's memory and sends some
      updates, or none. */
  datatype Part = Part(remember: Progress -> Progress, sent: seq<Update>)

  datatype Act = Poll(part: Part) | Does(step: Step)

  function Done(s: System, part: Part): System {
    s.(progress := part.remember(s.progress), queue := s.queue + part.sent)
  }

  /** Steps that neither read the poller's memory nor write to the channel. */
  predicate IsBeside(step: Step) {
    step.StreamRecord? || step.Dequeue? || step.Emit? || step.Journal? || step.JournalFails?
  }

  ghost predicate Takes(world: World, s: System, act: Act, s': System) {
    match act
    case Poll(part) => s' == Done(s, part)
    case Does(step) => IsBeside(step) && Next(world, s, s', step)
  }

  /** What happens, in the order in which it does, with the states in between. */
  ghost predicate Interleaves(world: World, states: seq<System>, acts: seq<Act>) {
    && |states| == |acts| + 1
    && forall i {:trigger acts[i]} :: 0 <= i < |acts| ==> Takes(world, states[i], acts[i], states[i + 1])
  }

  function PollsOf(acts: seq<Act>): seq<Act> {
    if acts == [] then []
    else
      var last := acts[|acts| - 1];
      PollsOf(acts[..|acts| - 1]) + if last.Poll? then [last] else []
  }

  function OthersOf(acts: seq<Act>): seq<Act> {
    if acts == [] then []
    else
      var last := acts[|acts| - 1];
      OthersOf(acts[..|acts| - 1]) + if last.Does? then [last] else []
  }

  /** One part of the poll and one step beside it, swapped. */
  lemma PartMovesAhead(world: World, s: System, mid: System, step: Step, part: Part)
    requires IsBeside(step) && Next(world, s, mid, step)
    ensures Next(world, Done(s, part), Done(mid, part), step)
  {
    if step.Dequeue? {
      assert (s.queue + part.sent)[1..] == s.queue[1..] + part.sent;
    }
  }

  /** A stream's own send swaps too, up to the order of the two in the channel. */
  lemma StreamSendMovesBehind(world: World, s: System, mid: System, update: Update, part: Part)
    requires Next(world, s, mid, StreamSend(update))
    ensures Next(world, Done(s, part), Done(mid, part).(queue := s.queue + part.sent + [update]), StreamSend(update))
    ensures multiset(Done(mid, part).queue) == multiset(s.queue + part.sent + [update])
  {
  }

  lemma InterleavesMore(world: World, states: seq<System>, acts: seq<Act>, act: Act, s': System)
    requires Interleaves(world, states, acts) && Takes(world, states[|acts|], act, s')
    ensures Interleaves(world, states + [s'], acts + [act])
  {
    var longer, more := states + [s'], acts + [act];
    forall i {:trigger more[i]} | 0 <= i < |more| ensures Takes(world, longer[i], more[i], longer[i + 1]) {
      if i < |acts| {
        assert more[i] == acts[i] && longer[i] == states[i] && longer[i + 1] == states[i + 1];
      }
    }
  }

  function AllDone(states: seq<System>, part: Part): seq<System> {
    seq(|states|, i requires 0 <= i < |states| => Done(states[i], part))
  }

  /** A part of the poll moves ahead of any number of steps beside it. */
  lemma PartMovesAheadOfAll(world: World, states: seq<System>, acts: seq<Act>, part: Part)
    requires forall a :: a in acts ==> a.Does?
    requires Interleaves(world, states, acts)
    ensures Interleaves(world, AllDone(states, part), acts)
  {
    var done := AllDone(states, part);
    forall i {:trigger acts[i]} | 0 <= i < |acts| ensures Takes(world, done[i], acts[i], done[i + 1]) {
      assert acts[i] in acts && Takes(world, states[i], acts[i], states[i + 1]);
      PartMovesAhead(world, states[i], states[i + 1], acts[i].step, part);
    }
  }

  lemma {:induction false} OthersAreSteps(acts: seq<Act>)
    ensures forall a :: a in OthersOf(acts) ==> a.Does?
  {
    if acts != [] {
      OthersAreSteps(acts[..|acts| - 1]);
    }
  }

  /** However a poll's parts and the steps beside them interleave, doing the whole poll
      first and the steps after, each in their order, leads to the same state. */
  lemma {:induction false} PollCanComeFirst(world: World, states: seq<System>, acts: seq<Act>)
    returns (polls: seq<System>, others: seq<System>)
    requires Interleaves(world, states, acts)
    ensures Interleaves(world, polls, PollsOf(acts)) && polls[0] == states[0]
    ensures Interleaves(world, others, OthersOf(acts)) && others[0] == polls[|PollsOf(acts)|]
    ensures others[|OthersOf(acts)|] == states[|acts|]
  {
    if acts == [] {
      return states, states;
    }
    var n := |acts| - 1;
    Earlier(world, states, acts);
    polls, others := PollCanComeFirst(world, states[..n + 1], acts[..n]);
    assert Takes(world, states[n], acts[n], states[n + 1]);
    if acts[n].Poll? {
      var done := Done(others[0], acts[n].part);
      OthersAreSteps(acts[..n]);
      PartMovesAheadOfAll(world, others, OthersOf(acts[..n]), acts[n].part);
      InterleavesMore(world, polls, PollsOf(acts[..n]), acts[n], done);
      polls, others := polls + [done], AllDone(others, acts[n].part);
    } else {
      InterleavesMore(world, others, OthersOf(acts[..n]), acts[n], states[n + 1]);
      others := others + [states[n + 1]];
    }
  }

  lemma Earlier(world: World, states: seq<System>, acts: seq<Act>)
    requires Interleaves(world, states, acts) && acts != []
    ensures Interleaves(world, states[..|acts|], acts[..|acts| - 1])
  {
    var fewer := acts[..|acts| - 1];
    forall i {:trigger fewer[i]} | 0 <= i < |fewer|
      ensures Takes(world, states[..|acts|][i], fewer[i], states[..|acts|][i + 1])
    {
      assert fewer[i] == acts[i];
    }
  }
}
