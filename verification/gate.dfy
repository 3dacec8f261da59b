/**
 * The one-in-flight command gate: a FIFO queue of commands, the `processing` flag,
 * and the log of commands handed to the broadcast channel. The class in module
 * DataWedge keeps exactly this state and its methods are specified by these functions.
 */
module Gate {
  import opened Protocol

  datatype Gate = Gate(queue: seq<Command>, processing: bool, transmitted: seq<Command>)

  /** The gate's invariant: nothing waits in the queue while no command is in flight. */
  predicate Settled(g: Gate)
  {
    !g.processing ==> g.queue == []
  }

  /** tryProcess: when idle and work is queued, mark busy and broadcast the head. */
  function Advanced(g: Gate): Gate
  {
    if g.processing || g.queue == [] then g
    else Gate(g.queue[1..], true, g.transmitted + [g.queue[0]])
  }

  /** sendCommand: append to the queue, then try to process. */
  function Submitted(g: Gate, c: Command): Gate
  {
    Advanced(g.(queue := g.queue + [c]))
  }

  /** A broadcast that bypasses the queue and the gate. */
  function Broadcast(g: Gate, c: Command): Gate
  {
    g.(transmitted := g.transmitted + [c])
  }

  /** What dispatch does to the gate once a pending call was found: clear the flag, try to process. */
  function Released(g: Gate): Gate
  {
    Advanced(g.(processing := false))
  }

  /**
   * tryProcess moves at most the queue's head to the channel, only when no command
   * is in flight, and leaves the gate settled and busy exactly when there was work.
   */
  lemma AdvancedSpec(g: Gate)
    ensures Advanced(g).transmitted + Advanced(g).queue == g.transmitted + g.queue
    ensures Settled(Advanced(g))
    ensures Advanced(g).processing <==> g.processing || g.queue != []
    ensures |Advanced(g).transmitted| == |g.transmitted| + (if !g.processing && g.queue != [] then 1 else 0)
  {
    if !g.processing && g.queue != [] {
      assert g.queue == [g.queue[0]] + g.queue[1..];
    }
  }

  /** sendCommand appends the command to the commands sent or waiting, and leaves a command in flight. */
  lemma SubmittedSpec(g: Gate, c: Command)
    ensures Submitted(g, c).transmitted + Submitted(g, c).queue == g.transmitted + g.queue + [c]
    ensures Settled(Submitted(g, c)) && Submitted(g, c).processing
    ensures Settled(g) && !g.processing ==> Submitted(g, c).transmitted == g.transmitted + [c]
  {
    AdvancedSpec(g.(queue := g.queue + [c]));
  }

  /** A release sends the queue's head, if any, and is busy afterwards exactly when it did. */
  lemma ReleasedSpec(g: Gate)
    ensures Released(g).transmitted + Released(g).queue == g.transmitted + g.queue
    ensures Settled(Released(g))
    ensures Released(g).processing <==> g.queue != []
    ensures |Released(g).transmitted| == |g.transmitted| + (if g.queue != [] then 1 else 0)
    ensures |Released(g).queue| + Indicator(Released(g).processing) == |g.queue|
  {
    AdvancedSpec(g.(processing := false));
  }

  /**
   * While a command is in flight, submitting the next step before or after the
   * release ends in the same gate: a continuation may run inside the completion
   * or after it.
   */
  lemma ReleaseCommutesWithSubmit(g: Gate, c: Command)
    requires g.processing
    ensures Released(Submitted(g, c)) == Submitted(Released(g), c)
  {
    if g.queue != [] {
      assert (g.queue + [c])[1..] == g.queue[1..] + [c];
    }
  }

  /** An event at the gate: a queued command, a queue-bypassing broadcast, or a reply that hit a pending call. */
  datatype Event = Submit(c: Command) | Bypass(c: Command) | Release

  function Step(g: Gate, e: Event): Gate
  {
    match e
    case Submit(c) => Submitted(g, c)
    case Bypass(c) => Broadcast(g, c)
    case Release => Released(g)
  }

  lemma StepSpec(g: Gate, e: Event)
    ensures e.Submit? ==> Step(g, e).transmitted + Step(g, e).queue == g.transmitted + g.queue + [e.c]
    ensures e.Release? ==> Step(g, e).transmitted + Step(g, e).queue == g.transmitted + g.queue
    ensures Settled(g) ==> Settled(Step(g, e))
    ensures |Step(g, e).transmitted| + Indicator(g.processing)
      <= |g.transmitted| + (if e.Release? then 1 else 0) + (if e.Bypass? then 1 else 0) + Indicator(Step(g, e).processing)
  {
    match e
    case Submit(c) => SubmittedSpec(g, c); AdvancedSpec(g.(queue := g.queue + [c]));
    case Bypass(c) =>
    case Release => ReleasedSpec(g);
  }

  function Run(g: Gate, events: seq<Event>): Gate
    decreases |events|
  {
    if events == [] then g else Run(Step(g, events[0]), events[1..])
  }

  /** The commands a run of events queues, in order. */
  function Queued(events: seq<Event>): seq<Command>
    decreases |events|
  {
    if events == [] then []
    else (if events[0].Submit? then [events[0].c] else []) + Queued(events[1..])
  }

  /** The number of releases in a run of events. */
  function Releases(events: seq<Event>): nat
    decreases |events|
  {
    if events == [] then 0 else (if events[0].Release? then 1 else 0) + Releases(events[1..])
  }

  /** The number of bypassing broadcasts in a run of events. */
  function Bypasses(events: seq<Event>): nat
    decreases |events|
  {
    if events == [] then 0 else (if events[0].Bypass? then 1 else 0) + Bypasses(events[1..])
  }

  /** Queued commands leave the gate in submission order: nothing is lost, duplicated or reordered. */
  lemma {:induction false} RunKeepsQueueOrder(g: Gate, events: seq<Event>)
    requires forall i :: 0 <= i < |events| ==> !events[i].Bypass?
    ensures Run(g, events).transmitted + Run(g, events).queue == g.transmitted + g.queue + Queued(events)
    decreases |events|
  {
    if events != [] {
      var g' := Step(g, events[0]);
      StepSpec(g, events[0]);
      var head := if events[0].Submit? then [events[0].c] else [];
      assert g'.transmitted + g'.queue == g.transmitted + g.queue + head;
      RunKeepsQueueOrder(g', events[1..]);
      assert Queued(events) == head + Queued(events[1..]);
    }
  }

  /** The commands a step moves from the queue to the channel: none for a bypassing broadcast. */
  function FromQueue(g: Gate, e: Event): seq<Command>
  {
    if e.Bypass? || |Step(g, e).transmitted| < |g.transmitted| then []
    else Step(g, e).transmitted[|g.transmitted|..]
  }

  /** The commands a run moves from the queue to the channel, in order. */
  function Dequeued(g: Gate, events: seq<Event>): seq<Command>
    decreases |events|
  {
    if events == [] then [] else FromQueue(g, events[0]) + Dequeued(Step(g, events[0]), events[1..])
  }

  /** A step only appends to the channel, and what it takes from the queue comes off the queue's front. */
  lemma StepDequeues(g: Gate, e: Event)
    ensures g.transmitted <= Step(g, e).transmitted
    ensures FromQueue(g, e) + Step(g, e).queue == g.queue + Queued([e])
    ensures |Step(g, e).transmitted| == |g.transmitted| + |FromQueue(g, e)| + Bypasses([e])
    ensures Step(g, e).transmitted == g.transmitted + if e.Bypass? then [e.c] else FromQueue(g, e)
  {
    assert Bypasses([e]) == (if e.Bypass? then 1 else 0) + Bypasses([]);
    assert Queued([e]) == (if e.Submit? then [e.c] else []) + Queued([]);
    match e
    case Submit(c) =>
      var h := g.(queue := g.queue + [c]);
      if !h.processing {
        assert h.queue == [h.queue[0]] + h.queue[1..];
      }
    case Bypass(c) =>
    case Release =>
      var h := g.(processing := false);
      if h.queue != [] {
        assert h.queue == [h.queue[0]] + h.queue[1..];
      }
  }

  /**
   * Queued commands leave the gate in submission order, whatever broadcasts bypass
   * the queue meanwhile: nothing is lost, duplicated or reordered.
   */
  lemma {:induction false} RunDequeuesInOrder(g: Gate, events: seq<Event>)
    ensures Dequeued(g, events) + Run(g, events).queue == g.queue + Queued(events)
    decreases |events|
  {
    if events != [] {
      var e, rest := events[0], events[1..];
      var g' := Step(g, e);
      StepDequeues(g, e);
      RunDequeuesInOrder(g', rest);
      QueuedCons(events);
      Regroup(FromQueue(g, e), Dequeued(g', rest), Run(g', rest).queue, g.queue, Queued([e]), Queued(rest), g'.queue);
    }
  }

  /** Splicing a step's queue accounting onto the rest of a run's. */
  lemma Regroup(head: seq<Command>, tail: seq<Command>, left: seq<Command>,
                q: seq<Command>, added: seq<Command>, later: seq<Command>, mid: seq<Command>)
    requires head + mid == q + added
    requires tail + left == mid + later
    ensures head + tail + left == q + (added + later)
  {
    calc {
      head + tail + left;
      head + (tail + left);
      head + (mid + later);
      head + mid + later;
    }
  }

  lemma QueuedCons(events: seq<Event>)
    requires events != []
    ensures Queued(events) == Queued([events[0]]) + Queued(events[1..])
  {
    var e := events[0];
    assert [e][1..] == [];
    assert Queued([e]) == if e.Submit? then [e.c] else [];
  }

  /** Every command a run puts on the channel was either taken from the queue or bypassed it. */
  lemma {:induction false} RunTransmitsDequeuedOrBypassed(g: Gate, events: seq<Event>)
    ensures g.transmitted <= Run(g, events).transmitted
    ensures forall c :: c in Run(g, events).transmitted[|g.transmitted|..] ==> c in Dequeued(g, events) || Bypass(c) in events
    ensures |Run(g, events).transmitted| == |g.transmitted| + |Dequeued(g, events)| + Bypasses(events)
    decreases |events|
  {
    if events != [] {
      var e, rest := events[0], events[1..];
      var g' := Step(g, e);
      StepDequeues(g, e);
      RunTransmitsDequeuedOrBypassed(g', rest);
      var sent := Run(g', rest).transmitted;
      assert Run(g, events).transmitted == sent && Dequeued(g, events) == FromQueue(g, e) + Dequeued(g', rest);
      forall c | c in sent[|g.transmitted|..]
        ensures c in Dequeued(g, events) || Bypass(c) in events
      {
        var k :| |g.transmitted| <= k < |sent| && sent[k] == c;
        if k < |g'.transmitted| {
          assert c == g'.transmitted[k] == g'.transmitted[|g.transmitted|..][k - |g.transmitted|];
          assert c in FromQueue(g, e) || (e.Bypass? && c == e.c);
          if e.Bypass? && c == e.c {
            assert events[0] == Bypass(c);
          }
        } else {
          assert c in sent[|g'.transmitted|..];
          if Bypass(c) in rest {
            var j :| 0 <= j < |rest| && rest[j] == Bypass(c);
            assert events[j + 1] == Bypass(c);
          }
        }
      }
    }
  }

  /** 1 for true, 0 for false. */
  function Indicator(b: bool): nat
  {
    if b then 1 else 0
  }

  /**
   * Back-pressure: apart from bypassing broadcasts, a command is transmitted only
   * when the gate was idle or a reply released it, so at most one is ever
   * outstanding beyond the replies received.
   */
  lemma {:induction false} RunTransmitsAtMostOnePerRelease(g: Gate, events: seq<Event>)
    ensures |Run(g, events).transmitted| + Indicator(g.processing)
      <= |g.transmitted| + Releases(events) + Bypasses(events) + Indicator(Run(g, events).processing)
    decreases |events|
  {
    if events != [] {
      StepSpec(g, events[0]);
      RunTransmitsAtMostOnePerRelease(Step(g, events[0]), events[1..]);
    }
  }

  /** The gate invariant holds after every run that starts from a settled gate. */
  lemma {:induction false} RunKeepsSettled(g: Gate, events: seq<Event>)
    requires Settled(g)
    ensures Settled(Run(g, events))
    decreases |events|
  {
    if events != [] {
      StepSpec(g, events[0]);
      RunKeepsSettled(Step(g, events[0]), events[1..]);
    }
  }

  /**
   * A busy gate that no reply releases sends nothing more through the queue: every
   * command submitted meanwhile stays queued, in order.
   */
  lemma {:induction false} BusyGateHoldsQueue(g: Gate, events: seq<Event>)
    requires g.processing
    requires forall i :: 0 <= i < |events| ==> events[i].Submit?
    ensures Run(g, events) == g.(queue := g.queue + Queued(events))
    decreases |events|
  {
    if events != [] {
      var g' := Step(g, events[0]);
      assert g' == g.(queue := g.queue + [events[0].c]);
      BusyGateHoldsQueue(g', events[1..]);
      assert Queued(events) == [events[0].c] + Queued(events[1..]);
      assert g.queue + [events[0].c] + Queued(events[1..]) == g.queue + Queued(events);
    }
  }
}
