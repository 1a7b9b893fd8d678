/**
 * The engine (engine/engine.h): it owns the components and runs the frame
 * loop, which sends one start message and then, for each iteration while the
 * run flag holds, a frame-start and a frame-end message.
 *
 * The run flag is owned by the caller and changed by subscribers; here the
 * values the loop reads from it are given as the sequence `runChecks`. Wall
 * time is measured in integer ticks of one microsecond, and the duration of
 * each frame's handler work is given as the sequence `elapsed`.
 */
module Engines {
  import opened Wrappers
  import opened MessageBus
  import opened Components

  /** Ticks per second: time is counted in microseconds. */
  const TicksPerSecond: nat := 1000000

  /** What the loop does after a frame's work: sleep the rest of the budget, or report an overrun. */
  datatype Pacing = Sleep(ticks: nat) | Overrun

  /**
   * The decision at the end of an iteration: it sleeps exactly when the work
   * took less than the budget, and then for the remainder, so that the frame
   * ends on the budget; otherwise it reports an overrun and does not sleep.
   */
  function Pace(budget: nat, elapsed: nat): (p: Pacing)
    ensures p.Sleep? <==> elapsed < budget
    ensures p.Sleep? ==> p.ticks > 0 && elapsed + p.ticks == budget
    ensures p.Overrun? ==> budget <= elapsed
  {
    if elapsed < budget then Sleep(budget - elapsed) else Overrun
  }

  /** The message ids sent by a run of `n` iterations: start · (frameStart · frameEnd)^n. */
  function Schedule<K>(start: K, frameStart: K, frameEnd: K, n: nat): seq<K>
  {
    [start] + FramePairs(frameStart, frameEnd, n)
  }

  function FramePairs<K>(frameStart: K, frameEnd: K, n: nat): seq<K>
  {
    if n == 0 then [] else FramePairs(frameStart, frameEnd, n - 1) + [frameStart, frameEnd]
  }

  /** `s` repeated `n` times. */
  function Repeat<T>(s: seq<T>, n: nat): seq<T>
  {
    if n == 0 then [] else Repeat(s, n - 1) + s
  }

  lemma {:induction false} FramePairsAt<K>(frameStart: K, frameEnd: K, n: nat)
    ensures |FramePairs(frameStart, frameEnd, n)| == 2 * n
    ensures forall i :: 0 <= i < n ==>
      FramePairs(frameStart, frameEnd, n)[2 * i] == frameStart &&
      FramePairs(frameStart, frameEnd, n)[2 * i + 1] == frameEnd
  {
    if n > 0 {
      FramePairsAt(frameStart, frameEnd, n - 1);
    }
  }

  /**
   * The shape of the schedule: the start message first, then iteration i
   * sends frame-start at position 1 + 2i and frame-end right after it.
   */
  lemma ScheduleShape<K>(start: K, frameStart: K, frameEnd: K, n: nat)
    ensures |Schedule(start, frameStart, frameEnd, n)| == 1 + 2 * n
    ensures Schedule(start, frameStart, frameEnd, n)[0] == start
    ensures forall i :: 0 <= i < n ==>
      Schedule(start, frameStart, frameEnd, n)[1 + 2 * i] == frameStart &&
      Schedule(start, frameStart, frameEnd, n)[2 + 2 * i] == frameEnd
  {
    FramePairsAt(frameStart, frameEnd, n);
  }

  /** When the start id differs from both frame ids, it is sent exactly once, and before any frame message. */
  lemma StartSentOnce<K>(start: K, frameStart: K, frameEnd: K, n: nat)
    requires start != frameStart && start != frameEnd
    ensures multiset(Schedule(start, frameStart, frameEnd, n))[start] == 1
    ensures forall i :: 0 < i < |Schedule(start, frameStart, frameEnd, n)| ==>
      Schedule(start, frameStart, frameEnd, n)[i] != start
  {
    FramePairsAt(frameStart, frameEnd, n);
    StartNotInPairs(start, frameStart, frameEnd, n);
  }

  lemma {:induction false} StartNotInPairs<K>(start: K, frameStart: K, frameEnd: K, n: nat)
    requires start != frameStart && start != frameEnd
    ensures multiset(FramePairs(frameStart, frameEnd, n))[start] == 0
  {
    if n > 0 {
      StartNotInPairs(start, frameStart, frameEnd, n - 1);
    }
  }

  /** The index of the first false observation of the run flag. */
  function FirstFalse(runChecks: seq<bool>): (n: nat)
    requires false in runChecks
    ensures n < |runChecks| && !runChecks[n]
    ensures forall i :: 0 <= i < n ==> runChecks[i]
  {
    if !runChecks[0] then 0 else 1 + FirstFalse(runChecks[1..])
  }

  class Engine<K(==,!new), P, H> {
    const bus: KeyedBus<K, P, H>
    const startMessage: (K, P)
    const startFrameMessage: (K, P)
    const endFrameMessage: (K, P)
    /** seconds_per_frame_ (1.0 / fps) in ticks, rounded down. */
    const ticksPerFrame: nat
    /** components_: the owned components, in the order they were added. */
    var components: seq<Component<K, P, H>>

    constructor (bus: KeyedBus<K, P, H>, startMessage: (K, P), startFrameMessage: (K, P),
                 endFrameMessage: (K, P), fps: nat)
      requires fps >= 1
      ensures this.bus == bus && this.startMessage == startMessage
      ensures this.startFrameMessage == startFrameMessage && this.endFrameMessage == endFrameMessage
      ensures ticksPerFrame * fps <= TicksPerSecond < (ticksPerFrame + 1) * fps
      ensures components == []
    {
      this.bus := bus;
      this.startMessage := startMessage;
      this.startFrameMessage := startFrameMessage;
      this.endFrameMessage := endFrameMessage;
      this.ticksPerFrame := TicksPerSecond / fps;
      components := [];
    }

    /** AddComponent: push_back; the components added before are kept, in order. */
    method AddComponent(component: Component<K, P, H>)
      modifies this
      ensures components == old(components) + [component]
    {
      components := components + [component];
    }

    /** One iteration's sends: frame-start, then frame-end, with the bus calls of each in order. */
    method SendFrameMessages() returns (calls: seq<Call<H, P>>)
      ensures calls == Calls(bus.SubscribersOf(startFrameMessage.0), startFrameMessage.1) +
                       Calls(bus.SubscribersOf(endFrameMessage.0), endFrameMessage.1)
    {
      var startCalls := bus.SendMessage(startFrameMessage.0, startFrameMessage.1);
      var endCalls := bus.SendMessage(endFrameMessage.0, endFrameMessage.1);
      calls := startCalls + endCalls;
    }

    /**
     * The while loop of BlockingGameLoop: iterations run while the flag
     * reads true, each sending frame-start then frame-end and then pacing
     * itself against the frame budget.
     */
    method RunFrames(runChecks: seq<bool>, elapsed: seq<nat>)
      returns (sent: seq<K>, calls: seq<Call<H, P>>, pacing: seq<Pacing>)
      requires false in runChecks
      requires |elapsed| == |runChecks|
      ensures sent == FramePairs(startFrameMessage.0, endFrameMessage.0, FirstFalse(runChecks))
      ensures calls == Repeat(Calls(bus.SubscribersOf(startFrameMessage.0), startFrameMessage.1) +
                              Calls(bus.SubscribersOf(endFrameMessage.0), endFrameMessage.1),
                              FirstFalse(runChecks))
      ensures |pacing| == FirstFalse(runChecks)
      ensures forall i :: 0 <= i < |pacing| ==> pacing[i] == Pace(ticksPerFrame, elapsed[i])
    {
      var n := FirstFalse(runChecks);
      ghost var frameCalls := Calls(bus.SubscribersOf(startFrameMessage.0), startFrameMessage.1) +
                              Calls(bus.SubscribersOf(endFrameMessage.0), endFrameMessage.1);
      sent, calls, pacing := [], [], [];
      var i := 0;
      while runChecks[i]
        invariant 0 <= i <= n
        invariant sent == FramePairs(startFrameMessage.0, endFrameMessage.0, i)
        invariant calls == Repeat(frameCalls, i)
        invariant |pacing| == i
        invariant forall k :: 0 <= k < i ==> pacing[k] == Pace(ticksPerFrame, elapsed[k])
        decreases n - i
      {
        var frame := SendFrameMessages();
        sent := sent + [startFrameMessage.0, endFrameMessage.0];
        calls := calls + frame;
        pacing := pacing + [Pace(ticksPerFrame, elapsed[i])];
        i := i + 1;
      }
    }

    /**
     * BlockingGameLoop: with n the number of true flag observations before
     * the first false one, the loop sends start · (frameStart · frameEnd)^n,
     * makes the bus calls of those sends in that order, and after each
     * iteration decides to sleep or report an overrun from its elapsed ticks.
     * The flag is read only at the top of an iteration, so an iteration that
     * starts always sends both of its frame messages.
     */
    method BlockingGameLoop(runChecks: seq<bool>, elapsed: seq<nat>)
      returns (sent: seq<K>, calls: seq<Call<H, P>>, pacing: seq<Pacing>)
      requires false in runChecks
      requires |elapsed| == |runChecks|
      ensures sent == Schedule(startMessage.0, startFrameMessage.0, endFrameMessage.0, FirstFalse(runChecks))
      ensures !runChecks[0] ==> sent == [startMessage.0]
      ensures calls == Calls(bus.SubscribersOf(startMessage.0), startMessage.1) +
                       Repeat(Calls(bus.SubscribersOf(startFrameMessage.0), startFrameMessage.1) +
                              Calls(bus.SubscribersOf(endFrameMessage.0), endFrameMessage.1),
                              FirstFalse(runChecks))
      ensures |pacing| == FirstFalse(runChecks)
      ensures forall i :: 0 <= i < |pacing| ==> pacing[i] == Pace(ticksPerFrame, elapsed[i])
    {
      var startCalls := bus.SendMessage(startMessage.0, startMessage.1);
      var frameSent, frameCalls;
      frameSent, frameCalls, pacing := RunFrames(runChecks, elapsed);
      sent := [startMessage.0] + frameSent;
      calls := startCalls + frameCalls;
    }
  }
}
