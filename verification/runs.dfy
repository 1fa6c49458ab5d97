/** Properties of whole runs of the frame pipeline: what the overflow wait
    does to the frame it interrupted, what happens with no upscaler
    instances, that a finished producer adds nothing, and that once the
    producer has finished the consumer can always write every submitted
    frame and stop. */
module PipelineRuns {
  import opened Basics
  import opened FramePipeline

  lemma RunAppend(s: State, a: seq<Event>, b: seq<Event>)
    requires Inv(s)
    ensures Run(s, a + b) == Run(Run(s, a), b)
    decreases |a|
  {
    if a == [] {
      assert a + b == b;
    } else {
      StepKeepsInv(s, a[0]);
      var s1 := Step(s, a[0]);
      assert a + b != [];
      assert (a + b)[0] == a[0];
      assert (a + b)[1..] == a[1..] + b;
      assert Run(s, a + b) == Run(s1, a[1..] + b);
      assert Run(s, a) == Run(s1, a[1..]);
      RunAppend(s1, a[1..], b);
    }
  }

  /** Frames are written in the order they were read, each at most once,
      and the producer reached the index of each (reporting it to the
      progress callback, when there is one). */
  lemma OutputInReadOrder(s: State)
    requires Inv(s)
    ensures s.output <= s.submitted
    ensures StrictlyIncreasing(s.output)
    ensures forall i | 0 <= i < |s.output| :: s.output[i] in s.callbacks
  {
    assert s.output == s.submitted[..|s.output|];
    forall i | 0 <= i < |s.output|
      ensures s.output[i] in s.callbacks
    {
      assert s.output[i] == s.submitted[i] < s.nextFrame;
      assert s.callbacks[s.output[i]] == s.output[i];
    }
  }

  // ----- The frame read while the queue is full -----

  /** Frame index `d` has gone by without being handed to an upscaler: the
      producer has moved past it, or it is the index the producer is
      blocked on or stopped at. */
  predicate Skipped(s: State, d: nat) {
    d !in s.submitted && (d < s.nextFrame || (d == s.nextFrame && s.phase != Reading))
  }

  lemma StepKeepsSkipped(s: State, e: Event, d: nat)
    requires HeadBuffered(s) && Skipped(s, d)
    ensures Skipped(Step(s, e), d)
  {
    match e
    case Produce(callbackOk, readOk) =>
    case Wake =>
    case Complete(slot) =>
    case Consume =>
  }

  /** The frame the producer read while the queue was full is logged (and
      reported to the callback, when there is one) but is never upscaled
      nor written, whatever happens
      next: after the wait the loop moves on to the following index. */
  lemma {:induction false} DroppedFrameNeverWritten(s: State, events: seq<Event>)
    requires Inv(s) && s.phase == Waiting
    ensures s.nextFrame in s.callbacks
    ensures s.nextFrame !in Run(s, events).submitted
    ensures s.nextFrame !in Run(s, events).output
  {
    assert s.callbacks[s.nextFrame] == s.nextFrame;
    SkippedStaysSkipped(s, events, s.nextFrame);
  }

  lemma {:induction false} SkippedStaysSkipped(s: State, events: seq<Event>, d: nat)
    requires Inv(s) && Skipped(s, d)
    ensures Skipped(Run(s, events), d)
    decreases |events|
  {
    if events != [] {
      StepKeepsInv(s, events[0]);
      StepKeepsSkipped(s, events[0], d);
      SkippedStaysSkipped(Step(s, events[0]), events[1..], d);
    }
  }

  // ----- No upscaler instances -----

  lemma StepWithoutInstances(s: State, e: Event)
    requires HeadBuffered(s) && s.instances == 0
    ensures Step(s, e).instances == 0
    ensures Step(s, e).submitted == s.submitted
    ensures s.phase == Waiting ==> Step(s, e).phase == Waiting
  {
    match e
    case Produce(callbackOk, readOk) =>
    case Wake =>
    case Complete(slot) =>
    case Consume =>
  }

  /** With no upscaler instances no frame is ever scheduled, and a producer
      blocked on the overflow wait stays blocked: the room it waits for
      never comes. */
  lemma {:induction false} NoInstancesNoFrames(s: State, events: seq<Event>)
    requires Inv(s) && s.instances == 0
    ensures Run(s, events).submitted == s.submitted
    ensures s.phase == Waiting ==> Run(s, events).phase == Waiting
    decreases |events|
  {
    if events != [] {
      StepKeepsInv(s, events[0]);
      StepWithoutInstances(s, events[0]);
      NoInstancesNoFrames(Step(s, events[0]), events[1..]);
    }
  }

  // ----- A finished producer -----

  lemma StepAfterProducer(s: State, e: Event)
    requires HeadBuffered(s) && s.phase == Finished
    ensures Step(s, e).phase == Finished
    ensures Step(s, e).submitted == s.submitted && Step(s, e).callbacks == s.callbacks
    ensures |Step(s, e).pending| <= |s.pending|
  {
    match e
    case Produce(callbackOk, readOk) =>
    case Wake =>
    case Complete(slot) =>
    case Consume =>
  }

  /** Once the producer has pushed the end-of-stream marker it reads,
      reports and submits nothing more, and the pending queue only
      shrinks. */
  lemma {:induction false} FinishedProducerIsSilent(s: State, events: seq<Event>)
    requires Inv(s) && s.phase == Finished
    ensures Run(s, events).phase == Finished
    ensures Run(s, events).submitted == s.submitted && Run(s, events).callbacks == s.callbacks
    ensures |Run(s, events).pending| <= |s.pending|
    decreases |events|
  {
    if events != [] {
      StepKeepsInv(s, events[0]);
      StepAfterProducer(s, events[0]);
      FinishedProducerIsSilent(Step(s, events[0]), events[1..]);
    }
  }

  // ----- Draining -----

  /** Every pending task finishes and the consumer takes it, front to back,
      then takes the end-of-stream marker. */
  function DrainSchedule(p: seq<Entry>): (r: seq<Event>)
    ensures |r| <= 2 * |p|
  {
    if p == [] then []
    else (if p[0].Scheduled? then [Complete(p[0].slot), Consume] else [Consume]) + DrainSchedule(p[1..])
  }

  /** Finishing the head task marks it done and changes nothing else in
      the queue. */
  lemma CompleteHead(s: State)
    requires Inv(s) && s.pending != [] && s.pending[0].Scheduled?
    ensures CompleteUnit(s, s.pending[0].slot).pending == s.pending[0 := s.pending[0].(done := true)]
    ensures CompleteUnit(s, s.pending[0].slot).phase == s.phase
    ensures CompleteUnit(s, s.pending[0].slot).drained == s.drained
  {
    if s.pending[0].done {
      NoOtherRunning(s, s.pending[0].slot);
      assert s.pending[0 := s.pending[0].(done := true)] == s.pending;
    }
  }

  /** Finishing the head task and consuming it leaves the rest of the queue
      as it was. */
  lemma DrainHead(s: State)
    requires Inv(s) && !s.drained && s.pending != [] && s.pending[0].Scheduled?
    ensures Run(s, [Complete(s.pending[0].slot), Consume]).pending == s.pending[1..]
    ensures Run(s, [Complete(s.pending[0].slot), Consume]).phase == s.phase
    ensures !Run(s, [Complete(s.pending[0].slot), Consume]).drained
  {
    var head := s.pending[0];
    CompleteHead(s);
    StepKeepsInv(s, Complete(head.slot));
    var t := Step(s, Complete(head.slot));
    assert t == CompleteUnit(s, head.slot);
    assert t.pending[1..] == s.pending[1..];
    ConsumerKeepsInv(t);
    var u := Step(t, Consume);
    assert u == ConsumerStep(t);
    var events := [Complete(head.slot), Consume];
    assert Run(s, events) == Run(t, events[1..]);
    assert events[1..] == [Consume];
    assert Run(t, [Consume]) == Run(u, []);
  }

  /** While the head task holds a slot and has finished, no unfinished
      task runs on that slot. */
  lemma NoOtherRunning(s: State, slot: nat)
    requires Inv(s) && s.pending != [] && s.pending[0].Scheduled? && s.pending[0].done && s.pending[0].slot == slot
    ensures FindRunning(s.pending, slot) == |s.pending|
  {
    var k := FindRunning(s.pending, slot);
    if k < |s.pending| {
      PendingSlotsDistinct(s.vacant, s.pending, s.instances, 0, k);
      assert false;
    }
  }

  /** Once the producer has finished, the consumer writes every submitted
      frame and stops, whatever the pending tasks are. */
  lemma {:induction false} DrainReachesEnd(s: State)
    requires Inv(s) && s.phase == Finished && !s.drained
    ensures Run(s, DrainSchedule(s.pending)).drained
    ensures Run(s, DrainSchedule(s.pending)).output == s.submitted
    decreases |s.pending|
  {
    var p := s.pending;
    assert p != [];
    var first: seq<Event> := if p[0].Scheduled? then [Complete(p[0].slot), Consume] else [Consume];
    assert DrainSchedule(p) == first + DrainSchedule(p[1..]);
    RunAppend(s, first, DrainSchedule(p[1..]));
    var t := Run(s, first);
    if p[0].Scheduled? {
      DrainHead(s);
      DrainReachesEnd(t);
      FinishedProducerIsSilent(s, first);
    } else {
      assert p == [EndOfStream];
      assert t == Step(s, Consume);
      assert t.drained && t.pending == [];
      assert DrainSchedule(p[1..]) == [];
      FinishedProducerIsSilent(s, first);
    }
  }
}

module PipelineExample {
  import opened FramePipeline

  /** With one upscaler instance and three readable frames, when the second
      frame is read while the first is still being upscaled, the second is
      dropped: the callback sees indices 0 to 3 but only frames 0 and 2 are
      written. */
  lemma OneInstanceDropsFrame()
    ensures var s1 := ProducerStep(Start(1), true, true);
            var s2 := ProducerStep(s1, true, true);
            var s3 := CompleteUnit(s2, 0);
            HeadBuffered(s3) &&
            var s4 := ConsumerStep(s3);
            var s5 := WakeStep(s4);
            var s6 := ProducerStep(s5, true, true);
            var s7 := CompleteUnit(s6, 0);
            HeadBuffered(s7) &&
            var s8 := ConsumerStep(s7);
            var s9 := ProducerStep(s8, true, false);
            HeadBuffered(s9) &&
            var s10 := ConsumerStep(s9);
            s2.phase == Waiting && s10.drained && s10.output == [0, 2] && s10.callbacks == [0, 1, 2, 3]
  {
    var s0 := Start(1);
    assert s0.vacant == [0];
    var s1 := State(1, [], [Scheduled(0, 0, false)], map[], Reading, 1, [0], [0], [], false);
    assert ProducerStep(s0, true, true) == s1;
    var s2 := s1.(phase := Waiting, callbacks := [0, 1]);
    assert ProducerStep(s1, true, true) == s2;
    var s3 := s2.(pending := [Scheduled(0, 0, true)], buffers := map[0 := 0]);
    assert FindRunning(s2.pending, 0) == 0;
    assert CompleteUnit(s2, 0) == s3;
    var s4 := s3.(pending := [], vacant := [0], output := [0]);
    assert ConsumerStep(s3) == s4;
    var s5 := s4.(phase := Reading, nextFrame := 2);
    assert WakeStep(s4) == s5;
    var s6 := s5.(vacant := [], pending := [Scheduled(0, 2, false)], callbacks := [0, 1, 2], submitted := [0, 2],
                  nextFrame := 3);
    assert ProducerStep(s5, true, true) == s6;
    var s7 := s6.(pending := [Scheduled(0, 2, true)], buffers := map[0 := 2]);
    assert FindRunning(s6.pending, 0) == 0;
    assert CompleteUnit(s6, 0) == s7;
    var s8 := s7.(pending := [], vacant := [0], output := [0, 2]);
    assert ConsumerStep(s7) == s8;
    var s9 := s8.(pending := [EndOfStream], phase := Finished, callbacks := [0, 1, 2, 3]);
    assert ProducerStep(s8, true, false) == s9;
    assert ConsumerStep(s9) == s9.(pending := [], drained := true);
  }
}
