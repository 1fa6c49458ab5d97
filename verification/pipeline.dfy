/** The frame pipeline of `MovieUpscaler::run` and
    `consumeSuperresFuturesTask`, as a state machine whose steps are atomic:
    one iteration of the producer loop, the completion of one upscaling
    task, one iteration of the consumer loop, and the producer waking from
    its wait. Threads, futures, mutexes and condition variables are not
    modelled; each loop iteration is one step. */
module FramePipeline {
  import opened Basics

  /** An entry of the pending-task queue: the future of a frame being
      upscaled into a slot (`done` once the task has finished), or the
      empty optional that marks the end of the stream. */
  datatype Entry = Scheduled(slot: nat, frame: nat, done: bool) | EndOfStream

  /** Where the producer loop is: at the top of an iteration, blocked on the
      overflow wait after a frame it could not schedule, or past its last
      iteration. */
  datatype Phase = Reading | Waiting | Finished

  /** The shared state of the two loops. A slot id is both an upscaler
      instance and the index of its output buffer; `buffers` maps a slot to
      the frame last upscaled into it. `callbacks`, `submitted` and
      `output` log the frame indices the producer reached (the arguments of
      the progress callback, when one is given), the frames handed to an
      upscaler, and the frames written to the output video. */
  datatype State = State(
    instances: nat,
    vacant: seq<nat>,
    pending: seq<Entry>,
    buffers: map<nat, nat>,
    phase: Phase,
    nextFrame: nat,
    callbacks: seq<nat>,
    submitted: seq<nat>,
    output: seq<nat>,
    drained: bool)

  /** The queues after the setup of `run`: every slot vacant in ascending
      order, nothing pending, nothing read or written yet. */
  function Start(instances: nat): (s: State)
    ensures s.instances == instances && s.buffers == map[]
    ensures s.vacant == Iota(instances) && s.pending == []
    ensures s.phase == Reading && s.nextFrame == 0 && !s.drained
    ensures s.callbacks == [] && s.submitted == [] && s.output == []
  {
    State(instances, Iota(instances), [], map[], Reading, 0, [], [], [], false)
  }

  // ----- Views of the pending queue -----

  /** The slots of the scheduled entries, front to back. */
  function SlotsOf(p: seq<Entry>): (r: seq<nat>)
    ensures |r| <= |p|
  {
    if p == [] then []
    else (if p[0].Scheduled? then [p[0].slot] else []) + SlotsOf(p[1..])
  }

  /** The frames of the scheduled entries, front to back. */
  function FramesOf(p: seq<Entry>): (r: seq<nat>)
    ensures |r| <= |p|
  {
    if p == [] then []
    else (if p[0].Scheduled? then [p[0].frame] else []) + FramesOf(p[1..])
  }

  /** Only the last entry may be the end-of-stream marker. */
  predicate SentinelLast(p: seq<Entry>) {
    forall k | 0 <= k < |p| - 1 :: p[k].Scheduled?
  }

  predicate HasSentinel(p: seq<Entry>) {
    p != [] && p[|p| - 1].EndOfStream?
  }

  /** The condition the producer tests before scheduling and waits for
      after a frame it could not schedule. */
  function Capacity(s: State): (room: bool)
    ensures s.instances == 0 ==> !room
  {
    |s.pending| < s.instances && s.vacant != []
  }

  // ----- The invariant of the reachable states -----

  /** Every slot is either vacant or held by exactly one scheduled entry. */
  predicate SlotsConserved(vacant: seq<nat>, pending: seq<Entry>, instances: nat) {
    multiset(vacant + SlotsOf(pending)) == multiset(Iota(instances))
  }

  /** A finished task has written its frame into its slot's buffer. */
  predicate DoneBuffered(pending: seq<Entry>, buffers: map<nat, nat>) {
    forall k | 0 <= k < |pending| && pending[k].Scheduled? && pending[k].done ::
      pending[k].slot in buffers && buffers[pending[k].slot] == pending[k].frame
  }

  predicate FramesBelow(frames: seq<nat>, bound: nat) {
    forall i | 0 <= i < |frames| :: frames[i] < bound
  }

  /** What holds in every state the two loops reach: the slots are
      conserved; the end-of-stream marker is last, and present exactly
      while the producer has finished and the consumer has not; finished
      tasks have filled their buffers; the output followed by the pending
      frames is the submitted frames, in increasing order and below the
      current frame index; and the producer has reached every index up to
      the current one, and that one too once the producer has left the top of
      its loop. */
  predicate Inv(s: State) {
    && SlotsConserved(s.vacant, s.pending, s.instances)
    && SentinelLast(s.pending)
    && (HasSentinel(s.pending) <==> s.phase == Finished && !s.drained)
    && (s.drained ==> s.phase == Finished && s.pending == [])
    && DoneBuffered(s.pending, s.buffers)
    && s.output + FramesOf(s.pending) == s.submitted
    && StrictlyIncreasing(s.submitted)
    && FramesBelow(s.submitted, s.nextFrame)
    && s.callbacks == Iota(s.nextFrame + if s.phase == Reading then 0 else 1)
  }

  // ----- The steps -----

  /** One iteration of the producer loop: log the frame index (and report
      it to the callback, when there is one), read the frame; on a failed
      read or a callback asking to stop, push the end-of-stream marker and leave the loop; otherwise
      schedule the frame on the front vacant slot when there is room, and
      else block on the overflow wait, dropping the frame. */
  function ProducerStep(s: State, callbackOk: bool, readOk: bool): (r: State)
    ensures s.phase != Reading ==> r == s
    ensures s.phase == Reading && !(readOk && callbackOk) ==>
              r == s.(callbacks := s.callbacks + [s.nextFrame],
                      pending := s.pending + [EndOfStream], phase := Finished)
    ensures s.phase == Reading && readOk && callbackOk && Capacity(s) ==>
              r == s.(callbacks := s.callbacks + [s.nextFrame],
                      vacant := s.vacant[1..],
                      pending := s.pending + [Scheduled(s.vacant[0], s.nextFrame, false)],
                      submitted := s.submitted + [s.nextFrame],
                      nextFrame := s.nextFrame + 1)
    ensures s.phase == Reading && readOk && callbackOk && !Capacity(s) ==>
              r == s.(callbacks := s.callbacks + [s.nextFrame], phase := Waiting)
  {
    if s.phase != Reading then s
    else
      var s1 := s.(callbacks := s.callbacks + [s.nextFrame]);
      if !readOk || !callbackOk then
        s1.(pending := s.pending + [EndOfStream], phase := Finished)
      else if Capacity(s) then
        s1.(vacant := s.vacant[1..],
            pending := s.pending + [Scheduled(s.vacant[0], s.nextFrame, false)],
            submitted := s.submitted + [s.nextFrame],
            nextFrame := s.nextFrame + 1)
      else
        s1.(phase := Waiting)
  }

  /** The overflow wait returns once there is room again; the loop then
      moves on to the next frame index. */
  function WakeStep(s: State): (r: State)
    ensures s.phase == Waiting && Capacity(s) ==>
              r == s.(phase := Reading, nextFrame := s.nextFrame + 1)
    ensures !(s.phase == Waiting && Capacity(s)) ==> r == s
  {
    if s.phase == Waiting && Capacity(s) then s.(phase := Reading, nextFrame := s.nextFrame + 1)
    else s
  }

  /** The position of the first unfinished task on the slot, or |p|. */
  function FindRunning(p: seq<Entry>, slot: nat): (k: nat)
    ensures k <= |p|
    ensures k < |p| ==> p[k].Scheduled? && p[k].slot == slot && !p[k].done
    ensures forall j | 0 <= j < |p| && p[j].Scheduled? && p[j].slot == slot && !p[j].done :: k <= j
  {
    if p == [] then 0
    else if p[0].Scheduled? && p[0].slot == slot && !p[0].done then 0
    else 1 + FindRunning(p[1..], slot)
  }

  /** The upscaling task on a slot finishes: it writes its frame into the
      slot's buffer and its future becomes ready. Nothing happens when no
      task runs on the slot. */
  function CompleteUnit(s: State, slot: nat): (r: State)
    ensures FindRunning(s.pending, slot) == |s.pending| ==> r == s
    ensures FindRunning(s.pending, slot) < |s.pending| ==>
              var k := FindRunning(s.pending, slot);
              r == s.(pending := s.pending[k := s.pending[k].(done := true)],
                      buffers := s.buffers[slot := s.pending[k].frame])
  {
    var k := FindRunning(s.pending, slot);
    if k == |s.pending| then s
    else s.(pending := s.pending[k := s.pending[k].(done := true)],
            buffers := s.buffers[slot := s.pending[k].frame])
  }

  /** The consumer can only write a finished head whose buffer is filled. */
  predicate HeadBuffered(s: State) {
    s.pending != [] && s.pending[0].Scheduled? && s.pending[0].done ==> s.pending[0].slot in s.buffers
  }

  /** One iteration of the consumer loop: wait for an entry and for the
      head's future; a finished task has its buffer written to the output
      and its slot pushed to the back of the vacant queue; the
      end-of-stream marker ends the loop; the head is popped either way. */
  function ConsumerStep(s: State): (r: State)
    requires HeadBuffered(s)
    ensures s.drained || s.pending == [] || (s.pending[0].Scheduled? && !s.pending[0].done) ==> r == s
    ensures !s.drained && s.pending != [] && s.pending[0].EndOfStream? ==>
              r == s.(pending := s.pending[1..], drained := true)
    ensures !s.drained && s.pending != [] && s.pending[0].Scheduled? && s.pending[0].done ==>
              r == s.(output := s.output + [s.buffers[s.pending[0].slot]],
                      vacant := s.vacant + [s.pending[0].slot],
                      pending := s.pending[1..])
  {
    if s.drained || s.pending == [] then s
    else match s.pending[0]
      case EndOfStream => s.(pending := s.pending[1..], drained := true)
      case Scheduled(slot, _, done) =>
        if !done then s
        else s.(output := s.output + [s.buffers[slot]],
                vacant := s.vacant + [slot],
                pending := s.pending[1..])
  }

  // ----- Facts about the views -----

  lemma {:induction false} AppendEntry(p: seq<Entry>, e: Entry)
    ensures SlotsOf(p + [e]) == SlotsOf(p) + SlotsOf([e])
    ensures FramesOf(p + [e]) == FramesOf(p) + FramesOf([e])
    decreases |p|
  {
    if p == [] {
      assert p + [e] == [e];
    } else {
      var q := p + [e];
      assert q[0] == p[0];
      assert q[1..] == p[1..] + [e];
      AppendEntry(p[1..], e);
      var h := if p[0].Scheduled? then [p[0].slot] else [];
      assert SlotsOf(q) == h + SlotsOf(q[1..]);
      assert SlotsOf(p) == h + SlotsOf(p[1..]);
      var g := if p[0].Scheduled? then [p[0].frame] else [];
      assert FramesOf(q) == g + FramesOf(q[1..]);
      assert FramesOf(p) == g + FramesOf(p[1..]);
    }
  }

  lemma {:induction false} MarkDone(p: seq<Entry>, k: nat)
    requires k < |p| && p[k].Scheduled?
    ensures SlotsOf(p[k := p[k].(done := true)]) == SlotsOf(p)
    ensures FramesOf(p[k := p[k].(done := true)]) == FramesOf(p)
    decreases |p|
  {
    var q := p[k := p[k].(done := true)];
    if k == 0 {
      assert q[1..] == p[1..];
    } else {
      assert q[1..] == p[1..][k - 1 := p[k].(done := true)];
      MarkDone(p[1..], k - 1);
    }
  }

  lemma {:induction false} ScheduledSlotCounted(p: seq<Entry>, k: nat)
    requires k < |p| && p[k].Scheduled?
    ensures p[k].slot in multiset(SlotsOf(p))
    decreases |p|
  {
    if k > 0 {
      ScheduledSlotCounted(p[1..], k - 1);
    }
  }

  lemma {:induction false} RepeatedSlotCounted(p: seq<Entry>, i: nat, j: nat)
    requires i < j < |p| && p[i].Scheduled? && p[j].Scheduled? && p[i].slot == p[j].slot
    ensures multiset(SlotsOf(p))[p[i].slot] >= 2
    decreases |p|
  {
    if i == 0 {
      ScheduledSlotCounted(p[1..], j - 1);
    } else {
      RepeatedSlotCounted(p[1..], i - 1, j - 1);
    }
  }

  /** With a sentinel only at the end, every entry but the sentinel is a
      scheduled task. */
  lemma {:induction false} SlotsCount(p: seq<Entry>)
    requires SentinelLast(p)
    ensures |SlotsOf(p)| + (if HasSentinel(p) then 1 else 0) == |p|
    decreases |p|
  {
    if p != [] {
      SlotsCount(p[1..]);
    }
  }

  // ----- Slots: conservation and uniqueness -----

  /** No two scheduled tasks share a slot. */
  lemma PendingSlotsDistinct(vacant: seq<nat>, pending: seq<Entry>, instances: nat, i: nat, j: nat)
    requires SlotsConserved(vacant, pending, instances)
    requires i < j < |pending| && pending[i].Scheduled? && pending[j].Scheduled?
    ensures pending[i].slot != pending[j].slot
  {
    var x := pending[i].slot;
    if x == pending[j].slot {
      RepeatedSlotCounted(pending, i, j);
      IotaCountsOnce(instances, x);
      assert false;
    }
  }

  /** A scheduled task's slot is a real slot and is not vacant. */
  lemma PendingSlotNotVacant(vacant: seq<nat>, pending: seq<Entry>, instances: nat, k: nat)
    requires SlotsConserved(vacant, pending, instances)
    requires k < |pending| && pending[k].Scheduled?
    ensures pending[k].slot < instances
    ensures pending[k].slot !in vacant
  {
    var x := pending[k].slot;
    ScheduledSlotCounted(pending, k);
    IotaCountsOnce(instances, x);
    assert x in multiset(vacant + SlotsOf(pending));
    if x in vacant {
      assert false;
    }
  }

  /** The slots are conserved: each of the N slots is vacant or held by one
      scheduled task, none twice, and the pending queue holds at most N
      tasks and the marker. */
  lemma Conservation(s: State)
    requires Inv(s)
    ensures |s.vacant| + |SlotsOf(s.pending)| == s.instances
    ensures |s.pending| <= s.instances + 1
    ensures forall i | 0 <= i < |s.vacant + SlotsOf(s.pending)| :: (s.vacant + SlotsOf(s.pending))[i] < s.instances
    ensures forall i, j | 0 <= i < j < |s.vacant + SlotsOf(s.pending)| ::
              (s.vacant + SlotsOf(s.pending))[i] != (s.vacant + SlotsOf(s.pending))[j]
  {
    PermutationOfIota(s.vacant + SlotsOf(s.pending), s.instances);
    SlotsCount(s.pending);
  }

  /** While the producer runs there is no end marker, so every pending
      entry holds a slot and the vacant-queue half of the room test is
      implied by the queue-length half. */
  lemma CapacityWhileProducing(s: State)
    requires Inv(s) && s.phase != Finished
    ensures Capacity(s) <==> |s.pending| < s.instances
  {
    Conservation(s);
    SlotsCount(s.pending);
  }

  // ----- How each change to the queues keeps a part of the invariant -----

  /** Without a sentinel every pending entry is a scheduled task. */
  lemma NoSentinelAllScheduled(p: seq<Entry>)
    requires SentinelLast(p) && !HasSentinel(p)
    ensures forall k | 0 <= k < |p| :: p[k].Scheduled?
  {
  }

  lemma AppendKeepsSentinelLast(p: seq<Entry>, e: Entry)
    requires SentinelLast(p) && !HasSentinel(p)
    ensures SentinelLast(p + [e])
    ensures HasSentinel(p + [e]) <==> e.EndOfStream?
  {
    NoSentinelAllScheduled(p);
  }

  lemma AppendKeepsDoneBuffered(p: seq<Entry>, buffers: map<nat, nat>, e: Entry)
    requires DoneBuffered(p, buffers) && !(e.Scheduled? && e.done)
    ensures DoneBuffered(p + [e], buffers)
  {
    assert forall k | 0 <= k < |p| :: (p + [e])[k] == p[k];
  }

  lemma EndKeepsSlots(vacant: seq<nat>, p: seq<Entry>, instances: nat)
    requires SlotsConserved(vacant, p, instances)
    ensures SlotsConserved(vacant, p + [EndOfStream], instances)
  {
    AppendEntry(p, EndOfStream);
    assert SlotsOf(p + [EndOfStream]) == SlotsOf(p);
  }

  lemma EndKeepsFrames(p: seq<Entry>)
    ensures FramesOf(p + [EndOfStream]) == FramesOf(p)
  {
    AppendEntry(p, EndOfStream);
  }

  /** Taking the front vacant slot for a new task keeps every slot
      accounted for. */
  lemma TakeVacantKeepsSlots(vacant: seq<nat>, p: seq<Entry>, instances: nat, frame: nat)
    requires SlotsConserved(vacant, p, instances) && vacant != []
    ensures SlotsConserved(vacant[1..], p + [Scheduled(vacant[0], frame, false)], instances)
  {
    var e := Scheduled(vacant[0], frame, false);
    AppendEntry(p, e);
    assert SlotsOf(p + [e]) == SlotsOf(p) + [vacant[0]];
    assert vacant == [vacant[0]] + vacant[1..];
    assert multiset(vacant[1..] + SlotsOf(p + [e])) == multiset(vacant + SlotsOf(p));
  }

  lemma ScheduleKeepsFrames(p: seq<Entry>, slot: nat, frame: nat)
    ensures FramesOf(p + [Scheduled(slot, frame, false)]) == FramesOf(p) + [frame]
  {
    AppendEntry(p, Scheduled(slot, frame, false));
  }

  lemma AppendFrame(submitted: seq<nat>, frame: nat)
    requires StrictlyIncreasing(submitted) && FramesBelow(submitted, frame)
    ensures StrictlyIncreasing(submitted + [frame]) && FramesBelow(submitted + [frame], frame + 1)
  {
  }

  /** Writing the head task and pushing its slot to the back of the vacant
      queue keeps every slot accounted for. */
  lemma ReturnSlotKeepsSlots(vacant: seq<nat>, p: seq<Entry>, instances: nat)
    requires SlotsConserved(vacant, p, instances) && p != [] && p[0].Scheduled?
    ensures SlotsConserved(vacant + [p[0].slot], p[1..], instances)
  {
    assert SlotsOf(p) == [p[0].slot] + SlotsOf(p[1..]);
    assert multiset(vacant + [p[0].slot] + SlotsOf(p[1..])) == multiset(vacant + SlotsOf(p));
  }

  lemma PopKeepsSentinelLast(p: seq<Entry>)
    requires SentinelLast(p) && p != []
    ensures SentinelLast(p[1..])
    ensures |p| > 1 ==> (HasSentinel(p[1..]) <==> HasSentinel(p))
  {
  }

  lemma PopKeepsDoneBuffered(p: seq<Entry>, buffers: map<nat, nat>)
    requires DoneBuffered(p, buffers) && p != []
    ensures DoneBuffered(p[1..], buffers)
  {
    assert forall k | 0 <= k < |p| - 1 :: p[1..][k] == p[k + 1];
  }

  /** Marking a task finished and filling its buffer leaves the other
      finished tasks' buffers alone, since no two tasks share a slot. */
  lemma MarkKeepsDoneBuffered(vacant: seq<nat>, p: seq<Entry>, instances: nat, buffers: map<nat, nat>, k: nat)
    requires SlotsConserved(vacant, p, instances) && DoneBuffered(p, buffers)
    requires k < |p| && p[k].Scheduled?
    ensures DoneBuffered(p[k := p[k].(done := true)], buffers[p[k].slot := p[k].frame])
  {
    var q := p[k := p[k].(done := true)];
    var b := buffers[p[k].slot := p[k].frame];
    forall j | 0 <= j < |q| && q[j].Scheduled? && q[j].done
      ensures q[j].slot in b && b[q[j].slot] == q[j].frame
    {
      if j < k {
        PendingSlotsDistinct(vacant, p, instances, j, k);
      } else if j > k {
        PendingSlotsDistinct(vacant, p, instances, k, j);
      }
    }
  }

  lemma MarkKeepsSentinelLast(p: seq<Entry>, k: nat)
    requires SentinelLast(p) && k < |p| && p[k].Scheduled?
    ensures SentinelLast(p[k := p[k].(done := true)])
    ensures HasSentinel(p[k := p[k].(done := true)]) <==> HasSentinel(p)
  {
  }

  // ----- Each step keeps the invariant -----

  lemma StartKeepsInv(instances: nat)
    ensures Inv(Start(instances))
  {
    var s := Start(instances);
    assert s.vacant + SlotsOf(s.pending) == Iota(instances);
  }

  lemma ProducerEndKeepsInv(s: State)
    requires Inv(s) && s.phase == Reading
    ensures Inv(s.(callbacks := s.callbacks + [s.nextFrame], pending := s.pending + [EndOfStream], phase := Finished))
  {
    assert Iota(s.nextFrame + 1) == Iota(s.nextFrame) + [s.nextFrame];
    EndKeepsSlots(s.vacant, s.pending, s.instances);
    AppendKeepsSentinelLast(s.pending, EndOfStream);
    AppendKeepsDoneBuffered(s.pending, s.buffers, EndOfStream);
    EndKeepsFrames(s.pending);
  }

  /** The state after the producer schedules its frame on the front
      vacant slot. */
  function Launched(s: State): State
    requires s.vacant != []
  {
    var f := s.nextFrame;
    s.(callbacks := s.callbacks + [f], vacant := s.vacant[1..], pending := s.pending + [Scheduled(s.vacant[0], f, false)],
       submitted := s.submitted + [f], nextFrame := f + 1)
  }

  lemma LaunchKeepsQueues(s: State)
    requires Inv(s) && s.phase == Reading && Capacity(s)
    ensures SlotsConserved(Launched(s).vacant, Launched(s).pending, s.instances)
    ensures SentinelLast(Launched(s).pending) && !HasSentinel(Launched(s).pending)
    ensures DoneBuffered(Launched(s).pending, s.buffers)
  {
    var e := Scheduled(s.vacant[0], s.nextFrame, false);
    TakeVacantKeepsSlots(s.vacant, s.pending, s.instances, s.nextFrame);
    AppendKeepsSentinelLast(s.pending, e);
    AppendKeepsDoneBuffered(s.pending, s.buffers, e);
  }

  lemma LaunchKeepsLogs(s: State)
    requires Inv(s) && s.phase == Reading && Capacity(s)
    ensures Launched(s).output + FramesOf(Launched(s).pending) == Launched(s).submitted
    ensures StrictlyIncreasing(Launched(s).submitted) && FramesBelow(Launched(s).submitted, Launched(s).nextFrame)
    ensures Launched(s).callbacks == Iota(Launched(s).nextFrame)
  {
    var f := s.nextFrame;
    assert Iota(f + 1) == Iota(f) + [f];
    ScheduleKeepsFrames(s.pending, s.vacant[0], f);
    AppendFrame(s.submitted, f);
  }

  lemma ProducerScheduleKeepsInv(s: State)
    requires Inv(s) && s.phase == Reading && Capacity(s)
    ensures Inv(s.(callbacks := s.callbacks + [s.nextFrame], vacant := s.vacant[1..],
                   pending := s.pending + [Scheduled(s.vacant[0], s.nextFrame, false)],
                   submitted := s.submitted + [s.nextFrame], nextFrame := s.nextFrame + 1))
  {
    LaunchKeepsQueues(s);
    LaunchKeepsLogs(s);
    assert Inv(Launched(s));
  }

  lemma ProducerKeepsInv(s: State, callbackOk: bool, readOk: bool)
    requires Inv(s)
    ensures Inv(ProducerStep(s, callbackOk, readOk))
  {
    if s.phase == Reading {
      if !readOk || !callbackOk {
        ProducerEndKeepsInv(s);
      } else if Capacity(s) {
        ProducerScheduleKeepsInv(s);
      }
    }
  }

  lemma WakeKeepsInv(s: State)
    requires Inv(s)
    ensures Inv(WakeStep(s))
  {
  }

  lemma CompleteKeepsInv(s: State, slot: nat)
    requires Inv(s)
    ensures Inv(CompleteUnit(s, slot))
  {
    var k := FindRunning(s.pending, slot);
    if k < |s.pending| {
      MarkDone(s.pending, k);
      MarkKeepsDoneBuffered(s.vacant, s.pending, s.instances, s.buffers, k);
      MarkKeepsSentinelLast(s.pending, k);
    }
  }

  lemma ConsumerEndKeepsInv(s: State)
    requires Inv(s) && !s.drained && s.pending != [] && s.pending[0].EndOfStream?
    ensures Inv(s.(pending := s.pending[1..], drained := true))
  {
    assert s.pending == [EndOfStream];
    assert FramesOf(s.pending) == [];
    assert SlotsOf(s.pending) == [];
  }

  /** The state after the consumer writes the finished head task. */
  function Written(s: State): State
    requires s.pending != [] && s.pending[0].Scheduled? && s.pending[0].done
  {
    var head := s.pending[0];
    s.(pending := s.pending[1..], vacant := s.vacant + [head.slot], output := s.output + [head.frame])
  }

  lemma WriteKeepsQueues(s: State)
    requires Inv(s) && !s.drained && s.pending != [] && s.pending[0].Scheduled? && s.pending[0].done
    ensures SlotsConserved(Written(s).vacant, Written(s).pending, s.instances)
    ensures SentinelLast(Written(s).pending)
    ensures HasSentinel(Written(s).pending) <==> s.phase == Finished
    ensures DoneBuffered(Written(s).pending, s.buffers)
  {
    ReturnSlotKeepsSlots(s.vacant, s.pending, s.instances);
    PopKeepsSentinelLast(s.pending);
    PopKeepsDoneBuffered(s.pending, s.buffers);
  }

  lemma WriteKeepsLogs(s: State)
    requires Inv(s) && !s.drained && s.pending != [] && s.pending[0].Scheduled? && s.pending[0].done
    ensures Written(s).output + FramesOf(Written(s).pending) == s.submitted
  {
    var head := s.pending[0];
    assert FramesOf(s.pending) == [head.frame] + FramesOf(s.pending[1..]);
  }

  lemma ConsumerWriteKeepsInv(s: State)
    requires Inv(s) && !s.drained && s.pending != [] && s.pending[0].Scheduled? && s.pending[0].done
    ensures s.pending[0].slot in s.buffers
    ensures Inv(s.(pending := s.pending[1..], vacant := s.vacant + [s.pending[0].slot],
                   output := s.output + [s.buffers[s.pending[0].slot]]))
  {
    var head := s.pending[0];
    assert s.buffers[head.slot] == head.frame;
    WriteKeepsQueues(s);
    WriteKeepsLogs(s);
    var r := Written(s);
    assert Inv(r);
  }

  lemma ConsumerKeepsInv(s: State)
    requires Inv(s)
    ensures HeadBuffered(s)
    ensures Inv(ConsumerStep(s))
  {
    if !s.drained && s.pending != [] {
      if s.pending[0].EndOfStream? {
        ConsumerEndKeepsInv(s);
      } else if s.pending[0].done {
        ConsumerWriteKeepsInv(s);
      }
    }
  }

  // ----- Runs -----

  /** What can happen next: a producer iteration with the callback's answer
      (always `true` when `run` is given no callback) and the read's success, the producer waking, a task finishing on a
      slot, or a consumer iteration. */
  datatype Event = Produce(callbackOk: bool, readOk: bool) | Wake | Complete(slot: nat) | Consume

  function Step(s: State, e: Event): State
    requires HeadBuffered(s)
  {
    match e
    case Produce(callbackOk, readOk) => ProducerStep(s, callbackOk, readOk)
    case Wake => WakeStep(s)
    case Complete(slot) => CompleteUnit(s, slot)
    case Consume => ConsumerStep(s)
  }

  /** Every step keeps the invariant. */
  lemma StepKeepsInv(s: State, e: Event)
    requires Inv(s)
    ensures HeadBuffered(s)
    ensures Inv(Step(s, e))
  {
    ConsumerKeepsInv(s);
    match e
    case Produce(callbackOk, readOk) => ProducerKeepsInv(s, callbackOk, readOk);
    case Wake => WakeKeepsInv(s);
    case Complete(slot) => CompleteKeepsInv(s, slot);
    case Consume =>
  }

  /** No step takes back a frame handed to an upscaler or written out. */
  lemma StepGrowsLogs(s: State, e: Event)
    requires HeadBuffered(s)
    ensures s.output <= Step(s, e).output && s.submitted <= Step(s, e).submitted
  {
  }

  /** The state after the events, in order. Whatever the order in which
      tasks finish, the output is a prefix of the submitted frames, and
      both logs only grow. */
  function Run(s: State, events: seq<Event>): (r: State)
    requires Inv(s)
    ensures Inv(r)
    ensures r.output <= r.submitted
    ensures r.drained ==> r.output == r.submitted
    ensures s.output <= r.output && s.submitted <= r.submitted
    decreases |events|
  {
    if events == [] then s
    else
      StepKeepsInv(s, events[0]);
      StepGrowsLogs(s, events[0]);
      Run(Step(s, events[0]), events[1..])
  }
}
