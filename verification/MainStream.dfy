/** The leaky queue of encoded frames (src/media/stream/MainStream.cpp). Every method holds the lock throughout, so
    it is one atomic step; waitFrame is split where it sleeps. */
module MainStream {
  import opened Foundation
  import opened Bytes

  datatype Codec = H264 | H265 | MotionJpeg

  datatype EncodedFrame = EncodedFrame(codec: Codec, data: seq<byte>, ptsMs: int, keyFrame: bool, sequence: nat)

  datatype Stream = Stream(
    running: bool, lowLatency: bool, capacity: nat, frames: seq<EncodedFrame>,
    framesIn: nat, framesDropped: nat, lastPtsMs: int)

  /** A stream object before its first init. */
  const FRESH := Stream(false, true, 30, [], 0, 0, 0)

  // ---------------------------------------------------------------- the steps

  function InitStep(lowLatency: bool, fps: int): Stream {
    var fps32 := fps % 0x1_0000_0000;
    var capacity := if lowLatency then 1 else if fps32 == 0 then 30 else fps32;
    Stream(false, lowLatency, capacity, [], 0, 0, 0)
  }

  /** Pushes go in at the back; as many frames leave at the front as the capacity asks for. */
  function PushStep(s: Stream, f: EncodedFrame): (Result<Unit>, Stream)
    requires s.capacity >= 1
  {
    if !s.running then (Err(MainStreamNotReady), s)
    else
      var dropped: nat := if |s.frames| >= s.capacity then |s.frames| + 1 - s.capacity else 0;
      (Ok(Unit.Unit),
       s.(frames := s.frames[dropped..] + [f], framesIn := s.framesIn + 1,
          framesDropped := s.framesDropped + dropped, lastPtsMs := f.ptsMs))
  }

  /** What waitFrame does once its wait is over. */
  function TakeStep(s: Stream): (Option<EncodedFrame>, Stream) {
    if s.frames == [] then (None, s)
    else
      var skip := if s.lowLatency then |s.frames| - 1 else 0;
      (Some(s.frames[skip]), s.(frames := s.frames[skip + 1..], framesDropped := s.framesDropped + skip))
  }

  /** The condition waitFrame waits for. */
  predicate Ready(s: Stream) { !s.running || s.frames != [] }

  class MainStream {
    var running: bool
    var lowLatency: bool
    var capacity: nat
    var frames: seq<EncodedFrame>
    var framesIn: nat
    var framesDropped: nat
    var lastPtsMs: int

    function View(): Stream
      reads this
    {
      Stream(running, lowLatency, capacity, frames, framesIn, framesDropped, lastPtsMs)
    }

    constructor ()
      ensures View() == FRESH
    {
      running, lowLatency, capacity, frames := false, true, 30, [];
      framesIn, framesDropped, lastPtsMs := 0, 0, 0;
    }

    method Init(lowLatency: bool, fps: int)
      modifies this
      ensures View() == InitStep(lowLatency, fps)
    {
      this.lowLatency := lowLatency;
      var profileFps := fps % 0x1_0000_0000;
      if lowLatency {
        capacity := 1;
      } else {
        capacity := if profileFps == 0 then 30 else profileFps;
      }
      framesIn, framesDropped, lastPtsMs := 0, 0, 0;
      frames := [];
      running := false;
    }

    method Start()
      modifies this
      ensures View() == old(View()).(running := true)
    {
      running := true;
    }

    method Stop()
      modifies this
      ensures View() == old(View()).(running := false)
    {
      running := false;
    }

    method Clear()
      modifies this
      ensures View() == old(View()).(frames := [])
    {
      frames := [];
    }

    method Push(frame: EncodedFrame) returns (r: Result<Unit>)
      requires capacity >= 1
      modifies this
      ensures (r, View()) == PushStep(old(View()), frame)
    {
      if !running { return Err(MainStreamNotReady); }
      while |frames| >= capacity
        invariant |frames| <= |old(frames)| && frames == old(frames)[|old(frames)| - |frames|..]
        invariant |frames| >= Min(|old(frames)|, capacity - 1)
        invariant framesDropped - old(framesDropped) == |old(frames)| - |frames|
        invariant unchanged(`running, `lowLatency, `capacity, `framesIn, `lastPtsMs)
      {
        frames := frames[1..];
        framesDropped := framesDropped + 1;
      }
      lastPtsMs := frame.ptsMs;
      framesIn := framesIn + 1;
      frames := frames + [frame];
      return Ok(Unit.Unit);
    }

    method TakeFrame() returns (r: Option<EncodedFrame>)
      modifies this
      ensures (r, View()) == TakeStep(old(View()))
    {
      if frames == [] { return None; }
      if lowLatency && |frames| > 1 {
        var dropped := |frames| - 1;
        while |frames| > 1
          invariant 1 <= |frames| <= |old(frames)| && frames == old(frames)[|old(frames)| - |frames|..]
          invariant unchanged(`running, `lowLatency, `capacity, `framesIn, `framesDropped, `lastPtsMs)
        {
          frames := frames[1..];
        }
        framesDropped := framesDropped + dropped;
      }
      r := Some(frames[0]);
      frames := frames[1..];
    }

    method LatestFrame() returns (r: Option<EncodedFrame>)
      ensures r == if frames == [] then None else Some(frames[|frames| - 1])
    {
      if frames == [] { return None; }
      return Some(frames[|frames| - 1]);
    }
  }

  // ---------------------------------------------------------------- whole runs, any interleaving

  /** The stream with what happened since the last init: all pushed frames, the positions in them of the delivered
      ones, and how many frames clear threw away. */
  datatype History = History(
    stream: Stream, pushed: seq<EncodedFrame>, delivered: seq<nat>, out: seq<EncodedFrame>, cleared: nat)

  /** The waiting threads: asleep, or woken and about to look at the condition again. */
  datatype Monitor = Monitor(history: History, sleeping: set<nat>, woken: set<nat>)

  const IDLE := Monitor(History(FRESH, [], [], [], 0), {}, {})

  /** Wait is a thread's call of waitFrame up to its first sleep, Resume its next turn after a wake-up (notified or
      spurious), Expire the end of a timed wait. */
  datatype Op =
    | Init(lowLatency: bool, fps: int)
    | Start
    | Stop
    | Clear
    | Push(frame: EncodedFrame)
    | Wait(id: nat)
    | Resume(id: nat)
    | Expire(id: nat)

  function Take(h: History): History {
    var (r, s) := TakeStep(h.stream);
    if r.None? || |h.stream.frames| > |h.pushed| then h.(stream := s)
    else h.(stream := s, delivered := h.delivered + [|h.pushed| - |s.frames| - 1], out := h.out + [r.value])
  }

  function PushTo(h: History, f: EncodedFrame): History
    requires h.stream.capacity >= 1
  {
    var (r, s) := PushStep(h.stream, f);
    if r.Err? then h else h.(stream := s, pushed := h.pushed + [f])
  }

  function WakeAll(m: Monitor): Monitor { m.(sleeping := {}, woken := m.woken + m.sleeping) }

  function Leave(m: Monitor, id: nat): Monitor { m.(sleeping := m.sleeping - {id}, woken := m.woken - {id}) }

  function Sleep(m: Monitor, id: nat): Monitor { m.(sleeping := m.sleeping + {id}, woken := m.woken - {id}) }

  function Step(m: Monitor, op: Op): Monitor
    requires m.history.stream.capacity >= 1
  {
    var h := m.history;
    match op
    case Init(lowLatency, fps) => m.(history := History(InitStep(lowLatency, fps), [], [], [], 0))
    case Start => m.(history := h.(stream := h.stream.(running := true)))
    case Stop => WakeAll(m.(history := h.(stream := h.stream.(running := false))))
    case Clear => m.(history := h.(stream := h.stream.(frames := []), cleared := h.cleared + |h.stream.frames|))
    case Push(f) =>
      var m' := m.(history := PushTo(h, f));
      if h.stream.running then WakeAll(m') else m'
    case Wait(id) =>
      if id in m.sleeping + m.woken then m
      else if Ready(h.stream) then m.(history := Take(h))
      else Sleep(m, id)
    case Resume(id) =>
      if id !in m.sleeping + m.woken then m
      else if Ready(h.stream) then Leave(m, id).(history := Take(h))
      else Sleep(m, id)
    case Expire(id) =>
      if id !in m.sleeping + m.woken then m else Leave(m, id).(history := Take(h))
  }

  /** `out` holds the frames at strictly increasing positions below `bound`. */
  predicate InOrder(positions: seq<nat>, out: seq<EncodedFrame>, pushed: seq<EncodedFrame>, bound: nat) {
    && bound <= |pushed| && |positions| == |out|
    && (forall k :: 0 <= k < |positions| ==> positions[k] < bound && out[k] == pushed[positions[k]])
    && (forall j, k :: 0 <= j < k < |positions| ==> positions[j] < positions[k])
  }

  /** The queue is the tail of what was pushed, within its capacity; delivered frames are pushed frames in push
      order, none twice and none still queued; and every frame counted in is delivered, dropped, cleared or
      queued. */
  predicate Accounted(h: History) {
    var s := h.stream;
    && 1 <= s.capacity && |s.frames| <= s.capacity
    && IsTail(s.frames, h.pushed)
    && s.framesIn == |h.pushed| == |h.delivered| + s.framesDropped + h.cleared + |s.frames|
    && s.lastPtsMs == (if h.pushed == [] then 0 else h.pushed[|h.pushed| - 1].ptsMs)
    && InOrder(h.delivered, h.out, h.pushed, |h.pushed| - |s.frames|)
  }

  lemma TakeAccounted(h: History)
    requires Accounted(h)
    ensures Accounted(Take(h))
  {
    if h.stream.frames != [] {
      var left := |Take(h).stream.frames|;
      assert h.pushed[|h.pushed| - left - 1] == h.stream.frames[|h.stream.frames| - left - 1];
    }
  }

  lemma PushAccounted(h: History, f: EncodedFrame)
    requires Accounted(h)
    ensures Accounted(PushTo(h, f))
  {
    var s := PushStep(h.stream, f).1;
    if h.stream.running {
      assert h.pushed[|h.pushed| - (|s.frames| - 1)..] + [f] == (h.pushed + [f])[|h.pushed| + 1 - |s.frames|..];
    }
  }

  lemma ClearAccounted(h: History)
    requires Accounted(h)
    ensures Accounted(h.(stream := h.stream.(frames := []), cleared := h.cleared + |h.stream.frames|))
  {
    assert IsTail([], h.pushed);
    hide IsTail;
  }

  lemma InitAccounted(lowLatency: bool, fps: int)
    ensures Accounted(History(InitStep(lowLatency, fps), [], [], [], 0))
  {
  }

  lemma RunningAccounted(h: History, running: bool)
    requires Accounted(h)
    ensures Accounted(h.(stream := h.stream.(running := running)))
  {
  }

  lemma StepAccounted(m: Monitor, op: Op)
    requires Accounted(m.history)
    ensures Accounted(Step(m, op).history)
  {
    match op {
      case Push(f) => PushAccounted(m.history, f);
      case Wait(_) => TakeAccounted(m.history);
      case Resume(_) => TakeAccounted(m.history);
      case Expire(_) => TakeAccounted(m.history);
      case Init(lowLatency, fps) => InitAccounted(lowLatency, fps);
      case Clear => ClearAccounted(m.history);
      case Start => RunningAccounted(m.history, true);
      case Stop => RunningAccounted(m.history, false);
    }
    hide Accounted, Take, PushTo, InitStep;
  }

  /** The state after a list of steps, in any order and by any threads. */
  ghost function Run(ops: seq<Op>): (m: Monitor)
    ensures Accounted(m.history)
  {
    if ops == [] then IDLE
    else
      var before := Run(ops[..|ops| - 1]);
      StepAccounted(before, ops[|ops| - 1]);
      Step(before, ops[|ops| - 1])
  }

  /** A low-latency stream hands out the newest frame pushed and keeps none; otherwise it hands out the oldest
      frame still queued. */
  lemma DeliveredFrame(h: History)
    requires Accounted(h) && h.stream.frames != []
    ensures var h', n := Take(h), |h.pushed|;
            var position := if h.stream.lowLatency then n - 1 else n - |h.stream.frames|;
            && h'.delivered == h.delivered + [position]
            && h'.out == h.out + [h.pushed[position]]
            && h'.stream.frames == h.pushed[position + 1..]
            && TakeStep(h.stream).0 == Some(h.pushed[position])
  {
    assert h.pushed[|h.pushed| - 1] == h.stream.frames[|h.stream.frames| - 1];
    assert h.pushed[|h.pushed| - |h.stream.frames|] == h.stream.frames[0];
  }

  /** A push on a stream that does not run is refused and changes nothing. On a running one it drops a frame only when
      the queue is full, and then just the oldest. */
  lemma PushDropsOldest(h: History, f: EncodedFrame)
    requires Accounted(h)
    ensures var s, s' := h.stream, PushTo(h, f).stream;
            var room := |s.frames| < s.capacity;
            && (PushStep(s, f).0 == if s.running then Ok(Unit.Unit) else Err(MainStreamNotReady))
            && (!s.running ==> PushTo(h, f) == h)
            && (s.running ==>
                  && s' == s.(frames := s'.frames, framesIn := s.framesIn + 1, lastPtsMs := f.ptsMs,
                              framesDropped := s.framesDropped + if room then 0 else 1)
                  && s'.frames == (if room then s.frames else s.frames[1..]) + [f])
  {
  }

  /** A 32-bit frame rate, as the configuration holds it. */
  type FrameRate = n: int | -0x8000_0000 <= n < 0x8000_0000

  /** After init a low-latency stream holds one frame, any other as many as the frame rate, taken as unsigned, or 30
      for none; it is empty, stopped and counts from nothing. */
  lemma InitSetsCapacity(lowLatency: bool, fps: FrameRate)
    ensures var s := InitStep(lowLatency, fps);
            && s.lowLatency == lowLatency && !s.running && s.frames == []
            && s.framesIn == 0 && s.framesDropped == 0 && s.lastPtsMs == 0
            && s.capacity == (if lowLatency then 1
                              else if fps == 0 then 30
                              else if fps > 0 then fps else fps + 0x1_0000_0000)
  {
  }

  /** A wait that ends without a frame changes nothing. */
  lemma NothingToTake(h: History)
    requires h.stream.frames == []
    ensures TakeStep(h.stream).0 == None && Take(h) == h
  {
  }

  // ---------------------------------------------------------------- wake-ups

  /** Nobody sleeps although the condition waited for holds. */
  predicate NoLostWakeup(m: Monitor) { m.sleeping != {} ==> !Ready(m.history.stream) }

  /** Every step keeps that, except init under a sleeping thread: it makes the stream Stopped without notifying. */
  lemma StepWakes(m: Monitor, op: Op)
    requires Accounted(m.history) && NoLostWakeup(m)
    ensures NoLostWakeup(Step(m, op)) <==> !(op.Init? && m.sleeping != {})
  {
    if op.Resume? || op.Expire? {
      assert m.sleeping - {op.id} <= m.sleeping;
    }
  }

  /** Init is never called while a thread sleeps. */
  ghost predicate InitsWhileNobodySleeps(ops: seq<Op>) {
    ops != [] ==>
      var front := ops[..|ops| - 1];
      InitsWhileNobodySleeps(front) && (ops[|ops| - 1].Init? ==> Run(front).sleeping == {})
  }

  /** No wake-up was lost at any point of the run. */
  ghost predicate NeverLost(ops: seq<Op>) {
    NoLostWakeup(Run(ops)) && (ops != [] ==> NeverLost(ops[..|ops| - 1]))
  }

  /** No wake-up is lost at any point of a run if and only if its inits find nobody asleep. */
  lemma {:induction false} RunWakes(ops: seq<Op>)
    ensures NeverLost(ops) <==> InitsWhileNobodySleeps(ops)
  {
    if ops == [] {
      assert Run(ops).sleeping == {};
    } else {
      var front, last := ops[..|ops| - 1], ops[|ops| - 1];
      RunWakes(front);
      if NeverLost(front) {
        assert NoLostWakeup(Run(front));
        StepWakes(Run(front), last);
      }
      hide Accounted, NoLostWakeup, Step;
    }
  }

  /** A reader asleep on a running, empty stream is not woken by a second init, although its condition now holds;
      the next stop does wake it. */
  lemma InitLosesWakeup()
    ensures var m := Step(Step(Step(IDLE, Start), Wait(7)), Init(true, 25));
            7 in m.sleeping && Ready(m.history.stream) && Step(m, Stop).sleeping == {}
  {
    assert Step(Step(IDLE, Start), Wait(7)).sleeping == {7};
  }
}
