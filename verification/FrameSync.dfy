/** Pairing of visible and composite frames by nearest timestamp (src/media/frame/FrameSync.cpp). Each method holds
    the lock throughout, so it is one atomic step. */
module FrameSync {
  import opened Foundation

  /** A frame, as far as pairing looks at it; `sequence` stands for its contents. */
  datatype VideoFrame = VideoFrame(ptsMs: int, sequence: nat)

  datatype SyncedGroup = SyncedGroup(visible: VideoFrame, composite: VideoFrame, deltaMs: int)

  datatype Queues = Queues(maxDeltaMs: int, capacity: nat, visible: seq<VideoFrame>, composite: seq<VideoFrame>)

  function Delta(a: VideoFrame, b: VideoFrame): int { Abs(a.ptsMs - b.ptsMs) }

  /** The timestamps are at most `limit` milliseconds apart. */
  predicate Within(a: VideoFrame, b: VideoFrame, limit: int) { -limit <= a.ptsMs - b.ptsMs <= limit }

  /** `a` is at most as far from `v` as `b` is. */
  predicate AtLeastAsNear(v: VideoFrame, a: VideoFrame, b: VideoFrame) {
    Within(v, a, b.ptsMs - v.ptsMs) || Within(v, a, v.ptsMs - b.ptsMs)
  }

  /** The first of the frames at least distance. */
  predicate IsFirstNearest(v: VideoFrame, c: seq<VideoFrame>, i: nat) {
    && i < |c|
    && (forall j :: 0 <= j < |c| ==> AtLeastAsNear(v, c[i], c[j]))
    && (forall j :: 0 <= j < i ==> !AtLeastAsNear(v, c[j], c[i]))
  }

  function Nearest(v: VideoFrame, c: seq<VideoFrame>): (i: nat)
    requires c != []
    ensures IsFirstNearest(v, c, i)
  {
    if |c| == 1 then 0
    else
      var front, last := c[..|c| - 1], |c| - 1;
      var best := Nearest(v, front);
      assert forall j :: 0 <= j < last ==> front[j] == c[j];
      if Delta(v, c[last]) < Delta(v, c[best]) then last else best
  }

  lemma NearestOfFirst(v: VideoFrame, c: seq<VideoFrame>)
    requires c != []
    ensures Nearest(v, c[..1]) == 0 && c[..|c|] == c
  {
  }

  lemma NearestNext(v: VideoFrame, c: seq<VideoFrame>, i: nat)
    requires 0 < i < |c|
    ensures var best := Nearest(v, c[..i]);
            best < i && Nearest(v, c[..i + 1]) == if Delta(v, c[i]) < Delta(v, c[best]) then i else best
  {
    assert c[..i + 1][..i] == c[..i];
  }

  // ---------------------------------------------------------------- the steps

  function Trim(q: seq<VideoFrame>, capacity: nat): seq<VideoFrame> {
    if |q| > capacity then q[|q| - capacity..] else q
  }

  function PushVisibleStep(s: Queues, f: VideoFrame): Queues {
    s.(visible := Trim(s.visible + [f], s.capacity))
  }

  function PushCompositeStep(s: Queues, f: VideoFrame): Queues {
    s.(composite := Trim(s.composite + [f], s.capacity))
  }

  function ClearStep(s: Queues): Queues { s.(visible := [], composite := []) }

  function TrySyncStep(s: Queues): (Option<SyncedGroup>, Queues) {
    if s.visible == [] || s.composite == [] then (None, s)
    else
      var v := s.visible[0];
      var best := Nearest(v, s.composite);
      var delta := Delta(v, s.composite[best]);
      if delta > s.maxDeltaMs then
        if v.ptsMs < s.composite[0].ptsMs then (None, s.(visible := s.visible[1..]))
        else (None, s.(composite := s.composite[1..]))
      else
        (Some(SyncedGroup(v, s.composite[best], delta)),
         s.(visible := s.visible[1..], composite := s.composite[best + 1..]))
  }

  /** The search loop over the queued composites. */
  method FindNearest(v: VideoFrame, composite: seq<VideoFrame>) returns (bestIndex: nat, bestDelta: int)
    requires composite != []
    ensures bestIndex == Nearest(v, composite)
    ensures bestDelta == Delta(v, composite[bestIndex])
  {
    hide *;
    bestIndex := 0;
    bestDelta := Delta(v, composite[0]);
    NearestOfFirst(v, composite);
    for i := 1 to |composite|
      invariant bestIndex == Nearest(v, composite[..i])
      invariant bestIndex < i && bestDelta == Delta(v, composite[bestIndex])
    {
      NearestNext(v, composite, i);
      var delta := Delta(v, composite[i]);
      if delta < bestDelta {
        bestDelta := delta;
        bestIndex := i;
      }
    }
  }

  class FrameSync {
    const maxDeltaMs: int
    const capacity: nat
    var visible: seq<VideoFrame>
    var composite: seq<VideoFrame>

    function View(): Queues
      reads this
    {
      Queues(maxDeltaMs, capacity, visible, composite)
    }

    constructor (maxDeltaMs: int, capacity: nat)
      ensures View() == Queues(maxDeltaMs, Max(capacity, 1), [], [])
    {
      this.maxDeltaMs := maxDeltaMs;
      this.capacity := if capacity == 0 then 1 else capacity;
      visible, composite := [], [];
    }

    method TrimQueue(q: seq<VideoFrame>) returns (t: seq<VideoFrame>)
      ensures t == Trim(q, capacity)
    {
      t := q;
      while |t| > capacity
        invariant Min(capacity, |q|) <= |t| <= |q|
        invariant t == q[|q| - |t|..]
      {
        t := t[1..];
      }
    }

    method PushVisible(frame: VideoFrame)
      modifies this
      ensures View() == PushVisibleStep(old(View()), frame)
    {
      visible := TrimQueue(visible + [frame]);
    }

    method PushComposite(frame: VideoFrame)
      modifies this
      ensures View() == PushCompositeStep(old(View()), frame)
    {
      composite := TrimQueue(composite + [frame]);
    }

    method TrySync() returns (r: Option<SyncedGroup>)
      modifies this
      ensures (r, View()) == TrySyncStep(old(View()))
    {
      hide Nearest, Delta;
      if visible == [] || composite == [] { return None; }
      var bestIndex, bestDelta := FindNearest(visible[0], composite);
      if bestDelta > maxDeltaMs {
        if visible[0].ptsMs < composite[0].ptsMs {
          visible := visible[1..];
        } else {
          composite := composite[1..];
        }
        return None;
      }
      r := Some(SyncedGroup(visible[0], composite[bestIndex], bestDelta));
      visible := visible[1..];
      composite := composite[bestIndex + 1..];
    }

    method Clear()
      modifies this
      ensures View() == ClearStep(old(View()))
    {
      visible := [];
      composite := [];
    }
  }

  // ---------------------------------------------------------------- whole runs

  datatype Op = PushVisibleOp(frame: VideoFrame) | PushCompositeOp(frame: VideoFrame) | TrySyncOp | ClearOp

  /** A state with what led to it: all pushes of each side, the positions in them of the emitted frames, and how
      many frames each side has discarded by trimming, mismatch, overtaking or clearing. For each group, `offered`
      tells from which to which position the pushed composites were queued then. */
  datatype History = History(
    queues: Queues, pushedVisible: seq<VideoFrame>, pushedComposite: seq<VideoFrame>,
    emittedVisible: seq<nat>, emittedComposite: seq<nat>, groups: seq<SyncedGroup>, offered: seq<(nat, nat)>,
    discardedVisible: nat, discardedComposite: nat)

  function Start(maxDeltaMs: int, capacity: nat): History {
    History(Queues(maxDeltaMs, Max(capacity, 1), [], []), [], [], [], [], [], [], 0, 0)
  }

  function Step(h: History, op: Op): History
  {
    var q := h.queues;
    match op
    case PushVisibleOp(f) =>
      h.(queues := PushVisibleStep(q, f), pushedVisible := h.pushedVisible + [f],
         discardedVisible :=
           h.discardedVisible + if |q.visible| + 1 > q.capacity then |q.visible| + 1 - q.capacity else 0)
    case PushCompositeOp(f) =>
      h.(queues := PushCompositeStep(q, f), pushedComposite := h.pushedComposite + [f],
         discardedComposite :=
           h.discardedComposite + if |q.composite| + 1 > q.capacity then |q.composite| + 1 - q.capacity else 0)
    case ClearOp =>
      h.(queues := ClearStep(q), discardedVisible := h.discardedVisible + |q.visible|,
         discardedComposite := h.discardedComposite + |q.composite|)
    case TrySyncOp =>
      if q.visible == [] || q.composite == [] then h
      else if TrySyncStep(q).0.None? then DiscardFrom(h)
      else EmitFrom(h, Nearest(q.visible[0], q.composite), TrySyncStep(q).0.value)
  }

  function DiscardFrom(h: History): History
    requires h.queues.visible != [] && h.queues.composite != []
  {
    var q := h.queues;
    if q.visible[0].ptsMs < q.composite[0].ptsMs then
      h.(queues := TrySyncStep(q).1, discardedVisible := h.discardedVisible + 1)
    else
      h.(queues := TrySyncStep(q).1, discardedComposite := h.discardedComposite + 1)
  }

  /** The visible head and the composite at place `best` leave as a group. */
  function EmitFrom(h: History, best: nat, g: SyncedGroup): History {
    var q := h.queues;
    var c := FirstQueued(h.pushedComposite, q.composite);
    h.(queues := TrySyncStep(q).1, groups := h.groups + [g], offered := h.offered + [(c, |h.pushedComposite|)],
       emittedVisible := h.emittedVisible + [FirstQueued(h.pushedVisible, q.visible)],
       emittedComposite := h.emittedComposite + [c + best],
       discardedComposite := h.discardedComposite + best)
  }

  /** The position among all pushes of the frame at the head of the queue. */
  function FirstQueued(pushed: seq<VideoFrame>, queue: seq<VideoFrame>): nat {
    if |queue| <= |pushed| then |pushed| - |queue| else 0
  }

  function Run(h: History, ops: seq<Op>): History {
    if ops == [] then h else Step(Run(h, ops[..|ops| - 1]), ops[|ops| - 1])
  }

  predicate Increasing(s: seq<nat>, bound: nat) {
    && (forall k :: 0 <= k < |s| ==> s[k] < bound)
    && (forall j, k :: 0 <= j < k < |s| ==> s[j] < s[k])
  }

  /** One side: the queue is within capacity and is what is left of the pushes, emitted frames are pushed frames in
      order, none twice and none still queued, and every push is emitted, discarded or queued. */
  predicate SideAccounted(queue: seq<VideoFrame>, capacity: nat, pushed: seq<VideoFrame>, emitted: seq<nat>,
                          discarded: nat) {
    && |queue| <= capacity && IsTail(queue, pushed)
    && Increasing(emitted, |pushed| - |queue|)
    && |pushed| == |emitted| + discarded + |queue|
  }

  /** The composite at `position` is the first nearest of those queued when it was chosen. */
  predicate NearestOffered(v: VideoFrame, pushed: seq<VideoFrame>, offered: (nat, nat), position: nat) {
    && offered.0 <= position < offered.1 <= |pushed|
    && IsFirstNearest(v, pushed[offered.0..offered.1], position - offered.0)
  }

  /** A group holds the frames at its two positions, its distance is within the limit, and its composite was the
      first nearest of those queued. */
  predicate Paired(limit: int, visibles: seq<VideoFrame>, composites: seq<VideoFrame>, v: nat, c: nat, g: SyncedGroup,
                   offered: (nat, nat)) {
    && v < |visibles| && g.visible == visibles[v]
    && c < |composites| && g.composite == composites[c]
    && Within(g.visible, g.composite, limit)
    && (g.deltaMs == g.visible.ptsMs - g.composite.ptsMs || g.deltaMs == g.composite.ptsMs - g.visible.ptsMs)
    && g.deltaMs >= 0
    && NearestOffered(g.visible, composites, offered, c)
  }

  predicate AllPaired(limit: int, visibles: seq<VideoFrame>, composites: seq<VideoFrame>, v: seq<nat>, c: seq<nat>,
                      groups: seq<SyncedGroup>, offered: seq<(nat, nat)>) {
    && |groups| == |v| == |c| == |offered|
    && forall k :: 0 <= k < |groups| ==> Paired(limit, visibles, composites, v[k], c[k], groups[k], offered[k])
  }

  /** Both sides are accounted for, and every group was rightly made. */
  predicate Accounted(h: History) {
    var q := h.queues;
    && q.capacity >= 1
    && SideAccounted(q.visible, q.capacity, h.pushedVisible, h.emittedVisible, h.discardedVisible)
    && SideAccounted(q.composite, q.capacity, h.pushedComposite, h.emittedComposite, h.discardedComposite)
    && AllPaired(q.maxDeltaMs, h.pushedVisible, h.pushedComposite, h.emittedVisible, h.emittedComposite, h.groups,
                 h.offered)
  }

  lemma SidePush(queue: seq<VideoFrame>, capacity: nat, pushed: seq<VideoFrame>, emitted: seq<nat>, discarded: nat,
                 f: VideoFrame)
    requires SideAccounted(queue, capacity, pushed, emitted, discarded)
    ensures var over: nat := if |queue| + 1 > capacity then |queue| + 1 - capacity else 0;
            SideAccounted(Trim(queue + [f], capacity), capacity, pushed + [f], emitted, discarded + over)
  {
    assert queue + [f] == (pushed + [f])[|pushed| - |queue|..];
  }

  lemma SideDrop(queue: seq<VideoFrame>, capacity: nat, pushed: seq<VideoFrame>, emitted: seq<nat>, discarded: nat,
                 n: nat)
    requires SideAccounted(queue, capacity, pushed, emitted, discarded) && n <= |queue|
    ensures SideAccounted(queue[n..], capacity, pushed, emitted, discarded + n)
  {
  }

  /** Emitting the frame at place `n` discards the ones in front of it. */
  lemma SideEmit(queue: seq<VideoFrame>, capacity: nat, pushed: seq<VideoFrame>, emitted: seq<nat>, discarded: nat,
                 n: nat)
    requires SideAccounted(queue, capacity, pushed, emitted, discarded) && n < |queue|
    ensures SideAccounted(queue[n + 1..], capacity, pushed, emitted + [FirstQueued(pushed, queue) + n], discarded + n)
    ensures FirstQueued(pushed, queue) + n < |pushed| && queue[n] == pushed[FirstQueued(pushed, queue) + n]
  {
  }

  lemma StillPaired(limit: int, visibles: seq<VideoFrame>, composites: seq<VideoFrame>, v: nat, c: nat,
                    g: SyncedGroup, offered: (nat, nat), moreVisible: seq<VideoFrame>, moreComposite: seq<VideoFrame>)
    requires Paired(limit, visibles, composites, v, c, g, offered)
    ensures Paired(limit, visibles + moreVisible, composites + moreComposite, v, c, g, offered)
  {
    assert (composites + moreComposite)[offered.0..offered.1] == composites[offered.0..offered.1];
  }

  /** Later pushes do not change what was made of earlier ones. */
  lemma PushKeepsPairs(h: History, moreVisible: seq<VideoFrame>, moreComposite: seq<VideoFrame>)
    requires AllPaired(h.queues.maxDeltaMs, h.pushedVisible, h.pushedComposite, h.emittedVisible, h.emittedComposite,
                       h.groups, h.offered)
    ensures AllPaired(h.queues.maxDeltaMs, h.pushedVisible + moreVisible, h.pushedComposite + moreComposite,
                      h.emittedVisible, h.emittedComposite, h.groups, h.offered)
  {
    forall k | 0 <= k < |h.groups|
      ensures Paired(h.queues.maxDeltaMs, h.pushedVisible + moreVisible, h.pushedComposite + moreComposite,
                     h.emittedVisible[k], h.emittedComposite[k], h.groups[k], h.offered[k])
    {
      StillPaired(h.queues.maxDeltaMs, h.pushedVisible, h.pushedComposite, h.emittedVisible[k],
                  h.emittedComposite[k], h.groups[k], h.offered[k], moreVisible, moreComposite);
    }
    hide Paired;
  }

  lemma PushAccounted(h: History, op: Op)
    requires Accounted(h) && (op.PushVisibleOp? || op.PushCompositeOp?)
    ensures Accounted(Step(h, op))
  {
    var q := h.queues;
    if op.PushVisibleOp? {
      SidePush(q.visible, q.capacity, h.pushedVisible, h.emittedVisible, h.discardedVisible, op.frame);
      PushKeepsPairs(h, [op.frame], []);
      assert h.pushedComposite + [] == h.pushedComposite;
    } else {
      SidePush(q.composite, q.capacity, h.pushedComposite, h.emittedComposite, h.discardedComposite, op.frame);
      PushKeepsPairs(h, [], [op.frame]);
      assert h.pushedVisible + [] == h.pushedVisible;
    }
    hide SideAccounted, AllPaired, Trim;
  }

  /** What a queue offers is what was pushed from its head on. */
  lemma OfferedIsQueue(queue: seq<VideoFrame>, pushed: seq<VideoFrame>)
    requires IsTail(queue, pushed)
    ensures pushed[FirstQueued(pushed, queue)..|pushed|] == queue
  {
  }

  /** The group of a call, by its frames and the distance of their times. */
  lemma EmittedGroup(q: Queues)
    requires q.visible != [] && q.composite != [] && TrySyncStep(q).0.Some?
    ensures var g, best := TrySyncStep(q).0.value, Nearest(q.visible[0], q.composite);
            && g.visible == q.visible[0] && g.composite == q.composite[best]
            && Within(g.visible, g.composite, q.maxDeltaMs) && g.deltaMs >= 0
            && (g.deltaMs == g.visible.ptsMs - g.composite.ptsMs || g.deltaMs == g.composite.ptsMs - g.visible.ptsMs)
  {
    hide Nearest, IsFirstNearest;
  }

  lemma EmitPairs(h: History)
    requires Accounted(h) && h.queues.visible != [] && h.queues.composite != []
    requires TrySyncStep(h.queues).0.Some?
    ensures var q := h.queues;
            var v, best := FirstQueued(h.pushedVisible, q.visible), Nearest(q.visible[0], q.composite);
            var c := FirstQueued(h.pushedComposite, q.composite);
            Paired(q.maxDeltaMs, h.pushedVisible, h.pushedComposite, v, c + best, TrySyncStep(q).0.value,
                   (c, |h.pushedComposite|))
  {
    hide IsTail, Nearest, Increasing, AllPaired, IsFirstNearest, TrySyncStep, Within;
    var q := h.queues;
    EmittedQueues(q);
    SideEmit(q.visible, q.capacity, h.pushedVisible, h.emittedVisible, h.discardedVisible, 0);
    SideEmit(q.composite, q.capacity, h.pushedComposite, h.emittedComposite, h.discardedComposite,
             Nearest(q.visible[0], q.composite));
    OfferedIsQueue(q.composite, h.pushedComposite);
    EmittedGroup(q);
  }

  lemma PairsAppend(limit: int, visibles: seq<VideoFrame>, composites: seq<VideoFrame>, v: seq<nat>, c: seq<nat>,
                    groups: seq<SyncedGroup>, offered: seq<(nat, nat)>, v1: nat, c1: nat, g: SyncedGroup, o: (nat, nat))
    requires AllPaired(limit, visibles, composites, v, c, groups, offered)
    requires Paired(limit, visibles, composites, v1, c1, g, o)
    ensures AllPaired(limit, visibles, composites, v + [v1], c + [c1], groups + [g], offered + [o])
  {
    hide Paired;
  }

  lemma EmittedQueues(s: Queues)
    requires s.visible != [] && s.composite != [] && TrySyncStep(s).0.Some?
    ensures var best := Nearest(s.visible[0], s.composite);
            && TrySyncStep(s).1 == s.(visible := s.visible[1..], composite := s.composite[best + 1..])
            && best < |s.composite|
  {
    hide Nearest, Delta;
  }

  lemma EmitAccounted(h: History)
    requires Accounted(h) && h.queues.visible != [] && h.queues.composite != []
    requires TrySyncStep(h.queues).0.Some?
    ensures Accounted(Step(h, TrySyncOp))
  {
    hide Nearest, IsFirstNearest, SideAccounted, AllPaired, Paired, FirstQueued, Delta, TrySyncStep;
    var q := h.queues;
    var best := Nearest(q.visible[0], q.composite);
    var v, c := FirstQueued(h.pushedVisible, q.visible), FirstQueued(h.pushedComposite, q.composite);
    EmitPairs(h);
    EmittedQueues(q);
    SideEmit(q.visible, q.capacity, h.pushedVisible, h.emittedVisible, h.discardedVisible, 0);
    SideEmit(q.composite, q.capacity, h.pushedComposite, h.emittedComposite, h.discardedComposite, best);
    PairsAppend(q.maxDeltaMs, h.pushedVisible, h.pushedComposite, h.emittedVisible, h.emittedComposite, h.groups,
                h.offered, v, c + best, TrySyncStep(q).0.value, (c, |h.pushedComposite|));
  }

  lemma ClearAccounted(h: History)
    requires Accounted(h)
    ensures Accounted(Step(h, ClearOp))
  {
    var q := h.queues;
    SideDrop(q.visible, q.capacity, h.pushedVisible, h.emittedVisible, h.discardedVisible, |q.visible|);
    SideDrop(q.composite, q.capacity, h.pushedComposite, h.emittedComposite, h.discardedComposite, |q.composite|);
    assert q.visible[|q.visible|..] == [] && q.composite[|q.composite|..] == [];
    hide SideAccounted, AllPaired;
  }

  lemma MismatchAccounted(h: History)
    requires Accounted(h) && h.queues.visible != [] && h.queues.composite != []
    requires TrySyncStep(h.queues).0.None?
    ensures Accounted(Step(h, TrySyncOp))
  {
    var q := h.queues;
    SideDrop(q.visible, q.capacity, h.pushedVisible, h.emittedVisible, h.discardedVisible, 1);
    SideDrop(q.composite, q.capacity, h.pushedComposite, h.emittedComposite, h.discardedComposite, 1);
    hide SideAccounted, AllPaired, Nearest;
  }

  lemma StepAccounted(h: History, op: Op)
    requires Accounted(h)
    ensures Accounted(Step(h, op))
  {
    var q := h.queues;
    match op {
      case PushVisibleOp(_) => PushAccounted(h, op);
      case PushCompositeOp(_) => PushAccounted(h, op);
      case ClearOp => ClearAccounted(h);
      case TrySyncOp =>
        if q.visible != [] && q.composite != [] {
          if TrySyncStep(q).0.Some? { EmitAccounted(h); } else { MismatchAccounted(h); }
        }
    }
    hide Accounted, Nearest;
  }

  lemma StartAccounted(maxDeltaMs: int, capacity: nat)
    ensures Accounted(Start(maxDeltaMs, capacity))
  {
  }

  /** The accounting holds after any sequence of operations. */
  lemma {:induction false} RunAccounted(maxDeltaMs: int, capacity: nat, ops: seq<Op>)
    ensures Accounted(Run(Start(maxDeltaMs, capacity), ops))
  {
    hide Accounted, Step, Start;
    StartAccounted(maxDeltaMs, capacity);
    if ops != [] {
      RunAccounted(maxDeltaMs, capacity, ops[..|ops| - 1]);
      StepAccounted(Run(Start(maxDeltaMs, capacity), ops[..|ops| - 1]), ops[|ops| - 1]);
    }
  }

  // ---------------------------------------------------------------- nondecreasing timestamps

  predicate Nondecreasing(frames: seq<VideoFrame>) {
    forall j, k :: 0 <= j <= k < |frames| ==> frames[j].ptsMs <= frames[k].ptsMs
  }

  /** The frame a mismatch throws away is too far from every frame of the other side that is queued now or is
      pushed later, when both streams are nondecreasing. */
  lemma MismatchIsHopeless(h: History, allVisible: seq<VideoFrame>, allComposite: seq<VideoFrame>)
    requires Accounted(h) && h.queues.visible != [] && h.queues.composite != []
    requires TrySyncStep(h.queues).0.None?
    requires h.pushedVisible <= allVisible && Nondecreasing(allVisible)
    requires h.pushedComposite <= allComposite && Nondecreasing(allComposite)
    ensures var q, q' := h.queues, TrySyncStep(h.queues).1;
            var v, c := |h.pushedVisible| - |q.visible|, |h.pushedComposite| - |q.composite|;
            || (q' == q.(visible := q.visible[1..]) && q.visible[0] == allVisible[v]
                && forall j :: c <= j < |allComposite| ==> !Within(allVisible[v], allComposite[j], q.maxDeltaMs))
            || (q' == q.(composite := q.composite[1..]) && q.composite[0] == allComposite[c]
                && forall j :: v <= j < |allVisible| ==> !Within(allVisible[j], allComposite[c], q.maxDeltaMs))
  {
    var q := h.queues;
    var v, c := |h.pushedVisible| - |q.visible|, |h.pushedComposite| - |q.composite|;
    assert q.visible[0] == h.pushedVisible[v] == allVisible[v];
    assert q.composite[0] == h.pushedComposite[c] == allComposite[c];
    assert IsFirstNearest(q.visible[0], q.composite, Nearest(q.visible[0], q.composite));
    assert Delta(q.visible[0], q.composite[0]) > q.maxDeltaMs;
  }

  predicate Sorted(s: Queues) { Nondecreasing(s.visible) && Nondecreasing(s.composite) }

  predicate Matches(s: Queues, i: nat, j: nat) {
    i < |s.visible| && j < |s.composite| && Within(s.visible[i], s.composite[j], s.maxDeltaMs)
  }

  ghost predicate Matchable(s: Queues) { exists i: nat, j: nat :: Matches(s, i, j) }

  /** The group found by up to `calls` calls, stopping at the first. */
  function Drain(s: Queues, calls: nat): Option<SyncedGroup>
    decreases calls
  {
    if calls == 0 then None
    else
      var (r, s') := TrySyncStep(s);
      if r.Some? then r else Drain(s', calls - 1)
  }

  /** One call emits a group exactly when some queued composite is within the limit of the first visible frame; with
      nothing queued on one side it changes nothing. */
  lemma TrySyncEmits(s: Queues)
    ensures TrySyncStep(s).0.Some? <==> exists j: nat :: Matches(s, 0, j)
    ensures s.visible == [] || s.composite == [] ==> TrySyncStep(s).1 == s
  {
    if s.visible != [] && s.composite != [] {
      var best := Nearest(s.visible[0], s.composite);
      assert forall j :: 0 <= j < |s.composite| ==> AtLeastAsNear(s.visible[0], s.composite[best], s.composite[j]);
      assert TrySyncStep(s).0.Some? <==> Matches(s, 0, best);
    }
  }

  lemma DiscardKeepsMatches(s: Queues)
    requires Sorted(s) && s.visible != [] && s.composite != [] && TrySyncStep(s).0.None?
    ensures Sorted(TrySyncStep(s).1)
    ensures Matchable(s) <==> Matchable(TrySyncStep(s).1)
  {
    var s' := TrySyncStep(s).1;
    assert IsFirstNearest(s.visible[0], s.composite, Nearest(s.visible[0], s.composite));
    assert Delta(s.visible[0], s.composite[0]) > s.maxDeltaMs;
    if s.visible[0].ptsMs < s.composite[0].ptsMs {
      assert forall j: nat :: !Matches(s, 0, j);
      assert forall i: nat, j: nat :: Matches(s', i, j) ==> Matches(s, i + 1, j);
      assert forall i: nat, j: nat :: i > 0 && Matches(s, i, j) ==> Matches(s', i - 1, j);
    } else {
      assert forall i: nat :: !Matches(s, i, 0);
      assert forall i: nat, j: nat :: Matches(s', i, j) ==> Matches(s, i, j + 1);
      assert forall i: nat, j: nat :: j > 0 && Matches(s, i, j) ==> Matches(s', i, j - 1);
    }
  }

  lemma NothingMatches(s: Queues)
    requires s.visible == [] || s.composite == []
    ensures !Matchable(s)
  {
    assert forall i: nat, j: nat :: !Matches(s, i, j);
  }

  lemma EmittedMatches(s: Queues)
    requires s.visible != [] && s.composite != [] && TrySyncStep(s).0.Some?
    ensures Matchable(s)
  {
    assert Matches(s, 0, Nearest(s.visible[0], s.composite));
  }

  lemma DiscardShrinks(s: Queues)
    requires s.visible != [] && s.composite != [] && TrySyncStep(s).0.None?
    ensures var s' := TrySyncStep(s).1; |s'.visible| + |s'.composite| == |s.visible| + |s.composite| - 1
  {
  }

  /** Repeated calls find a group within |visible| + |composite| calls exactly when some queued pair matches. */
  lemma {:induction false} DrainFindsMatch(s: Queues, calls: nat)
    requires Sorted(s) && calls >= |s.visible| + |s.composite|
    ensures Drain(s, calls).Some? <==> Matchable(s)
    decreases calls
  {
    hide TrySyncStep, Matchable, Sorted;
    if s.visible == [] || s.composite == [] {
      NothingMatches(s);
      DrainEmpty(s, calls);
    } else if TrySyncStep(s).0.Some? {
      EmittedMatches(s);
    } else {
      DiscardShrinks(s);
      DiscardKeepsMatches(s);
      DrainFindsMatch(TrySyncStep(s).1, calls - 1);
    }
  }

  lemma {:induction false} DrainEmpty(s: Queues, calls: nat)
    requires s.visible == [] || s.composite == []
    ensures Drain(s, calls).None?
  {
    if calls > 0 { DrainEmpty(s, calls - 1); }
  }
}
