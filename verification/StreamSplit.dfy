/** Cutting elementary and program streams into frames and packs, and carrying packs over RTP
    (tests/l8_gb28181_play_probe.cpp lines 548-628, 688-712 and 828-968). */
module StreamSplit {
  import opened Foundation
  import opened Bytes

  // ---------------------------------------------------------------- slices between start positions

  predicate StartsIn(starts: seq<nat>, size: nat) {
    && (forall k :: 0 <= k < |starts| ==> starts[k] < size)
    && (forall j, k :: 0 <= j < k < |starts| ==> starts[j] < starts[k])
  }

  /** The piece from the `k`-th start to the next one or to the end. */
  function Slice(d: seq<byte>, starts: seq<nat>, k: nat): (s: seq<byte>)
    requires StartsIn(starts, |d|) && k < |starts|
    ensures s != []
  {
    d[starts[k]..if k + 1 < |starts| then starts[k + 1] else |d|]
  }

  function SlicesFrom(d: seq<byte>, starts: seq<nat>, k: nat): seq<seq<byte>>
    requires StartsIn(starts, |d|) && k <= |starts|
    decreases |starts| - k
  {
    if k == |starts| then [] else [Slice(d, starts, k)] + SlicesFrom(d, starts, k + 1)
  }

  /** The pieces put together are the data from the first start on. */
  lemma {:induction false} SlicesConcatenate(d: seq<byte>, starts: seq<nat>, k: nat)
    requires StartsIn(starts, |d|) && k < |starts|
    ensures Flatten(SlicesFrom(d, starts, k)) == d[starts[k]..]
    decreases |starts| - k
  {
    if k + 1 < |starts| {
      SlicesConcatenate(d, starts, k + 1);
      assert d[starts[k]..] == Slice(d, starts, k) + d[starts[k + 1]..];
    } else {
      assert SlicesFrom(d, starts, k + 1) == [];
    }
  }

  lemma {:induction false} SlicesSnoc(d: seq<byte>, starts: seq<nat>, k: nat)
    requires StartsIn(starts, |d|) && k < |starts|
    ensures |SlicesFrom(d, starts, k)| == |starts| - k
    ensures forall j :: k <= j < |starts| ==> SlicesFrom(d, starts, k)[j - k] == Slice(d, starts, j)
    decreases |starts| - k
  {
    if k + 1 < |starts| { SlicesSnoc(d, starts, k + 1); }
  }

  // ---------------------------------------------------------------- Annex B start codes

  predicate Code3(d: seq<byte>, i: nat) {
    i + 3 <= |d| && d[i] == 0 && d[i + 1] == 0 && d[i + 2] == 1
  }

  predicate Code4(d: seq<byte>, i: nat) {
    i + 4 <= |d| && d[i] == 0 && d[i + 1] == 0 && d[i + 2] == 0 && d[i + 3] == 1
  }

  /** Position `i` is inside a four-byte code that starts one byte earlier. */
  predicate BehindZero(d: seq<byte>, i: nat) {
    i > 0 && Code4(d, i - 1)
  }

  /** A start code begins here: four bytes, or three bytes that no zero byte extends; codes in the last four
      bytes are not seen. */
  predicate UnitStartsAt(d: seq<byte>, i: nat) {
    i + 4 < |d| && (Code4(d, i) || (Code3(d, i) && !BehindZero(d, i)))
  }

  function UnitStarts(d: seq<byte>, i: nat): seq<nat>
    decreases |d| - i
  {
    if i + 4 >= |d| then []
    else if Code4(d, i) then [i] + UnitStarts(d, i + 4)
    else if Code3(d, i) then [i] + UnitStarts(d, i + 3)
    else UnitStarts(d, i + 1)
  }

  /** The scan finds exactly the start codes, in increasing order. */
  lemma {:induction false} UnitStartsExact(d: seq<byte>, i: nat)
    requires !BehindZero(d, i)
    ensures forall p: nat :: p in UnitStarts(d, i) <==> i <= p && UnitStartsAt(d, p)
    ensures StartsIn(UnitStarts(d, i), |d|)
    ensures forall p | p in UnitStarts(d, i) :: p + 4 < |d|
    decreases |d| - i
  {
    if i + 4 < |d| {
      var step := if Code4(d, i) then 4 else if Code3(d, i) then 3 else 1;
      var rest := UnitStarts(d, i + step);
      UnitStartsExact(d, i + step);
      InsideCode(d, i);
      if step > 1 {
        assert UnitStarts(d, i) == [i] + rest;
        forall j, k | 0 <= j < k < |UnitStarts(d, i)| ensures UnitStarts(d, i)[j] < UnitStarts(d, i)[k] {
          assert UnitStarts(d, i)[k] == rest[k - 1] && rest[k - 1] in rest;
        }
      }
    }
  }

  lemma InsideCode(d: seq<byte>, i: nat)
    requires i + 4 < |d|
    ensures Code4(d, i) ==> !UnitStartsAt(d, i + 1) && !UnitStartsAt(d, i + 2) && !UnitStartsAt(d, i + 3)
    ensures Code3(d, i) ==> !UnitStartsAt(d, i + 1) && !UnitStartsAt(d, i + 2)
  {
  }

  // ---------------------------------------------------------------- units and frames

  function CodeLen(unit: seq<byte>): nat { if Code4(unit, 0) then 4 else 3 }

  /** Nothing but its start code. */
  predicate Empty(unit: seq<byte>) { |unit| <= CodeLen(unit) }

  /** A coded slice: unit types 1 to 5. */
  predicate IsVcl(unit: seq<byte>)
  {
    !Empty(unit) && 1 <= unit[CodeLen(unit)] % 32 <= 5
  }

  function Kept(units: seq<seq<byte>>): seq<seq<byte>> {
    if units == [] then [] else (if Empty(units[0]) then [] else [units[0]]) + Kept(units[1..])
  }

  function VclCount(units: seq<seq<byte>>): nat {
    if units == [] then 0 else (if IsVcl(units[0]) then 1 else 0) + VclCount(units[1..])
  }

  /** A coded slice opens a new frame when the current frame already has one; other units join the frame. */
  function Frames(units: seq<seq<byte>>, current: seq<seq<byte>>): seq<seq<seq<byte>>> {
    if units == [] then (if current == [] then [] else [current])
    else if IsVcl(units[0]) && VclCount(current) > 0 then [current] + Frames(units[1..], [units[0]])
    else Frames(units[1..], current + [units[0]])
  }

  lemma {:induction false} VclCountAppend(a: seq<seq<byte>>, b: seq<seq<byte>>)
    ensures VclCount(a + b) == VclCount(a) + VclCount(b)
  {
    if a == [] {
      assert a + b == b;
    } else {
      assert (a + b)[0] == a[0] && (a + b)[1..] == a[1..] + b;
      VclCountAppend(a[1..], b);
    }
  }

  lemma VclCountSnoc(a: seq<seq<byte>>, u: seq<byte>)
    ensures VclCount(a + [u]) == VclCount(a) + if IsVcl(u) then 1 else 0
  {
    VclCountAppend(a, [u]);
    assert [u][1..] == [];
    assert VclCount([u]) == (if IsVcl(u) then 1 else 0) + VclCount([]);
  }

  /** The frames hold the units in order, none lost; every frame but the last holds exactly one coded slice and
      the last at most one; and every frame but the first starts with a coded slice. */
  lemma {:induction false} FramesPartition(units: seq<seq<byte>>, current: seq<seq<byte>>)
    requires VclCount(current) <= 1
    ensures Flatten(Frames(units, current)) == current + units
    ensures forall k :: 0 <= k < |Frames(units, current)| - 1 ==> VclCount(Frames(units, current)[k]) == 1
    ensures forall k :: 0 <= k < |Frames(units, current)| ==> VclCount(Frames(units, current)[k]) <= 1
    ensures forall k :: 0 <= k < |Frames(units, current)| ==> Frames(units, current)[k] != []
    ensures forall k :: 0 < k < |Frames(units, current)| ==> IsVcl(Frames(units, current)[k][0])
    ensures current != [] ==> Frames(units, current)[0][0] == current[0]
    decreases |units|
  {
    if units == [] {
      assert current + units == current;
      if current != [] { assert Flatten([current]) == current + Flatten([current][1..]); }
    } else {
      assert [units[0]] + units[1..] == units;
      VclCountSnoc(current, units[0]);
      VclCountSnoc([], units[0]);
      assert [] + [units[0]] == [units[0]];
      if IsVcl(units[0]) && VclCount(current) > 0 {
        FramesPartition(units[1..], [units[0]]);
        assert current + units == current + ([units[0]] + units[1..]);
      } else {
        FramesPartition(units[1..], current + [units[0]]);
        assert current + units == current + [units[0]] + units[1..];
      }
    }
  }

  function Joined(frames: seq<seq<seq<byte>>>): seq<seq<byte>> {
    if frames == [] then [] else [Flatten(frames[0])] + Joined(frames[1..])
  }

  lemma {:induction false} JoinedFlatten(frames: seq<seq<seq<byte>>>)
    ensures Flatten(Joined(frames)) == Flatten(Flatten(frames))
  {
    if frames != [] {
      JoinedFlatten(frames[1..]);
      FlattenAppend(frames[0], Flatten(frames[1..]));
    }
  }

  function AnnexBUnits(d: seq<byte>): seq<seq<byte>> {
    UnitStartsExact(d, 0);
    SlicesFrom(d, UnitStarts(d, 0), 0)
  }

  function AnnexBFrames(d: seq<byte>): seq<seq<byte>> {
    if UnitStarts(d, 0) == [] then [d] else Joined(Frames(Kept(AnnexBUnits(d)), []))
  }

  method SplitAnnexBFrames(data: seq<byte>) returns (frames: seq<seq<byte>>)
    ensures frames == AnnexBFrames(data)
  {
    var starts: seq<nat> := [];
    var i := 0;
    while i + 4 < |data|
      invariant 0 <= i && starts + UnitStarts(data, i) == UnitStarts(data, 0)
    {
      if Code4(data, i) {
        starts := starts + [i];
        i := i + 3;
      } else if Code3(data, i) {
        starts := starts + [i];
        i := i + 2;
      }
      i := i + 1;
    }
    assert starts == UnitStarts(data, 0);
    UnitStartsExact(data, 0);
    if starts == [] {
      return [data];
    }
    frames := GroupUnits(data, starts);
  }

  /** The frames made so far and those still to come out of the units left. */
  function Grouped(frames: seq<seq<byte>>, units: seq<seq<byte>>, held: seq<seq<byte>>): seq<seq<byte>> {
    frames + Joined(Frames(Kept(units), held))
  }

  lemma GroupStep(frames: seq<seq<byte>>, unit: seq<byte>, rest: seq<seq<byte>>, held: seq<seq<byte>>)
    ensures Grouped(frames, [unit] + rest, held) ==
            if Empty(unit) then Grouped(frames, rest, held)
            else if IsVcl(unit) && VclCount(held) > 0 then Grouped(frames + [Flatten(held)], rest, [unit])
            else Grouped(frames, rest, held + [unit])
  {
    KeptStep(unit, rest);
    FramesStep(unit, Kept(rest), held);
    hide Kept, Frames, Empty, IsVcl, VclCount;
    if !Empty(unit) && IsVcl(unit) && VclCount(held) > 0 {
      var later := Frames(Kept(rest), [unit]);
      assert ([held] + later)[1..] == later;
      assert frames + ([Flatten(held)] + Joined(later)) == frames + [Flatten(held)] + Joined(later);
    }
  }

  lemma GroupEnd(frames: seq<seq<byte>>, held: seq<seq<byte>>)
    ensures Grouped(frames, [], held) == if held == [] then frames else frames + [Flatten(held)]
  {
    FramesEnd(held);
  }

  /** What the loop looks at in a unit, in terms of the whole data. */
  lemma NalOf(data: seq<byte>, starts: seq<nat>, idx: nat)
    requires StartsIn(starts, |data|) && idx < |starts|
    requires forall p | p in starts :: p + 4 < |data| && UnitStartsAt(data, p)
    ensures var begin, end := starts[idx], if idx + 1 < |starts| then starts[idx + 1] else |data|;
            var unit, nal := Slice(data, starts, idx), if Code4(data, begin) then begin + 4 else begin + 3;
            && begin < end <= |data| && unit == data[begin..end] && begin + 4 <= |data|
            && SlicesFrom(data, starts, idx) == [unit] + SlicesFrom(data, starts, idx + 1)
            && (nal < end <==> !Empty(unit))
            && (nal < end ==> (1 <= data[nal] % 32 <= 5 <==> IsVcl(unit)))
  {
    StartAt(data, starts, idx);
    assert starts[idx] in starts;
    UnitShape(data, starts, idx);
  }

  lemma CountOne(unit: seq<byte>)
    ensures VclCount([]) == 0 && VclCount([unit]) == if IsVcl(unit) then 1 else 0
  {
    VclCountSnoc([], unit);
    assert [] + [unit] == [unit];
  }

  /** The turn of the second loop for a unit that is not empty. */
  method AddUnit(frames: seq<seq<byte>>, current: seq<byte>, currentHasVcl: bool, unit: seq<byte>, isVcl: bool,
                 ghost held: seq<seq<byte>>, ghost rest: seq<seq<byte>>)
    returns (frames': seq<seq<byte>>, current': seq<byte>, hasVcl: bool, ghost held': seq<seq<byte>>)
    requires !Empty(unit) && isVcl == IsVcl(unit) && unit != []
    requires current == Flatten(held) && (current == [] <==> held == []) && (currentHasVcl <==> VclCount(held) > 0)
    ensures current' == Flatten(held') && current' != [] && held' != [] && (hasVcl <==> VclCount(held') > 0)
    ensures Grouped(frames', rest, held') == Grouped(frames, [unit] + rest, held)
  {
    GroupStep(frames, unit, rest, held);
    VclCountSnoc(held, unit);
    CountOne(unit);
    FlattenSnoc(held, unit);
    FlattenOne(unit);
    hide Grouped, Empty, IsVcl, VclCount, Flatten;
    frames', current', hasVcl, held' := frames, current, currentHasVcl, held;
    if isVcl && currentHasVcl && current != [] {
      frames' := frames' + [current'];
      current' := [];
      hasVcl := false;
      held' := [];
    }
    current' := current' + unit;
    held' := held' + [unit];
    if isVcl { hasVcl := true; }
    assert [] + [unit] == [unit] && [] + unit == unit;
  }

  lemma FlattenOne(unit: seq<byte>)
    ensures Flatten([unit]) == unit && Flatten<byte>([]) == []
  {
    assert [unit][1..] == [];
  }

  lemma NoSlicesLeft(data: seq<byte>, starts: seq<nat>)
    requires StartsIn(starts, |data|)
    ensures SlicesFrom(data, starts, |starts|) == []
  {
  }

  /** The second loop: gather units into `current` and close it when its second coded slice arrives. */
  method GroupUnits(data: seq<byte>, starts: seq<nat>) returns (frames: seq<seq<byte>>)
    requires StartsIn(starts, |data|) && forall p | p in starts :: p + 4 < |data| && UnitStartsAt(data, p)
    ensures frames == Joined(Frames(Kept(SlicesFrom(data, starts, 0)), []))
  {
    frames := [];
    var current := [];
    var currentHasVcl := false;
    ghost var held: seq<seq<byte>> := [];
    ghost var all := Grouped([], SlicesFrom(data, starts, 0), []);
    assert all == Joined(Frames(Kept(SlicesFrom(data, starts, 0)), []));
    FlattenOne([]);
    CountOne([]);
    hide *;
    for idx := 0 to |starts|
      invariant Grouped(frames, SlicesFrom(data, starts, idx), held) == all
      invariant current == Flatten(held) && (current == [] <==> held == [])
      invariant currentHasVcl <==> VclCount(held) > 0
    {
      NalOf(data, starts, idx);
      var begin := starts[idx];
      var end := if idx + 1 < |starts| then starts[idx + 1] else |data|;
      var nalOffset := if Code4(data, begin) then begin + 4 else begin + 3;
      ghost var rest := SlicesFrom(data, starts, idx + 1);
      if nalOffset < end {
        var nalType := data[nalOffset] % 32;
        var isVcl := 1 <= nalType <= 5;
        frames, current, currentHasVcl, held :=
          AddUnit(frames, current, currentHasVcl, data[begin..end], isVcl, held, rest);
      } else {
        GroupStep(frames, data[begin..end], rest, held);
      }
    }
    NoSlicesLeft(data, starts);
    GroupEnd(frames, held);
    if current != [] {
      frames := frames + [current];
    }
  }

  lemma StartAt(d: seq<byte>, starts: seq<nat>, k: nat)
    requires StartsIn(starts, |d|) && k < |starts|
    requires forall p | p in starts :: p + 4 < |d| && UnitStartsAt(d, p)
    ensures starts[k] + 4 < |d| && UnitStartsAt(d, starts[k])
    ensures k + 1 < |starts| ==> starts[k] < starts[k + 1] < |d|
  {
    assert starts[k] in starts;
  }

  lemma FramesEnd(held: seq<seq<byte>>)
    ensures Joined(Frames(Kept([]), held)) == if held == [] then [] else [Flatten(held)]
  {
    assert Kept([]) == [];
    assert Frames([], held) == if held == [] then [] else [held];
    assert [held][1..] == [];
  }

  lemma UnitShape(d: seq<byte>, starts: seq<nat>, k: nat)
    requires StartsIn(starts, |d|) && k < |starts|
    requires forall p | p in starts :: p + 4 < |d| && UnitStartsAt(d, p)
    ensures var u, at := Slice(d, starts, k), starts[k];
            && (Code4(d, at) <==> Code4(u, 0))
            && (Empty(u) <==> |u| == CodeLen(u))
            && (Empty(u) ==> u == [0, 0, 1] || u == [0, 0, 0, 1])
            && (k + 1 == |starts| ==> !Empty(u))
  {
    var u, at := Slice(d, starts, k), starts[k];
    assert at in starts;
    if k + 1 < |starts| {
      assert starts[k + 1] in starts;
      InsideCode(d, at);
    }
    assert forall j :: 0 <= j < |u| ==> u[j] == d[at + j];
  }

  lemma KeptStep(unit: seq<byte>, rest: seq<seq<byte>>)
    ensures Kept([unit] + rest) == if Empty(unit) then Kept(rest) else [unit] + Kept(rest)
  {
    assert ([unit] + rest)[1..] == rest;
  }

  lemma FramesStep(unit: seq<byte>, rest: seq<seq<byte>>, held: seq<seq<byte>>)
    ensures Frames([unit] + rest, held) ==
            if IsVcl(unit) && VclCount(held) > 0 then [held] + Frames(rest, [unit])
            else Frames(rest, held + [unit])
  {
    assert ([unit] + rest)[1..] == rest;
  }

  lemma {:induction false} DroppedAreBare(units: seq<seq<byte>>)
    ensures forall u | u in units :: u in Kept(units) || Empty(u)
    ensures forall u | u in Kept(units) :: u in units && !Empty(u)
    ensures units != [] && !Empty(units[|units| - 1]) ==> Kept(units) != []
  {
    if units != [] {
      DroppedAreBare(units[1..]);
      assert units == [units[0]] + units[1..];
    }
  }

  /** A coded slice by its bytes: behind a start code of three or four bytes, a type from 1 to 5 in the low five
      bits. */
  predicate SliceBytes(u: seq<byte>) {
    || (|u| > 3 && u[..3] == [0, 0, 1] && 1 <= u[3] % 32 <= 5)
    || (|u| > 4 && u[..4] == [0, 0, 0, 1] && 1 <= u[4] % 32 <= 5)
  }

  lemma SliceIsVcl(d: seq<byte>, starts: seq<nat>, k: nat)
    requires StartsIn(starts, |d|) && k < |starts|
    requires forall p | p in starts :: p + 4 < |d| && UnitStartsAt(d, p)
    ensures IsVcl(Slice(d, starts, k)) <==> SliceBytes(Slice(d, starts, k))
  {
    UnitShape(d, starts, k);
    var u, at := Slice(d, starts, k), starts[k];
    assert at in starts;
    assert forall j :: 0 <= j < |u| ==> u[j] == d[at + j];
  }

  /** Nothing behind the first start code is lost or reordered except units that are bare start codes; every frame but
      the last holds exactly one coded slice, the last at most one, and every frame but the first starts with one.
      Without a start code all data is one
      frame; bytes before the first start code are dropped. */
  lemma AnnexBConservation(d: seq<byte>)
    ensures UnitStarts(d, 0) == [] ==> AnnexBFrames(d) == [d]
    ensures UnitStarts(d, 0) != [] ==>
              var units, frames := AnnexBUnits(d), Frames(Kept(AnnexBUnits(d)), []);
              && UnitStarts(d, 0)[0] < |d|
              && Flatten(units) == d[UnitStarts(d, 0)[0]..]
              && (forall u | u in units :: u in Kept(units) || u == [0, 0, 1] || u == [0, 0, 0, 1])
              && AnnexBFrames(d) == Joined(frames) && frames != []
              && Flatten(frames) == Kept(units) && Flatten(AnnexBFrames(d)) == Flatten(Kept(units))
              && (forall k :: 0 <= k < |frames| - 1 ==> VclCount(frames[k]) == 1)
              && VclCount(frames[|frames| - 1]) <= 1
              && (forall k :: 0 < k < |frames| ==> frames[k] != [] && IsVcl(frames[k][0]))
              && (forall u | u in units :: IsVcl(u) <==> SliceBytes(u))
  {
    hide Kept, Frames, Empty, IsVcl, SliceBytes;
    var starts, units := UnitStarts(d, 0), AnnexBUnits(d);
    UnitStartsExact(d, 0);
    if starts != [] {
      SlicesConcatenate(d, starts, 0);
      SlicesSnoc(d, starts, 0);
      forall u | u in units ensures Empty(u) ==> u == [0, 0, 1] || u == [0, 0, 0, 1] {
        var k :| 0 <= k < |units| && units[k] == u;
        UnitShape(d, starts, k);
      }
      forall u | u in units ensures IsVcl(u) <==> SliceBytes(u) {
        var k :| 0 <= k < |units| && units[k] == u;
        SliceIsVcl(d, starts, k);
      }
      UnitShape(d, starts, |starts| - 1);
      DroppedAreBare(units);
      FramesPartition(Kept(units), []);
      assert [] + Kept(units) == Kept(units);
      JoinedFlatten(Frames(Kept(units), []));
    }
  }

  // ---------------------------------------------------------------- program stream packs

  predicate PackAt(d: seq<byte>, i: nat) {
    i + 4 <= |d| && d[i] == 0 && d[i + 1] == 0 && d[i + 2] == 1 && d[i + 3] == 0xBA
  }

  /** The pack start code of section 2.5.3.3 of ITU-T H.222.0, byte by byte. */
  lemma PackCode(d: seq<byte>, i: nat)
    ensures PackAt(d, i) <==> i + 4 <= |d| && d[i..i + 4] == [0x00, 0x00, 0x01, 0xBA]
  {
    if i + 4 <= |d| { assert d[i..i + 4] == [d[i], d[i + 1], d[i + 2], d[i + 3]]; }
  }

  function PackStarts(d: seq<byte>, i: nat): seq<nat>
    decreases |d| - i
  {
    if i + 4 > |d| then []
    else if PackAt(d, i) then [i] + PackStarts(d, i + 4)
    else PackStarts(d, i + 1)
  }

  lemma {:induction false} PackStartsExact(d: seq<byte>, i: nat)
    ensures forall p: nat :: p in PackStarts(d, i) <==> i <= p && PackAt(d, p)
    ensures StartsIn(PackStarts(d, i), |d|)
    decreases |d| - i
  {
    if i + 4 <= |d| {
      var rest := PackStarts(d, if PackAt(d, i) then i + 4 else i + 1);
      PackStartsExact(d, if PackAt(d, i) then i + 4 else i + 1);
      if PackAt(d, i) {
        assert PackStarts(d, i) == [i] + rest;
        assert !PackAt(d, i + 1) && !PackAt(d, i + 2) && !PackAt(d, i + 3);
        forall j, k | 0 <= j < k < |PackStarts(d, i)| ensures PackStarts(d, i)[j] < PackStarts(d, i)[k] {
          assert PackStarts(d, i)[k] == rest[k - 1] && rest[k - 1] in rest;
        }
      }
    }
  }

  function Packs(d: seq<byte>): seq<seq<byte>> {
    PackStartsExact(d, 0);
    if PackStarts(d, 0) == [] then [d] else SlicesFrom(d, PackStarts(d, 0), 0)
  }

  method SplitPsPacks(data: seq<byte>) returns (packs: seq<seq<byte>>)
    ensures packs == Packs(data)
  {
    var starts: seq<nat> := [];
    var i := 0;
    while i + 4 <= |data|
      invariant 0 <= i && starts + PackStarts(data, i) == PackStarts(data, 0)
    {
      if PackAt(data, i) {
        starts := starts + [i];
        i := i + 3;
      }
      i := i + 1;
    }
    assert starts == PackStarts(data, 0);
    PackStartsExact(data, 0);
    if starts == [] {
      return [data];
    }
    packs := CutAt(data, starts);
  }

  /** The second loop: one pack from each start to the next. */
  method CutAt(data: seq<byte>, starts: seq<nat>) returns (packs: seq<seq<byte>>)
    requires StartsIn(starts, |data|)
    ensures packs == SlicesFrom(data, starts, 0)
  {
    packs := [];
    for k := 0 to |starts|
      invariant packs + SlicesFrom(data, starts, k) == SlicesFrom(data, starts, 0)
    {
      var begin := starts[k];
      var end := if k + 1 < |starts| then starts[k + 1] else |data|;
      packs := packs + [data[begin..end]];
    }
  }

  /** The packs put together are the data from the first pack on, and a pack has its start code at offset 0 and
      nowhere else. */
  lemma PacksConservation(d: seq<byte>)
    ensures PackStarts(d, 0) == [] ==> Packs(d) == [d] && forall p: nat :: !PackAt(d, p)
    ensures PackStarts(d, 0) != [] ==>
              && PackStarts(d, 0)[0] < |d|
              && Flatten(Packs(d)) == d[PackStarts(d, 0)[0]..]
              && (forall p: nat | p < PackStarts(d, 0)[0] :: !PackAt(d, p))
              && forall pack, q: nat | pack in Packs(d) :: PackAt(pack, q) <==> q == 0
  {
    var starts := PackStarts(d, 0);
    PackStartsExact(d, 0);
    if starts != [] {
      assert starts[0] in starts;
      SlicesConcatenate(d, starts, 0);
      SlicesSnoc(d, starts, 0);
      assert forall p: nat | p < starts[0] :: p !in starts;
      forall pack, q: nat | pack in Packs(d) ensures PackAt(pack, q) <==> q == 0 { PackIsSlice(d, pack, q); }
    }
    hide Packs, PackAt, PackStarts;
  }

  lemma PackIsSlice(d: seq<byte>, pack: seq<byte>, q: nat)
    requires PackStarts(d, 0) != [] && pack in Packs(d)
    ensures PackAt(pack, q) <==> q == 0
  {
    var starts := PackStarts(d, 0);
    PackStartsExact(d, 0);
    SlicesSnoc(d, starts, 0);
    var k :| 0 <= k < |Packs(d)| && Packs(d)[k] == pack;
    hide PackAt, PackStarts;
    CodeOnlyInFront(d, starts, k, q);
  }

  lemma PackAtSlice(d: seq<byte>, lo: nat, hi: nat, q: nat)
    requires lo <= hi <= |d|
    ensures PackAt(d[lo..hi], q) <==> lo + q + 4 <= hi && PackAt(d, lo + q)
  {
  }

  lemma NoneBetween(starts: seq<nat>, size: nat, k: nat, p: nat)
    requires StartsIn(starts, size) && k < |starts| && starts[k] < p
    requires k + 1 < |starts| ==> p < starts[k + 1]
    ensures p !in starts
  {
    forall j | 0 <= j < |starts| ensures starts[j] != p {
      if j > k + 1 { assert starts[k + 1] < starts[j]; }
    }
  }

  /** Two starts are at least a start code apart. */
  lemma StartsApart(d: seq<byte>, p: nat, q: nat)
    requires PackAt(d, p) && PackAt(d, q) && p < q
    ensures p + 4 <= q
  {
  }

  lemma StartHasCode(d: seq<byte>, starts: seq<nat>, k: nat)
    requires starts == PackStarts(d, 0) && k < |starts|
    ensures PackAt(d, starts[k]) && starts[k] + 4 <= |d|
  {
    PackStartsExact(d, 0);
    assert starts[k] in starts;
  }

  /** The pack from one start to the next is long enough for its code and has no other. */
  lemma NoOtherCode(d: seq<byte>, starts: seq<nat>, k: nat, q: nat)
    requires starts == PackStarts(d, 0) && StartsIn(starts, |d|) && k < |starts|
    ensures var at, end := starts[k], if k + 1 < |starts| then starts[k + 1] else |d|;
            at + 4 <= end && (q > 0 && at + q < end ==> !PackAt(d, at + q))
  {
    var at, end := starts[k], if k + 1 < |starts| then starts[k + 1] else |d|;
    StartHasCode(d, starts, k);
    if k + 1 < |starts| {
      StartHasCode(d, starts, k + 1);
      StartsApart(d, at, end);
    }
    PackStartsExact(d, 0);
    hide PackStarts, PackAt;
    if q > 0 && at + q < end { NoneBetween(starts, |d|, k, at + q); }
  }

  lemma CodeOnlyInFront(d: seq<byte>, starts: seq<nat>, k: nat, q: nat)
    requires starts == PackStarts(d, 0) && StartsIn(starts, |d|) && k < |starts|
    ensures PackAt(Slice(d, starts, k), q) <==> q == 0
  {
    StartHasCode(d, starts, k);
    NoOtherCode(d, starts, k, q);
    PackAtSlice(d, starts[k], if k + 1 < |starts| then starts[k + 1] else |d|, q);
    hide PackStarts, PackAt;
  }

  // ---------------------------------------------------------------- packs over RTP

  const MAX_PAYLOAD := 1200

  function RtpPacket(payload: seq<byte>, seqNo: u16, timestamp: u32, ssrc: u32, marker: bool): seq<byte> {
    [0x80, (if marker then 0x80 else 0) + 96] + Be16Bytes(seqNo) + Be32Bytes(timestamp) + Be32Bytes(ssrc) + payload
  }

  function PackPackets(pack: seq<byte>, offset: nat, seqNo: u16, timestamp: u32, ssrc: u32): seq<seq<byte>>
    requires offset <= |pack|
    decreases |pack| - offset
  {
    if offset == |pack| then []
    else
      var n := Min(MAX_PAYLOAD, |pack| - offset);
      [RtpPacket(pack[offset..offset + n], seqNo, timestamp, ssrc, offset + n >= |pack|)]
        + PackPackets(pack, offset + n, NextSeq(seqNo), timestamp, ssrc)
  }

  function To90k(frameIndex: nat, fps: nat): nat
    requires fps > 0
  {
    frameIndex * 90000 % 0x1_0000_0000_0000_0000 / fps
  }

  /** The datagrams of a list of packs, one frame index each. */
  function StreamPackets(packs: seq<seq<byte>>, frameIndex: nat, seqNo: u16, fps: nat, ssrc: u32): seq<seq<byte>>
    requires fps > 0
  {
    if packs == [] then []
    else
      var first := PackPackets(packs[0], 0, seqNo, To90k(frameIndex, fps) % 0x1_0000_0000, ssrc);
      first + StreamPackets(packs[1..], frameIndex + 1, AdvanceSeq(seqNo, |first|), fps, ssrc)
  }

  /** A datagram socket whose sends may fail at any time. */
  class DatagramSocket {
    var sent: seq<seq<byte>>

    method SendTo(datagram: seq<byte>) returns (ok: bool)
      modifies this
      ensures sent == if ok then old(sent) + [datagram] else old(sent)
    {
      ok := *;
      if ok { sent := sent + [datagram]; }
    }
  }

  /** The fragment loop for one pack. */
  method SendPack(socket: DatagramSocket, pack: seq<byte>, seqNo: u16, timestamp: u32, ssrc: u32)
    returns (ok: bool, next: u16)
    modifies socket
    ensures var packets := PackPackets(pack, 0, seqNo, timestamp, ssrc);
            && old(socket.sent) <= socket.sent <= old(socket.sent) + packets
            && (ok ==> socket.sent == old(socket.sent) + packets && next == AdvanceSeq(seqNo, |packets|))
  {
    hide RtpPacket;
    next := seqNo;
    var offset := 0;
    while offset < |pack|
      invariant 0 <= offset <= |pack| && old(socket.sent) <= socket.sent
      invariant socket.sent + PackPackets(pack, offset, next, timestamp, ssrc)
             == old(socket.sent) + PackPackets(pack, 0, seqNo, timestamp, ssrc)
      invariant AdvanceSeq(next, |PackPackets(pack, offset, next, timestamp, ssrc)|)
             == AdvanceSeq(seqNo, |PackPackets(pack, 0, seqNo, timestamp, ssrc)|)
    {
      var chunk := Min(MAX_PAYLOAD, |pack| - offset);
      var rtp := RtpPacket(pack[offset..offset + chunk], next, timestamp, ssrc, offset + chunk >= |pack|);
      ghost var rest := PackPackets(pack, offset + chunk, NextSeq(next), timestamp, ssrc);
      AdvanceNext(next, |rest|);
      ghost var before := socket.sent;
      assert before + ([rtp] + rest) == before + [rtp] + rest;
      ok := socket.SendTo(rtp);
      if !ok { return false, next; }
      next := NextSeq(next);
      offset := offset + chunk;
    }
    ok := true;
  }

  function Repeat<T>(list: seq<T>, times: nat): seq<T> {
    if times == 0 then [] else list + Repeat(list, times - 1)
  }

  lemma {:induction false} StreamAppend(a: seq<seq<byte>>, b: seq<seq<byte>>, frameIndex: nat, seqNo: u16, fps: nat,
                                        ssrc: u32)
    requires fps > 0
    ensures var first := StreamPackets(a, frameIndex, seqNo, fps, ssrc);
            StreamPackets(a + b, frameIndex, seqNo, fps, ssrc) ==
            first + StreamPackets(b, frameIndex + |a|, AdvanceSeq(seqNo, |first|), fps, ssrc)
    decreases |a|
  {
    hide PackPackets, To90k, AdvanceSeq;
    if a == [] {
      AdvanceZero(seqNo);
      assert a + b == b;
    } else {
      assert (a + b)[0] == a[0] && (a + b)[1..] == a[1..] + b;
      var head := PackPackets(a[0], 0, seqNo, To90k(frameIndex, fps) % 0x1_0000_0000, ssrc);
      var next := AdvanceSeq(seqNo, |head|);
      var rest := StreamPackets(a[1..], frameIndex + 1, next, fps, ssrc);
      StreamAppend(a[1..], b, frameIndex + 1, next, fps, ssrc);
      AdvanceTwice(seqNo, |head|, |rest|);
      var last := StreamPackets(b, frameIndex + |a|, AdvanceSeq(next, |rest|), fps, ssrc);
      assert StreamPackets(a, frameIndex, seqNo, fps, ssrc) == head + rest;
      assert StreamPackets(a + b, frameIndex, seqNo, fps, ssrc) == head + (rest + last);
      assert head + (rest + last) == head + rest + last;
    }
  }

  /** One pass over the packs. */
  method SendPacks(socket: DatagramSocket, packs: seq<seq<byte>>, frameIndex: nat, seqNo: u16, fps: nat, ssrc: u32)
    returns (ok: bool, next: u16)
    requires fps > 0
    modifies socket
    ensures var packets := StreamPackets(packs, frameIndex, seqNo, fps, ssrc);
            && old(socket.sent) <= socket.sent <= old(socket.sent) + packets
            && (ok ==> socket.sent == old(socket.sent) + packets && next == AdvanceSeq(seqNo, |packets|))
  {
    hide PackPackets;
    hide To90k;
    hide AdvanceSeq;
    next := seqNo;
    AdvanceZero(seqNo);
    ghost var all := StreamPackets(packs, frameIndex, seqNo, fps, ssrc);
    for i := 0 to |packs|
      invariant old(socket.sent) <= socket.sent
      invariant socket.sent + StreamPackets(packs[i..], frameIndex + i, next, fps, ssrc) == old(socket.sent) + all
      invariant AdvanceSeq(next, |StreamPackets(packs[i..], frameIndex + i, next, fps, ssrc)|)
             == AdvanceSeq(seqNo, |all|)
    {
      assert packs[i..][1..] == packs[i + 1..];
      var timestamp := To90k(frameIndex + i, fps) % 0x1_0000_0000;
      ghost var first := PackPackets(packs[i], 0, next, timestamp, ssrc);
      ghost var rest := StreamPackets(packs[i + 1..], frameIndex + i + 1, AdvanceSeq(next, |first|), fps, ssrc);
      AdvanceTwice(next, |first|, |rest|);
      ghost var before := socket.sent;
      assert before + (first + rest) == before + first + rest;
      ok, next := SendPack(socket, packs[i], next, timestamp, ssrc);
      if !ok { return false, next; }
    }
    AdvanceZero(next);
    ok := true;
  }

  /** The sending loop: all packs, over and over, with one running sequence and frame index. */
  method StreamPacksAsRtp(socket: DatagramSocket, packs: seq<seq<byte>>, loopCount: nat, fps: nat, ssrc: u32)
    returns (ok: bool)
    requires fps > 0
    modifies socket
    ensures var packets := StreamPackets(Repeat(packs, loopCount), 0, 0, fps, ssrc);
            && old(socket.sent) <= socket.sent <= old(socket.sent) + packets
            && (ok ==> socket.sent == old(socket.sent) + packets)
  {
    hide PackPackets;
    hide To90k;
    hide AdvanceSeq;
    hide StreamPackets;
    var seqNo: u16 := 0;
    var frameIndex: nat := 0;
    ghost var all := StreamPackets(Repeat(packs, loopCount), 0, 0, fps, ssrc);
    for i := 0 to loopCount
      invariant old(socket.sent) <= socket.sent
      invariant socket.sent + StreamPackets(Repeat(packs, loopCount - i), frameIndex, seqNo, fps, ssrc)
             == old(socket.sent) + all
    {
      ghost var before := socket.sent;
      ghost var first := StreamPackets(packs, frameIndex, seqNo, fps, ssrc);
      StreamAppend(packs, Repeat(packs, loopCount - i - 1), frameIndex, seqNo, fps, ssrc);
      ghost var rest := StreamPackets(Repeat(packs, loopCount - i - 1), frameIndex + |packs|,
                                      AdvanceSeq(seqNo, |first|), fps, ssrc);
      assert before + (first + rest) == before + first + rest;
      ok, seqNo := SendPacks(socket, packs, frameIndex, seqNo, fps, ssrc);
      if !ok { return false; }
      frameIndex := frameIndex + |packs|;
    }
    NoPackets(frameIndex, seqNo, fps, ssrc);
    ok := true;
  }

  lemma NoPackets(frameIndex: nat, seqNo: u16, fps: nat, ssrc: u32)
    requires fps > 0
    ensures StreamPackets([], frameIndex, seqNo, fps, ssrc) == []
  {
  }

  // ---------------------------------------------------------------- the receiving side

  datatype Rtp = Rtp(marker: bool, seqNo: u16, timestamp: u32, ssrc: u32, payload: seq<byte>)

  /** The fixed header of section 5.1 of RFC 3550, without padding, extension or sources; payload type 96. */
  function DecodeRtp(pkt: seq<byte>): Option<Rtp> {
    if |pkt| < 12 || pkt[0] != 0x80 || pkt[1] % 0x80 != 96 then None
    else Some(Rtp(pkt[1] >= 0x80, Be16(pkt[2..4]), Be32(pkt[4..8]), Be32(pkt[8..12]), pkt[12..]))
  }

  lemma RtpDecodes(payload: seq<byte>, seqNo: u16, timestamp: u32, ssrc: u32, marker: bool)
    ensures DecodeRtp(RtpPacket(payload, seqNo, timestamp, ssrc, marker))
         == Some(Rtp(marker, seqNo, timestamp, ssrc, payload))
  {
    var pkt := RtpPacket(payload, seqNo, timestamp, ssrc, marker);
    assert pkt[2..4] == Be16Bytes(seqNo) && pkt[4..8] == Be32Bytes(timestamp) && pkt[8..12] == Be32Bytes(ssrc);
    assert pkt[12..] == payload;
  }

  /** Collect payloads up to each marker. A packet that is not RTP ends the session. */
  function Depacketise(packets: seq<seq<byte>>, held: seq<byte>): seq<seq<byte>> {
    if packets == [] then []
    else
      match DecodeRtp(packets[0])
      case None => []
      case Some(rtp) =>
        if rtp.marker then [held + rtp.payload] + Depacketise(packets[1..], [])
        else Depacketise(packets[1..], held + rtp.payload)
  }

  lemma {:induction false} PackDepacketised(pack: seq<byte>, offset: nat, seqNo: u16, timestamp: u32, ssrc: u32,
                                            more: seq<seq<byte>>)
    requires offset < |pack|
    ensures Depacketise(PackPackets(pack, offset, seqNo, timestamp, ssrc) + more, pack[..offset])
         == [pack] + Depacketise(more, [])
    decreases |pack| - offset
  {
    hide RtpPacket;
    hide DecodeRtp;
    var n := Min(MAX_PAYLOAD, |pack| - offset);
    var packets := PackPackets(pack, offset, seqNo, timestamp, ssrc);
    RtpDecodes(pack[offset..offset + n], seqNo, timestamp, ssrc, offset + n >= |pack|);
    assert pack[..offset] + pack[offset..offset + n] == pack[..offset + n];
    var rest := PackPackets(pack, offset + n, NextSeq(seqNo), timestamp, ssrc);
    assert (packets + more)[0] == packets[0] && (packets + more)[1..] == rest + more;
    if offset + n < |pack| {
      PackDepacketised(pack, offset + n, NextSeq(seqNo), timestamp, ssrc, more);
    } else {
      assert pack[..offset + n] == pack && rest + more == more;
    }
  }

  /** A receiver that joins payloads up to each marker gets back exactly the packs, in order. */
  lemma {:induction false} StreamDepacketised(packs: seq<seq<byte>>, frameIndex: nat, seqNo: u16, fps: nat, ssrc: u32)
    requires fps > 0 && forall pack | pack in packs :: pack != []
    ensures Depacketise(StreamPackets(packs, frameIndex, seqNo, fps, ssrc), []) == packs
    decreases |packs|
  {
    hide PackPackets;
    hide To90k;
    if packs != [] {
      var timestamp := To90k(frameIndex, fps) % 0x1_0000_0000;
      var first := PackPackets(packs[0], 0, seqNo, timestamp, ssrc);
      var next := AdvanceSeq(seqNo, |first|);
      assert packs[0] in packs && forall pack | pack in packs[1..] :: pack in packs;
      StreamDepacketised(packs[1..], frameIndex + 1, next, fps, ssrc);
      assert packs[0][..0] == [];
      PackDepacketised(packs[0], 0, seqNo, timestamp, ssrc, StreamPackets(packs[1..], frameIndex + 1, next, fps, ssrc));
    }
  }

  lemma {:induction false} PackNumbers(pack: seq<byte>, offset: nat, seqNo: u16, timestamp: u32, ssrc: u32, k: nat)
    requires offset <= |pack| && k < |PackPackets(pack, offset, seqNo, timestamp, ssrc)|
    ensures var rtp := DecodeRtp(PackPackets(pack, offset, seqNo, timestamp, ssrc)[k]);
            && rtp.Some? && rtp.value.seqNo == AdvanceSeq(seqNo, k)
            && rtp.value.timestamp == timestamp && rtp.value.ssrc == ssrc
            && |rtp.value.payload| <= 1200 && (|rtp.value.payload| == 1200 || rtp.value.marker)
    decreases k
  {
    hide RtpPacket;
    hide DecodeRtp;
    var n := Min(MAX_PAYLOAD, |pack| - offset);
    if k == 0 {
      RtpDecodes(pack[offset..offset + n], seqNo, timestamp, ssrc, offset + n >= |pack|);
    } else {
      PackNumbers(pack, offset + n, NextSeq(seqNo), timestamp, ssrc, k - 1);
      AdvanceNext(seqNo, k - 1);
    }
  }

  /** Sequence numbers run on without a gap across packs and loops, and no payload exceeds 1200 bytes; all but the last
      of a pack have just that. */
  lemma {:induction false} StreamNumbers(packs: seq<seq<byte>>, frameIndex: nat, seqNo: u16, fps: nat, ssrc: u32,
                                         k: nat)
    requires fps > 0 && k < |StreamPackets(packs, frameIndex, seqNo, fps, ssrc)|
    ensures var rtp := DecodeRtp(StreamPackets(packs, frameIndex, seqNo, fps, ssrc)[k]);
            && rtp.Some? && rtp.value.seqNo == AdvanceSeq(seqNo, k) && rtp.value.ssrc == ssrc
            && |rtp.value.payload| <= 1200 && (|rtp.value.payload| == 1200 || rtp.value.marker)
    decreases |packs|
  {
    hide PackPackets;
    hide To90k;
    hide DecodeRtp;
    hide AdvanceSeq;
    var timestamp := To90k(frameIndex, fps) % 0x1_0000_0000;
    var first := PackPackets(packs[0], 0, seqNo, timestamp, ssrc);
    if k < |first| {
      PackNumbers(packs[0], 0, seqNo, timestamp, ssrc, k);
    } else {
      StreamNumbers(packs[1..], frameIndex + 1, AdvanceSeq(seqNo, |first|), fps, ssrc, k - |first|);
      AdvanceTwice(seqNo, |first|, k - |first|);
    }
  }

  /** How many of the packets end a pack. */
  function Markers(packets: seq<seq<byte>>): nat {
    if packets == [] then 0
    else
      var rtp := DecodeRtp(packets[0]);
      Markers(packets[1..]) + if rtp.Some? && rtp.value.marker then 1 else 0
  }

  lemma {:induction false} MarkersAppend(a: seq<seq<byte>>, b: seq<seq<byte>>)
    ensures Markers(a + b) == Markers(a) + Markers(b)
  {
    hide DecodeRtp;
    if a == [] {
      assert a + b == b;
    } else {
      assert (a + b)[0] == a[0] && (a + b)[1..] == a[1..] + b;
      MarkersAppend(a[1..], b);
    }
  }

  /** Only the last packet of a pack has the marker. */
  lemma {:induction false} PackMarkers(pack: seq<byte>, offset: nat, seqNo: u16, timestamp: u32, ssrc: u32, k: nat)
    requires offset < |pack| && k <= |PackPackets(pack, offset, seqNo, timestamp, ssrc)|
    ensures var packets := PackPackets(pack, offset, seqNo, timestamp, ssrc);
            packets != [] && Markers(packets[..k]) == if k == |packets| then 1 else 0
    decreases |pack| - offset
  {
    hide RtpPacket, DecodeRtp;
    var n := Min(MAX_PAYLOAD, |pack| - offset);
    var packets := PackPackets(pack, offset, seqNo, timestamp, ssrc);
    var rest := PackPackets(pack, offset + n, NextSeq(seqNo), timestamp, ssrc);
    RtpDecodes(pack[offset..offset + n], seqNo, timestamp, ssrc, offset + n >= |pack|);
    if k > 0 {
      assert packets[..k][0] == packets[0] && packets[..k][1..] == rest[..k - 1];
      if offset + n < |pack| { PackMarkers(pack, offset + n, NextSeq(seqNo), timestamp, ssrc, k - 1); }
    } else if offset + n < |pack| {
      PackMarkers(pack, offset + n, NextSeq(seqNo), timestamp, ssrc, 0);
    }
  }

  lemma FirstPack(packs: seq<seq<byte>>, frameIndex: nat, seqNo: u16, fps: nat, ssrc: u32)
    requires fps > 0 && packs != []
    ensures var first := PackPackets(packs[0], 0, seqNo, To90k(frameIndex, fps) % 0x1_0000_0000, ssrc);
            StreamPackets(packs, frameIndex, seqNo, fps, ssrc) ==
            first + StreamPackets(packs[1..], frameIndex + 1, AdvanceSeq(seqNo, |first|), fps, ssrc)
  {
    hide PackPackets, To90k, AdvanceSeq;
  }

  lemma ExactTime(frameIndex: nat, fps: nat)
    requires fps > 0
    ensures frameIndex * 90000 < 0x1_0000_0000_0000_0000 ==> To90k(frameIndex, fps) == frameIndex * 90000 / fps
  {
  }

  /** Every packet has the time of its pack: with `i` packs ended before it, the time of frame `i` of the run in ticks
      of 1/90000 s, modulo 2^32. */
  lemma {:induction false} StreamTimes(packs: seq<seq<byte>>, frameIndex: nat, seqNo: u16, fps: nat, ssrc: u32, k: nat)
    requires fps > 0 && forall pack | pack in packs :: pack != []
    requires k < |StreamPackets(packs, frameIndex, seqNo, fps, ssrc)|
    ensures var packets := StreamPackets(packs, frameIndex, seqNo, fps, ssrc);
            var rtp, frame := DecodeRtp(packets[k]), frameIndex + Markers(packets[..k]);
            rtp.Some? && (frame * 90000 < 0x1_0000_0000_0000_0000 ==>
                            rtp.value.timestamp == frame * 90000 / fps % 0x1_0000_0000)
    decreases |packs|
  {
    hide PackPackets, StreamPackets, To90k, DecodeRtp, AdvanceSeq, Markers;
    NoPackets(frameIndex, seqNo, fps, ssrc);
    assert packs != [];
    var timestamp := To90k(frameIndex, fps) % 0x1_0000_0000;
    var first := PackPackets(packs[0], 0, seqNo, timestamp, ssrc);
    var next := AdvanceSeq(seqNo, |first|);
    var rest := StreamPackets(packs[1..], frameIndex + 1, next, fps, ssrc);
    var packets := StreamPackets(packs, frameIndex, seqNo, fps, ssrc);
    FirstPack(packs, frameIndex, seqNo, fps, ssrc);
    ExactTime(frameIndex, fps);
    assert packs[0] in packs;
    if k < |first| {
      PackNumbers(packs[0], 0, seqNo, timestamp, ssrc, k);
      PackMarkers(packs[0], 0, seqNo, timestamp, ssrc, k);
      assert packets[..k] == first[..k];
    } else {
      assert forall pack | pack in packs[1..] :: pack in packs;
      StreamTimes(packs[1..], frameIndex + 1, next, fps, ssrc, k - |first|);
      PackMarkers(packs[0], 0, seqNo, timestamp, ssrc, |first|);
      assert packets[..k] == first + rest[..k - |first|] && first[..|first|] == first;
      MarkersAppend(first, rest[..k - |first|]);
    }
  }

  lemma PacksNonempty(d: seq<byte>)
    requires d != []
    ensures forall pack | pack in Packs(d) :: pack != []
  {
    var starts := PackStarts(d, 0);
    PackStartsExact(d, 0);
    if starts != [] {
      SlicesSnoc(d, starts, 0);
      forall k | 0 <= k < |Packs(d)| ensures Packs(d)[k] != [] {
        assert Packs(d)[k] == Slice(d, starts, k);
      }
    }
  }

  /** From a nonempty program-stream file to the receiver's packs, whatever the number of loops. */
  lemma {:induction false} LoopedPacksDelivered(d: seq<byte>, loopCount: nat, fps: nat, ssrc: u32)
    requires fps > 0 && d != []
    ensures Depacketise(StreamPackets(Repeat(Packs(d), loopCount), 0, 0, fps, ssrc), []) == Repeat(Packs(d), loopCount)
  {
    PacksNonempty(d);
    RepeatMembers(Packs(d), loopCount);
    StreamDepacketised(Repeat(Packs(d), loopCount), 0, 0, fps, ssrc);
  }

  lemma {:induction false} RepeatMembers<T>(list: seq<T>, times: nat)
    ensures forall x | x in Repeat(list, times) :: x in list
  {
    if times > 0 { RepeatMembers(list, times - 1); }
  }

  // ---------------------------------------------------------------- presentation timestamps

  /** A 33-bit timestamp in five bytes with a four-bit prefix and three marker bits. */
  function PesTimestamp(prefix: byte, ts90k: nat): seq<byte> {
    var v := ts90k % 0x2_0000_0000;
    [prefix % 16 * 16 + v / 0x4000_0000 % 8 * 2 + 1,
     v / 0x40_0000 % 0x100,
     v / 0x8000 % 0x80 * 2 + 1,
     v / 0x80 % 0x100,
     v % 0x80 * 2 + 1]
  }

  /** The reader of section 2.4.3.7 of ITU-T H.222.0. */
  function ReadPesTimestamp(s: seq<byte>): nat
    requires |s| == 5
  {
    var b0, b1, b2, b3, b4: nat := s[0], s[1], s[2], s[3], s[4];
    b0 / 2 % 8 * 0x4000_0000 + b1 * 0x40_0000 + b2 / 2 * 0x8000 + b3 * 0x80 + b4 / 2
  }

  /** Splitting a 33-bit number at bits 7, 15, 22 and 30 loses nothing. */
  lemma SplitBits(v: nat)
    requires v < 0x2_0000_0000
    ensures v == v / 0x4000_0000 * 0x4000_0000 + v / 0x40_0000 % 0x100 * 0x40_0000
                 + v / 0x8000 % 0x80 * 0x8000 + v / 0x80 % 0x100 * 0x80 + v % 0x80
    ensures v / 0x4000_0000 < 8
  {
    var a := v / 0x80;
    var b := a / 0x100;
    var c := b / 0x80;
    var d := c / 0x100;
    assert v == a * 0x80 + v % 0x80 && a == b * 0x100 + a % 0x100;
    assert b == c * 0x80 + b % 0x80 && c == d * 0x100 + c % 0x100 && d < 8;
    assert b == v / 0x8000 && c == v / 0x40_0000 && d == v / 0x4000_0000;
  }

  lemma PrefixByte(p: nat, high: nat)
    requires p < 16 && high < 8
    ensures (p * 16 + high * 2 + 1) / 2 % 8 == high && (p * 16 + high * 2 + 1) / 16 == p
    ensures (p * 16 + high * 2 + 1) % 2 == 1
  {
  }

  lemma PesTimestampRoundTrip(prefix: byte, ts90k: nat)
    ensures var s := PesTimestamp(prefix, ts90k);
            && |s| == 5 && ReadPesTimestamp(s) == ts90k % 0x2_0000_0000
            && s[0] / 16 == prefix % 16 && s[0] % 2 == 1 && s[2] % 2 == 1 && s[4] % 2 == 1
  {
    var v := ts90k % 0x2_0000_0000;
    SplitBits(v);
    PrefixByte(prefix % 16, v / 0x4000_0000);
    assert v / 0x4000_0000 % 8 == v / 0x4000_0000;
  }
}
