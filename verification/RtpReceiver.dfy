/** A receiver of RTP/JPEG written from the standards alone: interleaved framing (section 10.12 of RFC 2326), the
    JPEG payload header (section 3.1 of RFC 2435) and reassembly by fragment offset (section 4.3 of RFC 2435).
    What the sender of src/protocol/rtsp/RtspServer.cpp emits is shown to be received. */
module RtpReceiver {
  import opened Foundation
  import opened Bytes
  import opened JpegParser
  import opened RtpJpeg

  // ---------------------------------------------------------------- framing

  datatype Interleaved = Interleaved(channel: byte, data: seq<byte>)

  function Deframe(wire: seq<byte>): Option<seq<Interleaved>> {
    if wire == [] then Some([])
    else if |wire| < 4 || wire[0] != 0x24 then None
    else
      var n := Be16(wire[2..4]);
      if |wire| < 4 + n then None
      else
        var rest := Deframe(wire[4 + n..]);
        if rest.None? then None else Some([Interleaved(wire[1], wire[4..4 + n])] + rest.value)
  }

  function OnChannel0(packets: seq<seq<byte>>): seq<Interleaved> {
    if packets == [] then [] else [Interleaved(0, packets[0])] + OnChannel0(packets[1..])
  }

  /** The framing loses nothing as long as every packet's length fits its field. */
  lemma {:induction false} DeframeWire(packets: seq<seq<byte>>)
    requires forall p | p in packets :: |p| < 0x1_0000
    ensures Deframe(Wire(packets)) == Some(OnChannel0(packets))
  {
    if packets != [] {
      var p, wire := packets[0], Wire(packets);
      assert wire[2..4] == Be16Bytes(|p|) && wire[4..4 + |p|] == p;
      assert wire[4 + |p|..] == Wire(packets[1..]);
      DeframeWire(packets[1..]);
    }
  }

  // ---------------------------------------------------------------- one packet

  datatype Fragment = Fragment(
    marker: bool, seqNo: u16, timestamp: u32, ssrc: u32, offset: nat, jpegType: byte, quality: byte,
    width8: byte, height8: byte, tables: seq<byte>, data: seq<byte>)

  /** RTP version 2 without padding, extension or sources, payload type 26; a quantisation table header follows
      the main header when the quality is at least 128 and the offset is zero. */
  function DecodePacket(pkt: seq<byte>): Option<Fragment> {
    if |pkt| < 20 || pkt[0] != 0x80 || pkt[1] % 0x80 != 26 then None
    else
      var offset, quality := Be24(pkt[13..16]), pkt[17];
      var hasTables := quality >= 128 && offset == 0;
      if hasTables && |pkt| < 24 then None
      else
        var n := if hasTables then Be16(pkt[22..24]) else 0;
        var start := if hasTables then 24 + n else 20;
        if |pkt| < start then None
        else Some(Fragment(pkt[1] >= 0x80, Be16(pkt[2..4]), Be32(pkt[4..8]), Be32(pkt[8..12]), offset, pkt[16],
                           quality, pkt[18], pkt[19], pkt[start - n..start], pkt[start..]))
  }

  /** What a packet of a frame carries; its offset field has 24 bits. */
  function SentFragment(f: Frame, offset: nat, seqNo: u16): Fragment
    requires TablesFit(f) && offset < |f.scan|
  {
    var n := ChunkLen(f, offset);
    Fragment(offset + n >= |f.scan|, seqNo, f.timestamp, f.ssrc, offset % 0x100_0000, f.jpegType,
             if WithTables(f, offset) then 128 else 75, f.width / 8 % 0x100, f.height / 8 % 0x100,
             if WithTables(f, offset) then f.tables else [], f.scan[offset..offset + n])
  }

  lemma ModShift(r: int, k: int)
    ensures (0x100_0000 * k + r) % 0x100_0000 == r % 0x100_0000
  {
  }

  lemma OffsetField(offset: nat)
    ensures Be24(Be24Bytes(offset % 0x1_0000_0000)) == offset % 0x100_0000
  {
    hide Be24;
    hide Be24Bytes;
    var q, r := offset / 0x1_0000_0000, offset % 0x1_0000_0000;
    assert offset == 0x100_0000 * (0x100 * q) + r;
    ModShift(r, 0x100 * q);
  }

  lemma HeaderFields(f: Frame, offset: nat, marker: bool, seqNo: u16, pkt: seq<byte>, rest: seq<byte>)
    requires pkt == RtpHeader(f, marker, seqNo) + (JpegHeader(f, offset) + rest)
    ensures |pkt| >= 20 && pkt[20..] == rest
    ensures pkt[0] == 0x80 && pkt[1] % 0x80 == PAYLOAD_TYPE && (pkt[1] >= 0x80) == marker
    ensures pkt[2..4] == Be16Bytes(seqNo) && pkt[4..8] == Be32Bytes(f.timestamp) && pkt[8..12] == Be32Bytes(f.ssrc)
    ensures pkt[13..16] == Be24Bytes(offset % 0x1_0000_0000)
    ensures pkt[16] == f.jpegType && pkt[17] == (if WithTables(f, offset) then 128 else 75)
    ensures pkt[18] == f.width / 8 % 0x100 && pkt[19] == f.height / 8 % 0x100
  {
    var head, jpeg := RtpHeader(f, marker, seqNo), JpegHeader(f, offset);
    assert forall k :: 0 <= k < 12 ==> pkt[k] == head[k];
    assert forall k :: 0 <= k < 8 ==> pkt[12 + k] == jpeg[k];
    assert pkt[2..4] == head[2..4] == Be16Bytes(seqNo);
    assert pkt[4..8] == head[4..8] == Be32Bytes(f.timestamp);
    assert pkt[8..12] == head[8..12] == Be32Bytes(f.ssrc);
    assert pkt[13..16] == jpeg[1..4] == Be24Bytes(offset % 0x1_0000_0000);
    assert pkt[16] == jpeg[4] && pkt[17] == jpeg[5] && pkt[18] == jpeg[6] && pkt[19] == jpeg[7];
  }

  /** A piece of a tail is the same piece of the whole. */
  lemma PieceOfTail(pkt: seq<byte>, at: nat, rest: seq<byte>, i: nat, j: nat)
    requires at <= |pkt| && pkt[at..] == rest && i <= j <= |rest|
    ensures at + j <= |pkt| && pkt[at + i..at + j] == rest[i..j] && pkt[at + j..] == rest[j..]
  {
    assert forall k :: 0 <= k < |rest| ==> pkt[at + k] == rest[k];
    assert pkt[at + i..at + j] == rest[i..j];
    assert pkt[at + j..] == pkt[at..][j..];
  }

  /** The table header and what follows it, behind the twenty bytes of the main headers. */
  lemma TableFields(pkt: seq<byte>, tables: seq<byte>, data: seq<byte>)
    requires |tables| < 0x1_0000 && |pkt| >= 20
    requires pkt[20..] == [0, 0] + Be16Bytes(|tables|) + tables + data
    ensures |pkt| == 24 + |tables| + |data|
    ensures pkt[22..24] == Be16Bytes(|tables|) && pkt[24..24 + |tables|] == tables && pkt[24 + |tables|..] == data
  {
    var rest := [0, 0] + Be16Bytes(|tables|) + tables + data;
    hide Be16Bytes;
    assert rest[2..4] == Be16Bytes(|tables|);
    assert rest[4..4 + |tables|] == tables && rest[4 + |tables|..] == data;
    PieceOfTail(pkt, 20, rest, 2, 4);
    PieceOfTail(pkt, 20, rest, 4, 4 + |tables|);
  }

  /** Every packet is at most 1400 bytes, every one but the last just that, and each decodes to what it was made
      from. */
  lemma PacketDecodes(f: Frame, offset: nat, seqNo: u16)
    requires TablesFit(f) && offset < |f.scan|
    ensures |Packet(f, offset, seqNo)| <= 1400
    ensures |Packet(f, offset, seqNo)| == 1400 || offset + ChunkLen(f, offset) == |f.scan|
    ensures DecodePacket(Packet(f, offset, seqNo)) == Some(SentFragment(f, offset, seqNo))
  {
    hide RtpHeader, JpegHeader, Be16, Be24, Be32, Be16Bytes, Be24Bytes, Be32Bytes;
    var n := ChunkLen(f, offset);
    var pkt, data := Packet(f, offset, seqNo), f.scan[offset..offset + n];
    HeaderFields(f, offset, offset + n >= |f.scan|, seqNo, pkt, TableHeader(f, offset) + data);
    OffsetField(offset);
    if WithTables(f, offset) {
      assert TableHeader(f, offset) == [0, 0] + Be16Bytes(|f.tables|) + f.tables;
      TableFields(pkt, f.tables, data);
    } else {
      assert TableHeader(f, offset) + data == data && pkt[20..20] == [];
    }
  }

  // ---------------------------------------------------------------- all packets of a frame

  function DecodeAll(packets: seq<seq<byte>>): Option<seq<Fragment>> {
    if packets == [] then Some([])
    else
      var first, rest := DecodePacket(packets[0]), DecodeAll(packets[1..]);
      if first.None? || rest.None? then None else Some([first.value] + rest.value)
  }

  function Sent(f: Frame, offset: nat, seqNo: u16): seq<Fragment>
    requires TablesFit(f)
    decreases |f.scan| - offset
  {
    if offset >= |f.scan| then []
    else [SentFragment(f, offset, seqNo)] + Sent(f, offset + ChunkLen(f, offset), NextSeq(seqNo))
  }

  lemma {:induction false} PacketsDecode(f: Frame, offset: nat, seqNo: u16)
    requires TablesFit(f)
    ensures DecodeAll(Packets(f, offset, seqNo)) == Some(Sent(f, offset, seqNo))
    ensures forall p | p in Packets(f, offset, seqNo) :: |p| <= MAX_PACKET
    decreases |f.scan| - offset
  {
    hide DecodePacket;
    hide Packet;
    hide SentFragment;
    if offset < |f.scan| {
      PacketDecodes(f, offset, seqNo);
      PacketsDecode(f, offset + ChunkLen(f, offset), NextSeq(seqNo));
    }
  }

  /** The offset of the last packet: one full first packet, then packets of 1380 scan bytes. */
  function LastOffset(f: Frame): nat
    requires TablesFit(f) && f.scan != []
  {
    var first, full := ChunkLen(f, 0), MAX_PACKET - FixedLen(f, false);
    if |f.scan| <= first then 0 else first + (|f.scan| - first - 1) / full * full
  }

  /** The `k`-th packet of a frame: consecutive sequence numbers, the marker on the last packet only, tables in
      the first only, and scan offsets that tile the scan. */
  lemma {:induction false} SentShape(f: Frame, offset: nat, seqNo: u16, k: nat)
    requires TablesFit(f) && offset < |f.scan| && k < |Sent(f, offset, seqNo)|
    ensures |Sent(f, offset, seqNo)| == |Offsets(f, offset)| == |Packets(f, offset, seqNo)|
    ensures var frag, at := Sent(f, offset, seqNo)[k], Offsets(f, offset)[k];
            var end := if k + 1 < |Offsets(f, offset)| then Offsets(f, offset)[k + 1] else |f.scan|;
            && frag.seqNo == AdvanceSeq(seqNo, k)
            && (frag.marker <==> k + 1 == |Sent(f, offset, seqNo)|)
            && frag.tables == (if k == 0 && offset == 0 then f.tables else [])
            && offset <= at < end <= |f.scan|
            && frag.offset == at % 0x100_0000
            && frag.data == f.scan[at..end]
    ensures Offsets(f, offset)[0] == offset
    decreases k
  {
    hide AdvanceSeq;
    hide NextSeq;
    AdvanceZero(seqNo);
    SentLength(f, offset, seqNo);
    var next := offset + ChunkLen(f, offset);
    if k > 0 {
      SentShape(f, next, NextSeq(seqNo), k - 1);
      AdvanceNext(seqNo, k - 1);
    } else if next < |f.scan| {
      assert Offsets(f, next) != [] && Offsets(f, next)[0] == next;
    }
  }

  lemma {:induction false} SentLength(f: Frame, offset: nat, seqNo: u16)
    requires TablesFit(f)
    ensures |Sent(f, offset, seqNo)| == |Offsets(f, offset)| == |Packets(f, offset, seqNo)|
    decreases |f.scan| - offset
  {
    hide SentFragment;
    hide Packet;
    if offset < |f.scan| { SentLength(f, offset + ChunkLen(f, offset), NextSeq(seqNo)); }
  }

  /** Section 3.1 of RFC 2435 wants the quality equal in all packets of a frame. The sender meets that exactly
      when the frame has no tables or fits one packet: tables set 128 in the first packet and 75 in the others. */
  lemma QualityUniform(f: Frame, seqNo: u16)
    requires TablesFit(f) && f.scan != []
    ensures (forall a, b | a in Sent(f, 0, seqNo) && b in Sent(f, 0, seqNo) :: a.quality == b.quality) <==>
            f.tables == [] || |Sent(f, 0, seqNo)| == 1
  {
    var sent := Sent(f, 0, seqNo);
    if f.tables == [] {
      QualityWithoutTables(f, 0, seqNo);
    } else if |sent| > 1 {
      var next := ChunkLen(f, 0);
      assert sent[1] == Sent(f, next, NextSeq(seqNo))[0] == SentFragment(f, next, NextSeq(seqNo));
      assert sent[0] in sent && sent[1] in sent;
      assert sent[0].quality == 128 && sent[1].quality == 75;
    } else {
      assert sent == [sent[0]];
    }
  }

  lemma {:induction false} QualityWithoutTables(f: Frame, offset: nat, seqNo: u16)
    requires TablesFit(f) && f.tables == []
    ensures forall a | a in Sent(f, offset, seqNo) :: a.quality == 75
    decreases |f.scan| - offset
  {
    if offset < |f.scan| { QualityWithoutTables(f, offset + ChunkLen(f, offset), NextSeq(seqNo)); }
  }

  /** The size fields count blocks of eight pixels in one byte: they give the size back exactly when both
      dimensions are multiples of eight below 2048. */
  lemma SizeFieldsExact(f: Frame, offset: nat, seqNo: u16)
    requires TablesFit(f) && offset < |f.scan|
    ensures var frag := SentFragment(f, offset, seqNo);
            (frag.width8 as int * 8 == f.width && frag.height8 as int * 8 == f.height) <==>
            f.width % 8 == 0 && f.width < 2048 && f.height % 8 == 0 && f.height < 2048
  {
    BlocksExact(f.width);
    BlocksExact(f.height);
  }

  lemma BlocksExact(n: u16)
    ensures n / 8 % 0x100 * 8 == n <==> n % 8 == 0 && n < 2048
  {
  }

  // ---------------------------------------------------------------- reassembly by offset

  predicate Covers(frag: Fragment, k: nat) {
    frag.offset <= k < frag.offset + |frag.data|
  }

  ghost predicate CoveredBy(frags: seq<Fragment>, k: nat) {
    exists a :: a in frags && Covers(a, k)
  }

  function Place(buffer: map<nat, byte>, frag: Fragment): map<nat, byte> {
    buffer + map k: nat | k < frag.offset + |frag.data| && Covers(frag, k) :: frag.data[k - frag.offset]
  }

  function Reassemble(frags: seq<Fragment>): map<nat, byte> {
    if frags == [] then map[] else Place(Reassemble(frags[..|frags| - 1]), frags[|frags| - 1])
  }

  function Indexed(scan: seq<byte>): map<nat, byte> {
    map k: nat | k < |scan| :: scan[k]
  }

  /** The fragment holds the scan bytes of its own offset range. */
  predicate Faithful(scan: seq<byte>, frag: Fragment) {
    && frag.offset + |frag.data| <= |scan|
    && frag.data == scan[frag.offset..frag.offset + |frag.data|]
  }

  lemma {:induction false} ReassembledKeys(frags: seq<Fragment>, k: nat)
    ensures k in Reassemble(frags) <==> CoveredBy(frags, k)
  {
    if frags != [] {
      var front, last := frags[..|frags| - 1], frags[|frags| - 1];
      ReassembledKeys(front, k);
      assert frags == front + [last];
      assert last in frags && forall a :: a in frags <==> a in front || a == last;
    }
  }

  lemma {:induction false} ReassembledValues(frags: seq<Fragment>, scan: seq<byte>)
    requires forall a | a in frags :: Faithful(scan, a)
    ensures forall k | k in Reassemble(frags) :: k < |scan| && Reassemble(frags)[k] == scan[k]
  {
    if frags != [] {
      var front, last := frags[..|frags| - 1], frags[|frags| - 1];
      assert last in frags && forall a | a in front :: a in frags;
      ReassembledValues(front, scan);
    }
  }

  /** Where the last packet starts, counted from an offset that is not the first. */
  function LastFrom(f: Frame, offset: nat): nat
    requires TablesFit(f) && offset < |f.scan|
  {
    if offset == 0 then LastOffset(f)
    else
      var full := MAX_PACKET - FixedLen(f, false);
      offset + (|f.scan| - offset - 1) / full * full
  }

  lemma LastFromNext(f: Frame, offset: nat)
    requires TablesFit(f) && offset < |f.scan|
    ensures var next := offset + ChunkLen(f, offset);
            if next >= |f.scan| then LastFrom(f, offset) == offset
            else LastFrom(f, offset) == LastFrom(f, next)
  {
    var next, n := offset + ChunkLen(f, offset), |f.scan|;
    if offset > 0 && next < n {
      assert (n - offset - 1) / 1380 == (n - next - 1) / 1380 + 1;
    }
  }

  /** With every offset below 2^24 each fragment is faithful, and together they cover the scan. */
  lemma {:induction false} SmallOffsetsFaithful(f: Frame, offset: nat, seqNo: u16)
    requires TablesFit(f) && offset < |f.scan| && LastFrom(f, offset) < 0x100_0000
    ensures forall a | a in Sent(f, offset, seqNo) :: Faithful(f.scan, a)
    ensures forall k: nat | offset <= k < |f.scan| :: CoveredBy(Sent(f, offset, seqNo), k)
    decreases |f.scan| - offset
  {
    hide LastFrom;
    var next, frag := offset + ChunkLen(f, offset), SentFragment(f, offset, seqNo);
    LastFromNext(f, offset);
    OffsetBelowLast(f, offset);
    assert Faithful(f.scan, frag);
    assert frag in Sent(f, offset, seqNo);
    if next < |f.scan| {
      SmallOffsetsFaithful(f, next, NextSeq(seqNo));
      assert forall a :: a in Sent(f, offset, seqNo) <==> a == frag || a in Sent(f, next, NextSeq(seqNo));
    } else {
      assert Sent(f, offset, seqNo) == [frag] + [];
    }
    forall k: nat | offset <= k < |f.scan|
      ensures CoveredBy(Sent(f, offset, seqNo), k)
    {
      if k < next {
        assert Covers(frag, k);
      } else {
        assert CoveredBy(Sent(f, next, NextSeq(seqNo)), k);
      }
    }
  }

  lemma OffsetBelowLast(f: Frame, offset: nat)
    requires TablesFit(f) && offset < |f.scan|
    ensures offset <= LastFrom(f, offset) < |f.scan|
  {
  }

  /** With a last offset of 2^24 or more no fragment claims the byte at that offset. */
  lemma {:induction false} LargeOffsetUncovered(f: Frame, offset: nat, seqNo: u16)
    requires TablesFit(f) && offset < |f.scan| && LastFrom(f, offset) >= 0x100_0000
    ensures forall a | a in Sent(f, offset, seqNo) :: !Covers(a, LastFrom(f, offset))
    decreases |f.scan| - offset
  {
    hide LastFrom;
    var next, frag := offset + ChunkLen(f, offset), SentFragment(f, offset, seqNo);
    LastFromNext(f, offset);
    OffsetBelowLast(f, offset);
    assert |frag.data| <= MAX_PACKET;
    if next < |f.scan| {
      OffsetBelowLast(f, next);
      assert !Covers(frag, LastFrom(f, offset));
      LargeOffsetUncovered(f, next, NextSeq(seqNo));
    } else {
      assert !Covers(frag, LastFrom(f, offset));
      assert Sent(f, offset, seqNo) == [frag] + [];
    }
  }

  /** Whatever order the fragments arrive in, and however often, the receiver rebuilds exactly the scan when the
      last offset is below 2^24, and never otherwise. */
  lemma ReassemblyExact(f: Frame, seqNo: u16, arrivals: seq<Fragment>)
    requires TablesFit(f) && f.scan != []
    requires forall a :: a in arrivals <==> a in Sent(f, 0, seqNo)
    ensures Reassemble(arrivals) == Indexed(f.scan) <==> LastOffset(f) < 0x100_0000
  {
    hide LastOffset;
    if LastOffset(f) < 0x100_0000 {
      SmallOffsetsFaithful(f, 0, seqNo);
      ReassembledValues(arrivals, f.scan);
      forall k: nat ensures k in Reassemble(arrivals) <==> k < |f.scan| {
        ReassembledKeys(arrivals, k);
        if k < |f.scan| { assert CoveredBy(Sent(f, 0, seqNo), k); }
      }
    } else {
      var last := LastFrom(f, 0);
      LargeOffsetUncovered(f, 0, seqNo);
      OffsetBelowLast(f, 0);
      ReassembledKeys(arrivals, last);
      assert last in Indexed(f.scan) && last !in Reassemble(arrivals);
    }
  }

  // ---------------------------------------------------------------- a whole session

  /** Packets up to and including a marker belong to one frame. */
  function Group(frags: seq<Fragment>): seq<seq<Fragment>> {
    if frags == [] then []
    else
      var rest := Group(frags[1..]);
      if frags[0].marker || rest == [] then [[frags[0]]] + rest
      else [[frags[0]] + rest[0]] + rest[1..]
  }

  lemma {:induction false} GroupSent(f: Frame, offset: nat, seqNo: u16, more: seq<Fragment>)
    requires TablesFit(f) && offset < |f.scan|
    ensures Group(Sent(f, offset, seqNo) + more) == [Sent(f, offset, seqNo)] + Group(more)
    decreases |f.scan| - offset
  {
    var next, frag := offset + ChunkLen(f, offset), SentFragment(f, offset, seqNo);
    var rest := Sent(f, next, NextSeq(seqNo));
    assert (Sent(f, offset, seqNo) + more)[1..] == rest + more;
    if next < |f.scan| {
      GroupSent(f, next, NextSeq(seqNo), more);
    } else {
      assert rest + more == more && Sent(f, offset, seqNo) == [frag];
    }
  }

  function SessionSent(frames: seq<Frame>, seqNo: u16): seq<Fragment>
    requires Sendable(frames)
  {
    if frames == [] then []
    else Sent(frames[0], 0, seqNo) +
         SessionSent(frames[1..], AdvanceSeq(seqNo, |Packets(frames[0], 0, seqNo)|))
  }

  /** The fragments of each frame, with the sequence number its first packet has. */
  function SessionGroups(frames: seq<Frame>, seqNo: u16): seq<seq<Fragment>>
    requires Sendable(frames)
  {
    if frames == [] then []
    else [Sent(frames[0], 0, seqNo)] +
         SessionGroups(frames[1..], AdvanceSeq(seqNo, |Packets(frames[0], 0, seqNo)|))
  }

  lemma {:induction false} DecodeAllAppend(a: seq<seq<byte>>, b: seq<seq<byte>>)
    requires DecodeAll(a).Some? && DecodeAll(b).Some?
    ensures DecodeAll(a + b) == Some(DecodeAll(a).value + DecodeAll(b).value)
  {
    hide DecodePacket;
    if a == [] {
      assert a + b == b && DecodeAll(a).value + DecodeAll(b).value == DecodeAll(b).value;
    } else {
      assert (a + b)[0] == a[0] && (a + b)[1..] == a[1..] + b;
      DecodeAllAppend(a[1..], b);
      assert [DecodePacket(a[0]).value] + DecodeAll(a[1..]).value + DecodeAll(b).value
          == [DecodePacket(a[0]).value] + (DecodeAll(a[1..]).value + DecodeAll(b).value);
    }
  }

  lemma {:induction false} SessionDecodes(frames: seq<Frame>, seqNo: u16)
    requires Sendable(frames)
    ensures DecodeAll(SessionPackets(frames, seqNo)) == Some(SessionSent(frames, seqNo))
    ensures forall p | p in SessionPackets(frames, seqNo) :: |p| <= MAX_PACKET
    ensures Group(SessionSent(frames, seqNo)) == SessionGroups(frames, seqNo)
  {
    hide Packets;
    hide Sent;
    hide AdvanceSeq;
    hide DecodePacket;
    if frames != [] {
      var f, packets := frames[0], Packets(frames[0], 0, seqNo);
      var next := AdvanceSeq(seqNo, |packets|);
      SessionDecodes(frames[1..], next);
      PacketsDecode(f, 0, seqNo);
      DecodeAllAppend(packets, SessionPackets(frames[1..], next));
      GroupSent(f, 0, seqNo, SessionSent(frames[1..], next));
    }
  }

  /** Sequence numbers run on without a gap across the frames of a session. */
  lemma {:induction false} SessionNumbers(frames: seq<Frame>, seqNo: u16, k: nat)
    requires Sendable(frames) && k < |SessionSent(frames, seqNo)|
    ensures SessionSent(frames, seqNo)[k].seqNo == AdvanceSeq(seqNo, k)
    decreases |frames|
  {
    hide Sent;
    hide Packets;
    hide AdvanceSeq;
    var first := Sent(frames[0], 0, seqNo);
    SentLength(frames[0], 0, seqNo);
    if k < |first| {
      SentShape(frames[0], 0, seqNo, k);
    } else {
      SessionNumbers(frames[1..], AdvanceSeq(seqNo, |first|), k - |first|);
      AdvanceTwice(seqNo, |first|, k - |first|);
    }
  }

  /** What the player gets of one frame. */
  datatype Received = Received(scan: map<nat, byte>, tables: seq<byte>, jpegType: byte, width8: byte, height8: byte,
                               timestamp: u32)

  function Rebuild(frags: seq<Fragment>): Received
    requires frags != []
  {
    Received(Reassemble(frags), frags[0].tables, frags[0].jpegType, frags[0].width8, frags[0].height8,
             frags[0].timestamp)
  }

  /** The whole receiver: deframe, decode, and group by marker. */
  function Receive(wire: seq<byte>): Option<seq<seq<Fragment>>> {
    match Deframe(wire)
    case None => None
    case Some(frames) =>
      match DecodeAll(Data(frames))
      case None => None
      case Some(frags) => Some(Group(frags))
  }

  function Data(frames: seq<Interleaved>): seq<seq<byte>> {
    if frames == [] then [] else [frames[0].data] + Data(frames[1..])
  }

  lemma {:induction false} DataOnChannel0(packets: seq<seq<byte>>)
    ensures Data(OnChannel0(packets)) == packets
  {
    if packets != [] { DataOnChannel0(packets[1..]); }
  }

  /** From the bytes of a whole session the receiver gets exactly one group for each frame, in order. */
  lemma SessionReceived(frames: seq<Frame>, seqNo: u16)
    requires Sendable(frames)
    ensures Receive(Wire(SessionPackets(frames, seqNo))) == Some(SessionGroups(frames, seqNo))
  {
    SessionDecodes(frames, seqNo);
    DeframeWire(SessionPackets(frames, seqNo));
    DataOnChannel0(SessionPackets(frames, seqNo));
  }

  lemma {:induction false} SessionGroupAt(frames: seq<Frame>, seqNo: u16, i: nat) returns (start: u16)
    requires Sendable(frames) && i < |frames|
    ensures |SessionGroups(frames, seqNo)| == |frames|
    ensures SessionGroups(frames, seqNo)[i] == Sent(frames[i], 0, start)
    decreases |frames|
  {
    hide Sent;
    hide Packets;
    hide AdvanceSeq;
    var next := AdvanceSeq(seqNo, |Packets(frames[0], 0, seqNo)|);
    if i == 0 {
      start := seqNo;
      if |frames| > 1 { var _ := SessionGroupAt(frames[1..], next, 0); }
    } else {
      start := SessionGroupAt(frames[1..], next, i - 1);
    }
  }

  /** End to end: the `i`-th group rebuilds the scan, tables, type and size fields of the `i`-th frame. */
  lemma FrameDelivered(frames: seq<Frame>, seqNo: u16, i: nat)
    requires Sendable(frames) && i < |frames| && LastOffset(frames[i]) < 0x100_0000
    ensures var groups := Receive(Wire(SessionPackets(frames, seqNo)));
            && groups.Some? && |groups.value| == |frames| && groups.value[i] != []
            && Rebuild(groups.value[i]) ==
               Received(Indexed(frames[i].scan), frames[i].tables, frames[i].jpegType, frames[i].width / 8 % 0x100,
                        frames[i].height / 8 % 0x100, frames[i].timestamp)
  {
    hide LastOffset;
    SessionReceived(frames, seqNo);
    var start := SessionGroupAt(frames, seqNo, i);
    assert frames[i] in frames;
    ReassemblyExact(frames[i], start, Sent(frames[i], 0, start));
  }

  /** A laid-out image that the parser accepts is sent with exactly its scan and table elements, the size and sampling
      of its frame header, and 90 ticks for every millisecond. */
  lemma ImageFrame(image: Image, ptsMs: int, ssrc: u32)
    requires ImageWellFormed(image) && FrameOf(Layout(image), ptsMs, ssrc).Some?
    ensures var f, d := FrameOf(Layout(image), ptsMs, ssrc).value,
                        Described(image.segments, JpegInfo(800, 600, 1, [], 0, 0));
            && f.scan == image.scan && f.tables == AllElements(image.segments)
            && f.width == d.width && f.height == d.height && f.jpegType == d.jpegType && f.ssrc == ssrc
            && (0 <= ptsMs * 90000 < 0x1_0000_0000_0000_0000 ==> f.timestamp == ptsMs * 90 % 0x1_0000_0000)
            && (ptsMs < 0 ==> f.timestamp == 0)
  {
    hide Layout;
    hide Parse;
    FrameOfParsed(Layout(image), ptsMs, ssrc);
    ParseLayout(image, DEFAULT_INFO);
    DescribedTables(image.segments, DEFAULT_INFO.(tables := []));
    TimestampTicks(ptsMs);
    hide TimestampOf;
  }

  // ---------------------------------------------------------------- which frames a session sends

  /** A wait that gave an image the parser accepts. */
  predicate Usable(w: Waited) { w.Encoded? && Parse(w.data, JpegInfo(800, 600, 1, [], 0, 0)).Some? }

  function UsableFrame(w: Waited): (f: Frame)
    requires Usable(w)
    ensures FrameOf(w.data, w.ptsMs, 0x54524653) == Some(f) && f.scan != []
  {
    FrameOfParsed(w.data, w.ptsMs, 0x54524653);
    FrameOf(w.data, w.ptsMs, 0x54524653).value
  }

  predicate Ordered(at: seq<nat>, end: nat) {
    (forall i :: 0 <= i < |at| ==> at[i] < end) && (forall i, j :: 0 <= i < j < |at| ==> at[i] < at[j])
  }

  predicate FramesAt(waits: seq<Waited>, at: seq<nat>, frames: seq<Frame>) {
    |at| == |frames| &&
    forall i :: 0 <= i < |at| ==>
      at[i] < |waits| && Usable(waits[at[i]]) && frames[i] == UsableFrame(waits[at[i]])
  }

  predicate NoneMissing(waits: seq<Waited>, at: seq<nat>, end: nat) {
    end <= |waits| &&
    forall k :: 0 <= k < end && Usable(waits[k]) ==> k in at && |UsableFrame(waits[k]).tables| <= 1375
  }

  /** The session ends with the last wait or at the first image whose tables are too large. */
  predicate EndsAt(waits: seq<Waited>, end: nat) {
    end < |waits| ==> Usable(waits[end]) && |UsableFrame(waits[end]).tables| > 1375
  }

  /** The waits at the positions `at` are just the usable ones before `end`, in order, and these are their frames. */
  predicate Selects(waits: seq<Waited>, at: seq<nat>, end: nat, frames: seq<Frame>) {
    Ordered(at, end) && FramesAt(waits, at, frames) && NoneMissing(waits, at, end) && EndsAt(waits, end)
  }

  function Shifted(at: seq<nat>): (r: seq<nat>)
    ensures |r| == |at| && forall i :: 0 <= i < |at| ==> r[i] == at[i] + 1
  {
    seq(|at|, i requires 0 <= i < |at| => at[i] + 1)
  }

  lemma ShiftedHas(at: seq<nat>, k: nat)
    requires k in at
    ensures k + 1 in Shifted(at)
  {
    var i :| 0 <= i < |at| && at[i] == k;
    assert Shifted(at)[i] == k + 1;
  }

  lemma SkipMissesNone(w: Waited, waits: seq<Waited>, at: seq<nat>, end: nat)
    requires NoneMissing(waits, at, end) && !Usable(w)
    ensures NoneMissing([w] + waits, Shifted(at), end + 1)
  {
    hide Usable, UsableFrame;
    forall k | 0 <= k < end + 1 && Usable(([w] + waits)[k])
      ensures k in Shifted(at) && |UsableFrame(([w] + waits)[k]).tables| <= 1375
    {
      assert ([w] + waits)[k] == waits[k - 1];
      ShiftedHas(at, k - 1);
    }
  }

  lemma TakeMissesNone(w: Waited, waits: seq<Waited>, at: seq<nat>, end: nat)
    requires NoneMissing(waits, at, end) && Usable(w) && |UsableFrame(w).tables| <= 1375
    ensures NoneMissing([w] + waits, [0] + Shifted(at), end + 1)
  {
    hide Usable, UsableFrame;
    forall k | 0 <= k < end + 1 && Usable(([w] + waits)[k])
      ensures k in [0] + Shifted(at) && |UsableFrame(([w] + waits)[k]).tables| <= 1375
    {
      if k > 0 {
        assert ([w] + waits)[k] == waits[k - 1];
        ShiftedHas(at, k - 1);
      }
    }
  }

  lemma FramesShift(w: Waited, waits: seq<Waited>, at: seq<nat>, frames: seq<Frame>)
    requires FramesAt(waits, at, frames)
    ensures FramesAt([w] + waits, Shifted(at), frames)
  {
    hide Usable, UsableFrame;
    forall i | 0 <= i < |at|
      ensures at[i] < |waits| && ([w] + waits)[Shifted(at)[i]] == waits[at[i]]
    {
    }
  }

  lemma FramesPrepend(w: Waited, waits: seq<Waited>, at: seq<nat>, frames: seq<Frame>)
    requires FramesAt([w] + waits, at, frames) && Usable(w)
    ensures FramesAt([w] + waits, [0] + at, [UsableFrame(w)] + frames)
  {
    var all := [w] + waits;
    hide Usable, UsableFrame;
    forall i | 0 <= i < |at| + 1
      ensures var j := ([0] + at)[i];
              j < |all| && Usable(all[j]) && ([UsableFrame(w)] + frames)[i] == UsableFrame(all[j])
    {
      if i > 0 { assert ([0] + at)[i] == at[i - 1] && ([UsableFrame(w)] + frames)[i] == frames[i - 1]; }
    }
  }

  lemma OrderedShift(at: seq<nat>, end: nat)
    requires Ordered(at, end)
    ensures Ordered(Shifted(at), end + 1) && Ordered([0] + Shifted(at), end + 1)
  {
  }

  lemma SelectsSkip(w: Waited, waits: seq<Waited>, at: seq<nat>, end: nat, frames: seq<Frame>)
    requires Selects(waits, at, end, frames) && !Usable(w)
    ensures Selects([w] + waits, Shifted(at), end + 1, frames)
  {
    SkipMissesNone(w, waits, at, end);
    FramesShift(w, waits, at, frames);
    OrderedShift(at, end);
    hide Usable, UsableFrame, NoneMissing, FramesAt, Ordered;
    assert end < |waits| ==> ([w] + waits)[end + 1] == waits[end];
  }

  lemma SelectsTake(w: Waited, waits: seq<Waited>, at: seq<nat>, end: nat, frames: seq<Frame>)
    requires Selects(waits, at, end, frames) && Usable(w) && |UsableFrame(w).tables| <= 1375
    ensures Selects([w] + waits, [0] + Shifted(at), end + 1, [UsableFrame(w)] + frames)
  {
    TakeMissesNone(w, waits, at, end);
    FramesShift(w, waits, at, frames);
    FramesPrepend(w, waits, Shifted(at), frames);
    OrderedShift(at, end);
    hide Usable, UsableFrame, NoneMissing, FramesAt, Ordered;
    assert end < |waits| ==> ([w] + waits)[end + 1] == waits[end];
  }

  lemma SelectsNothing(waits: seq<Waited>)
    requires waits == [] || (Usable(waits[0]) && |UsableFrame(waits[0]).tables| > 1375)
    ensures Selects(waits, [], 0, [])
  {
  }

  /** A session sends the frames of exactly the usable waits, in order, up to the first with too large tables. */
  lemma {:induction false} SessionSelects(waits: seq<Waited>) returns (at: seq<nat>, end: nat)
    ensures Selects(waits, at, end, SessionFrames(waits, 0x54524653))
  {
    hide Selects, Parse, FrameOf;
    if waits == [] || (Usable(waits[0]) && |UsableFrame(waits[0]).tables| > 1375) {
      if waits != [] {
        NothingUsable(waits[0]);
        TablesLimit(UsableFrame(waits[0]));
      }
      SelectsNothing(waits);
      at, end := [], 0;
    } else {
      var w, rest := waits[0], SessionFrames(waits[1..], 0x54524653);
      assert waits == [w] + waits[1..];
      NothingUsable(w);
      at, end := SessionSelects(waits[1..]);
      if Usable(w) {
        TablesLimit(UsableFrame(w));
        SelectsTake(w, waits[1..], at, end, rest);
        at := [0] + Shifted(at);
      } else {
        if w.Encoded? { Unusable(w); }
        SelectsSkip(w, waits[1..], at, end, rest);
        at := Shifted(at);
      }
      end := end + 1;
    }
  }

  lemma NothingUsable(w: Waited)
    ensures w.NoFrame? || w.data == [] ==> !Usable(w)
  {
  }

  lemma Unusable(w: Waited)
    requires w.Encoded? && !Usable(w)
    ensures FrameOf(w.data, w.ptsMs, 0x54524653).None?
  {
    FrameOfParsed(w.data, w.ptsMs, 0x54524653);
  }

  /** The wait gave this image at this time. */
  predicate Gave(w: Waited, image: Image, ptsMs: int) {
    ImageWellFormed(image) && w == Encoded(Layout(image), ptsMs) && 0 <= ptsMs * 90000 < 0x1_0000_0000_0000_0000
  }

  /** From the image to the player: when a wait of a session gives an image the parser accepts, with small tables and
      before the session ends, then from the bytes of the session the receiver gets a group that rebuilds the image's
      scan, tables, sampling, size fields and time. */
  lemma ImageDelivered(waits: seq<Waited>, at: seq<nat>, end: nat, k: nat, image: Image, ptsMs: int)
    returns (i: nat)
    requires Selects(waits, at, end, SessionFrames(waits, SSRC))
    requires k < end && Usable(waits[k]) && Gave(waits[k], image, ptsMs)
    requires LastOffset(UsableFrame(waits[k])) < 0x100_0000
    ensures Sendable(SessionFrames(waits, SSRC))
    ensures var groups := Receive(Wire(SessionPackets(SessionFrames(waits, SSRC), 0)));
            var d := Described(image.segments, JpegInfo(800, 600, 1, [], 0, 0));
            && i < |at| && at[i] == k
            && groups.Some? && |groups.value| == |at| && groups.value[i] != []
            && Rebuild(groups.value[i]) ==
               Received(Indexed(image.scan), AllElements(image.segments), d.jpegType, d.width / 8 % 0x100,
                        d.height / 8 % 0x100, ptsMs * 90 % 0x1_0000_0000)
  {
    hide SessionFrames, SessionPackets, Wire, Receive, LastOffset, Parse, FrameOf, Layout, Described, Rebuild, Indexed,
      AllElements, Sendable, ImageWellFormed;
    SessionSendable(waits, SSRC);
    i :| 0 <= i < |at| && at[i] == k;
    ImageFrame(image, ptsMs, SSRC);
    FrameDelivered(SessionFrames(waits, SSRC), 0, i);
  }
}
