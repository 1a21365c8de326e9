/** The RTP/JPEG fragmenter over an RTSP interleaved connection (src/protocol/rtsp/RtspServer.cpp lines 60-65,
    247-260, 396-511 and 657-662). */
module RtpJpeg {
  import opened Foundation
  import opened Bytes
  import opened JpegParser

  const MAX_PACKET := 1400
  const RTP_HEADER := 12
  const JPEG_HEADER := 8
  const PAYLOAD_TYPE: byte := 26
  const DOLLAR: byte := 0x24

  // ---------------------------------------------------------------- packets

  /** What one frame's packets share. */
  datatype Frame = Frame(jpegType: byte, width: u16, height: u16, tables: seq<byte>, scan: seq<byte>,
                         timestamp: u32, ssrc: u32)

  function FixedLen(f: Frame, withTables: bool): nat {
    RTP_HEADER + JPEG_HEADER + if withTables then 4 + |f.tables| else 0
  }

  /** The tables leave room for scan data in the first packet. */
  predicate TablesFit(f: Frame) {
    f.tables == [] || FixedLen(f, true) < MAX_PACKET
  }

  predicate WithTables(f: Frame, offset: nat) { offset == 0 && f.tables != [] }

  function ChunkLen(f: Frame, offset: nat): (n: nat)
    requires TablesFit(f) && offset < |f.scan|
    ensures 0 < n <= |f.scan| - offset
  {
    var room := MAX_PACKET - FixedLen(f, WithTables(f, offset));
    if |f.scan| - offset > room then room else |f.scan| - offset
  }

  function RtpHeader(f: Frame, marker: bool, seqNo: u16): (s: seq<byte>)
    ensures |s| == RTP_HEADER
  {
    [0x80, (if marker then 0x80 else 0) + PAYLOAD_TYPE] + Be16Bytes(seqNo) + Be32Bytes(f.timestamp) + Be32Bytes(f.ssrc)
  }

  /** The quality byte is 128 with tables and 75 without, also in later packets of a frame that had tables. */
  function JpegHeader(f: Frame, offset: nat): (s: seq<byte>)
    ensures |s| == JPEG_HEADER
  {
    [0] + Be24Bytes(offset % 0x1_0000_0000)
      + [f.jpegType, if WithTables(f, offset) then 128 else 75, f.width / 8 % 0x100, f.height / 8 % 0x100]
  }

  function TableHeader(f: Frame, offset: nat): seq<byte> {
    if WithTables(f, offset) then [0, 0] + Be16Bytes(|f.tables| % 0x1_0000) + f.tables else []
  }

  function Packet(f: Frame, offset: nat, seqNo: u16): seq<byte>
    requires TablesFit(f) && offset < |f.scan|
  {
    var n := ChunkLen(f, offset);
    RtpHeader(f, offset + n >= |f.scan|, seqNo) + (JpegHeader(f, offset)
      + (TableHeader(f, offset) + f.scan[offset..offset + n]))
  }

  /** All packets of a frame from a scan offset on. */
  function Packets(f: Frame, offset: nat, seqNo: u16): seq<seq<byte>>
    requires TablesFit(f)
    decreases |f.scan| - offset
  {
    if offset >= |f.scan| then []
    else [Packet(f, offset, seqNo)] + Packets(f, offset + ChunkLen(f, offset), NextSeq(seqNo))
  }

  /** The scan offset of every packet. */
  function Offsets(f: Frame, offset: nat): seq<nat>
    requires TablesFit(f)
    decreases |f.scan| - offset
  {
    if offset >= |f.scan| then [] else [offset] + Offsets(f, offset + ChunkLen(f, offset))
  }

  /** RFC 2326 section 10.12: a dollar sign, a channel, a length and the data. */
  function Interleave(packet: seq<byte>): seq<byte> {
    [DOLLAR, 0] + Be16Bytes(|packet| % 0x1_0000) + packet
  }

  function Wire(packets: seq<seq<byte>>): seq<byte> {
    if packets == [] then [] else Interleave(packets[0]) + Wire(packets[1..])
  }

  // ---------------------------------------------------------------- building and sending

  method WriteBe16(p: array<byte>, at: nat, v: u16)
    requires at + 2 <= p.Length
    modifies p
    ensures p[..] == old(p[..at]) + Be16Bytes(v) + old(p[at + 2..])
  {
    p[at] := v / 0x100;
    p[at + 1] := v % 0x100;
  }

  method WriteBe24(p: array<byte>, at: nat, v: u32)
    requires at + 3 <= p.Length
    modifies p
    ensures p[..] == old(p[..at]) + Be24Bytes(v) + old(p[at + 3..])
  {
    p[at] := v / 0x1_0000 % 0x100;
    p[at + 1] := v / 0x100 % 0x100;
    p[at + 2] := v % 0x100;
  }

  method WriteBe32(p: array<byte>, at: nat, v: u32)
    requires at + 4 <= p.Length
    modifies p
    ensures p[..] == old(p[..at]) + Be32Bytes(v) + old(p[at + 4..])
  {
    var b := Be32Bytes(v);
    p[at], p[at + 1], p[at + 2], p[at + 3] := b[0], b[1], b[2], b[3];
  }

  method CopyBytes(p: array<byte>, at: nat, data: seq<byte>)
    requires at + |data| <= p.Length
    modifies p
    ensures p[..] == old(p[..at]) + data + old(p[at + |data|..])
  {
    forall k | 0 <= k < |data| { p[at + k] := data[k]; }
  }

  method WriteRtpHeader(pkt: array<byte>, f: Frame, marker: bool, seqNo: u16)
    requires RTP_HEADER <= pkt.Length
    modifies pkt
    ensures pkt[..RTP_HEADER] == RtpHeader(f, marker, seqNo)
  {
    pkt[0] := 0x80;
    pkt[1] := (if marker then 0x80 else 0) + PAYLOAD_TYPE;
    WriteBe16(pkt, 2, seqNo);
    assert pkt[..4] == [0x80, (if marker then 0x80 else 0) + PAYLOAD_TYPE] + Be16Bytes(seqNo);
    WriteBe32(pkt, 4, f.timestamp);
    WriteBe32(pkt, 8, f.ssrc);
  }

  method WriteJpegHeader(pkt: array<byte>, f: Frame, offset: nat)
    requires RTP_HEADER + JPEG_HEADER <= pkt.Length
    modifies pkt
    ensures pkt[..RTP_HEADER] == old(pkt[..RTP_HEADER])
    ensures pkt[RTP_HEADER..RTP_HEADER + JPEG_HEADER] == JpegHeader(f, offset)
  {
    pkt[12] := 0;
    WriteBe24(pkt, 13, offset % 0x1_0000_0000);
    pkt[16] := f.jpegType;
    pkt[17] := if WithTables(f, offset) then 128 else 75;
    pkt[18] := f.width / 8 % 0x100;
    pkt[19] := f.height / 8 % 0x100;
  }

  method WriteTables(pkt: array<byte>, f: Frame) returns (p: nat)
    requires WithTables(f, 0) && 24 + |f.tables| <= pkt.Length
    modifies pkt
    ensures p == 20 + |TableHeader(f, 0)| <= pkt.Length
    ensures pkt[..20] == old(pkt[..20])
    ensures pkt[20..p] == TableHeader(f, 0)
  {
    pkt[20] := 0;
    pkt[21] := 0;
    WriteBe16(pkt, 22, |f.tables| % 0x1_0000);
    assert pkt[20..24] == [0, 0] + Be16Bytes(|f.tables| % 0x1_0000);
    CopyBytes(pkt, 24, f.tables);
    p := 24 + |f.tables|;
  }

  lemma PacketParts(f: Frame, offset: nat, seqNo: u16)
    requires TablesFit(f) && offset < |f.scan|
    ensures var n := ChunkLen(f, offset);
            Packet(f, offset, seqNo) ==
            RtpHeader(f, offset + n >= |f.scan|, seqNo) + JpegHeader(f, offset) + TableHeader(f, offset)
            + f.scan[offset..offset + n]
  {
    hide RtpHeader, JpegHeader, TableHeader, ChunkLen;
  }

  method BuildPacket(f: Frame, offset: nat, seqNo: u16) returns (pkt: array<byte>)
    requires TablesFit(f) && offset < |f.scan|
    ensures fresh(pkt) && pkt[..] == Packet(f, offset, seqNo)
  {
    hide RtpHeader;
    hide JpegHeader;
    hide Be16Bytes;
    var chunk := ChunkLen(f, offset);
    pkt := new byte[FixedLen(f, WithTables(f, offset)) + chunk];
    WriteRtpHeader(pkt, f, offset + chunk >= |f.scan|, seqNo);
    WriteJpegHeader(pkt, f, offset);
    var p := 20;
    ghost var head := RtpHeader(f, offset + chunk >= |f.scan|, seqNo) + JpegHeader(f, offset);
    assert pkt[..20] == head;
    if WithTables(f, offset) {
      p := WriteTables(pkt, f);
    }
    assert pkt[..p] == head + TableHeader(f, offset);
    hide TableHeader, Packet;
    CopyBytes(pkt, p, f.scan[offset..offset + chunk]);
    PacketParts(f, offset, seqNo);
  }

  /** A connected socket: the bytes the peer got so far, and whether a send has failed. */
  class Connection {
    var wire: seq<byte>
    var broken: bool

    /** One system call: it takes a nonempty part of the data, or fails. */
    method Send(data: seq<byte>) returns (n: int)
      requires data != []
      modifies this
      ensures n <= |data|
      ensures n > 0 ==> wire == old(wire) + data[..n] && broken == old(broken)
      ensures n <= 0 ==> wire == old(wire) && broken
    {
      n := *;
      if 0 < n <= |data| {
        wire := wire + data[..n];
      } else {
        n := -1;
        broken := true;
      }
    }

    /** Send everything, however the system cuts it up; after a failure the peer has a prefix. */
    method SendAll(data: seq<byte>) returns (ok: bool)
      requires !broken
      modifies this
      ensures ok == !broken
      ensures ok ==> wire == old(wire) + data
      ensures old(wire) <= wire <= old(wire) + data
    {
      var sent := 0;
      while sent < |data|
        invariant 0 <= sent <= |data| && !broken
        invariant wire == old(wire) + data[..sent]
      {
        var n := Send(data[sent..]);
        if n <= 0 { return false; }
        assert data[..sent] + data[sent..][..n] == data[..sent + n];
        sent := sent + n;
      }
      ok := true;
    }
  }

  function TimestampOf(ptsMs: int): u32 {
    Max(ptsMs, 0) * 90000 % 0x1_0000_0000_0000_0000 / 1000 % 0x1_0000_0000
  }

  /** The RTP clock runs at 90 ticks a millisecond, modulo 2^32, as long as the product of the source fits 64 bits;
      times before the epoch count as 0. */
  lemma TimestampTicks(ptsMs: int)
    ensures ptsMs <= 0 ==> TimestampOf(ptsMs) == 0
    ensures 0 <= ptsMs * 90000 < 0x1_0000_0000_0000_0000 ==> TimestampOf(ptsMs) == ptsMs * 90 % 0x1_0000_0000
  {
    if 0 < ptsMs { assert ptsMs * 90000 / 1000 == ptsMs * 90; }
  }

  /** At the first time whose product does not fit, the clock falls back. */
  lemma TimestampWraps()
    ensures TimestampOf(204963823041217) == 204963823041217 * 90 % 0x1_0000_0000
    ensures TimestampOf(204963823041218) == 68 != 204963823041218 * 90 % 0x1_0000_0000
  {
  }

  /** The first packet takes tables of up to 1375 bytes. */
  lemma TablesLimit(f: Frame)
    ensures TablesFit(f) <==> |f.tables| <= 1375
  {
  }

  function FrameOf(jpeg: seq<byte>, ptsMs: int, ssrc: u32): Option<Frame> {
    match Parse(jpeg, DEFAULT_INFO)
    case None => None
    case Some(info) =>
      if info.scanStart + info.scanSize > |jpeg| then None
      else Some(Frame(info.jpegType, info.width, info.height, info.tables,
                      jpeg[info.scanStart..info.scanStart + info.scanSize], TimestampOf(ptsMs), ssrc))
  }

  /** Every image the parser accepts becomes a frame with a nonempty scan. */
  lemma FrameOfParsed(jpeg: seq<byte>, ptsMs: int, ssrc: u32)
    ensures FrameOf(jpeg, ptsMs, ssrc).Some? <==> Parse(jpeg, DEFAULT_INFO).Some?
    ensures FrameOf(jpeg, ptsMs, ssrc).Some? ==> FrameOf(jpeg, ptsMs, ssrc).value.scan != []
  {
    if Parse(jpeg, DEFAULT_INFO).Some? { ParseInBounds(jpeg, DEFAULT_INFO); }
  }

  /** One packet behind its interleaving header. */
  method SendPacket(conn: Connection, pkt: array<byte>) returns (ok: bool)
    requires !conn.broken
    modifies conn
    ensures ok == !conn.broken
    ensures ok ==> conn.wire == old(conn.wire) + Interleave(pkt[..])
    ensures old(conn.wire) <= conn.wire <= old(conn.wire) + Interleave(pkt[..])
  {
    var tcpHeader := [DOLLAR, 0] + Be16Bytes(pkt.Length % 0x1_0000);
    assert Interleave(pkt[..]) == tcpHeader + pkt[..];
    ok := conn.SendAll(tcpHeader);
    if !ok {
      PrefixExtends(conn.wire, old(conn.wire) + tcpHeader, pkt[..]);
      assert old(conn.wire) + tcpHeader + pkt[..] == old(conn.wire) + Interleave(pkt[..]);
      return;
    }
    ok := conn.SendAll(pkt[..]);
    assert old(conn.wire) + tcpHeader + pkt[..] == old(conn.wire) + Interleave(pkt[..]);
  }

  lemma PrefixExtends(a: seq<byte>, b: seq<byte>, c: seq<byte>)
    requires a <= b
    ensures a <= b + c
  {
  }

  /** What is left to send at some offset is one packet and what is left behind it. */
  lemma NextPacket(f: Frame, offset: nat, seqNo: u16, before: seq<byte>)
    requires TablesFit(f) && offset < |f.scan|
    ensures var pkt, left := Packet(f, offset, seqNo), Packets(f, offset + ChunkLen(f, offset), NextSeq(seqNo));
            && before + Wire(Packets(f, offset, seqNo)) == before + Interleave(pkt) + Wire(left)
            && AdvanceSeq(NextSeq(seqNo), |left|) == AdvanceSeq(seqNo, |Packets(f, offset, seqNo)|)
  {
    hide Packet, Interleave, NextSeq, AdvanceSeq, ChunkLen;
    var pkt, left := Packet(f, offset, seqNo), Packets(f, offset + ChunkLen(f, offset), NextSeq(seqNo));
    assert Packets(f, offset, seqNo) == [pkt] + left;
    assert ([pkt] + left)[1..] == left;
    assert before + (Interleave(pkt) + Wire(left)) == before + Interleave(pkt) + Wire(left);
    AdvanceNext(seqNo, |left|);
  }

  lemma NoPacketLeft(f: Frame, seqNo: u16)
    requires TablesFit(f)
    ensures Packets(f, |f.scan|, seqNo) == [] && Wire([]) == []
  {
  }

  /** Send the packets of one frame; on a socket failure the peer has a prefix of them. */
  method SendFrame(conn: Connection, f: Frame, seqNo: u16) returns (ok: bool, next: u16)
    requires !conn.broken && f.scan != []
    modifies conn
    ensures !TablesFit(f) ==> !ok && !conn.broken && conn.wire == old(conn.wire)
    ensures TablesFit(f) ==> ok == !conn.broken
    ensures TablesFit(f) ==> old(conn.wire) <= conn.wire <= old(conn.wire) + Wire(Packets(f, 0, seqNo))
    ensures ok ==> conn.wire == old(conn.wire) + Wire(Packets(f, 0, seqNo))
    ensures ok ==> next == AdvanceSeq(seqNo, |Packets(f, 0, seqNo)|)
  {
    hide Packet, Interleave, Packets, Wire, AdvanceSeq, ChunkLen, NextSeq;
    next := seqNo;
    var offset := 0;
    var firstPacket := true;
    while offset < |f.scan|
      invariant 0 <= offset <= |f.scan| && !conn.broken
      invariant firstPacket <==> offset == 0
      invariant offset == 0 || TablesFit(f)
      invariant offset == 0 ==> conn.wire == old(conn.wire)
      invariant old(conn.wire) <= conn.wire
      invariant TablesFit(f) ==>
        conn.wire + Wire(Packets(f, offset, next)) == old(conn.wire) + Wire(Packets(f, 0, seqNo))
      invariant TablesFit(f) ==>
        AdvanceSeq(next, |Packets(f, offset, next)|) == AdvanceSeq(seqNo, |Packets(f, 0, seqNo)|)
      decreases |f.scan| - offset
    {
      var withTables := firstPacket && f.tables != [];
      if FixedLen(f, withTables) >= MAX_PACKET {
        return false, next;
      }
      var chunk := ChunkLen(f, offset);
      var pkt := BuildPacket(f, offset, next);
      ghost var before, left := conn.wire, Packets(f, offset + chunk, NextSeq(next));
      NextPacket(f, offset, next, before);
      ok := SendPacket(conn, pkt);
      if !ok {
        PrefixExtends(conn.wire, before + Interleave(pkt[..]), Wire(left));
        return false, next;
      }
      next := NextSeq(next);
      offset := offset + chunk;
      firstPacket := false;
    }
    NoPacketLeft(f, next);
    AdvanceZero(next);
    ok := true;
  }

  lemma {:induction false} WireAppend(a: seq<seq<byte>>, b: seq<seq<byte>>)
    ensures Wire(a + b) == Wire(a) + Wire(b)
  {
    if a == [] {
      assert a + b == b;
    } else {
      assert (a + b)[0] == a[0] && (a + b)[1..] == a[1..] + b;
      WireAppend(a[1..], b);
    }
  }

  /** Send one encoded frame; a frame that is not a usable JPEG is skipped without an error. */
  method SendMjpegRtpFrame(conn: Connection, jpeg: array<byte>, ptsMs: int, seqNo: u16, ssrc: u32)
    returns (ok: bool, next: u16)
    requires !conn.broken
    modifies conn
    ensures var frame := FrameOf(jpeg[..], ptsMs, ssrc);
            if frame.None? then ok && next == seqNo && conn.wire == old(conn.wire) && !conn.broken
            else if !TablesFit(frame.value) then !ok && conn.wire == old(conn.wire) && !conn.broken
            else
              var packets := Packets(frame.value, 0, seqNo);
              && ok == !conn.broken
              && old(conn.wire) <= conn.wire <= old(conn.wire) + Wire(packets)
              && (ok ==> conn.wire == old(conn.wire) + Wire(packets) && next == AdvanceSeq(seqNo, |packets|))
  {
    var parsed := ParseJpegForRtp(jpeg, DEFAULT_INFO);
    FrameOfParsed(jpeg[..], ptsMs, ssrc);
    if parsed.None? {
      return true, seqNo;
    }
    var info := parsed.value;
    ParseInBounds(jpeg[..], DEFAULT_INFO);
    var f := Frame(info.jpegType, info.width, info.height, info.tables,
                   jpeg[info.scanStart..info.scanStart + info.scanSize], TimestampOf(ptsMs), ssrc);
    assert f.scan == jpeg[..][info.scanStart..info.scanStart + info.scanSize];
    assert FrameOf(jpeg[..], ptsMs, ssrc) == Some(f);
    ok, next := SendFrame(conn, f, seqNo);
  }

  /** What one wait for a frame gives: nothing in time, or an encoded frame. */
  datatype Waited = NoFrame | Encoded(data: seq<byte>, ptsMs: int)

  /** The frames a session sends, up to the first whose tables do not fit. */
  function SessionFrames(waits: seq<Waited>, ssrc: u32): seq<Frame> {
    if waits == [] then []
    else
      var rest := SessionFrames(waits[1..], ssrc);
      if waits[0].NoFrame? || waits[0].data == [] then rest
      else
        match FrameOf(waits[0].data, waits[0].ptsMs, ssrc)
        case None => rest
        case Some(f) => if TablesFit(f) then [f] + rest else []
  }

  predicate Sendable(frames: seq<Frame>) {
    forall f | f in frames :: TablesFit(f) && f.scan != []
  }

  /** The packets of several frames share one sequence. */
  function SessionPackets(frames: seq<Frame>, seqNo: u16): seq<seq<byte>>
    requires Sendable(frames)
  {
    if frames == [] then []
    else
      var first := Packets(frames[0], 0, seqNo);
      first + SessionPackets(frames[1..], AdvanceSeq(seqNo, |first|))
  }

  lemma {:induction false} SessionSendable(waits: seq<Waited>, ssrc: u32)
    ensures Sendable(SessionFrames(waits, ssrc))
  {
    if waits != [] {
      SessionSendable(waits[1..], ssrc);
      if waits[0].Encoded? { FrameOfParsed(waits[0].data, waits[0].ptsMs, ssrc); }
    }
  }

  const SSRC: u32 := 0x54524653

  /** The streaming loop over everything the stream service delivers while the server runs. */
  method StreamMjpegOverTcp(conn: Connection, waits: seq<Waited>) returns (ok: bool)
    requires !conn.broken
    modifies conn
    ensures Sendable(SessionFrames(waits, SSRC))
    ensures old(conn.wire) <= conn.wire <= old(conn.wire) + Wire(SessionPackets(SessionFrames(waits, SSRC), 0))
    ensures !conn.broken ==>
      conn.wire == old(conn.wire) + Wire(SessionPackets(SessionFrames(waits, SSRC), 0))
    ensures ok ==> !conn.broken
  {
    hide Packets;
    SessionSendable(waits, SSRC);
    var seqNo: u16 := 0;
    for i := 0 to |waits|
      invariant !conn.broken && old(conn.wire) <= conn.wire
      invariant Sendable(SessionFrames(waits[i..], SSRC))
      invariant conn.wire + Wire(SessionPackets(SessionFrames(waits[i..], SSRC), seqNo))
             == old(conn.wire) + Wire(SessionPackets(SessionFrames(waits, SSRC), 0))
    {
      assert waits[i..][1..] == waits[i + 1..];
      SessionSendable(waits[i + 1..], SSRC);
      if waits[i].NoFrame? || waits[i].data == [] { continue; }
      var jpeg := new byte[|waits[i].data|](k requires 0 <= k < |waits[i].data| => waits[i].data[k]);
      assert jpeg[..] == waits[i].data;
      ghost var before, start, frame := conn.wire, seqNo, FrameOf(waits[i].data, waits[i].ptsMs, SSRC);
      ghost var rest := SessionFrames(waits[i + 1..], SSRC);
      if frame.Some? && TablesFit(frame.value) {
        SessionStep(frame.value, rest, start, before);
      }
      ok, seqNo := SendMjpegRtpFrame(conn, jpeg, waits[i].ptsMs, seqNo, SSRC);
      if !ok {
        if TablesFit(frame.value) {
          var packets := Packets(frame.value, 0, start);
          PrefixExtends(conn.wire, before + Wire(packets), Wire(SessionPackets(rest, AdvanceSeq(start, |packets|))));
        }
        return false;
      }
    }
    ok := true;
  }

  lemma SessionStep(f: Frame, rest: seq<Frame>, seqNo: u16, before: seq<byte>)
    requires Sendable([f] + rest) && Sendable(rest)
    ensures var packets := Packets(f, 0, seqNo);
            before + Wire(SessionPackets([f] + rest, seqNo))
            == before + Wire(packets) + Wire(SessionPackets(rest, AdvanceSeq(seqNo, |packets|)))
  {
    assert ([f] + rest)[1..] == rest;
    var packets := Packets(f, 0, seqNo);
    WireAppend(packets, SessionPackets(rest, AdvanceSeq(seqNo, |packets|)));
  }
}
