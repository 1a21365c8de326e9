/** The JPEG marker parser of the RTP/JPEG sender (src/protocol/rtsp/RtspServer.cpp lines 513-655). */
module JpegParser {
  import opened Foundation
  import opened Bytes

  /** What a packetiser needs to know of one JPEG image; the scan is a range of its bytes. */
  datatype JpegInfo = JpegInfo(
    width: u16, height: u16, jpegType: byte, tables: seq<byte>, scanStart: nat, scanSize: nat)

  /** The field values of a fresh record; a JPEG without a frame header keeps this size. */
  const DEFAULT_INFO := JpegInfo(800, 600, 1, [], 0, 0)

  const SOI: byte := 0xD8
  const EOI: byte := 0xD9
  const SOS: byte := 0xDA
  const DQT: byte := 0xDB
  const SOF0: byte := 0xC0

  predicate IsStandalone(marker: byte) {
    marker == 0x01 || 0xD0 <= marker <= 0xD7
  }

  // ---------------------------------------------------------------- the parse as a function

  function SkipFill(s: seq<byte>, pos: nat): (p: nat)
    requires pos <= |s|
    ensures pos <= p <= |s|
    ensures forall k :: pos <= k < p ==> s[k] == 0xFF
    ensures p < |s| ==> s[p] != 0xFF
    decreases |s| - pos
  {
    if pos < |s| && s[pos] == 0xFF then SkipFill(s, pos + 1) else pos
  }

  predicate EoiAt(s: seq<byte>, i: nat) {
    i + 1 < |s| && s[i] == 0xFF && s[i + 1] == EOI
  }

  /** The end-of-image marker at or behind `i`, or the end of the data. */
  function FindEoi(s: seq<byte>, i: nat): (e: nat)
    requires i <= |s|
    ensures i <= e <= |s|
    ensures e == |s| || EoiAt(s, e)
    ensures forall k :: i <= k < e ==> !EoiAt(s, k)
    decreases |s| - i
  {
    if i + 1 >= |s| then |s|
    else if EoiAt(s, i) then i
    else FindEoi(s, i + 1)
  }

  /** The elements of the 8-bit tables of a quantisation segment; 16-bit or cut tables are refused. */
  function ReadTables(data: seq<byte>): Option<seq<byte>> {
    if data == [] then Some([])
    else if data[0] / 16 != 0 || |data| < 65 then None
    else
      var rest := ReadTables(data[65..]);
      if rest.None? then None else Some(data[1..65] + rest.value)
  }

  function ReadFrameHeader(data: seq<byte>, info: JpegInfo): Option<JpegInfo> {
    if |data| < 8 || data[0] != 8 then None
    else
      var sized := info.(height := Be16(data[1..3]), width := Be16(data[3..5]));
      if data[5] >= 3 && |data| >= 15 then
        Some(sized.(jpegType := if data[7] / 16 == 2 && data[7] % 16 == 2 then 0 else 1))
      else Some(sized)
  }

  function ReadSegment(marker: byte, data: seq<byte>, info: JpegInfo): Option<JpegInfo> {
    if marker == DQT then
      var tables := ReadTables(data);
      if tables.None? then None else Some(info.(tables := info.tables + tables.value))
    else if marker == SOF0 then ReadFrameHeader(data, info)
    else Some(info)
  }

  /** Where the marker scan ends: the record so far and the scan range, whose start is 0 when none was found. */
  datatype Scanned = Scanned(info: JpegInfo, scanStart: nat, scanEnd: nat)

  /** One turn of the marker loop: stop with a result, or go on elsewhere. */
  datatype Turn = Stop(result: Option<Scanned>) | GoOn(pos: nat, info: JpegInfo)

  function MarkerTurn(s: seq<byte>, pos: nat, info: JpegInfo): (t: Turn)
    requires pos + 4 <= |s|
    ensures t.GoOn? ==> pos < t.pos <= |s|
  {
    if s[pos] != 0xFF then GoOn(pos + 1, info)
    else
      var at := SkipFill(s, pos);
      if at >= |s| || s[at] == EOI then Stop(Some(Scanned(info, 0, |s|)))
      else if IsStandalone(s[at]) then GoOn(at + 1, info)
      else SegmentTurn(s, at, info)
  }

  /** A segment whose marker byte is at `at`. */
  function SegmentTurn(s: seq<byte>, at: nat, info: JpegInfo): (t: Turn)
    requires at < |s|
    ensures t.GoOn? ==> at < t.pos <= |s|
  {
    var p := at + 1;
    if p + 2 > |s| then Stop(None)
    else
      var length := Be16(s[p..p + 2]);
      if length < 2 || p + length > |s| then Stop(None)
      else PayloadTurn(s, s[at], s[p + 2..p + length], p + length, info)
  }

  /** The effect of a segment whose payload ends at `next`. */
  function PayloadTurn(s: seq<byte>, marker: byte, payload: seq<byte>, next: nat, info: JpegInfo): (t: Turn)
    requires next <= |s|
    ensures t.GoOn? ==> t.pos == next
  {
    var read := ReadSegment(marker, payload, info);
    if read.None? then Stop(None)
    else if marker == SOS then Stop(Some(Scanned(read.value, next, FindEoi(s, next))))
    else GoOn(next, read.value)
  }

  function ScanMarkers(s: seq<byte>, pos: nat, info: JpegInfo): Option<Scanned>
    requires pos <= |s|
    decreases |s| - pos
  {
    if pos + 4 > |s| then Some(Scanned(info, 0, |s|))
    else
      match MarkerTurn(s, pos, info)
      case Stop(result) => result
      case GoOn(next, info1) => ScanMarkers(s, next, info1)
  }

  function Parse(s: seq<byte>, init: JpegInfo): Option<JpegInfo> {
    if |s| < 16 || s[0] != 0xFF || s[1] != SOI then None
    else
      var scanned := ScanMarkers(s, 2, init.(tables := []));
      if scanned.None? then None else Finish(|s|, scanned.value)
  }

  function Finish(size: nat, r: Scanned): Option<JpegInfo> {
    if r.scanStart == 0 || r.scanStart >= size || r.scanEnd <= r.scanStart then None
    else if r.info.width == 0 || r.info.height == 0 then None
    else Some(r.info.(scanStart := r.scanStart, scanSize := r.scanEnd - r.scanStart))
  }

  // ---------------------------------------------------------------- the loops of the source

  /** Taking the first table off the data. */
  lemma FirstTable(data: seq<byte>)
    requires |data| >= 65 && data[0] / 16 == 0
    ensures ReadTables(data).Some? == ReadTables(data[65..]).Some?
    ensures ReadTables(data).Some? ==> ReadTables(data).value == data[1..65] + ReadTables(data[65..]).value
  {
  }

  /** The inner loop over the tables of one segment. */
  method ReadTablesLoop(jpeg: array<byte>, segData: nat, qend: nat, tables: seq<byte>)
    returns (ok: bool, all: seq<byte>)
    requires segData <= qend <= jpeg.Length
    ensures ok <==> ReadTables(jpeg[segData..qend]).Some?
    ensures ok ==> all == tables + ReadTables(jpeg[segData..qend]).value
  {
    var qpos := segData;
    all := tables;
    while qpos < qend
      invariant segData <= qpos <= qend
      invariant ReadTables(jpeg[segData..qend]).Some? == ReadTables(jpeg[qpos..qend]).Some?
      invariant ReadTables(jpeg[segData..qend]).Some? ==>
        all + ReadTables(jpeg[qpos..qend]).value == tables + ReadTables(jpeg[segData..qend]).value
    {
      ghost var data: seq<byte> := jpeg[qpos..qend];
      var precision := jpeg[qpos] / 16;
      qpos := qpos + 1;
      if precision != 0 { return false, all; }
      if qpos + 64 > qend { return false, all; }
      assert forall k :: 0 <= k < |data| ==> data[k] == jpeg[qpos - 1 + k];
      assert data[65..] == jpeg[qpos + 64..qend];
      assert data[1..65] == jpeg[qpos..qpos + 64];
      FirstTable(data);
      all := all + jpeg[qpos..qpos + 64];
      qpos := qpos + 64;
    }
    ok := true;
  }

  method FindEoiLoop(jpeg: array<byte>, scanStart: nat) returns (scanEnd: nat)
    requires scanStart <= jpeg.Length
    ensures scanEnd == FindEoi(jpeg[..], scanStart)
  {
    scanEnd := jpeg.Length;
    var i := scanStart;
    while i + 1 < jpeg.Length
      invariant scanStart <= i <= jpeg.Length
      invariant FindEoi(jpeg[..], scanStart) == FindEoi(jpeg[..], i)
    {
      if jpeg[i] == 0xFF && jpeg[i + 1] == EOI {
        return i;
      }
      i := i + 1;
    }
  }

  /** The size and sampling of a baseline frame header. */
  method ReadFrameHeaderInPlace(jpeg: array<byte>, segData: nat, end: nat, init: JpegInfo)
    returns (ok: bool, info: JpegInfo)
    requires segData <= end <= jpeg.Length
    ensures ok <==> ReadFrameHeader(jpeg[segData..end], init).Some?
    ensures ok ==> info == ReadFrameHeader(jpeg[segData..end], init).value
  {
    hide Be16;
    ghost var data := jpeg[segData..end];
    info := init;
    if end - segData < 8 { return false, info; }
    if jpeg[segData] != 8 { return false, info; }
    assert forall k :: 0 <= k < |data| ==> data[k] == jpeg[segData + k];
    assert data[1..3] == jpeg[segData + 1..segData + 3];
    assert data[3..5] == jpeg[segData + 3..segData + 5];
    info := info.(height := Be16(jpeg[segData + 1..segData + 3]), width := Be16(jpeg[segData + 3..segData + 5]));
    if jpeg[segData + 5] >= 3 && end - segData >= 15 {
      var sampling := jpeg[segData + 7];
      info := info.(jpegType := if sampling / 16 == 2 && sampling % 16 == 2 then 0 else 1);
    }
    ok := true;
  }

  method ReadSegmentInPlace(jpeg: array<byte>, marker: byte, segData: nat, end: nat, init: JpegInfo)
    returns (ok: bool, info: JpegInfo)
    requires segData <= end <= jpeg.Length
    ensures ok <==> ReadSegment(marker, jpeg[segData..end], init).Some?
    ensures ok ==> info == ReadSegment(marker, jpeg[segData..end], init).value
  {
    hide ReadTables, ReadFrameHeader;
    ok, info := true, init;
    if marker == DQT {
      var all;
      ok, all := ReadTablesLoop(jpeg, segData, end, init.tables);
      info := info.(tables := all);
    }
    if marker == SOF0 {
      ok, info := ReadFrameHeaderInPlace(jpeg, segData, end, init);
    }
  }

  /** One segment whose marker byte has been read at `at`. */
  method SegmentInPlace(jpeg: array<byte>, at: nat, info: JpegInfo) returns (turn: Turn)
    requires at < jpeg.Length
    ensures turn == SegmentTurn(jpeg[..], at, info)
  {
    ghost var s := jpeg[..];
    var pos := at + 1;
    if pos + 2 > jpeg.Length { return Stop(None); }
    assert s[pos..pos + 2] == jpeg[pos..pos + 2];
    var segLen := Be16(jpeg[pos..pos + 2]);
    if segLen < 2 || pos + segLen > jpeg.Length { return Stop(None); }
    assert s[pos + 2..pos + segLen] == jpeg[pos + 2..pos + segLen];
    var read, info1 := ReadSegmentInPlace(jpeg, jpeg[at], pos + 2, pos + segLen, info);
    if !read { return Stop(None); }
    if jpeg[at] == SOS {
      var scanEnd := FindEoiLoop(jpeg, pos + segLen);
      return Stop(Some(Scanned(info1, pos + segLen, scanEnd)));
    }
    return GoOn(pos + segLen, info1);
  }

  method ParseJpegForRtp(jpeg: array<byte>, init: JpegInfo) returns (r: Option<JpegInfo>)
    ensures r == Parse(jpeg[..], init)
  {
    if jpeg.Length < 16 { return None; }
    if jpeg[0] != 0xFF || jpeg[1] != SOI { return None; }
    ghost var s := jpeg[..];
    var info := init.(tables := []);
    ghost var all := ScanMarkers(s, 2, info);
    var scanned := Scanned(info, 0, jpeg.Length);
    var pos := 2;
    while pos + 4 <= jpeg.Length
      invariant 2 <= pos <= jpeg.Length
      invariant all == ScanMarkers(s, pos, info) && scanned == Scanned(info, 0, jpeg.Length)
      decreases jpeg.Length - pos
    {
      ghost var turn := MarkerTurn(s, pos, info);
      if jpeg[pos] != 0xFF {
        pos := pos + 1;
        continue;
      }
      ghost var at := SkipFill(s, pos);
      while pos < jpeg.Length && jpeg[pos] == 0xFF
        invariant pos <= jpeg.Length && SkipFill(s, pos) == at
      {
        pos := pos + 1;
      }
      if pos >= jpeg.Length { break; }
      var marker := jpeg[pos];
      if marker == EOI { break; }
      if IsStandalone(marker) {
        pos := pos + 1;
      } else {
        var next := SegmentInPlace(jpeg, pos, info);
        assert next == turn;
        if next.Stop? {
          if next.result.None? { return None; }
          scanned := next.result.value;
          break;
        }
        pos, info := next.pos, next.info;
      }
      scanned := Scanned(info, 0, jpeg.Length);
    }
    assert all == Some(scanned);
    r := Finish(jpeg.Length, scanned);
  }

  // ---------------------------------------------------------------- every byte string

  /** Tables of 64 elements each: `n` tables fill 65 bytes apiece and give 64 elements apiece. */
  lemma {:induction false} TablesAreWhole(data: seq<byte>) returns (n: nat)
    ensures ReadTables(data).Some? ==> |data| == 65 * n && |ReadTables(data).value| == 64 * n
  {
    n := 0;
    if data != [] && data[0] / 16 == 0 && |data| >= 65 {
      var m := TablesAreWhole(data[65..]);
      n := m + 1;
    }
  }

  predicate GoodScan(s: seq<byte>, r: Scanned) {
    && r.scanStart <= r.scanEnd <= |s|
    && |r.info.tables| % 64 == 0
    && (r.scanStart > 0 ==> r.scanEnd == FindEoi(s, r.scanStart))
  }

  lemma ReadSegmentKeepsWhole(marker: byte, data: seq<byte>, info: JpegInfo)
    requires |info.tables| % 64 == 0
    ensures ReadSegment(marker, data, info).Some? ==> |ReadSegment(marker, data, info).value.tables| % 64 == 0
  {
    hide ReadTables;
    hide ReadFrameHeader;
    var n := TablesAreWhole(data);
    var k := |info.tables| / 64;
    if marker == DQT && ReadTables(data).Some? {
      assert |info.tables + ReadTables(data).value| == 64 * (k + n);
    } else if marker == SOF0 && ReadFrameHeader(data, info).Some? {
      FrameHeaderKeepsTables(data, info);
    }
  }

  lemma FrameHeaderKeepsTables(data: seq<byte>, info: JpegInfo)
    ensures ReadFrameHeader(data, info).Some? ==> ReadFrameHeader(data, info).value.tables == info.tables
  {
  }

  lemma MarkerTurnGood(s: seq<byte>, pos: nat, info: JpegInfo)
    requires pos + 4 <= |s| && |info.tables| % 64 == 0
    ensures match MarkerTurn(s, pos, info)
            case Stop(result) => result.Some? ==> GoodScan(s, result.value)
            case GoOn(_, info1) => |info1.tables| % 64 == 0
  {
    hide ReadTables;
    hide ReadFrameHeader;
    var at := SkipFill(s, pos);
    if at + 3 <= |s| {
      var p := at + 1;
      var length := Be16(s[p..p + 2]);
      if 2 <= length && p + length <= |s| { ReadSegmentKeepsWhole(s[at], s[p + 2..p + length], info); }
    }
  }

  lemma {:induction false} ScanMarkersGood(s: seq<byte>, pos: nat, info: JpegInfo)
    requires pos <= |s| && |info.tables| % 64 == 0
    ensures ScanMarkers(s, pos, info).Some? ==> GoodScan(s, ScanMarkers(s, pos, info).value)
    decreases |s| - pos
  {
    if pos + 4 <= |s| {
      MarkerTurnGood(s, pos, info);
      var turn := MarkerTurn(s, pos, info);
      if turn.GoOn? { ScanMarkersGood(s, turn.pos, turn.info); }
    }
  }

  /** On every byte string an accepted image has a nonempty scan inside the data that ends at the first
      end-of-image marker or at the end, whole tables and a nonzero size. */
  lemma ParseInBounds(s: seq<byte>, init: JpegInfo)
    requires Parse(s, init).Some?
    ensures var info := Parse(s, init).value;
            && 0 < info.scanStart && 0 < info.scanSize && info.scanStart + info.scanSize <= |s|
            && info.scanStart + info.scanSize == FindEoi(s, info.scanStart)
            && |info.tables| % 64 == 0
            && info.width > 0 && info.height > 0
  {
    ScanMarkersGood(s, 2, init.(tables := []));
  }

  // ---------------------------------------------------------------- images laid out by the standard

  /** A quantisation table with 8-bit elements (section B.2.4.1 of ITU-T T.81). */
  datatype Table = Table(id: byte, elements: seq<byte>)

  /** A marker segment, preceded by any number of fill bytes (section B.1.1.2), or a stray byte, which the standard
      does not have between segments but the parser passes over. */
  datatype Segment =
    | QuantTables(fill: nat, tables: seq<Table>)
    | FrameHeader(fill: nat, height: u16, width: u16, components: seq<byte>)
    | OtherSegment(fill: nat, marker: byte, payload: seq<byte>)
    | Standalone(fill: nat, marker: byte)
    | Stray(value: byte)

  function Fill(n: nat): (s: seq<byte>)
    ensures |s| == n && forall k :: 0 <= k < n ==> s[k] == 0xFF
  {
    seq(n, _ => 0xFF)
  }

  function TableBytes(tables: seq<Table>): seq<byte> {
    if tables == [] then [] else [tables[0].id] + tables[0].elements + TableBytes(tables[1..])
  }

  function Elements(tables: seq<Table>): seq<byte> {
    if tables == [] then [] else tables[0].elements + Elements(tables[1..])
  }

  function Marker(segment: Segment): byte {
    match segment
    case QuantTables(_, _) => 0xDB
    case FrameHeader(_, _, _, _) => 0xC0
    case OtherSegment(_, marker, _) => marker
    case Standalone(_, marker) => marker
    case Stray(value) => value
  }

  function Payload(segment: Segment): seq<byte> {
    match segment
    case QuantTables(_, tables) => TableBytes(tables)
    case FrameHeader(_, height, width, components) => [8] + Be16Bytes(height) + Be16Bytes(width) + components
    case OtherSegment(_, _, payload) => payload
    case Standalone(_, _) => []
    case Stray(_) => []
  }

  predicate WellFormed(segment: Segment) {
    && |Payload(segment)| + 2 < 0x1_0000
    && match segment
       case QuantTables(_, tables) => forall t | t in tables :: t.id < 16 && |t.elements| == 64
       case FrameHeader(_, _, _, components) => |components| >= 3
       case OtherSegment(_, m, _) => m !in {0xDB, 0xC0, 0xDA, 0xD9, 0xFF, 0x01} && !(0xD0 <= m <= 0xD7)
       case Standalone(_, m) => m == 0x01 || 0xD0 <= m <= 0xD7
       case Stray(value) => value != 0xFF
  }

  function WithLength(payload: seq<byte>): seq<byte>
    requires |payload| + 2 < 0x1_0000
  {
    Be16Bytes(|payload| + 2) + payload
  }

  function Encode(segment: Segment): seq<byte>
    requires WellFormed(segment)
  {
    if segment.Stray? then [segment.value]
    else Fill(segment.fill) + [0xFF, Marker(segment)] + if segment.Standalone? then [] else WithLength(Payload(segment))
  }

  function EncodeAll(segments: seq<Segment>): seq<byte>
    requires forall g | g in segments :: WellFormed(g)
  {
    if segments == [] then [] else Encode(segments[0]) + EncodeAll(segments[1..])
  }

  /** Start of image, segments, the scan header, the entropy-coded scan, and either end of image and anything after it
      or nothing more. */
  datatype Image = Image(
    segments: seq<Segment>, scanFill: nat, scanHeader: seq<byte>, scan: seq<byte>, trailer: Option<seq<byte>>)

  function Ending(trailer: Option<seq<byte>>): seq<byte> {
    if trailer.Some? then [0xFF, 0xD9] + trailer.value else []
  }

  predicate NoEoi(s: seq<byte>) {
    forall k :: 0 <= k < |s| ==> !EoiAt(s, k)
  }

  predicate ImageWellFormed(image: Image) {
    && (forall g | g in image.segments :: WellFormed(g))
    && |image.scanHeader| + 2 < 0x1_0000
    && NoEoi(image.scan)
  }

  /** The length and header of the scan, the scan, and what follows it. */
  function ScanAndRest(image: Image): seq<byte>
    requires ImageWellFormed(image)
  {
    WithLength(image.scanHeader) + (image.scan + Ending(image.trailer))
  }

  function AfterSegments(image: Image): seq<byte>
    requires ImageWellFormed(image)
  {
    Fill(image.scanFill) + [0xFF, 0xDA] + ScanAndRest(image)
  }

  function Layout(image: Image): seq<byte>
    requires ImageWellFormed(image)
  {
    [0xFF, 0xD8] + (EncodeAll(image.segments) + AfterSegments(image))
  }

  /** What one segment says, read off its fields: tables accumulate, a later frame header replaces an earlier. */
  function Says(segment: Segment, info: JpegInfo): JpegInfo {
    match segment
    case QuantTables(_, tables) => info.(tables := info.tables + Elements(tables))
    case FrameHeader(_, height, width, components) =>
      var sized := info.(height := height, width := width);
      if |components| >= 10 && components[0] >= 3 then
        sized.(jpegType := if components[2] == 0x22 then 0 else 1)
      else sized
    case _ => info
  }

  function Described(segments: seq<Segment>, info: JpegInfo): JpegInfo {
    if segments == [] then info else Described(segments[1..], Says(segments[0], info))
  }

  lemma {:induction false} ReadTablesOfTables(tables: seq<Table>)
    requires forall t | t in tables :: t.id < 16 && |t.elements| == 64
    ensures ReadTables(TableBytes(tables)) == Some(Elements(tables))
  {
    if tables != [] {
      var data := TableBytes(tables);
      assert data[1..65] == tables[0].elements && data[65..] == TableBytes(tables[1..]);
      ReadTablesOfTables(tables[1..]);
    }
  }

  lemma ReadPayload(segment: Segment, info: JpegInfo)
    requires WellFormed(segment) && !segment.Standalone? && !segment.Stray?
    ensures ReadSegment(Marker(segment), Payload(segment), info) == Some(Says(segment, info))
  {
    match segment {
      case QuantTables(_, tables) => ReadTablesOfTables(tables);
      case FrameHeader(_, height, width, components) =>
        var data := Payload(segment);
        assert data[1..3] == Be16Bytes(height) && data[3..5] == Be16Bytes(width);
        assert data[5] == components[0] && data[7] == components[2];
      case OtherSegment(_, _, _) =>
      case Standalone(_, _) =>
      case Stray(_) =>
    }
  }

  lemma {:induction false} SkipsFill(s: seq<byte>, pos: nat, n: nat)
    requires pos + n < |s| && s[pos + n] != 0xFF
    requires forall k :: pos <= k < pos + n ==> s[k] == 0xFF
    ensures SkipFill(s, pos) == pos + n
    decreases n
  {
    if n > 0 { SkipsFill(s, pos + 1, n - 1); }
  }

  /** Fill bytes and a marker byte found at `pos`. */
  predicate MarkerAt(s: seq<byte>, pos: nat, fill: nat, marker: byte) {
    && pos + fill + 2 <= |s|
    && (forall k :: pos <= k < pos + fill + 1 ==> s[k] == 0xFF)
    && s[pos + fill + 1] == marker
  }

  /** A length and payload found at `pos`. */
  predicate BodyAt(s: seq<byte>, pos: nat, payload: seq<byte>) {
    && |payload| + 2 < 0x1_0000
    && pos + 2 + |payload| <= |s|
    && s[pos..pos + 2] == Be16Bytes(|payload| + 2)
    && s[pos + 2..pos + 2 + |payload|] == payload
  }

  lemma EncodedMarkerAt(s: seq<byte>, pos: nat, fill: nat, marker: byte, tail: seq<byte>)
    requires pos <= |s| && s[pos..] == Fill(fill) + [0xFF, marker] + tail
    ensures MarkerAt(s, pos, fill, marker) && s[pos + fill + 2..] == tail
  {
    var e := Fill(fill) + [0xFF, marker] + tail;
    assert forall k :: 0 <= k < |e| ==> s[pos + k] == e[k];
    assert forall k :: pos <= k < pos + fill + 1 ==> s[k] == e[k - pos];
    assert s[pos + fill + 2..] == e[fill + 2..];
  }

  lemma EncodedBodyAt(s: seq<byte>, pos: nat, payload: seq<byte>, tail: seq<byte>)
    requires |payload| + 2 < 0x1_0000
    requires pos <= |s| && s[pos..] == WithLength(payload) + tail
    ensures BodyAt(s, pos, payload) && s[pos + 2 + |payload|..] == tail
  {
    var e := WithLength(payload) + tail;
    assert s[pos..pos + 2] == s[pos..][..2] == e[..2];
    assert s[pos + 2..pos + 2 + |payload|] == s[pos..][2..2 + |payload|] == e[2..2 + |payload|];
    assert s[pos + 2 + |payload|..] == s[pos..][2 + |payload|..] == e[2 + |payload|..];
  }

  lemma TurnAtMarker(s: seq<byte>, pos: nat, fill: nat, marker: byte, info: JpegInfo)
    requires MarkerAt(s, pos, fill, marker) && pos + 4 <= |s|
    requires marker != 0xFF && marker != EOI
    ensures MarkerTurn(s, pos, info) ==
            if IsStandalone(marker) then GoOn(pos + fill + 2, info) else SegmentTurn(s, pos + fill + 1, info)
  {
    SkipsFill(s, pos, fill + 1);
  }

  lemma TurnAtBody(s: seq<byte>, at: nat, payload: seq<byte>, info: JpegInfo)
    requires at < |s| && BodyAt(s, at + 1, payload)
    ensures SegmentTurn(s, at, info) == PayloadTurn(s, s[at], payload, at + 3 + |payload|, info)
  {
    assert Be16(s[at + 1..at + 3]) == |payload| + 2;
  }

  predicate SegmentAt(s: seq<byte>, pos: nat, segment: Segment)
    requires WellFormed(segment)
  {
    && pos + |Encode(segment)| <= |s|
    && if segment.Stray? then pos < |s| && s[pos] == segment.value
       else
         && MarkerAt(s, pos, segment.fill, Marker(segment))
         && (!segment.Standalone? ==> BodyAt(s, pos + segment.fill + 2, Payload(segment)))
  }

  lemma EncodedStrayAt(s: seq<byte>, pos: nat, value: byte, tail: seq<byte>)
    requires pos <= |s| && s[pos..] == [value] + tail
    ensures pos < |s| && s[pos] == value && s[pos + 1..] == tail
  {
    assert s[pos] == s[pos..][0] && s[pos + 1..] == s[pos..][1..];
  }

  /** What a segment other than a stray byte has behind its marker. */
  function Body(segment: Segment): seq<byte>
    requires WellFormed(segment)
  {
    if segment.Standalone? || segment.Stray? then [] else WithLength(Payload(segment))
  }

  lemma EncodeMarked(segment: Segment)
    requires WellFormed(segment) && !segment.Stray?
    ensures Encode(segment) == Fill(segment.fill) + [0xFF, Marker(segment)] + Body(segment)
  {
  }

  lemma SegmentAtParts(s: seq<byte>, pos: nat, segment: Segment)
    requires WellFormed(segment) && !segment.Stray? && pos + |Encode(segment)| <= |s|
    requires MarkerAt(s, pos, segment.fill, Marker(segment))
    requires !segment.Standalone? ==> BodyAt(s, pos + segment.fill + 2, Payload(segment))
    ensures SegmentAt(s, pos, segment)
  {
  }

  lemma AppendAppend(a: seq<byte>, b: seq<byte>, c: seq<byte>)
    ensures (a + b) + c == a + (b + c)
  {
  }

  lemma MarkedSegmentAt(s: seq<byte>, pos: nat, segment: Segment, tail: seq<byte>)
    requires WellFormed(segment) && !segment.Stray?
    requires pos <= |s| && s[pos..] == Encode(segment) + tail
    ensures SegmentAt(s, pos, segment) && s[pos + |Encode(segment)|..] == tail
  {
    hide Payload, Marker, WellFormed, SegmentAt, MarkerAt, BodyAt, Encode, Fill;
    var body := Body(segment);
    EncodeMarked(segment);
    AppendAppend(Fill(segment.fill) + [0xFF, Marker(segment)], body, tail);
    EncodedMarkerAt(s, pos, segment.fill, Marker(segment), body + tail);
    if segment.Standalone? {
      assert body + tail == tail;
    } else {
      PayloadFits(segment);
      EncodedBodyAt(s, pos + segment.fill + 2, Payload(segment), tail);
    }
    SegmentAtParts(s, pos, segment);
  }

  lemma PayloadFits(segment: Segment)
    requires WellFormed(segment)
    ensures |Payload(segment)| + 2 < 0x1_0000
  {
  }

  lemma EncodedSegmentAt(s: seq<byte>, pos: nat, segment: Segment, tail: seq<byte>)
    requires WellFormed(segment)
    requires pos <= |s| && s[pos..] == Encode(segment) + tail
    ensures SegmentAt(s, pos, segment) && s[pos + |Encode(segment)|..] == tail
  {
    if segment.Stray? {
      EncodedStrayAt(s, pos, segment.value, tail);
    } else {
      MarkedSegmentAt(s, pos, segment, tail);
    }
    hide Marker, Fill, MarkerAt, BodyAt, Payload;
  }

  lemma TurnAtStray(s: seq<byte>, pos: nat, info: JpegInfo)
    requires pos + 4 <= |s| && s[pos] != 0xFF
    ensures MarkerTurn(s, pos, info) == GoOn(pos + 1, info)
  {
  }

  /** The parser passes over one encoded segment and records what it says. */
  lemma TurnAtSegment(s: seq<byte>, pos: nat, segment: Segment, info: JpegInfo)
    requires WellFormed(segment) && SegmentAt(s, pos, segment) && pos + 4 <= |s|
    ensures MarkerTurn(s, pos, info) == GoOn(pos + |Encode(segment)|, Says(segment, info))
  {
    hide MarkerTurn, SegmentTurn, ReadSegment, BodyAt, Elements, TableBytes;
    if segment.Stray? {
      TurnAtStray(s, pos, info);
    } else if segment.Standalone? {
      TurnAtMarker(s, pos, segment.fill, Marker(segment), info);
    } else {
      TurnAtMarked(s, pos, segment, info);
    }
  }

  lemma TurnAtMarked(s: seq<byte>, pos: nat, segment: Segment, info: JpegInfo)
    requires WellFormed(segment) && !segment.Stray? && !segment.Standalone?
    requires SegmentAt(s, pos, segment) && pos + 4 <= |s|
    ensures MarkerTurn(s, pos, info) == GoOn(pos + |Encode(segment)|, Says(segment, info))
  {
    hide MarkerTurn, SegmentTurn, ReadSegment, BodyAt, Payload, Says;
    MarkerOrdinary(segment);
    TurnAtMarker(s, pos, segment.fill, Marker(segment), info);
    TurnAtBody(s, pos + segment.fill + 1, Payload(segment), info);
    ReadPayload(segment, info);
  }

  lemma MarkerOrdinary(segment: Segment)
    requires WellFormed(segment) && !segment.Stray? && !segment.Standalone?
    ensures Marker(segment) !in {0xFF, 0xD9, 0xDA} && !IsStandalone(Marker(segment))
  {
  }

  /** Segments found one behind the other from `pos` on. */
  predicate SegmentsAt(s: seq<byte>, pos: nat, segments: seq<Segment>)
    requires forall g | g in segments :: WellFormed(g)
    decreases |segments|
  {
    && pos + |EncodeAll(segments)| + 4 <= |s|
    && (segments != [] ==> SegmentAt(s, pos, segments[0]) && SegmentsAt(s, pos + |Encode(segments[0])|, segments[1..]))
  }

  lemma EncodeFirst(segments: seq<Segment>, tail: seq<byte>)
    requires segments != [] && forall g | g in segments :: WellFormed(g)
    ensures var e, rest := Encode(segments[0]), EncodeAll(segments[1..]);
            EncodeAll(segments) + tail == e + (rest + tail) && |EncodeAll(segments)| == |e| + |rest|
  {
    hide Encode, WellFormed;
    AppendAppend(Encode(segments[0]), EncodeAll(segments[1..]), tail);
  }

  lemma {:induction false} EncodedSegmentsAt(s: seq<byte>, pos: nat, segments: seq<Segment>, tail: seq<byte>)
    requires forall g | g in segments :: WellFormed(g)
    requires |tail| >= 4 && pos <= |s| && s[pos..] == EncodeAll(segments) + tail
    ensures SegmentsAt(s, pos, segments)
    ensures s[pos + |EncodeAll(segments)|..] == tail
    decreases |segments|
  {
    hide SegmentAt;
    hide Encode;
    if segments == [] {
      assert EncodeAll(segments) + tail == tail;
    } else {
      var e, rest := Encode(segments[0]), EncodeAll(segments[1..]);
      EncodeFirst(segments, tail);
      EncodedSegmentAt(s, pos, segments[0], rest + tail);
      EncodedSegmentsAt(s, pos + |e|, segments[1..], tail);
    }
  }

  lemma ScanGoesOn(s: seq<byte>, pos: nat, info: JpegInfo, next: nat, info1: JpegInfo)
    requires pos + 4 <= |s| && MarkerTurn(s, pos, info) == GoOn(next, info1)
    ensures ScanMarkers(s, pos, info) == ScanMarkers(s, next, info1)
  {
  }

  lemma {:induction false} ScanAllSegments(s: seq<byte>, pos: nat, segments: seq<Segment>, info: JpegInfo)
    requires forall g | g in segments :: WellFormed(g)
    requires SegmentsAt(s, pos, segments)
    ensures ScanMarkers(s, pos, info) == ScanMarkers(s, pos + |EncodeAll(segments)|, Described(segments, info))
    decreases |segments|
  {
    hide MarkerTurn;
    hide SegmentAt;
    hide Encode;
    hide Says;
    if segments != [] {
      var next, info1 := pos + |Encode(segments[0])|, Says(segments[0], info);
      TurnAtSegment(s, pos, segments[0], info);
      ScanGoesOn(s, pos, info, next, info1);
      ScanAllSegments(s, next, segments[1..], info1);
    }
  }

  lemma {:induction false} EoiAfterScan(s: seq<byte>, start: nat, scan: seq<byte>, trailer: Option<seq<byte>>)
    requires start <= |s| && s[start..] == scan + Ending(trailer) && NoEoi(scan)
    ensures FindEoi(s, start) == start + |scan|
    decreases |scan|
  {
    if scan != [] {
      assert s[start] == s[start..][0];
      assert start + 1 < |s| ==> s[start + 1] == s[start..][1];
      assert s[start + 1..] == s[start..][1..] == scan[1..] + Ending(trailer);
      assert forall k: nat :: EoiAt(scan[1..], k) ==> EoiAt(scan, k + 1);
      assert EoiAt(s, start) ==> EoiAt(scan, 0);
      EoiAfterScan(s, start + 1, scan[1..], trailer);
    } else if trailer.Some? {
      assert s[start] == s[start..][0] && s[start + 1] == s[start..][1];
    }
  }

  /** The position at which the scan of a laid-out image starts. */
  function ScanOffset(image: Image): nat
    requires ImageWellFormed(image)
  {
    2 + |EncodeAll(image.segments)| + image.scanFill + 4 + |image.scanHeader|
  }

  /** The scan header at `at`, and the scan that ends at the first end-of-image marker behind it. */
  predicate ScanAt(s: seq<byte>, at: nat, fill: nat, header: seq<byte>, scan: seq<byte>) {
    var start := at + fill + 4 + |header|;
    && MarkerAt(s, at, fill, SOS)
    && BodyAt(s, at + fill + 2, header)
    && start + |scan| <= |s| && s[start..start + |scan|] == scan
    && FindEoi(s, start) == start + |scan|
  }

  lemma FrontOf(s: seq<byte>, start: nat, front: seq<byte>, rest: seq<byte>)
    requires start <= |s| && s[start..] == front + rest
    ensures start + |front| <= |s| && s[start..start + |front|] == front
  {
    assert s[start..start + |front|] == s[start..][..|front|];
  }

  lemma AfterSegmentsParts(image: Image)
    requires ImageWellFormed(image)
    ensures AfterSegments(image) == Fill(image.scanFill) + [0xFF, 0xDA] + ScanAndRest(image)
    ensures ScanAndRest(image) == WithLength(image.scanHeader) + (image.scan + Ending(image.trailer))
    ensures |image.scanHeader| + 2 < 0x1_0000 && NoEoi(image.scan)
  {
  }

  lemma EncodedScanAt(s: seq<byte>, at: nat, image: Image)
    requires ImageWellFormed(image)
    requires at <= |s| && s[at..] == AfterSegments(image)
    ensures ScanAt(s, at, image.scanFill, image.scanHeader, image.scan)
  {
    hide NoEoi, MarkerAt, BodyAt, FindEoi, WithLength, Fill, AfterSegments, ScanAndRest, ImageWellFormed;
    var end := Ending(image.trailer);
    var start := at + image.scanFill + 4 + |image.scanHeader|;
    AfterSegmentsParts(image);
    EncodedMarkerAt(s, at, image.scanFill, SOS, ScanAndRest(image));
    EncodedBodyAt(s, at + image.scanFill + 2, image.scanHeader, image.scan + end);
    EoiAfterScan(s, start, image.scan, image.trailer);
    FrontOf(s, start, image.scan, end);
  }

  lemma TurnAtScan(s: seq<byte>, at: nat, fill: nat, header: seq<byte>, scan: seq<byte>, info: JpegInfo)
    requires ScanAt(s, at, fill, header, scan)
    ensures var start := at + fill + 4 + |header|;
            MarkerTurn(s, at, info) == Stop(Some(Scanned(info, start, start + |scan|)))
  {
    TurnAtMarker(s, at, fill, SOS, info);
    TurnAtBody(s, at + fill + 1, header, info);
  }

  lemma ScanStops(s: seq<byte>, pos: nat, segments: seq<Segment>, tail: seq<byte>, info: JpegInfo,
                  result: Option<Scanned>)
    requires forall g | g in segments :: WellFormed(g)
    requires |tail| >= 4 && pos <= |s| && s[pos..] == EncodeAll(segments) + tail
    requires MarkerTurn(s, pos + |EncodeAll(segments)|, Described(segments, info)) == Stop(result)
    ensures ScanMarkers(s, pos, info) == result
  {
    hide MarkerTurn;
    hide EncodeAll;
    hide Described;
    EncodedSegmentsAt(s, pos, segments, tail);
    ScanAllSegments(s, pos, segments, info);
  }

  lemma DropPrefix<T>(s: seq<T>, a: seq<T>, b: seq<T>)
    requires s == a + b
    ensures |s| == |a| + |b| && s[|a|..] == b
  {
  }

  lemma LayoutParts(s: seq<byte>, image: Image)
    requires ImageWellFormed(image) && s == Layout(image)
    ensures var at := 2 + |EncodeAll(image.segments)|;
            && at <= |s|
            && s[2..] == EncodeAll(image.segments) + AfterSegments(image)
            && ScanAt(s, at, image.scanFill, image.scanHeader, image.scan)
  {
    var all, tail := EncodeAll(image.segments), AfterSegments(image);
    DropPrefix(s, [0xFF, 0xD8], all + tail);
    DropPrefix(s[2..], all, tail);
    assert s[2..][|all|..] == s[2 + |all|..];
    EncodedScanAt(s, 2 + |all|, image);
  }

  lemma ScanIsThere(s: seq<byte>, image: Image)
    requires ImageWellFormed(image)
    requires ScanAt(s, 2 + |EncodeAll(image.segments)|, image.scanFill, image.scanHeader, image.scan)
    ensures ScanOffset(image) + |image.scan| <= |s|
    ensures s[ScanOffset(image)..ScanOffset(image) + |image.scan|] == image.scan
  {
  }

  lemma StopsAtScan(s: seq<byte>, pos: nat, segments: seq<Segment>, tail: seq<byte>, fill: nat, header: seq<byte>,
                    scan: seq<byte>, init: JpegInfo)
    requires forall g | g in segments :: WellFormed(g)
    requires |tail| >= 4 && pos <= |s| && s[pos..] == EncodeAll(segments) + tail
    requires ScanAt(s, pos + |EncodeAll(segments)|, fill, header, scan)
    ensures var start := pos + |EncodeAll(segments)| + fill + 4 + |header|;
            ScanMarkers(s, pos, init) == Some(Scanned(Described(segments, init), start, start + |scan|))
  {
    hide *;
    var at, info := pos + |EncodeAll(segments)|, Described(segments, init);
    var start := at + fill + 4 + |header|;
    TurnAtScan(s, at, fill, header, scan, info);
    ScanStops(s, pos, segments, tail, init, Some(Scanned(info, start, start + |scan|)));
  }

  lemma ScanOffsetIs(image: Image)
    requires ImageWellFormed(image)
    ensures ScanOffset(image) == 2 + |EncodeAll(image.segments)| + image.scanFill + 4 + |image.scanHeader|
    ensures |AfterSegments(image)| >= 4 && forall g | g in image.segments :: WellFormed(g)
  {
  }

  lemma ScanLayout(s: seq<byte>, image: Image, init: JpegInfo)
    requires ImageWellFormed(image) && s == Layout(image)
    ensures ScanMarkers(s, 2, init) ==
            Some(Scanned(Described(image.segments, init), ScanOffset(image), ScanOffset(image) + |image.scan|))
    ensures ScanOffset(image) + |image.scan| <= |s|
    ensures s[ScanOffset(image)..ScanOffset(image) + |image.scan|] == image.scan
  {
    hide *;
    LayoutParts(s, image);
    ScanIsThere(s, image);
    ScanOffsetIs(image);
    StopsAtScan(s, 2, image.segments, AfterSegments(image), image.scanFill, image.scanHeader, image.scan, init);
  }

  /** A laid-out image is accepted exactly when it is long enough, has a scan and a nonzero size, and then the
      parser returns its scan range, all its table elements in order, and the size of its last frame header. */
  lemma ParseLayout(image: Image, init: JpegInfo)
    requires ImageWellFormed(image)
    ensures var d := Described(image.segments, init.(tables := []));
            Parse(Layout(image), init) ==
            if |Layout(image)| < 16 || image.scan == [] || d.width == 0 || d.height == 0 then None
            else Some(d.(scanStart := ScanOffset(image), scanSize := |image.scan|))
    ensures ScanOffset(image) + |image.scan| <= |Layout(image)|
    ensures Layout(image)[ScanOffset(image)..ScanOffset(image) + |image.scan|] == image.scan
  {
    var info := init.(tables := []);
    ScanLayout(Layout(image), image, info);
    hide ScanMarkers, WellFormed, EncodeAll, AfterSegments, Fill, Described, ImageWellFormed;
    assert Layout(image)[0] == 0xFF && Layout(image)[1] == 0xD8;
    ScanOffsetPositive(image);
    hide ScanOffset, Layout;
  }

  lemma ScanOffsetPositive(image: Image)
    requires ImageWellFormed(image)
    ensures ScanOffset(image) > 0
  {
  }

  // ---------------------------------------------------------------- nothing else is accepted

  lemma {:induction false} TablesUnderstood(data: seq<byte>) returns (tables: seq<Table>)
    requires ReadTables(data).Some?
    ensures forall t | t in tables :: t.id < 16 && |t.elements| == 64
    ensures TableBytes(tables) == data && Elements(tables) == ReadTables(data).value
  {
    if data == [] {
      tables := [];
    } else {
      var rest := TablesUnderstood(data[65..]);
      var first := Table(data[0], data[1..65]);
      tables := [first] + rest;
      assert tables[1..] == rest && data == [data[0]] + data[1..65] + data[65..];
    }
  }

  lemma WordBytesBack(pair: seq<byte>)
    requires |pair| == 2
    ensures Be16Bytes(Be16(pair)) == pair
  {
    Be16Injective(Be16Bytes(Be16(pair)), pair);
  }

  lemma HeaderUnderstood(fill: nat, data: seq<byte>, info: JpegInfo) returns (segment: Segment)
    requires |data| + 2 < 0x1_0000 && ReadFrameHeader(data, info).Some?
    ensures segment.FrameHeader? && WellFormed(segment) && segment.fill == fill && Payload(segment) == data
    ensures Says(segment, info) == ReadFrameHeader(data, info).value
  {
    WordBytesBack(data[1..3]);
    WordBytesBack(data[3..5]);
    hide Be16, Be16Bytes;
    segment := FrameHeader(fill, Be16(data[1..3]), Be16(data[3..5]), data[5..]);
    assert data == [8] + data[1..3] + data[3..5] + data[5..];
    assert data[5..][0] == data[5];
    if |data| >= 15 { assert data[5..][2] == data[7]; }
  }

  /** Every payload the parser takes is that of a segment, which says what the parser records. */
  lemma PayloadUnderstood(fill: nat, marker: byte, payload: seq<byte>, info: JpegInfo) returns (segment: Segment)
    requires |payload| + 2 < 0x1_0000 && ReadSegment(marker, payload, info).Some?
    requires marker !in {0xDA, 0xD9, 0xFF} && !IsStandalone(marker)
    ensures !segment.Stray? && !segment.Standalone? && WellFormed(segment)
    ensures segment.fill == fill && Marker(segment) == marker && Payload(segment) == payload
    ensures Says(segment, info) == ReadSegment(marker, payload, info).value
  {
    if marker == DQT {
      var tables := TablesUnderstood(payload);
      segment := QuantTables(fill, tables);
    } else if marker == SOF0 {
      segment := HeaderUnderstood(fill, payload, info);
    } else {
      segment := OtherSegment(fill, marker, payload);
    }
    hide ReadTables, ReadFrameHeader, TableBytes, Elements;
  }

  /** Fill bytes and a marker found at `pos`, cut off. */
  lemma MarkerUnderstood(s: seq<byte>, pos: nat)
    requires pos < |s| && s[pos] == 0xFF && SkipFill(s, pos) < |s|
    ensures var at := SkipFill(s, pos);
            pos < at && s[at] != 0xFF && s[pos..] == Fill(at - pos - 1) + [0xFF, s[at]] + s[at + 1..]
  {
    var at := SkipFill(s, pos);
    assert s[pos..] == s[pos..at] + s[at..] && s[at..] == [s[at]] + s[at + 1..];
    assert s[pos..at] == Fill(at - pos - 1) + [0xFF];
  }

  /** A length and payload found at `p`, cut off. */
  lemma BodyUnderstood(s: seq<byte>, p: nat)
    requires p + 2 <= |s| && 2 <= Be16(s[p..p + 2]) && p + Be16(s[p..p + 2]) <= |s|
    ensures var n := Be16(s[p..p + 2]);
            var payload := s[p + 2..p + n];
            |payload| + 2 < 0x1_0000 && s[p..] == WithLength(payload) + s[p + n..]
  {
    var n := Be16(s[p..p + 2]);
    WordBytesBack(s[p..p + 2]);
    assert s[p..] == s[p..p + 2] + s[p + 2..p + n] + s[p + n..];
  }

  /** Whatever the parser passes over in one turn is an encoded segment, which says what the parser records. */
  lemma TurnUnderstood(s: seq<byte>, pos: nat, info: JpegInfo) returns (segment: Segment)
    requires pos + 4 <= |s| && MarkerTurn(s, pos, info).GoOn?
    ensures WellFormed(segment)
    ensures var t := MarkerTurn(s, pos, info);
            s[pos..] == Encode(segment) + s[t.pos..] && t.info == Says(segment, info)
  {
    if s[pos] != 0xFF {
      segment := Stray(s[pos]);
      assert s[pos..] == [s[pos]] + s[pos + 1..];
    } else {
      var at := SkipFill(s, pos);
      MarkerUnderstood(s, pos);
      if IsStandalone(s[at]) {
        segment := Standalone(at - pos - 1, s[at]);
        AppendEmpty(Fill(at - pos - 1) + [0xFF, s[at]]);
      } else {
        segment := SegmentUnderstood(s, pos, at, info);
      }
    }
    hide Fill, SegmentTurn, Payload;
  }

  lemma AppendEmpty(a: seq<byte>)
    ensures a + [] == a
  {
  }

  lemma SegmentUnderstood(s: seq<byte>, pos: nat, at: nat, info: JpegInfo) returns (segment: Segment)
    requires pos < at < |s| && s[at] !in {0xFF, 0xD9} && !IsStandalone(s[at]) && SegmentTurn(s, at, info).GoOn?
    requires s[pos..] == Fill(at - pos - 1) + [0xFF, s[at]] + s[at + 1..]
    ensures WellFormed(segment)
    ensures var t := SegmentTurn(s, at, info);
            s[pos..] == Encode(segment) + s[t.pos..] && t.info == Says(segment, info)
  {
    hide Fill, ReadSegment, WellFormed, Says, Marker, Payload, Encode, Be16;
    var p := at + 1;
    var n := Be16(s[p..p + 2]);
    BodyUnderstood(s, p);
    segment := PayloadUnderstood(at - pos - 1, s[at], s[p + 2..p + n], info);
    EncodeMarked(segment);
    AppendAppend(Fill(at - pos - 1) + [0xFF, s[at]], Body(segment), s[p + n..]);
  }

  /** Where the parser stops at a scan there is a scan header, and the scan goes up to the first end of image. */
  lemma StopUnderstood(s: seq<byte>, pos: nat, info: JpegInfo) returns (fill: nat, header: seq<byte>)
    requires pos + 4 <= |s| && MarkerTurn(s, pos, info).Stop? && MarkerTurn(s, pos, info).result.Some?
    requires MarkerTurn(s, pos, info).result.value.scanStart > 0
    ensures var r := MarkerTurn(s, pos, info).result.value;
            && |header| + 2 < 0x1_0000 && r.scanStart <= |s| && r.info == info
            && s[pos..] == Fill(fill) + [0xFF, 0xDA] + (WithLength(header) + s[r.scanStart..])
            && r.scanEnd == FindEoi(s, r.scanStart)
  {
    var at := SkipFill(s, pos);
    MarkerUnderstood(s, pos);
    var p := at + 1;
    var n := Be16(s[p..p + 2]);
    BodyUnderstood(s, p);
    fill, header := at - pos - 1, s[p + 2..p + n];
  }

  /** Everything from `pos` on, when the parser finds a scan there: segments, a scan header, and the rest. */
  lemma {:induction false} ScanUnderstood(s: seq<byte>, pos: nat, info: JpegInfo)
    returns (segments: seq<Segment>, fill: nat, header: seq<byte>)
    requires pos <= |s| && ScanMarkers(s, pos, info).Some? && ScanMarkers(s, pos, info).value.scanStart > 0
    ensures forall g | g in segments :: WellFormed(g)
    ensures var r := ScanMarkers(s, pos, info).value;
            && |header| + 2 < 0x1_0000 && r.scanStart <= |s| && r.info == Described(segments, info)
            && s[pos..] == EncodeAll(segments) + (Fill(fill) + [0xFF, 0xDA] + (WithLength(header) + s[r.scanStart..]))
            && r.scanEnd == FindEoi(s, r.scanStart)
    decreases |s| - pos
  {
    hide MarkerTurn, WellFormed, Encode, Says, Fill, WithLength, FindEoi;
    var turn := MarkerTurn(s, pos, info);
    if turn.GoOn? {
      var first := TurnUnderstood(s, pos, info);
      var rest;
      rest, fill, header := ScanUnderstood(s, turn.pos, turn.info);
      segments := [first] + rest;
      assert segments[0] == first && segments[1..] == rest;
      var start := ScanMarkers(s, pos, info).value.scanStart;
      EncodeFirst(segments, Fill(fill) + [0xFF, 0xDA] + (WithLength(header) + s[start..]));
    } else {
      fill, header := StopUnderstood(s, pos, info);
      segments := [];
      EmptyAppend(s[pos..]);
    }
  }

  lemma EmptyAppend(a: seq<byte>)
    ensures [] + a == a
  {
  }

  /** The scan up to the first end of image, and what is behind it. */
  lemma ScanAndTrailer(s: seq<byte>, start: nat) returns (scan: seq<byte>, trailer: Option<seq<byte>>)
    requires start <= |s|
    ensures scan == s[start..FindEoi(s, start)] && s[start..] == scan + Ending(trailer) && NoEoi(scan)
  {
    var e := FindEoi(s, start);
    scan := s[start..e];
    assert forall k :: 0 <= k < |scan| && EoiAt(scan, k) ==> EoiAt(s, start + k);
    if e < |s| {
      trailer := Some(s[e + 2..]);
      assert s[e..] == [0xFF, 0xD9] + s[e + 2..];
    } else {
      trailer := None;
    }
    assert s[start..] == s[start..e] + s[e..];
  }

  /** Everything the parser accepts is a laid-out image: no other byte string is. */
  lemma ParsedImage(s: seq<byte>, init: JpegInfo) returns (image: Image)
    requires Parse(s, init).Some?
    ensures ImageWellFormed(image) && Layout(image) == s
  {
    hide *;
    var info := init.(tables := []);
    ScanFound(s, init);
    var segments, fill, header := ScanUnderstood(s, 2, info);
    var start := ScanMarkers(s, 2, info).value.scanStart;
    var scan, trailer := ScanAndTrailer(s, start);
    image := Image(segments, fill, header, scan, trailer);
    LayoutIs(image);
  }

  lemma ScanFound(s: seq<byte>, init: JpegInfo)
    requires Parse(s, init).Some?
    ensures |s| >= 16 && s == [0xFF, 0xD8] + s[2..]
    ensures var r := ScanMarkers(s, 2, init.(tables := [])); r.Some? && r.value.scanStart > 0
  {
    hide ScanMarkers;
    assert s == [s[0], s[1]] + s[2..];
  }

  lemma LayoutIs(image: Image)
    requires (forall g | g in image.segments :: WellFormed(g)) && NoEoi(image.scan)
    requires |image.scanHeader| + 2 < 0x1_0000
    ensures ImageWellFormed(image)
    ensures Layout(image) ==
            [0xFF, 0xD8] + (EncodeAll(image.segments)
                            + (Fill(image.scanFill) + [0xFF, 0xDA]
                               + (WithLength(image.scanHeader) + (image.scan + Ending(image.trailer)))))
  {
    hide WellFormed, NoEoi, EncodeAll, Fill, WithLength, Ending;
  }

  /** The bytes are the image, which is one to send: it is long enough, has a scan and a size, and `info` is its scan
      range, its tables and what its last frame header says. */
  predicate ImageOf(s: seq<byte>, init: JpegInfo, image: Image, info: JpegInfo) {
    && ImageWellFormed(image) && Layout(image) == s && |s| >= 16 && image.scan != []
    && var d := Described(image.segments, init.(tables := []));
       d.width != 0 && d.height != 0 && info == d.(scanStart := ScanOffset(image), scanSize := |image.scan|)
  }

  /** The parser accepts exactly the laid-out images with a scan and a size, and returns what they say. */
  lemma ParseExact(s: seq<byte>, init: JpegInfo, info: JpegInfo)
    ensures Parse(s, init) == Some(info) <==> exists image :: ImageOf(s, init, image, info)
  {
    hide Parse, ImageWellFormed, Layout, Described, ScanOffset;
    if Parse(s, init) == Some(info) {
      var image := ParsedImage(s, init);
      ParseLayout(image, init);
      assert ImageOf(s, init, image, info);
    }
    if image :| ImageOf(s, init, image, info) { ParseLayout(image, init); }
  }

  /** The tables and size the standard assigns to a segment list. */
  function AllElements(segments: seq<Segment>): seq<byte> {
    if segments == [] then []
    else (if segments[0].QuantTables? then Elements(segments[0].tables) else []) + AllElements(segments[1..])
  }

  lemma {:induction false} DescribedTables(segments: seq<Segment>, info: JpegInfo)
    ensures Described(segments, info).tables == info.tables + AllElements(segments)
  {
    if segments != [] {
      DescribedTables(segments[1..], Says(segments[0], info));
    }
  }

  /** Without any frame header the size is whatever the record held before, 800 by 600 for a fresh record. */
  lemma {:induction false} SizeWithoutFrameHeader(segments: seq<Segment>, info: JpegInfo)
    requires forall g | g in segments :: !g.FrameHeader?
    ensures Described(segments, info).width == info.width && Described(segments, info).height == info.height
  {
    if segments != [] {
      SizeWithoutFrameHeader(segments[1..], Says(segments[0], info));
    }
  }

  /** With a frame header the size is that of the last one. */
  lemma {:induction false} SizeOfLastFrameHeader(before: seq<Segment>, header: Segment, after: seq<Segment>,
                                                 info: JpegInfo)
    requires header.FrameHeader? && forall g | g in after :: !g.FrameHeader?
    ensures Described(before + [header] + after, info).width == header.width
    ensures Described(before + [header] + after, info).height == header.height
    decreases |before|
  {
    var all := before + [header] + after;
    if before == [] {
      assert all[1..] == after;
      SizeWithoutFrameHeader(after, Says(header, info));
    } else {
      assert all[1..] == before[1..] + [header] + after;
      SizeOfLastFrameHeader(before[1..], header, after, Says(before[0], info));
    }
  }
}
