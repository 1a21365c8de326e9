/** The M4153 command frames, their acknowledgements and hex command text
    (src/device_control/CompositeSensorCommandBuilder.cpp, CompositeSensorCommandParser.cpp,
    CompositeSensorControlTypes.cpp). */
module SensorCommands {
  import opened Foundation
  import opened Bytes
  import opened SerialProtocol
  import opened Text

  const HEADER: u16 := 0x55AA
  const READ_LENGTH: u16 := 0x0006
  const WRITE_LENGTH: u16 := 0x0008
  const READ_REGISTER: u16 := 0x5AF8
  const WRITE_REGISTER: u16 := 0x5AF9
  const EXECUTABLE: u16 := 0x5858
  const REJECTED: u16 := 0x4B4B
  const FUSION_MODE_REGISTER: u16 := 0x6500
  const WRITE_ACK_BYTES := 10
  const READ_ACK_BYTES := 12

  datatype OutputMode = UnknownOutput | LowlightOnly | ThermalOnly | LowlightThermalComposite

  function RegisterValue(mode: OutputMode): u16 {
    match mode
    case ThermalOnly => 1
    case LowlightOnly => 2
    case LowlightThermalComposite => 3
    case UnknownOutput => 0
  }

  function FromRegisterValue(value: u16): OutputMode {
    if value == 1 then ThermalOnly
    else if value == 2 then LowlightOnly
    else if value == 3 then LowlightThermalComposite
    else UnknownOutput
  }

  function ChecksumWords(words: seq<u16>): u16 {
    Sum(words) % 0x1_0000
  }

  function Sum(words: seq<u16>): nat {
    if words == [] then 0 else words[0] + Sum(words[1..])
  }

  function WordBytes(words: seq<u16>): (s: seq<byte>)
    ensures |s| == 2 * |words|
  {
    if words == [] then [] else Be16Bytes(words[0]) + WordBytes(words[1..])
  }

  // ---------------------------------------------------------------- command frames

  datatype Command = ReadRegister(address: u16) | WriteRegister(address: u16, value: u16)

  function CommandWords(command: Command): seq<u16> {
    match command
    case ReadRegister(address) => [READ_LENGTH, READ_REGISTER, address]
    case WriteRegister(address, value) => [WRITE_LENGTH, WRITE_REGISTER, address, value]
  }

  /** The builder sums its words directly; it never runs the byte checksum over the frame. */
  function BuildCommand(ready: bool, command: Command): Result<seq<byte>> {
    if !ready then Err(NotInitialized)
    else Ok(CommandFrame(command))
  }

  function CommandFrame(command: Command): seq<byte> {
    var words := CommandWords(command);
    WordBytes([HEADER] + words + [ChecksumWords(words)])
  }

  function BuildSetOutputMode(ready: bool, mode: OutputMode): Result<seq<byte>> {
    if RegisterValue(mode) == 0 then Err(InvalidArgument)
    else BuildCommand(ready, WriteRegister(FUSION_MODE_REGISTER, RegisterValue(mode)))
  }

  /** What a device reads back from a frame: header, then a checksummed payload of known shape. */
  function DecodeCommand(frame: seq<byte>): Option<Command> {
    if |frame| < 10 || frame[..2] != Be16Bytes(HEADER) then None
    else
      var parsed := ParseWithChecksum(frame[2..]);
      if parsed.Err? then None
      else
        var p := parsed.value;
        if |p| == 6 && Be16(p[..2]) == READ_LENGTH && Be16(p[2..4]) == READ_REGISTER then
          Some(ReadRegister(Be16(p[4..6])))
        else if |p| == 8 && Be16(p[..2]) == WRITE_LENGTH && Be16(p[2..4]) == WRITE_REGISTER then
          Some(WriteRegister(Be16(p[4..6]), Be16(p[6..8])))
        else
          None
  }

  lemma {:induction false} WordBytesAppend(a: seq<u16>, b: seq<u16>)
    ensures WordBytes(a + b) == WordBytes(a) + WordBytes(b)
  {
    if a == [] {
      assert a + b == b;
    } else {
      assert (a + b)[0] == a[0] && (a + b)[1..] == a[1..] + b;
      WordBytesAppend(a[1..], b);
    }
  }

  lemma {:induction false} WordBytesInjective(a: seq<u16>, b: seq<u16>)
    requires WordBytes(a) == WordBytes(b)
    ensures a == b
  {
    if a == [] || b == [] {
      assert |WordBytes(a)| == 2 * |a| && |WordBytes(b)| == 2 * |b|;
    } else {
      var s, t := WordBytes(a), WordBytes(b);
      assert s[..2] == Be16Bytes(a[0]) && t[..2] == Be16Bytes(b[0]);
      assert s[2..] == WordBytes(a[1..]) && t[2..] == WordBytes(b[1..]);
      Be16Injective(s[..2], t[..2]);
      WordBytesInjective(a[1..], b[1..]);
      assert a == [a[0]] + a[1..] && b == [b[0]] + b[1..];
    }
  }

  /** The word checksum of the builder and the byte checksum of the serial layer agree. */
  lemma {:induction false} ChecksumsAgree(words: seq<u16>)
    ensures Checksum(WordBytes(words)) == ChecksumWords(words)
    ensures WordSum(WordBytes(words)) == Sum(words)
  {
    if words != [] {
      ChecksumsAgree(words[1..]);
      var s := WordBytes(words);
      assert s[..2] == Be16Bytes(words[0]) && s[2..] == WordBytes(words[1..]);
    }
  }

  lemma CommandFrameShape(command: Command)
    ensures CommandFrame(command) == Be16Bytes(HEADER) + AppendChecksum(WordBytes(CommandWords(command)))
  {
    var words := CommandWords(command);
    var sum := ChecksumWords(words);
    ChecksumsAgree(words);
    WordBytesAppend([HEADER] + words, [sum]);
    WordBytesAppend([HEADER], words);
    assert WordBytes([HEADER]) == Be16Bytes(HEADER) + WordBytes([]);
    assert WordBytes([sum]) == Be16Bytes(sum) + WordBytes([]);
    assert Be16Bytes(HEADER) + WordBytes(words) + Be16Bytes(sum)
        == Be16Bytes(HEADER) + (WordBytes(words) + Be16Bytes(sum));
  }

  lemma WordBytesOfSlice(a: u16, b: u16, c: u16)
    ensures WordBytes([a, b, c]) == Be16Bytes(a) + Be16Bytes(b) + Be16Bytes(c)
  {
    assert [a, b, c][1..] == [b, c] && [b, c][1..] == [c] && [c][1..] == [];
    assert WordBytes([c]) == Be16Bytes(c) + WordBytes([]);
  }

  lemma PayloadFields(command: Command)
    ensures var p := WordBytes(CommandWords(command));
            |p| >= 6 && Be16(p[..2]) == CommandWords(command)[0] && Be16(p[2..4]) == CommandWords(command)[1]
            && Be16(p[4..6]) == CommandWords(command)[2]
            && (command.WriteRegister? ==> |p| == 8 && Be16(p[6..8]) == command.value)
  {
    var w := CommandWords(command);
    var p := WordBytes(w);
    WordBytesOfSlice(w[0], w[1], w[2]);
    WordBytesAppend([w[0], w[1], w[2]], w[3..]);
    assert w == [w[0], w[1], w[2]] + w[3..];
    assert p[..2] == Be16Bytes(w[0]) && p[2..4] == Be16Bytes(w[1]) && p[4..6] == Be16Bytes(w[2]);
    if command.WriteRegister? {
      assert w[3..] == [w[3]] && WordBytes([w[3]]) == Be16Bytes(w[3]) + WordBytes([]);
      assert p[6..8] == Be16Bytes(w[3]);
    }
  }

  /** Every built frame passes the serial checksum behind its header and decodes to its command. */
  lemma BuiltCommandDecodes(command: Command)
    ensures DecodeCommand(CommandFrame(command)) == Some(command)
    ensures ParseWithChecksum(CommandFrame(command)[2..]) == Ok(WordBytes(CommandWords(command)))
  {
    CommandFrameShape(command);
    var payload := WordBytes(CommandWords(command));
    var frame := CommandFrame(command);
    assert frame[2..] == AppendChecksum(payload) && frame[..2] == Be16Bytes(HEADER);
    ParseUndoesAppend(payload);
    PayloadFields(command);
  }

  // ---------------------------------------------------------------- acknowledgements

  datatype Ack = Ack(status: u16, data: u16)

  function WriteAckFrame(): seq<byte> {
    WordBytes([HEADER, 6, WRITE_REGISTER, EXECUTABLE, ChecksumWords([6, WRITE_REGISTER, EXECUTABLE])])
  }

  function ReadAckFrame(data: u16): seq<byte> {
    var words := [8, READ_REGISTER, EXECUTABLE, data];
    WordBytes([HEADER] + words + [ChecksumWords(words)])
  }

  function Word(bytes: seq<byte>, offset: nat): u16
    requires offset + 2 <= |bytes|
  {
    Be16(bytes[offset..offset + 2])
  }

  function ParseWriteAck(bytes: seq<byte>): Result<Ack> {
    if |bytes| != WRITE_ACK_BYTES then Err(SerialAckInvalid)
    else
      var header, length, original := Word(bytes, 0), Word(bytes, 2), Word(bytes, 4);
      var status, checksum := Word(bytes, 6), Word(bytes, 8);
      if header != HEADER then Err(SerialAckInvalid)
      else if length != 6 then Err(SerialAckInvalid)
      else if original != WRITE_REGISTER then Err(SerialAckInvalid)
      else if status != EXECUTABLE && status != REJECTED then Err(SerialAckInvalid)
      else if checksum != ChecksumWords([length, original, status]) then Err(SerialAckInvalid)
      else if status != EXECUTABLE then Err(SerialAckInvalid)
      else Ok(Ack(status, 0))
  }

  function ParseReadAck(bytes: seq<byte>): Result<Ack> {
    if |bytes| != READ_ACK_BYTES then Err(SerialAckInvalid)
    else
      var header, length, original := Word(bytes, 0), Word(bytes, 2), Word(bytes, 4);
      var status, data, checksum := Word(bytes, 6), Word(bytes, 8), Word(bytes, 10);
      if header != HEADER then Err(SerialAckInvalid)
      else if length != 8 then Err(SerialAckInvalid)
      else if original != READ_REGISTER then Err(SerialAckInvalid)
      else if status != EXECUTABLE && status != REJECTED then Err(SerialAckInvalid)
      else if checksum != ChecksumWords([length, original, status, data]) then Err(SerialAckInvalid)
      else if status != EXECUTABLE then Err(SerialAckInvalid)
      else Ok(Ack(status, data))
  }

  /** A byte string of even length is the encoding of its words. */
  function Words(bytes: seq<byte>): (w: seq<u16>)
    requires |bytes| % 2 == 0
    ensures WordBytes(w) == bytes && |w| == |bytes| / 2
  {
    if bytes == [] then []
    else
      var w := [Be16(bytes[..2])] + Words(bytes[2..]);
      Be16Injective(Be16Bytes(w[0]), bytes[..2]);
      w
  }

  lemma {:induction false} WordIsWord(words: seq<u16>, k: nat)
    requires k < |words|
    ensures Word(WordBytes(words), 2 * k) == words[k]
  {
    var s := WordBytes(words);
    if k == 0 {
      assert s[0..2] == Be16Bytes(words[0]);
    } else {
      WordIsWord(words[1..], k - 1);
      assert s[2 * k..2 * k + 2] == WordBytes(words[1..])[2 * (k - 1)..2 * (k - 1) + 2];
    }
  }

  /** There is exactly one acceptable write acknowledgement. */
  lemma WriteAckExact(bytes: seq<byte>)
    ensures ParseWriteAck(bytes).Ok? <==> bytes == WriteAckFrame()
    ensures bytes == [0x55, 0xAA, 0x00, 0x06, 0x5A, 0xF9, 0x58, 0x58, 0xB3, 0x57] <==> bytes == WriteAckFrame()
  {
    WriteAckBytes();
    WriteAckWords(bytes);
    hide *;
  }

  const WRITE_ACK_WORDS: seq<u16> := [HEADER, 6, WRITE_REGISTER, EXECUTABLE, 0xB357]

  lemma WriteAckChecksum()
    ensures ChecksumWords([6, WRITE_REGISTER, EXECUTABLE]) == 0xB357
  {
    assert [6, WRITE_REGISTER, EXECUTABLE][1..] == [WRITE_REGISTER, EXECUTABLE];
    assert [WRITE_REGISTER, EXECUTABLE][1..] == [EXECUTABLE] && [EXECUTABLE][1..] == [];
    assert Sum([EXECUTABLE]) == EXECUTABLE && Sum([WRITE_REGISTER, EXECUTABLE]) == 0xB351;
  }

  lemma WriteAckBytes()
    ensures WriteAckFrame() == WordBytes(WRITE_ACK_WORDS)
    ensures WriteAckFrame() == [0x55, 0xAA, 0x00, 0x06, 0x5A, 0xF9, 0x58, 0x58, 0xB3, 0x57]
  {
    hide ChecksumWords;
    WriteAckChecksum();
    var good := WRITE_ACK_WORDS;
    assert good[..3] == [HEADER, 6, WRITE_REGISTER] && good[3..] == [EXECUTABLE, 0xB357];
    WordBytesAppend(good[..3], good[3..]);
    assert good == good[..3] + good[3..];
    WordBytesOfSlice(HEADER, 6, WRITE_REGISTER);
    assert good[3..][1..] == [0xB357] && WordBytes([0xB357]) == Be16Bytes(0xB357) + WordBytes([]);
  }

  lemma WriteAckWords(bytes: seq<byte>)
    ensures ParseWriteAck(bytes).Ok? <==> bytes == WordBytes(WRITE_ACK_WORDS)
  {
    hide ChecksumWords;
    WriteAckChecksum();
    if |bytes| == WRITE_ACK_BYTES {
      var words := Words(bytes);
      WordIsWord(words, 0); WordIsWord(words, 1); WordIsWord(words, 2); WordIsWord(words, 3); WordIsWord(words, 4);
      if bytes == WordBytes(WRITE_ACK_WORDS) { WordBytesInjective(words, WRITE_ACK_WORDS); }
      if ParseWriteAck(bytes).Ok? { assert words == WRITE_ACK_WORDS; }
    }
  }

  function High(word: u16): byte { word / 0x100 }

  function Low(word: u16): byte { word % 0x100 }

  lemma SumOf3(a: u16, b: u16, c: u16)
    ensures Sum([a, b, c]) == a + b + c
  {
    assert [a, b, c][1..] == [b, c] && [b, c][1..] == [c] && [c][1..] == [];
    assert Sum([c]) == c + Sum([]);
  }

  lemma SumOf4(a: u16, b: u16, c: u16, d: u16)
    ensures Sum([a, b, c, d]) == a + b + c + d
  {
    assert [a, b, c, d][1..] == [b, c, d];
    SumOf3(b, c, d);
  }

  lemma WordBytesOf5(a: u16, b: u16, c: u16, d: u16, e: u16)
    ensures WordBytes([a, b, c, d, e]) ==
            [High(a), Low(a), High(b), Low(b), High(c), Low(c), High(d), Low(d), High(e), Low(e)]
  {
    assert [a, b, c, d, e] == [a, b, c] + [d, e] && [d, e][1..] == [e] && [e][1..] == [];
    WordBytesAppend([a, b, c], [d, e]);
    WordBytesOfSlice(a, b, c);
    assert WordBytes([e]) == Be16Bytes(e) + WordBytes([]);
  }

  lemma WordBytesOf6(a: u16, b: u16, c: u16, d: u16, e: u16, f: u16)
    ensures WordBytes([a, b, c, d, e, f]) ==
            [High(a), Low(a), High(b), Low(b), High(c), Low(c), High(d), Low(d), High(e), Low(e), High(f), Low(f)]
  {
    assert [a, b, c, d, e, f] == [a] + [b, c, d, e, f] && [a][1..] == [];
    WordBytesAppend([a], [b, c, d, e, f]);
    WordBytesOf5(b, c, d, e, f);
    assert WordBytes([a]) == Be16Bytes(a) + WordBytes([]);
  }

  /** The frames of the protocol, byte by byte; the checksum is the sum of the words behind the header. */
  lemma FrameBytes(address: u16, value: u16)
    ensures var c: u16 := (0x0006 + 0x5AF8 + address) % 0x1_0000;
            CommandFrame(ReadRegister(address)) ==
            [0x55, 0xAA, 0x00, 0x06, 0x5A, 0xF8, High(address), Low(address), High(c), Low(c)]
    ensures var c: u16 := (0x0008 + 0x5AF9 + address + value) % 0x1_0000;
            CommandFrame(WriteRegister(address, value)) ==
            [0x55, 0xAA, 0x00, 0x08, 0x5A, 0xF9, High(address), Low(address), High(value), Low(value), High(c), Low(c)]
    ensures var c: u16 := (0x0008 + 0x5AF8 + 0x5858 + value) % 0x1_0000;
            ReadAckFrame(value) ==
            [0x55, 0xAA, 0x00, 0x08, 0x5A, 0xF8, 0x58, 0x58, High(value), Low(value), High(c), Low(c)]
  {
    hide ChecksumWords;
    ReadCommandSum(address);
    WriteCommandSum(address, value);
    ReadAckSum(value);
    hide WordBytes;
    var r, w, a := [0x0006, 0x5AF8, address], [0x0008, 0x5AF9, address, value], [0x0008, 0x5AF8, 0x5858, value];
    assert [HEADER] + r + [ChecksumWords(r)] == [HEADER, 0x0006, 0x5AF8, address, ChecksumWords(r)];
    assert [HEADER] + w + [ChecksumWords(w)] == [HEADER, 0x0008, 0x5AF9, address, value, ChecksumWords(w)];
    assert [HEADER] + a + [ChecksumWords(a)] == [HEADER, 0x0008, 0x5AF8, 0x5858, value, ChecksumWords(a)];
    WordBytesOf5(HEADER, 0x0006, 0x5AF8, address, ChecksumWords(r));
    WordBytesOf6(HEADER, 0x0008, 0x5AF9, address, value, ChecksumWords(w));
    WordBytesOf6(HEADER, 0x0008, 0x5AF8, 0x5858, value, ChecksumWords(a));
  }

  lemma ReadCommandSum(address: u16)
    ensures ChecksumWords([0x0006, 0x5AF8, address]) == (0x0006 + 0x5AF8 + address) % 0x1_0000
  {
    SumOf3(0x0006, 0x5AF8, address);
  }

  lemma WriteCommandSum(address: u16, value: u16)
    ensures ChecksumWords([0x0008, 0x5AF9, address, value]) == (0x0008 + 0x5AF9 + address + value) % 0x1_0000
  {
    SumOf4(0x0008, 0x5AF9, address, value);
  }

  lemma ReadAckSum(data: u16)
    ensures ChecksumWords([0x0008, 0x5AF8, 0x5858, data]) == (0x0008 + 0x5AF8 + 0x5858 + data) % 0x1_0000
  {
    SumOf4(0x0008, 0x5AF8, 0x5858, data);
  }

  /** The acceptable read acknowledgements are exactly one for each data word, which is the data returned. */
  lemma ReadAckExact(bytes: seq<byte>, data: u16)
    ensures ParseReadAck(bytes) == Ok(Ack(EXECUTABLE, data)) <==> bytes == ReadAckFrame(data)
  {
    var sum := ChecksumWords([8, READ_REGISTER, EXECUTABLE, data]);
    var good := [HEADER, 8, READ_REGISTER, EXECUTABLE, data, sum];
    assert good == [HEADER] + [8, READ_REGISTER, EXECUTABLE, data] + [sum];
    if |bytes| == READ_ACK_BYTES {
      var words := Words(bytes);
      WordIsWord(words, 0); WordIsWord(words, 1); WordIsWord(words, 2);
      WordIsWord(words, 3); WordIsWord(words, 4); WordIsWord(words, 5);
      if bytes == ReadAckFrame(data) { WordBytesInjective(words, good); }
      if ParseReadAck(bytes) == Ok(Ack(EXECUTABLE, data)) { assert words == good; }
    }
  }

  function OutputModeFromText(text: string): OutputMode {
    var s := Normalize(text);
    if s == "LOWLIGHTONLY" || s == "LOWLIGHT" || s == "MICROLIGHTONLY" || s == "MICROLIGHT" then LowlightOnly
    else if s == "THERMALONLY" || s == "THERMAL" || s == "INFRAREDONLY" || s == "INFRARED" then ThermalOnly
    else if s == "LOWLIGHTTHERMALCOMPOSITE" || s == "LOWLIGHTTHERMAL" || s == "COMPOSITE" || s == "FUSION"
         || s == "LOWLIGHTTHERMALFUSION" then LowlightThermalComposite
    else UnknownOutput
  }

  /** How an output mode is written in the configuration and in messages. */
  function OutputModeText(mode: OutputMode): string {
    match mode
    case LowlightOnly => "LOWLIGHT_ONLY"
    case ThermalOnly => "THERMAL_ONLY"
    case LowlightThermalComposite => "LOWLIGHT_THERMAL_COMPOSITE"
    case UnknownOutput => "UNKNOWN"
  }

  // ---------------------------------------------------------------- names of output modes

  predicate SkippedInName(c: char) { c in " \t\n\r_-." || c as int == 11 || c as int == 12 }

  /** The letter, or the small letter it is the capital of. */
  predicate SameLetter(c: char, capital: char) {
    c == capital || ('A' <= capital <= 'Z' && c as int == capital as int + 32)
  }

  /** The text is the name in small or capital letters with any blanks, underscores, dashes and dots between them. */
  predicate Reads(text: string, name: string) {
    if text == "" then name == ""
    else if SkippedInName(text[0]) then Reads(text[1..], name)
    else name != "" && SameLetter(text[0], name[0]) && Reads(text[1..], name[1..])
  }

  predicate ReadsOneOf(text: string, names: seq<string>) { exists i :: 0 <= i < |names| && Reads(text, names[i]) }

  const LOWLIGHT_NAMES := ["LOWLIGHTONLY", "LOWLIGHT", "MICROLIGHTONLY", "MICROLIGHT"]

  const THERMAL_NAMES := ["THERMALONLY", "THERMAL", "INFRAREDONLY", "INFRARED"]

  const COMPOSITE_NAMES :=
    ["LOWLIGHTTHERMALCOMPOSITE", "LOWLIGHTTHERMAL", "COMPOSITE", "FUSION", "LOWLIGHTTHERMALFUSION"]

  predicate Capitals(name: string) { forall k :: 0 <= k < |name| ==> 'A' <= name[k] <= 'Z' }

  lemma {:induction false} ReadsIsNormalize(text: string, name: string)
    requires Capitals(name)
    ensures Reads(text, name) <==> Normalize(text) == name
  {
    if text != "" {
      if SkippedInName(text[0]) {
        ReadsIsNormalize(text[1..], name);
      } else if name != "" {
        ReadsIsNormalize(text[1..], name[1..]);
        assert name == [name[0]] + name[1..];
      }
    }
  }

  lemma {:induction false} ReadsOneOfIsNormalize(text: string, names: seq<string>)
    requires forall i :: 0 <= i < |names| ==> Capitals(names[i])
    ensures ReadsOneOf(text, names) <==> Normalize(text) in names
  {
    hide Reads, Normalize;
    forall i | 0 <= i < |names| ensures Reads(text, names[i]) <==> Normalize(text) == names[i] {
      ReadsIsNormalize(text, names[i]);
    }
  }

  /** Exactly these names, however they are written, name an output. */
  lemma OutputModeNames(text: string)
    ensures OutputModeFromText(text) == LowlightOnly <==> ReadsOneOf(text, LOWLIGHT_NAMES)
    ensures OutputModeFromText(text) == ThermalOnly <==> ReadsOneOf(text, THERMAL_NAMES)
    ensures OutputModeFromText(text) == LowlightThermalComposite <==> ReadsOneOf(text, COMPOSITE_NAMES)
  {
    LowlightNames(text);
    ThermalNames(text);
    CompositeNames(text);
    hide OutputModeFromText, ReadsOneOf;
  }

  lemma LowlightNames(text: string)
    ensures OutputModeFromText(text) == LowlightOnly <==> ReadsOneOf(text, LOWLIGHT_NAMES)
  {
    hide Normalize, ReadsOneOf;
    ReadsOneOfIsNormalize(text, LOWLIGHT_NAMES);
  }

  lemma ThermalNames(text: string)
    ensures OutputModeFromText(text) == ThermalOnly <==> ReadsOneOf(text, THERMAL_NAMES)
  {
    hide Normalize, ReadsOneOf;
    ReadsOneOfIsNormalize(text, THERMAL_NAMES);
  }

  lemma CompositeNames(text: string)
    ensures OutputModeFromText(text) == LowlightThermalComposite <==> ReadsOneOf(text, COMPOSITE_NAMES)
  {
    hide Normalize, ReadsOneOf;
    ReadsOneOfIsNormalize(text, COMPOSITE_NAMES);
  }

  /** What the program writes for an output it reads as that output. */
  lemma OutputModeReadsBack(mode: OutputMode)
    ensures OutputModeFromText(OutputModeText(mode)) == mode
  {
    hide OutputModeFromText;
    match mode {
      case LowlightOnly => LowlightTextRead();
      case ThermalOnly => ThermalTextRead();
      case LowlightThermalComposite => CompositeTextRead();
      case UnknownOutput => UnknownTextRead();
    }
  }

  lemma LowlightTextRead()
    ensures OutputModeFromText("LOWLIGHT_ONLY") == LowlightOnly
  {
    hide Normalize;
    NormalizeUnderscore("LOWLIGHT", "ONLY");
    assert "LOWLIGHT" + "_" + "ONLY" == "LOWLIGHT_ONLY";
  }

  lemma ThermalTextRead()
    ensures OutputModeFromText("THERMAL_ONLY") == ThermalOnly
  {
    hide Normalize;
    NormalizeUnderscore("THERMAL", "ONLY");
    assert "THERMAL" + "_" + "ONLY" == "THERMAL_ONLY";
  }

  lemma UnknownTextRead()
    ensures OutputModeFromText("UNKNOWN") == UnknownOutput
  {
    hide Normalize;
    NormalizeCapitals("UNKNOWN");
  }

  lemma CompositeTextRead()
    ensures OutputModeFromText("LOWLIGHT_THERMAL_COMPOSITE") == LowlightThermalComposite
  {
    CompositeTextNormal();
    hide Normalize;
  }

  lemma LowlightThermalNormal()
    ensures Normalize("LOWLIGHT_THERMAL") == "LOWLIGHTTHERMAL"
  {
    hide Normalize;
    NormalizeUnderscore("LOWLIGHT", "THERMAL");
    assert "LOWLIGHT" + "_" + "THERMAL" == "LOWLIGHT_THERMAL";
  }

  lemma CompositeTextNormal()
    ensures Normalize("LOWLIGHT_THERMAL_COMPOSITE") == "LOWLIGHTTHERMALCOMPOSITE"
  {
    LowlightThermalNormal();
    hide Normalize;
    NormalizeUnderscore("LOWLIGHT_THERMAL", "COMPOSITE");
    assert "LOWLIGHT_THERMAL" + "_" + "COMPOSITE" == "LOWLIGHT_THERMAL_COMPOSITE";
  }

  lemma {:induction false} NormalizeJoin(a: string, b: string)
    ensures Normalize(a + b) == Normalize(a) + Normalize(b)
  {
    if a == "" {
      assert a + b == b;
    } else {
      NormalizeJoin(a[1..], b);
      assert (a + b)[1..] == a[1..] + b;
    }
  }

  lemma {:induction false} NormalizeCapitals(name: string)
    requires Capitals(name)
    ensures Normalize(name) == name
  {
    if name != "" { NormalizeCapitals(name[1..]); }
  }

  lemma NormalizeUnderscore(a: string, b: string)
    requires Capitals(b)
    ensures Normalize(a + "_" + b) == Normalize(a) + b
    ensures Capitals(a) ==> Normalize(a) == a
  {
    NormalizeJoin(a, "_");
    assert "_"[1..] == "" && Normalize("_") == "";
    NormalizeJoin(a + "_", b);
    NormalizeCapitals(b);
    if Capitals(a) { NormalizeCapitals(a); }
  }

  function PrintableAscii(bytes: seq<byte>): string {
    if bytes == [] then ""
    else (if 0x20 <= bytes[0] <= 0x7E then [bytes[0] as char] else "") + PrintableAscii(bytes[1..])
  }

  /** A mode report is a read acknowledgement; anything else is tried as text. */
  function ParseModeReport(bytes: seq<byte>): Result<OutputMode> {
    var ack := ParseReadAck(bytes);
    if ack.Ok? then
      var mode := FromRegisterValue(ack.value.data);
      if mode == UnknownOutput then Err(SerialAckInvalid) else Ok(mode)
    else
      var mode := OutputModeFromText(Trim(PrintableAscii(bytes)));
      if mode != UnknownOutput then Ok(mode) else Err(SerialAckInvalid)
  }

  /** The name is what the printable bytes read as. */
  predicate ReportReads(bytes: seq<byte>, name: string) {
    if bytes == [] then name == ""
    else if !(32 <= bytes[0] <= 126) || SkippedInName(bytes[0] as char) then ReportReads(bytes[1..], name)
    else name != "" && SameLetter(bytes[0] as char, name[0]) && ReportReads(bytes[1..], name[1..])
  }

  predicate ReportReadsOneOf(bytes: seq<byte>, names: seq<string>) {
    exists i :: 0 <= i < |names| && ReportReads(bytes, names[i])
  }

  lemma {:induction false} ReportReadsPrintable(bytes: seq<byte>, name: string)
    ensures ReportReads(bytes, name) <==> Reads(PrintableAscii(bytes), name)
  {
    if bytes != [] {
      ReportReadsPrintable(bytes[1..], name);
      if name != "" { ReportReadsPrintable(bytes[1..], name[1..]); }
      var text := PrintableAscii(bytes);
      assert text == PrintableAscii(bytes[1..]) || text[1..] == PrintableAscii(bytes[1..]);
    }
  }

  lemma {:induction false} NormalizeBlanks(s: string)
    requires forall k :: 0 <= k < |s| ==> IsSpace(s[k])
    ensures Normalize(s) == ""
  {
    if s != "" { NormalizeBlanks(s[1..]); }
  }

  lemma {:induction false} NormalizeTrimLeft(s: string)
    ensures Normalize(TrimLeft(s)) == Normalize(s)
  {
    if s != "" && IsSpace(s[0]) { NormalizeTrimLeft(s[1..]); }
  }

  lemma {:induction false} NormalizeTrimRight(s: string)
    ensures Normalize(TrimRight(s)) == Normalize(s)
  {
    if s != "" && IsSpace(s[|s| - 1]) {
      var front := s[..|s| - 1];
      NormalizeTrimRight(front);
      NormalizeJoin(front, [s[|s| - 1]]);
      NormalizeBlanks([s[|s| - 1]]);
      assert s == front + [s[|s| - 1]];
    }
  }

  lemma ReportNames(bytes: seq<byte>, names: seq<string>)
    requires forall i :: 0 <= i < |names| ==> Capitals(names[i])
    ensures ReadsOneOf(Trim(PrintableAscii(bytes)), names) <==> ReportReadsOneOf(bytes, names)
  {
    var text := PrintableAscii(bytes);
    NormalizeTrimLeft(text);
    NormalizeTrimRight(TrimLeft(text));
    hide Normalize, Reads, ReportReads, TrimLeft, TrimRight, PrintableAscii;
    forall i | 0 <= i < |names|
      ensures Reads(Trim(text), names[i]) <==> ReportReads(bytes, names[i])
    {
      ReportReadsPrintable(bytes, names[i]);
      ReadsIsNormalize(text, names[i]);
      ReadsIsNormalize(Trim(text), names[i]);
    }
  }

  /** The number of an output in its register and the names it goes by. */
  function NumberOf(mode: OutputMode): u16 {
    match mode case ThermalOnly => 1 case LowlightOnly => 2 case LowlightThermalComposite => 3 case UnknownOutput => 0
  }

  function NamesOf(mode: OutputMode): seq<string> {
    match mode
    case ThermalOnly => THERMAL_NAMES
    case LowlightOnly => LOWLIGHT_NAMES
    case LowlightThermalComposite => COMPOSITE_NAMES
    case UnknownOutput => []
  }

  lemma NamesAreCapitals(mode: OutputMode)
    ensures forall i :: 0 <= i < |NamesOf(mode)| ==> Capitals(NamesOf(mode)[i])
  {
  }

  lemma TextNames(mode: OutputMode, text: string)
    requires mode != UnknownOutput
    ensures OutputModeFromText(text) == mode <==> ReadsOneOf(text, NamesOf(mode))
  {
    hide OutputModeFromText, ReadsOneOf;
    OutputModeNames(text);
  }

  /** A report tells a mode exactly if it is the acknowledgement that carries the mode's number, or no acknowledgement
      but text that reads as one of the mode's names. */
  lemma ModeReportExact(mode: OutputMode, bytes: seq<byte>)
    requires mode != UnknownOutput
    ensures ParseModeReport(bytes) == Ok(mode) <==>
              || bytes == ReadAckFrame(NumberOf(mode))
              || (!IsReadAck(bytes) && ReportReadsOneOf(bytes, NamesOf(mode)))
    ensures ParseModeReport(bytes).Err? ==> ParseModeReport(bytes).code == SerialAckInvalid
    ensures ParseModeReport(bytes) != Ok(UnknownOutput)
  {
    hide ReadAckFrame, ParseReadAck, ReportReadsOneOf, ReadsOneOf, OutputModeFromText, NamesOf, Trim, PrintableAscii;
    ReadAckExact(bytes, NumberOf(mode));
    ReadAckIs(bytes);
    NamesAreCapitals(mode);
    ReportNames(bytes, NamesOf(mode));
    TextNames(mode, Trim(PrintableAscii(bytes)));
  }

  /** The bytes are an acknowledgement that carries some word. */
  predicate IsReadAck(bytes: seq<byte>) { |bytes| == 12 && bytes == ReadAckFrame(Word(bytes, 8)) }

  lemma ReadAckIs(bytes: seq<byte>)
    ensures ParseReadAck(bytes).Ok? <==> IsReadAck(bytes)
    ensures ParseReadAck(bytes).Ok? ==> ParseReadAck(bytes).value == Ack(EXECUTABLE, Word(bytes, 8))
  {
    if |bytes| == 12 { ReadAckExact(bytes, Word(bytes, 8)); }
    hide ReadAckFrame, Word;
  }

  /** A ready builder makes a command for every known mode, which decodes to a write of its number to the mode register;
      a report of that number tells the mode. */
  lemma ModeReportRoundTrip(ready: bool, mode: OutputMode)
    ensures var r := BuildSetOutputMode(ready, mode);
            if mode == UnknownOutput then r == Err(InvalidArgument)
            else if !ready then r == Err(NotInitialized)
            else r.Ok? && DecodeCommand(r.value) == Some(WriteRegister(0x6500, NumberOf(mode)))
    ensures mode != UnknownOutput ==> ParseModeReport(ReadAckFrame(NumberOf(mode))) == Ok(mode)
  {
    BuiltCommandDecodes(WriteRegister(FUSION_MODE_REGISTER, RegisterValue(mode)));
    if mode != UnknownOutput { ModeReportExact(mode, ReadAckFrame(NumberOf(mode))); }
    hide ParseModeReport, ReadAckFrame, DecodeCommand, CommandFrame;
  }
}
