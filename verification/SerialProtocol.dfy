/** The 16-bit word checksum and the checksummed serial frame
    (src/foundation/utils/ByteUtils.h, src/hardware/serial/SerialProtocol.cpp). */
module SerialProtocol {
  import opened Foundation
  import opened Bytes

  /** The exact sum of the big-endian words of `data`; a last odd byte is the high half of a word. */
  function WordSum(data: seq<byte>): nat {
    if |data| == 0 then 0
    else if |data| == 1 then data[0] * 0x100
    else Be16(data[..2]) + WordSum(data[2..])
  }

  function Checksum(data: seq<byte>): u16 {
    WordSum(data) % 0x1_0000
  }

  /** The loop of the source, whose accumulator wraps at 32 bits. */
  method Checksum16(data: seq<byte>) returns (sum16: u16)
    ensures sum16 == Checksum(data)
  {
    var sum: u32 := 0;
    ghost var exact := 0;
    var i := 0;
    while i + 1 < |data|
      invariant 0 <= i <= |data| && i % 2 == 0
      invariant exact + WordSum(data[i..]) == WordSum(data)
      invariant sum == exact % 0x1_0000_0000
    {
      var word := Be16(data[i..i + 2]);
      WordSumStep(data, i);
      WrappedAdd(exact, word);
      sum, exact := (sum + word) % 0x1_0000_0000, exact + word;
      i := i + 2;
    }
    if |data| % 2 != 0 {
      assert data[i..] == [data[|data| - 1]];
      var word := (data[|data| - 1] as int) * 0x100;
      WrappedAdd(exact, word);
      sum, exact := (sum + word) % 0x1_0000_0000, exact + word;
    }
    LowHalf(exact);
    sum16 := sum % 0x1_0000;
  }

  lemma LowHalf(a: int)
    ensures a % 0x1_0000_0000 % 0x1_0000 == a % 0x1_0000
  {
    assert a == 0x1_0000 * (0x1_0000 * (a / 0x1_0000_0000)) + a % 0x1_0000_0000;
  }

  lemma WordSumStep(data: seq<byte>, i: nat)
    requires i + 1 < |data|
    ensures WordSum(data[i..]) == Be16(data[i..i + 2]) + WordSum(data[i + 2..])
  {
    assert data[i..][..2] == data[i..i + 2] && data[i..][2..] == data[i + 2..];
  }

  lemma WrappedAdd(a: int, b: int)
    ensures (a % 0x1_0000_0000 + b) % 0x1_0000_0000 == (a + b) % 0x1_0000_0000
  {
  }

  function AppendChecksum(payload: seq<byte>): seq<byte> {
    payload + Be16Bytes(Checksum(payload))
  }

  function ParseWithChecksum(frame: seq<byte>): Result<seq<byte>> {
    if |frame| < 3 then Err(InvalidArgument)
    else
      var payload := frame[..|frame| - 2];
      if Be16(frame[|frame| - 2..]) != Checksum(payload) then Err(SerialAckInvalid) else Ok(payload)
  }

  /** Parsing undoes appending, except on the empty payload, whose two-byte frame is refused. */
  lemma ParseUndoesAppend(payload: seq<byte>)
    ensures ParseWithChecksum(AppendChecksum(payload)) ==
            if payload == [] then Err(InvalidArgument) else Ok(payload)
  {
    var frame := AppendChecksum(payload);
    assert frame[..|frame| - 2] == payload && frame[|frame| - 2..] == Be16Bytes(Checksum(payload));
  }

  /** The parser accepts exactly the frames the builder makes from nonempty payloads. */
  lemma AcceptedFramesAreBuilt(frame: seq<byte>, payload: seq<byte>)
    ensures ParseWithChecksum(frame) == Ok(payload) <==> payload != [] && frame == AppendChecksum(payload)
  {
    ParseUndoesAppend(payload);
    if ParseWithChecksum(frame) == Ok(payload) {
      Be16Injective(frame[|frame| - 2..], Be16Bytes(Checksum(payload)));
      assert frame == payload + frame[|frame| - 2..];
    }
  }

  /** Changing one byte moves the exact word sum by the byte's weight. */
  lemma {:induction false} WordSumUpdate(data: seq<byte>, k: nat, b: byte)
    requires k < |data|
    ensures WordSum(data[k := b]) == WordSum(data) + (b - data[k]) * (if k % 2 == 0 then 0x100 else 1)
  {
    if |data| == 1 {
    } else if k < 2 {
      assert data[k := b][2..] == data[2..];
    } else {
      assert data[k := b][2..] == data[2..][k - 2 := b] && data[k := b][..2] == data[..2];
      WordSumUpdate(data[2..], k - 2, b);
    }
  }

  /** Every change of a single byte of a built frame is detected. */
  lemma SingleByteChangeRejected(payload: seq<byte>, k: nat, b: byte)
    requires payload != []
    requires k < |AppendChecksum(payload)| && AppendChecksum(payload)[k] != b
    ensures ParseWithChecksum(AppendChecksum(payload)[k := b]) == Err(SerialAckInvalid)
  {
    if k < |payload| {
      PayloadByteChangeRejected(payload, k, b);
    } else {
      var frame := AppendChecksum(payload);
      var tail := Be16Bytes(Checksum(payload));
      assert frame[k := b][..|payload|] == payload;
      assert frame[k := b][|payload|..] == tail[k - |payload| := b];
      assert tail[k - |payload| := b][k - |payload|] == b != tail[k - |payload|];
      Be16Injective(tail[k - |payload| := b], tail);
    }
  }

  lemma PayloadByteChangeRejected(payload: seq<byte>, k: nat, b: byte)
    requires k < |payload| && payload[k] != b
    ensures ParseWithChecksum(AppendChecksum(payload)[k := b]) == Err(SerialAckInvalid)
  {
    var bad := AppendChecksum(payload)[k := b];
    assert bad[..|payload|] == payload[k := b];
    assert bad[|payload|..] == Be16Bytes(Checksum(payload));
    WordSumUpdate(payload, k, b);
    DifferentResidues(WordSum(payload), WordSum(payload[k := b]));
  }

  lemma DifferentResidues(a: int, b: int)
    requires a != b && -0x1_0000 < b - a < 0x1_0000
    ensures a % 0x1_0000 != b % 0x1_0000
  {
  }
}
