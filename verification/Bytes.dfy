/** Bytes, machine words and their big-endian encodings (src/foundation/utils/ByteUtils.h). */
module Bytes {
  type byte = b: int | 0 <= b < 0x100
  type u16 = w: int | 0 <= w < 0x1_0000
  type u32 = w: int | 0 <= w < 0x1_0000_0000

  function Be16(s: seq<byte>): u16
    requires |s| == 2
  {
    (s[0] as int) * 0x100 + s[1]
  }

  function Be16Bytes(w: u16): (s: seq<byte>)
    ensures |s| == 2 && Be16(s) == w
  {
    [w / 0x100, w % 0x100]
  }

  function Be24(s: seq<byte>): int
    requires |s| == 3
  {
    (s[0] as int) * 0x1_0000 + (s[1] as int) * 0x100 + s[2]
  }

  /** The low 24 bits of a word, most significant byte first. */
  function Be24Bytes(w: u32): (s: seq<byte>)
    ensures |s| == 3 && Be24(s) == w % 0x100_0000
  {
    Be24Parts(w);
    [w / 0x1_0000 % 0x100, w / 0x100 % 0x100, w % 0x100]
  }

  lemma Be24Parts(w: nat)
    ensures w / 0x1_0000 % 0x100 * 0x1_0000 + w / 0x100 % 0x100 * 0x100 + w % 0x100 == w % 0x100_0000
  {
    var middle := w / 0x100;
    var high := middle / 0x100;
    var top := high / 0x100;
    assert w == middle * 0x100 + w % 0x100 && middle == high * 0x100 + middle % 0x100;
    assert high == top * 0x100 + high % 0x100;
    var low := high % 0x100 * 0x1_0000 + middle % 0x100 * 0x100 + w % 0x100;
    assert w == top * 0x100_0000 + low && 0 <= low < 0x100_0000;
    QuotientAndRest(w, top, low);
    assert high == w / 0x1_0000;
  }

  lemma QuotientAndRest(w: nat, top: nat, low: nat)
    requires w == top * 0x100_0000 + low && low < 0x100_0000
    ensures w % 0x100_0000 == low
  {
  }

  function Be32(s: seq<byte>): u32
    requires |s| == 4
  {
    (s[0] as int) * 0x100_0000 + (s[1] as int) * 0x1_0000 + (s[2] as int) * 0x100 + s[3]
  }

  function Be32Bytes(w: u32): (s: seq<byte>)
    ensures |s| == 4 && Be32(s) == w
  {
    var high, low := w / 0x1_0000, w % 0x1_0000;
    [high / 0x100, high % 0x100, low / 0x100, low % 0x100]
  }

  lemma Be16Injective(a: seq<byte>, b: seq<byte>)
    requires |a| == 2 && |b| == 2
    ensures Be16(a) == Be16(b) <==> a == b
  {
    assert a[0] == Be16(a) / 0x100 && b[0] == Be16(b) / 0x100;
    assert a == [a[0], a[1]] && b == [b[0], b[1]];
  }

  /** The 16-bit sequence number after this one. */
  function NextSeq(seqNo: u16): u16 { (seqNo + 1) % 0x1_0000 }

  function AdvanceSeq(seqNo: u16, n: nat): u16 { (seqNo + n) % 0x1_0000 }

  lemma AdvanceZero(seqNo: u16)
    ensures AdvanceSeq(seqNo, 0) == seqNo
  {
  }

  lemma AdvanceNext(seqNo: u16, n: nat)
    ensures AdvanceSeq(NextSeq(seqNo), n) == AdvanceSeq(seqNo, n + 1)
  {
  }

  lemma AdvanceTwice(seqNo: u16, a: nat, b: nat)
    ensures AdvanceSeq(AdvanceSeq(seqNo, a), b) == AdvanceSeq(seqNo, a + b)
  {
  }

  /** Concatenation of a list of byte strings. */
  function Flatten<T>(parts: seq<seq<T>>): seq<T> {
    if parts == [] then [] else parts[0] + Flatten(parts[1..])
  }

  lemma {:induction false} FlattenAppend<T>(a: seq<seq<T>>, b: seq<seq<T>>)
    ensures Flatten(a + b) == Flatten(a) + Flatten(b)
  {
    if a == [] {
      assert a + b == b;
    } else {
      assert (a + b)[0] == a[0] && (a + b)[1..] == a[1..] + b;
      FlattenAppend(a[1..], b);
    }
  }

  lemma FlattenSnoc<T>(a: seq<seq<T>>, x: seq<T>)
    ensures Flatten(a + [x]) == Flatten(a) + x
  {
    FlattenAppend(a, [x]);
    assert Flatten([x]) == x + Flatten([]);
  }
}
