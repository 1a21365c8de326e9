/** Hex text for serial commands (src/foundation/utils/ByteUtils.h lines 14-21,
    src/device_control/CompositeSensorCommandBuilder.cpp lines 105-153). */
module HexText {
  import opened Foundation
  import opened Bytes
  import opened Text

  predicate IsHexDigit(c: char) { IsDigit(c) || 'a' <= c <= 'f' || 'A' <= c <= 'F' }

  predicate AllHex(s: string) {
    forall k :: 0 <= k < |s| ==> IsHexDigit(s[k])
  }

  predicate IsSeparator(c: char) { IsSpace(c) || c == ',' || c == ':' || c == '-' || c == '_' }

  function HexValue(c: char): (v: byte)
    requires IsHexDigit(c)
    ensures v < 16
  {
    if IsDigit(c) then (c - '0') as int
    else if 'a' <= c <= 'f' then (c - 'a') as int + 10
    else (c - 'A') as int + 10
  }

  function HexChar(v: nat): (c: char)
    requires v < 16
    ensures IsHexDigit(c) && HexValue(c) == v
  {
    if v < 10 then '0' + v as char else 'A' + (v - 10) as char
  }

  function ByteText(b: byte): string { [HexChar(b / 16), HexChar(b % 16)] }

  /** Two upper-case digits a byte, with one space between bytes when `spaced`. */
  function ToHex(data: seq<byte>, spaced: bool): string {
    if data == [] then ""
    else if |data| == 1 then ByteText(data[0])
    else ToHex(data[..|data| - 1], spaced) + (if spaced then " " else "") + ByteText(data[|data| - 1])
  }

  method PrintHex(data: seq<byte>, spaced: bool) returns (text: string)
    ensures text == ToHex(data, spaced)
  {
    text := "";
    for i := 0 to |data|
      invariant text == ToHex(data[..i], spaced)
    {
      assert data[..i + 1][..i] == data[..i];
      if spaced && i != 0 {
        text := text + " ";
      }
      text := text + ByteText(data[i]);
    }
    assert data[..|data|] == data;
  }

  /** `0x` or `0X` starts at position `i`; both characters are skipped. */
  predicate PrefixAt(text: string, i: nat) {
    i + 1 < |text| && text[i] == '0' && (text[i + 1] == 'x' || text[i + 1] == 'X')
  }

  /** The digits left once prefixes and separators are dropped; `None` on any other character. */
  function Digits(text: string): (d: Option<string>)
    ensures d.Some? ==> AllHex(d.value)
  {
    if text == "" then Some("")
    else if PrefixAt(text, 0) then Digits(text[2..])
    else if IsHexDigit(text[0]) then
      var rest := Digits(text[1..]);
      if rest.None? then None else Some([text[0]] + rest.value)
    else if IsSeparator(text[0]) then Digits(text[1..])
    else None
  }

  function DigitPairs(digits: string): seq<byte>
    requires AllHex(digits)
    requires |digits| % 2 == 0
  {
    if digits == "" then []
    else [HexValue(digits[0]) * 16 + HexValue(digits[1])] + DigitPairs(digits[2..])
  }

  function ParseHex(text: string): Result<seq<byte>> {
    var digits := Digits(text);
    if digits.None? then Err(ParseError)
    else if digits.value == "" then Err(InvalidArgument)
    else if |digits.value| % 2 != 0 then Err(ParseError)
    else Ok(DigitPairs(digits.value))
  }

  /** The scanning loop of the source, which steps its own index over a prefix. */
  lemma DigitsStep(text: string, i: nat)
    requires i < |text|
    ensures var c, d := text[i], Digits(text[i..]);
            if PrefixAt(text[i..], 0) then i + 2 <= |text| && d == Digits(text[i + 2..])
            else if IsHexDigit(c) then
              var rest := Digits(text[i + 1..]);
              d == if rest.None? then None else Some([c] + rest.value)
            else if IsSeparator(c) then d == Digits(text[i + 1..])
            else d == None
  {
    assert text[i..][1..] == text[i + 1..];
    if PrefixAt(text[i..], 0) { assert text[i..][2..] == text[i + 2..]; }
  }

  method ParseHexCommand(text: string) returns (r: Result<seq<byte>>)
    ensures r == ParseHex(text)
  {
    hide DigitPairs, IsHexDigit, IsSeparator;
    assert text[0..] == text && Digits("") == Some("");
    hide Digits;
    var normalized := "";
    var i := 0;
    while i < |text|
      invariant 0 <= i <= |text|
      invariant AllHex(normalized)
      invariant Digits(text).Some? == Digits(text[i..]).Some?
      invariant Digits(text).Some? ==> Digits(text).value == normalized + Digits(text[i..]).value
    {
      var c := text[i];
      DigitsStep(text, i);
      if c == '0' && i + 1 < |text| && (text[i + 1] == 'x' || text[i + 1] == 'X') {
        assert PrefixAt(text[i..], 0);
        i := i + 2;
      } else if IsHexDigit(c) {
        normalized := normalized + [c];
        i := i + 1;
      } else if IsSeparator(c) {
        i := i + 1;
      } else {
        return Err(ParseError);
      }
    }
    assert text[|text|..] == "";
    assert Digits(text).value == normalized;
    if normalized == "" {
      return Err(InvalidArgument);
    }
    if |normalized| % 2 != 0 {
      return Err(ParseError);
    }
    var out := PairDigits(normalized);
    r := Ok(out);
  }

  function PairsFrom(digits: string, i: nat): seq<byte>
    requires AllHex(digits) && |digits| % 2 == 0 && i <= |digits| && i % 2 == 0
  {
    DigitPairs(digits[i..])
  }

  lemma PairStep(digits: string, i: nat)
    requires AllHex(digits) && |digits| % 2 == 0 && i + 2 <= |digits| && i % 2 == 0
    ensures PairsFrom(digits, i) == [HexValue(digits[i]) * 16 + HexValue(digits[i + 1])] + PairsFrom(digits, i + 2)
  {
    assert digits[i..][2..] == digits[i + 2..];
  }

  lemma PairEnds(digits: string)
    requires AllHex(digits) && |digits| % 2 == 0
    ensures PairsFrom(digits, 0) == DigitPairs(digits) && PairsFrom(digits, |digits|) == []
  {
    assert digits[0..] == digits;
  }

  method PairDigits(digits: string) returns (out: seq<byte>)
    requires AllHex(digits)
    requires |digits| % 2 == 0
    ensures out == DigitPairs(digits)
  {
    hide DigitPairs, HexValue, PairsFrom, IsHexDigit;
    PairEnds(digits);
    out := [];
    var i := 0;
    while i < |digits|
      invariant 0 <= i <= |digits| && i % 2 == 0
      invariant out + PairsFrom(digits, i) == DigitPairs(digits)
    {
      PairStep(digits, i);
      out := out + [HexValue(digits[i]) * 16 + HexValue(digits[i + 1])];
      i := i + 2;
    }
  }

  /** Reading continues independently behind a point that does not cut a prefix in two. */
  lemma {:induction false} DigitsAppend(a: string, b: string)
    requires !(a != "" && a[|a| - 1] == '0' && b != "" && (b[0] == 'x' || b[0] == 'X'))
    ensures Digits(a + b).Some? == (Digits(a).Some? && Digits(b).Some?)
    ensures Digits(a + b).Some? ==> Digits(a + b).value == Digits(a).value + Digits(b).value
    decreases |a|
  {
    if a == "" {
      assert a + b == b;
    } else if PrefixAt(a, 0) {
      assert (a + b)[2..] == a[2..] + b;
      DigitsAppend(a[2..], b);
    } else {
      assert (a + b)[1..] == a[1..] + b;
      assert PrefixAt(a + b, 0) ==> |a| == 1;
      DigitsAppend(a[1..], b);
    }
  }

  lemma {:induction false} DigitPairsAppend(a: string, b: string)
    requires AllHex(a)
    requires AllHex(b)
    requires |a| % 2 == 0 && |b| % 2 == 0
    ensures DigitPairs(a + b) == DigitPairs(a) + DigitPairs(b)
  {
    if a == "" {
      assert a + b == b;
    } else {
      assert (a + b)[2..] == a[2..] + b;
      DigitPairsAppend(a[2..], b);
    }
  }

  lemma ByteTextDigits(b: byte)
    ensures Digits(ByteText(b)) == Some(ByteText(b)) && DigitPairs(ByteText(b)) == [b]
  {
    var text := ByteText(b);
    assert text[1..] == [text[1]] && text[1..][1..] == "" && text[2..] == "";
    assert Digits("") == Some("") && Digits(text[1..]).value == text[1..];
    assert Digits(text).value == text;
  }

  lemma ByteTextFollows(head: string, gap: string, b: byte)
    requires gap == "" || gap == " "
    requires Digits(head).Some? && |Digits(head).value| % 2 == 0
    ensures Digits(head + gap + ByteText(b)).Some?
    ensures Digits(head + gap + ByteText(b)).value == Digits(head).value + ByteText(b)
    ensures DigitPairs(Digits(head).value + ByteText(b)) == DigitPairs(Digits(head).value) + [b]
  {
    ByteTextDigits(b);
    assert gap == "" || gap[1..] == "";
    DigitsAppend(head, gap);
    DigitsAppend(head + gap, ByteText(b));
    DigitPairsAppend(Digits(head).value, ByteText(b));
  }

  lemma OneByteDigits(b: byte)
    ensures Digits(ByteText(b)) == Some(ByteText(b)) && |ByteText(b)| == 2 && DigitPairs(ByteText(b)) == [b]
  {
    ByteTextDigits(b);
  }

  lemma NoDigits()
    ensures Digits("") == Some("") && DigitPairs("") == []
  {
  }

  lemma {:induction false} ToHexDigits(data: seq<byte>, spaced: bool)
    ensures Digits(ToHex(data, spaced)).Some?
    ensures |Digits(ToHex(data, spaced)).value| == 2 * |data|
    ensures DigitPairs(Digits(ToHex(data, spaced)).value) == data
  {
    hide Digits, DigitPairs, ByteText, AllHex;
    if data == [] {
      NoDigits();
    } else if |data| == 1 {
      OneByteDigits(data[0]);
      assert data == [data[0]];
    } else {
      var front := data[..|data| - 1];
      OneByteDigits(data[|data| - 1]);
      ToHexDigits(front, spaced);
      ByteTextFollows(ToHex(front, spaced), if spaced then " " else "", data[|data| - 1]);
      assert data == front + [data[|data| - 1]];
    }
  }

  /** Printing bytes as hex, spaced or not, and parsing the text gives the bytes back. */
  lemma HexRoundTrip(data: seq<byte>, spaced: bool)
    ensures ParseHex(ToHex(data, spaced)) == if data == [] then Err(InvalidArgument) else Ok(data)
  {
    ToHexDigits(data, spaced);
  }

  /** The characters that may stand between digits. */
  predicate Between(c: char) { c in ",:-_ \t\n\r" || c as int == 11 || c as int == 12 }

  /** A text that holds any other character is refused, except for the `x` of a prefix. */
  lemma {:induction false} OtherRefused(text: string, k: nat)
    requires k < |text| && !Between(text[k])
    requires !('0' <= text[k] <= '9') && !('a' <= text[k] <= 'f') && !('A' <= text[k] <= 'F')
    requires text[k] in "xX" ==> k == 0 || text[k - 1] != '0'
    ensures ParseHex(text) == Err(ParseError)
  {
    OtherLeavesNothing(text, k);
  }

  lemma {:induction false} OtherLeavesNothing(text: string, k: nat)
    requires k < |text| && !Between(text[k]) && !IsHexDigit(text[k])
    requires text[k] in "xX" ==> k == 0 || text[k - 1] != '0'
    ensures Digits(text).None?
  {
    if k > 0 {
      if PrefixAt(text, 0) {
        assert k >= 2 && text[2..][k - 2] == text[k] && (k > 2 ==> text[2..][k - 3] == text[k - 1]);
        OtherLeavesNothing(text[2..], k - 2);
      } else {
        assert text[1..][k - 1] == text[k] && (k > 1 ==> text[1..][k - 2] == text[k - 1]);
        OtherLeavesNothing(text[1..], k - 1);
      }
    }
  }

  /** Capital and small letters mean the same. */
  predicate SameHex(a: char, b: char) {
    a == b || ('A' <= a <= 'F' && b as int == a as int + 32) || ('A' <= b <= 'F' && a as int == b as int + 32)
  }

  predicate SameTexts(a: string, b: string) {
    |a| == |b| && forall k :: 0 <= k < |a| ==> SameHex(a[k], b[k])
  }

  lemma {:induction false} SameDigits(a: string, b: string)
    requires SameTexts(a, b)
    ensures Digits(a).Some? == Digits(b).Some?
    ensures Digits(a).Some? ==> SameTexts(Digits(a).value, Digits(b).value)
  {
    if a != "" {
      assert SameHex(a[0], b[0]);
      if PrefixAt(a, 0) {
        assert SameHex(a[1], b[1]);
        SameDigits(a[2..], b[2..]);
      } else {
        assert |a| > 1 ==> SameHex(a[1], b[1]);
        SameDigits(a[1..], b[1..]);
      }
    }
  }

  lemma {:induction false} SamePairs(a: string, b: string)
    requires SameTexts(a, b) && AllHex(a) && AllHex(b) && |a| % 2 == 0
    ensures DigitPairs(a) == DigitPairs(b)
  {
    if a != "" {
      assert SameHex(a[0], b[0]) && SameHex(a[1], b[1]);
      SamePairs(a[2..], b[2..]);
    }
  }

  /** Writing hex letters small or capital makes no difference. */
  lemma CaseDoesNotMatter(a: string, b: string)
    requires SameTexts(a, b)
    ensures ParseHex(a) == ParseHex(b)
  {
    SameDigits(a, b);
    if Digits(a).Some? && |Digits(a).value| % 2 == 0 { SamePairs(Digits(a).value, Digits(b).value); }
    hide Digits, DigitPairs;
  }

  lemma OneDigit(c: char)
    requires IsHexDigit(c)
    ensures Digits([c]) == Some([c])
  {
    var text := [c];
    assert text[1..] == "" && Digits("") == Some("");
    assert Digits(text).value == text;
  }

  /** One digit too many is an error, whatever complete bytes are in front of it. */
  lemma OddRefused(data: seq<byte>, spaced: bool, c: char)
    requires '0' <= c <= '9' || 'a' <= c <= 'f' || 'A' <= c <= 'F'
    ensures ParseHex(ToHex(data, spaced) + [c]) == Err(ParseError)
  {
    OneDigit(c);
    ToHexDigits(data, spaced);
    DigitsAppend(ToHex(data, spaced), [c]);
    hide Digits, DigitPairs, ToHex;
  }

  /** The text of one byte: two capital digits of its two halves. */
  lemma ByteIsTwoDigits(b: byte)
    ensures ToHex([b], false) == ["0123456789ABCDEF"[b / 16], "0123456789ABCDEF"[b % 16]]
  {
  }

  /** The text of several bytes is that of the first ones, a space where asked for, and that of the last. */
  lemma ToHexOfMore(data: seq<byte>, b: byte, spaced: bool)
    ensures ToHex(data + [b], spaced) ==
            if data == [] then ByteText(b) else ToHex(data, spaced) + (if spaced then " " else "") + ByteText(b)
  {
    assert (data + [b])[..|data|] == data;
  }

  /** A separator may be inserted anywhere except inside a `0x` prefix, where it makes the text invalid. */
  lemma InsertSeparator(text: string, k: nat, sep: char)
    requires k <= |text| && Between(sep)
    ensures ParseHex(text[..k] + [sep] + text[k..]) ==
            if k > 0 && PrefixAt(text, k - 1) then Err(ParseError) else ParseHex(text)
  {
    var a, b := text[..k], text[k..];
    assert text == a + b && a + [sep] + b == a + ([sep] + b);
    assert ([sep] + b)[1..] == b;
    DigitsAppend(a, [sep] + b);
    if !(k > 0 && PrefixAt(text, k - 1)) {
      DigitsAppend(a, b);
    }
  }
}
