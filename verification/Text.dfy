/** Character classes, trimming and decimal printing (src/foundation/utils/StringUtils.h and the C library
    functions the source calls in the C locale). */
module Text {

  predicate IsSpace(c: char) {
    c == ' ' || '\t' <= c <= '\r'
  }

  predicate IsDigit(c: char) { '0' <= c <= '9' }

  predicate IsAlnum(c: char) { IsDigit(c) || 'a' <= c <= 'z' || 'A' <= c <= 'Z' }

  function Upper(c: char): char {
    if 'a' <= c <= 'z' then c - 'a' + 'A' else c
  }

  function Lower(c: char): char {
    if 'A' <= c <= 'Z' then c - 'A' + 'a' else c
  }

  function LowerText(s: string): (r: string)
    ensures |r| == |s|
  {
    if s == "" then "" else [Lower(s[0])] + LowerText(s[1..])
  }

  function TrimLeft(s: string): string {
    if s != "" && IsSpace(s[0]) then TrimLeft(s[1..]) else s
  }

  function TrimRight(s: string): string {
    if s != "" && IsSpace(s[|s| - 1]) then TrimRight(s[..|s| - 1]) else s
  }

  function Trim(s: string): string { TrimRight(TrimLeft(s)) }

  /** Nothing to trim at either end. */
  predicate Trimmed(s: string) {
    s != "" ==> !IsSpace(s[0]) && !IsSpace(s[|s| - 1])
  }

  /** Drop blanks and the separators `_`, `-`, `.`; raise the rest to upper case. */
  function Normalize(s: string): string {
    if s == "" then ""
    else if IsSpace(s[0]) || s[0] in "_-." then Normalize(s[1..])
    else [Upper(s[0])] + Normalize(s[1..])
  }

  /** Trim, then take off one pair of equal quotes. */
  function Unquote(s: string): string {
    var t := Trim(s);
    if |t| >= 2 && t[0] == t[|t| - 1] && t[0] in "\"'" then t[1..|t| - 1] else t
  }

  function BoolOf(lowered: string, fallback: bool): bool {
    if lowered in ["true", "1", "yes", "on"] then true
    else if lowered in ["false", "0", "no", "off"] then false
    else fallback
  }

  function Digit(n: nat): (c: char)
    requires n < 10
    ensures IsDigit(c) && DigitOf(c) == n
  {
    '0' + n as char
  }

  function DigitOf(c: char): (n: nat)
    requires IsDigit(c)
    ensures n < 10
  {
    (c - '0') as nat
  }

  /** Decimal digits without leading zeros. */
  function NatText(n: nat): (s: string)
    ensures s != "" && forall k :: 0 <= k < |s| ==> IsDigit(s[k])
  {
    if n < 10 then [Digit(n)] else NatText(n / 10) + [Digit(n % 10)]
  }

  function IntText(n: int): string {
    if n < 0 then "-" + NatText(-n) else NatText(n)
  }

  /** The number a digit string stands for. */
  function NatValue(s: string): nat
    requires forall k :: 0 <= k < |s| ==> IsDigit(s[k])
  {
    if s == "" then 0 else NatValue(s[..|s| - 1]) * 10 + DigitOf(s[|s| - 1])
  }

  lemma {:induction false} NatTextValue(n: nat)
    ensures NatValue(NatText(n)) == n
  {
    var s := NatText(n);
    if n < 10 {
      assert s[..|s| - 1] == "";
    } else {
      NatTextValue(n / 10);
      assert s[..|s| - 1] == NatText(n / 10);
    }
  }

  lemma NatTextInjective(a: nat, b: nat)
    ensures NatText(a) == NatText(b) <==> a == b
  {
    NatTextValue(a);
    NatTextValue(b);
  }

  lemma TrimOfTrimmed(s: string)
    ensures Trimmed(s) ==> Trim(s) == s
  {
  }

  lemma {:induction false} TrimLeftSkips(blanks: string, s: string)
    requires forall k :: 0 <= k < |blanks| ==> IsSpace(blanks[k])
    ensures TrimLeft(blanks + s) == TrimLeft(s)
  {
    if blanks == "" {
      assert blanks + s == s;
    } else {
      assert (blanks + s)[1..] == blanks[1..] + s;
      TrimLeftSkips(blanks[1..], s);
    }
  }

  predicate Blanks(s: string) { forall k :: 0 <= k < |s| ==> IsSpace(s[k]) }

  lemma {:induction false} TrimRightSkips(s: string, blanks: string)
    requires Blanks(blanks)
    ensures TrimRight(s + blanks) == TrimRight(s)
    decreases |blanks|
  {
    if blanks == "" {
      assert s + blanks == s;
    } else {
      assert (s + blanks)[..|s + blanks| - 1] == s + blanks[..|blanks| - 1];
      TrimRightSkips(s, blanks[..|blanks| - 1]);
    }
  }

  /** Trailing blanks do not matter to trimming a text that starts with something else. */
  lemma TrimSkipsBehind(s: string, blanks: string)
    requires s != "" && Trimmed(s) && Blanks(blanks)
    ensures Trim(s + blanks) == s
  {
    assert (s + blanks)[0] == s[0];
    TrimRightSkips(s, blanks);
    TrimOfTrimmed(s);
  }

  /** Leading blanks do not matter to trimming. */
  lemma TrimSkips(blanks: string, s: string)
    requires forall k :: 0 <= k < |blanks| ==> IsSpace(blanks[k])
    ensures Trim(blanks + s) == Trim(s)
  {
    TrimLeftSkips(blanks, s);
  }

  /** Trimming keeps a contiguous piece of the text. */
  lemma {:induction false} TrimLeftIsSlice(s: string) returns (i: nat)
    ensures i <= |s| && TrimLeft(s) == s[i..]
    ensures TrimLeft(s) != "" ==> !IsSpace(TrimLeft(s)[0])
  {
    if s != "" && IsSpace(s[0]) {
      var j := TrimLeftIsSlice(s[1..]);
      i := j + 1;
    } else {
      i := 0;
    }
  }

  lemma {:induction false} TrimRightIsSlice(s: string) returns (j: nat)
    ensures j <= |s| && TrimRight(s) == s[..j]
    ensures TrimRight(s) != "" ==> !IsSpace(TrimRight(s)[|TrimRight(s)| - 1])
  {
    if s != "" && IsSpace(s[|s| - 1]) {
      j := TrimRightIsSlice(s[..|s| - 1]);
      assert s[..|s| - 1][..j] == s[..j];
    } else {
      j := |s|;
    }
  }

  lemma TrimIsSlice(s: string) returns (i: nat, j: nat)
    ensures i <= j <= |s| && Trim(s) == s[i..j]
    ensures Trimmed(Trim(s))
  {
    i := TrimLeftIsSlice(s);
    var k := TrimRightIsSlice(s[i..]);
    j := i + k;
  }
}
