/** Typed values in the flat configuration map: how they are printed and how the getters read them back
    (src/protocol/ProtocolConfigLoader.cpp). A key is written as the list of its dotted segments. */
module ConfigValues {
  import opened Foundation
  import opened Bytes
  import opened Text
  import opened SimpleYaml
  import opened YamlTree
  import opened ConfigPrinter

  type int32 = n: int | -0x8000_0000 <= n < 0x8000_0000

  // ---------------------------------------------------------------- printing

  function Quote(s: string): string { "\"" + s + "\"" }

  function BoolText(b: bool): string { if b then "true" else "false" }

  // ---------------------------------------------------------------- reading

  function LeadingDigits(s: string): (d: string)
    ensures forall k :: 0 <= k < |d| ==> IsDigit(d[k])
  {
    if s == "" || !IsDigit(s[0]) then "" else [s[0]] + LeadingDigits(s[1..])
  }

  function WithoutSign(s: string): string { if s != "" && s[0] in "+-" then s[1..] else s }

  /** std::stoi: leading blanks, an optional sign, digits, then anything; None where it throws. */
  function Stoi(s: string): Option<int32> {
    var t := TrimLeft(s);
    var negative := t != "" && t[0] == '-';
    var digits := LeadingDigits(WithoutSign(t));
    var magnitude: int := NatValue(digits);
    var n := if negative then -magnitude else magnitude;
    if digits == "" || !(-0x8000_0000 <= n < 0x8000_0000) then None else Some(n)
  }

  function Get(cfg: map<string, string>, path: seq<string>, fallback: string): string {
    if Join(path) in cfg then Unquote(cfg[Join(path)]) else fallback
  }

  function ToInt(cfg: map<string, string>, path: seq<string>, fallback: int32): int32 {
    if Join(path) !in cfg then fallback
    else
      var n := Stoi(Unquote(cfg[Join(path)]));
      if n.Some? then n.value else fallback
  }

  function ToBool(cfg: map<string, string>, path: seq<string>, fallback: bool): bool {
    BoolOf(LowerText(Get(cfg, path, BoolText(fallback))), fallback)
  }

  predicate IsValidPort(n: int) { 0 < n <= 65535 }

  function ToPort(cfg: map<string, string>, path: seq<string>, fallback: u16): u16 {
    var n := ToInt(cfg, path, fallback);
    if IsValidPort(n) then n else fallback
  }

  // ---------------------------------------------------------------- what is printed is read back

  lemma QuoteReadsBack(s: string)
    ensures Unquote(Quote(s)) == s
    ensures ValueOk(Quote(s)) && (Clean(Quote(s)) <==> Clean(s))
  {
    TrimOfTrimmed(Quote(s));
    CleanJoin("\"", s);
    CleanJoin("\"" + s, "\"");
  }

  lemma {:induction false} DigitsLead(s: string)
    requires forall k :: 0 <= k < |s| ==> IsDigit(s[k])
    ensures LeadingDigits(s) == s
  {
    if s != "" { DigitsLead(s[1..]); }
  }

  /** Every int is printed as a nonempty text of digits and a sign, so nothing is trimmed or unquoted. */
  lemma IntTextPlain(n: int32)
    ensures var t := IntText(n);
            && t != "" && Trimmed(t) && Clean(t) && Unquote(t) == t && TrimLeft(t) == t
  {
    var t := IntText(n);
    assert forall k :: 0 <= k < |t| ==> IsDigit(t[k]) || t[k] == '-';
    hide NatText;
    TrimOfTrimmed(t);
    assert t[0] !in "\"'";
  }

  lemma SignOf(n: int32)
    ensures WithoutSign(IntText(n)) == NatText(Abs(n)) && (IntText(n)[0] == '-' <==> n < 0)
  {
    hide NatText;
    if n < 0 {
      assert IntText(n)[1..] == NatText(Abs(n));
    } else {
      assert IsDigit(IntText(n)[0]);
    }
  }

  lemma StoiReadsBack(n: int32)
    ensures Stoi(IntText(n)) == Some(n)
  {
    IntTextPlain(n);
    SignOf(n);
    NatTextValue(Abs(n));
    DigitsLead(NatText(Abs(n)));
    hide NatText, NatValue, TrimLeft, LeadingDigits, Trim, Clean, WithoutSign, IntText, Unquote;
  }

  lemma IntReadsBack(n: int32)
    ensures Stoi(Unquote(IntText(n))) == Some(n)
    ensures ValueOk(IntText(n)) && Clean(IntText(n))
  {
    IntTextPlain(n);
    StoiReadsBack(n);
    hide IntText, Stoi, Clean;
  }

  lemma BoolReadsBack(b: bool, fallback: bool)
    ensures BoolOf(LowerText(Unquote(BoolText(b))), fallback) == b
    ensures ValueOk(BoolText(b)) && Clean(BoolText(b))
  {
    var t := BoolText(b);
    TrimOfTrimmed(t);
    assert Unquote(t) == t;
    LowerOfLower(t);
  }

  lemma {:induction false} LowerOfLower(s: string)
    requires forall k :: 0 <= k < |s| ==> 'a' <= s[k] <= 'z'
    ensures LowerText(s) == s
  {
    if s != "" { LowerOfLower(s[1..]); }
  }

  /** Lowering twice is lowering once. */
  lemma {:induction false} LowerTwice(s: string)
    ensures LowerText(LowerText(s)) == LowerText(s)
  {
    if s != "" {
      LowerTwice(s[1..]);
      assert LowerText(s)[1..] == LowerText(s[1..]);
    }
  }

  lemma {:induction false} LowerClean(s: string)
    requires Clean(s)
    ensures Clean(LowerText(s))
  {
    if s != "" {
      CleanSlice(s, 1, |s|);
      assert s[0] in s;
      LowerClean(s[1..]);
      CleanJoin([Lower(s[0])], LowerText(s[1..]));
    }
  }

  predicate Holds(cfg: map<string, string>, path: seq<string>, text: string) {
    Join(path) in cfg && cfg[Join(path)] == text
  }

  lemma ReadsText(cfg: map<string, string>, path: seq<string>, s: string, fallback: string)
    requires Holds(cfg, path, Quote(s))
    ensures Get(cfg, path, fallback) == s
  {
    QuoteReadsBack(s);
    hide Join, Unquote, Quote;
  }

  lemma ReadsInt(cfg: map<string, string>, path: seq<string>, n: int32, fallback: int32)
    requires Holds(cfg, path, IntText(n))
    ensures ToInt(cfg, path, fallback) == n
  {
    IntReadsBack(n);
    hide Join, Unquote, IntText, Stoi;
  }

  /** Port 0 is the one port that does not come back. */
  lemma ReadsPort(cfg: map<string, string>, path: seq<string>, port: u16, fallback: u16)
    requires Holds(cfg, path, IntText(port))
    ensures ToPort(cfg, path, fallback) == if port == 0 then fallback else port
  {
    ReadsInt(cfg, path, port, fallback);
  }

  lemma ReadsBool(cfg: map<string, string>, path: seq<string>, b: bool, fallback: bool)
    requires Holds(cfg, path, BoolText(b))
    ensures ToBool(cfg, path, fallback) == b
  {
    BoolReadsBack(b, fallback);
    hide Join, Unquote, BoolText, LowerText;
  }

  // ---------------------------------------------------------------- what the getters can return

  lemma GetClean(cfg: map<string, string>, path: seq<string>, fallback: string)
    requires ValuesClean(cfg) && Clean(fallback)
    ensures Clean(Get(cfg, path, fallback))
  {
    if Join(path) in cfg { UnquoteClean(cfg[Join(path)]); }
  }
}
