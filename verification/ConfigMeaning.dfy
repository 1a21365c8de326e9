/** What the values of a configuration file mean, said on the file's tree alone, and that the typed getters of
    src/protocol/ProtocolConfigLoader.cpp read just that. `found` is what a walk of the tree finds at a path. */
module ConfigMeaning {
  import opened Foundation
  import opened Bytes
  import opened Text
  import opened SimpleYaml
  import opened YamlTree
  import opened ConfigPrinter
  import opened ConfigValues

  // ---------------------------------------------------------------- texts

  predicate InQuotes(raw: string) {
    |raw| >= 2 && ((raw[0] == '"' && raw[|raw| - 1] == '"') || (raw[0] == '\'' && raw[|raw| - 1] == '\''))
  }

  /** The value is the text in double or single quotes, or the bare text. */
  predicate Says(raw: string, s: string) {
    raw == "\"" + s + "\"" || raw == "'" + s + "'" || (raw == s && !InQuotes(raw))
  }

  lemma SaysUnquoted(raw: string, s: string)
    requires Trimmed(raw)
    ensures Says(raw, s) <==> Unquote(raw) == s
  {
    TrimOfTrimmed(raw);
    hide Trim;
    if InQuotes(raw) {
      var q, inner := raw[0], raw[1..|raw| - 1];
      assert raw == [q] + inner + [q];
      if Says(raw, s) { assert raw[1..|raw| - 1] == s; }
    }
  }

  /** Whatever blanks surround a text in quotes, unquoting finds the text. */
  lemma UnquoteSkipsBlanks(before: string, raw: string, after: string, s: string)
    requires Blanks(before) && Blanks(after) && raw != "" && Trimmed(raw) && Says(raw, s)
    ensures Unquote(before + raw + after) == s
  {
    assert before + raw + after == before + (raw + after);
    TrimSkips(before, raw + after);
    TrimSkipsBehind(raw, after);
    SaysUnquoted(raw, s);
    TrimOfTrimmed(raw);
  }

  predicate TextMeans(found: Option<string>, s: string, fallback: string) {
    if found.None? then s == fallback else Says(found.value, s)
  }

  // ---------------------------------------------------------------- numbers

  /** A number as std::stoi reads it: blanks, a sign or none, digits, and anything that does not go on with a digit. */
  datatype Numeral = Numeral(blanks: string, sign: string, digits: string, rest: string)

  function Written(x: Numeral): string { x.blanks + (x.sign + (x.digits + x.rest)) }

  predicate NumeralOk(x: Numeral) {
    && Blanks(x.blanks) && x.sign in ["", "+", "-"] && x.digits != ""
    && (forall k :: 0 <= k < |x.digits| ==> IsDigit(x.digits[k]))
    && (x.rest == "" || !IsDigit(x.rest[0]))
  }

  function ValueOf(x: Numeral): int
    requires NumeralOk(x)
  {
    var magnitude: int := NatValue(x.digits);
    if x.sign == "-" then -magnitude else magnitude
  }

  /** The text is a number of 32 bits. */
  ghost predicate IsNumber(t: string, n: int32) { exists x :: Written(x) == t && NumeralOk(x) && ValueOf(x) == n }

  lemma {:induction false} DigitsInFront(digits: string, rest: string)
    requires forall k :: 0 <= k < |digits| ==> IsDigit(digits[k])
    requires rest == "" || !IsDigit(rest[0])
    ensures LeadingDigits(digits + rest) == digits
  {
    if digits == "" {
      assert digits + rest == rest;
    } else {
      assert (digits + rest)[1..] == digits[1..] + rest;
      DigitsInFront(digits[1..], rest);
    }
  }

  lemma {:induction false} LeadingDigitsPrefix(s: string)
    ensures LeadingDigits(s) <= s
    ensures |LeadingDigits(s)| < |s| ==> !IsDigit(s[|LeadingDigits(s)|])
  {
    if s != "" && IsDigit(s[0]) { LeadingDigitsPrefix(s[1..]); }
  }

  lemma BlanksThenOther(blanks: string, t: string)
    requires Blanks(blanks) && t != "" && !IsSpace(t[0])
    ensures TrimLeft(blanks + t) == t
  {
    TrimLeftSkips(blanks, t);
  }

  lemma SignAside(x: Numeral)
    requires NumeralOk(x)
    ensures var t := x.sign + (x.digits + x.rest);
            && t != "" && !IsSpace(t[0]) && (t[0] == '-' <==> x.sign == "-")
            && WithoutSign(t) == x.digits + x.rest
  {
    var t := x.sign + (x.digits + x.rest);
    if x.sign == "" { assert t == x.digits + x.rest && IsDigit(t[0]); } else { assert t[1..] == x.digits + x.rest; }
  }

  lemma StoiOfNumeral(x: Numeral)
    requires NumeralOk(x)
    ensures Stoi(Written(x)) == if -0x8000_0000 <= ValueOf(x) < 0x8000_0000 then Some(ValueOf(x)) else None
  {
    var t := x.sign + (x.digits + x.rest);
    SignAside(x);
    BlanksThenOther(x.blanks, t);
    DigitsInFront(x.digits, x.rest);
    hide TrimLeft, LeadingDigits, WithoutSign, NatValue, IsSpace;
  }

  /** What std::stoi reads is a numeral. */
  lemma NumeralOfStoi(t: string) returns (x: Numeral)
    requires Stoi(t).Some?
    ensures Written(x) == t && NumeralOk(x) && ValueOf(x) == Stoi(t).value
  {
    hide TrimLeft, LeadingDigits, NatValue, WithoutSign, IsSpace, IsDigit;
    var i := TrimLeftIsSlice(t);
    LeftOfTrim(t, i);
    var u := TrimLeft(t);
    var w := WithoutSign(u);
    var digits := LeadingDigits(w);
    LeadingDigitsPrefix(w);
    var sign := SignInFront(u);
    x := Numeral(t[..i], sign, digits, w[|digits|..]);
    assert digits + w[|digits|..] == w && t[..i] + t[i..] == t;
  }

  lemma SignInFront(u: string) returns (sign: string)
    ensures sign in ["", "+", "-"] && sign + WithoutSign(u) == u && (sign == "-" <==> u != "" && u[0] == '-')
  {
    sign := if u != "" && u[0] in "+-" then [u[0]] else "";
  }

  lemma {:induction false} LeftOfTrim(t: string, i: nat)
    requires i <= |t| && TrimLeft(t) == t[i..]
    ensures Blanks(t[..i])
  {
    if i > 0 {
      TrimLeftShrinks(t);
      assert |TrimLeft(t)| < |t|;
      assert t[1..][i - 1..] == t[i..];
      LeftOfTrim(t[1..], i - 1);
      assert t[..i] == [t[0]] + t[1..][..i - 1];
    }
  }

  lemma {:induction false} TrimLeftShrinks(t: string)
    ensures |TrimLeft(t)| <= |t|
  {
    if t != "" { TrimLeftShrinks(t[1..]); }
  }

  lemma StoiIsNumber(t: string, n: int32)
    ensures Stoi(t) == Some(n) <==> IsNumber(t, n)
  {
    hide Stoi, NumeralOk, ValueOf, Written;
    if Stoi(t) == Some(n) { var x := NumeralOfStoi(t); }
    if x :| Written(x) == t && NumeralOk(x) && ValueOf(x) == n { StoiOfNumeral(x); }
  }

  /** A number out of range or no number at all gives the fallback. */
  ghost predicate IntMeans(found: Option<string>, n: int32, fallback: int32) {
    if found.None? then n == fallback
    else exists t :: Says(found.value, t)
                     && (IsNumber(t, n) || (n == fallback && forall m: int32 :: !IsNumber(t, m)))
  }

  /** So does a number that is no port. */
  ghost predicate PortMeans(found: Option<string>, port: u16, fallback: u16) {
    exists n: int32 :: IntMeans(found, n, fallback) && port == if 1 <= n <= 65535 then n else fallback
  }

  // ---------------------------------------------------------------- flags

  /** The text is the word, in capital or small letters. */
  predicate ReadsAs(t: string, word: string) {
    |t| == |word| &&
    forall k :: 0 <= k < |word| ==>
      t[k] == word[k] || ('a' <= word[k] <= 'z' && t[k] as int + 32 == word[k] as int)
  }

  predicate SaysYes(t: string) { ReadsAs(t, "true") || ReadsAs(t, "1") || ReadsAs(t, "yes") || ReadsAs(t, "on") }

  predicate SaysNo(t: string) { ReadsAs(t, "false") || ReadsAs(t, "0") || ReadsAs(t, "no") || ReadsAs(t, "off") }

  predicate FlagOf(t: string, b: bool, fallback: bool) {
    if SaysYes(t) then b else if SaysNo(t) then !b else b == fallback
  }

  ghost predicate FlagMeans(found: Option<string>, b: bool, fallback: bool) {
    if found.None? then b == fallback else exists t :: Says(found.value, t) && FlagOf(t, b, fallback)
  }

  predicate SmallWord(word: string) { forall k :: 0 <= k < |word| ==> !('A' <= word[k] <= 'Z') }

  lemma {:induction false} LowerReads(t: string, word: string)
    requires SmallWord(word)
    ensures LowerText(t) == word <==> ReadsAs(t, word)
  {
    if t != "" && word != "" {
      LowerReads(t[1..], word[1..]);
      assert word == [word[0]] + word[1..];
      assert forall k :: 0 < k < |word| && |t| == |word| ==> t[k] == t[1..][k - 1] && word[k] == word[1..][k - 1];
      assert ReadsAs(t, word) ==> ReadsAs(t[1..], word[1..]);
      assert LowerText(t) == word ==> LowerText(t[1..]) == word[1..];
    }
  }

  lemma FlagOfLower(t: string, b: bool, fallback: bool)
    ensures BoolOf(LowerText(t), fallback) == b <==> FlagOf(t, b, fallback)
  {
    LowerReads(t, "true");
    LowerReads(t, "1");
    LowerReads(t, "yes");
    LowerReads(t, "on");
    LowerReads(t, "false");
    LowerReads(t, "0");
    LowerReads(t, "no");
    LowerReads(t, "off");
    hide LowerText, ReadsAs;
  }

  // ---------------------------------------------------------------- texts in small letters

  predicate Lowered(s: string, t: string) {
    |s| == |t| &&
    forall k :: 0 <= k < |t| ==> if 'A' <= t[k] <= 'Z' then s[k] as int == t[k] as int + 32 else s[k] == t[k]
  }

  ghost predicate SmallTextMeans(found: Option<string>, s: string, fallback: string) {
    exists t :: TextMeans(found, t, fallback) && Lowered(s, t)
  }

  lemma {:induction false} LoweredIsLower(s: string, t: string)
    ensures Lowered(s, t) <==> LowerText(t) == s
  {
    if s != "" && t != "" {
      LoweredIsLower(s[1..], t[1..]);
      assert s == [s[0]] + s[1..];
      assert forall k :: 0 < k < |s| && |t| == |s| ==> t[k] == t[1..][k - 1] && s[k] == s[1..][k - 1];
      assert Lowered(s, t) ==> Lowered(s[1..], t[1..]);
      assert LowerText(t) == s ==> LowerText(t[1..]) == s[1..];
    }
  }

  // ---------------------------------------------------------------- the getters read just that

  /** The map holds under the path what was found in the tree. */
  predicate Holding(cfg: map<string, string>, path: seq<string>, found: Option<string>) {
    && (Join(path) in cfg <==> found.Some?)
    && (found.Some? ==> cfg[Join(path)] == found.value && Trimmed(found.value))
  }

  lemma GetMeans(cfg: map<string, string>, path: seq<string>, found: Option<string>, s: string, fallback: string)
    requires Holding(cfg, path, found)
    ensures Get(cfg, path, fallback) == s <==> TextMeans(found, s, fallback)
  {
    hide Join, Unquote, Says, Trimmed;
    if found.Some? { SaysUnquoted(found.value, s); }
  }

  lemma ToIntMeans(cfg: map<string, string>, path: seq<string>, found: Option<string>, n: int32, fallback: int32)
    requires Holding(cfg, path, found)
    ensures ToInt(cfg, path, fallback) == n <==> IntMeans(found, n, fallback)
  {
    hide Join, Unquote, Stoi, Says, IsNumber, Trimmed;
    if found.Some? {
      var t := Unquote(found.value);
      forall t' ensures Says(found.value, t') <==> t == t' { SaysUnquoted(found.value, t'); }
      forall m: int32 ensures Stoi(t) == Some(m) <==> IsNumber(t, m) { StoiIsNumber(t, m); }
      assert Says(found.value, t);
      if Stoi(t).Some? { assert IsNumber(t, Stoi(t).value); }
    }
  }

  lemma ToPortMeans(cfg: map<string, string>, path: seq<string>, found: Option<string>, port: u16, fallback: u16)
    requires Holding(cfg, path, found)
    ensures ToPort(cfg, path, fallback) == port <==> PortMeans(found, port, fallback)
  {
    hide ToInt, IntMeans, Holding;
    var n := ToInt(cfg, path, fallback);
    forall m: int32 ensures n == m <==> IntMeans(found, m, fallback) { ToIntMeans(cfg, path, found, m, fallback); }
    assert IntMeans(found, n, fallback);
  }

  lemma ToBoolMeans(cfg: map<string, string>, path: seq<string>, found: Option<string>, b: bool, fallback: bool)
    requires Holding(cfg, path, found)
    ensures ToBool(cfg, path, fallback) == b <==> FlagMeans(found, b, fallback)
  {
    var t := Get(cfg, path, BoolText(fallback));
    FlagOfLower(t, b, fallback);
    FlagOfLower(BoolText(fallback), b, fallback);
    assert SaysYes("true") && SaysNo("false") && !SaysYes("false");
    hide Join, Unquote, Says, LowerText, BoolOf, SaysYes, SaysNo, Trimmed;
    if found.Some? {
      forall t' ensures Says(found.value, t') <==> t == t' { SaysUnquoted(found.value, t'); }
    }
  }

  lemma LowerMeans(cfg: map<string, string>, path: seq<string>, found: Option<string>, s: string, fallback: string)
    requires Holding(cfg, path, found)
    ensures LowerText(Get(cfg, path, fallback)) == s <==> SmallTextMeans(found, s, fallback)
  {
    hide Holding, Get, TextMeans, LowerText, Lowered;
    var t := Get(cfg, path, fallback);
    LoweredIsLower(s, t);
    forall t' ensures t == t' <==> TextMeans(found, t', fallback) { GetMeans(cfg, path, found, t', fallback); }
    assert TextMeans(found, t, fallback);
  }

  // ---------------------------------------------------------------- what a walk finds

  lemma {:induction false} LookupItemTrimmed(items: seq<string>, first: nat, segment: string)
    requires forall k :: 0 <= k < |items| ==> ValueOk(items[k])
    ensures LookupItem(items, first, segment).Some? ==> Trimmed(LookupItem(items, first, segment).value)
  {
    if items != [] { LookupItemTrimmed(items[1..], first + 1, segment); }
  }

  lemma {:induction false} LookupTrimmed(nodes: seq<Node>, path: seq<string>)
    requires TreeOk(nodes)
    ensures Lookup(nodes, path).Some? ==> Trimmed(Lookup(nodes, path).value)
    decreases nodes
  {
    if nodes != [] && path != [] {
      if nodes[0].key == path[0] {
        match nodes[0] {
          case Leaf(_, _, _) =>
          case Block(_, children, _) => LookupTrimmed(children, path[1..]);
          case Items(_, items, _, lines) =>
            assert forall k :: 0 <= k < |items| ==> ItemOk(items[k], lines[k], nodes[0].line.indent);
            if |path| == 2 { LookupItemTrimmed(items, 0, path[1]); }
        }
      } else {
        LookupTrimmed(nodes[1..], path);
      }
    }
  }

  /** After parsing, the map holds under a dotless path what a walk of the tree finds there. */
  lemma ParsedHolds(text: string, nodes: seq<Node>, path: seq<string>)
    requires Spells(text, nodes) && path != [] && Dotless(path)
    ensures Holding(Parse(text), path, Lookup(nodes, path))
  {
    LookupTrimmed(nodes, path);
    ParsedTree(text, nodes, path);
    hide Parse, Join, Lookup, Spells, Trimmed;
  }

  /** A missing file is an empty tree. */
  lemma EmptyText()
    ensures Spells("", []) && Parse("") == map[]
  {
    assert Lines("") == [] && Tokens([]) == [];
  }
}
