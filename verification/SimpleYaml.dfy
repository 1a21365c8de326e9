/** The indentation-stack parser of the configuration files (src/foundation/config/ConfigManager.cpp). It turns
    "key: value" lines into a flat map from dotted paths to values. */
module SimpleYaml {
  import opened Text

  /** An open "key:" line with its indentation. */
  datatype Level = Level(indent: nat, key: string)

  datatype State = State(stack: seq<Level>, out: map<string, string>, listIndex: nat)

  const START := State([], map[], 0)

  /** The position of the first `c`, or the length when there is none. */
  function Find(s: string, c: char): (k: nat)
    ensures k <= |s| && c !in s[..k] && (k < |s| ==> s[k] == c)
  {
    if s == "" || s[0] == c then 0
    else
      var k := Find(s[1..], c);
      assert s[..k + 1] == [s[0]] + s[1..][..k];
      k + 1
  }

  function StartsWith(s: string, prefix: string): bool { prefix <= s }

  /** What getline leaves after the first line. */
  function AfterLine(text: string): (rest: string)
    ensures text != "" ==> |rest| < |text|
  {
    var end := Find(text, '\n');
    if end == |text| then "" else text[end + 1..]
  }

  /** The pieces getline reads: a final newline ends the last line and does not start another. */
  function Lines(text: string): seq<string>
    decreases |text|
  {
    if text == "" then [] else [text[..Find(text, '\n')]] + Lines(AfterLine(text))
  }

  // ---------------------------------------------------------------- one line

  /** What is left of a line in front of a comment. */
  function Cut(line: string): string { line[..Find(line, '#')] }

  function Indent(line: string): (n: nat)
    ensures n <= |line| && (forall k :: 0 <= k < n ==> line[k] == ' ') && (n < |line| ==> line[n] != ' ')
  {
    if line == "" || line[0] != ' ' then 0
    else
      var n := Indent(line[1..]);
      assert forall k :: 0 < k < n + 1 ==> line[k] == line[1..][k - 1];
      n + 1
  }

  function Pop(stack: seq<Level>, indent: nat): seq<Level> {
    if stack != [] && stack[|stack| - 1].indent >= indent then Pop(stack[..|stack| - 1], indent) else stack
  }

  /** Segments with a dot between each two. */
  function Join(segments: seq<string>): string {
    if segments == [] then ""
    else if |segments| == 1 then segments[0]
    else Join(segments[..|segments| - 1]) + "." + segments[|segments| - 1]
  }

  function Keys(stack: seq<Level>): (keys: seq<string>)
    ensures |keys| == |stack|
  {
    seq(|stack|, i requires 0 <= i < |stack| => stack[i].key)
  }

  /** The text of a line with its indentation; comments and surrounding blanks are already gone. */
  datatype Token = Token(indent: nat, text: string)

  function StepToken(st: State, token: Token): State {
    var t := token.text;
    var stack := Pop(st.stack, token.indent);
    var prefix := Join(Keys(stack));
    if StartsWith(t, "- ") then
      State(stack, st.out[prefix + "." + NatText(st.listIndex) := Trim(t[2..])], st.listIndex + 1)
    else
      var colon := Find(t, ':');
      if colon == |t| then State(stack, st.out, 0)
      else
        var key, value := Trim(t[..colon]), Trim(t[colon + 1..]);
        if value == "" then State(stack + [Level(token.indent, key)], st.out, 0)
        else State(stack, st.out[(if prefix == "" then key else prefix + "." + key) := value], 0)
  }

  function StepLine(st: State, line: string): State {
    var cut := Cut(line);
    if Trim(cut) == "" then st else StepToken(st, Token(Indent(cut), Trim(cut)))
  }

  function Fold(st: State, lines: seq<string>): State
    decreases |lines|
  {
    if lines == [] then st else Fold(StepLine(st, lines[0]), lines[1..])
  }

  function Parse(text: string): map<string, string> { Fold(START, Lines(text)).out }

  // ---------------------------------------------------------------- the parser's loops

  method CountIndent(line: string) returns (indent: nat)
    ensures indent == Indent(line)
  {
    indent := 0;
    while indent < |line| && line[indent] == ' '
      invariant indent <= |line|
      invariant indent + Indent(line[indent..]) == Indent(line)
    {
      assert line[indent + 1..] == line[indent..][1..];
      indent := indent + 1;
    }
  }

  method CloseLevels(stack: seq<Level>, indent: nat) returns (open: seq<Level>)
    ensures open == Pop(stack, indent)
  {
    open := stack;
    while open != [] && open[|open| - 1].indent >= indent
      invariant Pop(open, indent) == Pop(stack, indent)
    {
      open := open[..|open| - 1];
    }
  }

  method PrefixOf(stack: seq<Level>) returns (prefix: string)
    ensures prefix == Join(Keys(stack))
  {
    prefix := "";
    var i := 0;
    while i < |stack|
      invariant 0 <= i <= |stack| && prefix == Join(Keys(stack)[..i])
    {
      assert Keys(stack)[..i + 1][..i] == Keys(stack)[..i];
      if i > 0 { prefix := prefix + "."; }
      prefix := prefix + stack[i].key;
      i := i + 1;
    }
    assert Keys(stack)[..|stack|] == Keys(stack);
  }

  method ParseLine(stack: seq<Level>, out: map<string, string>, listIndex: nat, line: string)
    returns (stack': seq<Level>, out': map<string, string>, listIndex': nat)
    ensures State(stack', out', listIndex') == StepLine(State(stack, out, listIndex), line)
  {
    hide Trim, NatText, Pop, Join, Keys;
    stack', out', listIndex' := stack, out, listIndex;
    var cut := Cut(line);
    var t := Trim(cut);
    if t == "" { return; }
    var indent := CountIndent(cut);
    stack' := CloseLevels(stack', indent);
    var prefix := PrefixOf(stack');
    if StartsWith(t, "- ") {
      var key := prefix + "." + NatText(listIndex');
      listIndex' := listIndex' + 1;
      out' := out'[key := Trim(t[2..])];
      return;
    }
    listIndex' := 0;
    var colon := Find(t, ':');
    if colon == |t| { return; }
    var key, value := Trim(t[..colon]), Trim(t[colon + 1..]);
    if value == "" {
      stack' := stack' + [Level(indent, key)];
    } else {
      var full := if prefix == "" then key else prefix + "." + key;
      out' := out'[full := value];
    }
  }

  lemma FoldFirstLine(st: State, text: string)
    requires text != ""
    ensures Fold(st, Lines(text)) == Fold(StepLine(st, text[..Find(text, '\n')]), Lines(AfterLine(text)))
  {
    hide StepLine;
    var line := text[..Find(text, '\n')];
    assert Lines(text) == [line] + Lines(AfterLine(text));
    assert ([line] + Lines(AfterLine(text)))[1..] == Lines(AfterLine(text));
  }

  method ParseSimpleYaml(text: string) returns (out: map<string, string>)
    ensures out == Parse(text)
  {
    hide StepLine, Fold, Lines;
    var stack: seq<Level> := [];
    var listIndex: nat := 0;
    var rest := text;
    out := map[];
    while rest != ""
      invariant Fold(State(stack, out, listIndex), Lines(rest)) == Fold(START, Lines(text))
      decreases |rest|
    {
      FoldFirstLine(State(stack, out, listIndex), rest);
      var line := rest[..Find(rest, '\n')];
      rest := AfterLine(rest);
      stack, out, listIndex := ParseLine(stack, out, listIndex, line);
    }
    FoldNothing(State(stack, out, listIndex));
  }

  lemma FoldNothing(st: State)
    ensures Fold(st, Lines("")) == st
  {
  }

  /** A line with neither a colon nor a dash stores nothing; it ends a list and closes every level that is not further
      out than itself. */
  lemma PlainLine(st: State, token: Token)
    requires Nested(st.stack) && ':' !in token.text && !("- " <= token.text)
    ensures var st' := StepToken(st, token);
            && st'.out == st.out && st'.listIndex == 0 && st'.stack <= st.stack
            && (forall k :: 0 <= k < |st.stack| ==> (k < |st'.stack| <==> st.stack[k].indent < token.indent))
  {
    PopExact(st.stack, token.indent);
    assert forall k :: 0 <= k < |token.text| ==> token.text[k] in token.text;
  }

  lemma {:induction false} PopExact(stack: seq<Level>, indent: nat)
    requires Nested(stack)
    ensures Pop(stack, indent) <= stack
    ensures forall k :: 0 <= k < |stack| ==> (k < |Pop(stack, indent)| <==> stack[k].indent < indent)
  {
    if stack != [] && stack[|stack| - 1].indent >= indent { PopExact(stack[..|stack| - 1], indent); }
  }

  /** An item outside every level is stored under a dot and its number. */
  lemma OutsideItem(st: State, token: Token)
    requires "- " <= token.text && forall k :: 0 <= k < |st.stack| ==> st.stack[k].indent >= token.indent
    ensures StepToken(st, token) ==
            State([], st.out["." + NatText(st.listIndex) := Trim(token.text[2..])], st.listIndex + 1)
  {
    PopAll(st.stack, token.indent);
    hide NatText, Trim;
    assert Join(Keys(Pop(st.stack, token.indent))) == "" && "" + "." == ".";
  }

  lemma {:induction false} PopAll(stack: seq<Level>, indent: nat)
    requires forall k :: 0 <= k < |stack| ==> stack[k].indent >= indent
    ensures Pop(stack, indent) == []
  {
    if stack != [] { PopAll(stack[..|stack| - 1], indent); }
  }

  // ---------------------------------------------------------------- the stack

  /** Indentation grows from the bottom of the stack to its top. */
  predicate Nested(stack: seq<Level>) {
    forall i, j :: 0 <= i < j < |stack| ==> stack[i].indent < stack[j].indent
  }

  lemma {:induction false} PopIsPrefix(stack: seq<Level>, indent: nat)
    ensures Pop(stack, indent) <= stack
    ensures Pop(stack, indent) != [] ==> Pop(stack, indent)[|Pop(stack, indent)| - 1].indent < indent
  {
    if stack != [] && stack[|stack| - 1].indent >= indent {
      PopIsPrefix(stack[..|stack| - 1], indent);
    }
  }

  /** No line breaks the nesting. */
  lemma StepKeepsNested(st: State, line: string)
    requires Nested(st.stack)
    ensures Nested(StepLine(st, line).stack)
  {
    hide Trim, NatText, Pop, Join;
    PopIsPrefix(st.stack, Indent(Cut(line)));
  }

  lemma {:induction false} FoldKeepsNested(st: State, lines: seq<string>)
    requires Nested(st.stack)
    ensures Nested(Fold(st, lines).stack)
    decreases |lines|
  {
    if lines != [] {
      StepKeepsNested(st, lines[0]);
      FoldKeepsNested(StepLine(st, lines[0]), lines[1..]);
    }
  }

  lemma {:induction false} PopTwice(stack: seq<Level>, inner: nat, outer: nat)
    requires outer <= inner
    ensures Pop(Pop(stack, inner), outer) == Pop(stack, outer)
  {
    if stack != [] && stack[|stack| - 1].indent >= inner {
      PopTwice(stack[..|stack| - 1], inner, outer);
    }
  }

  // ---------------------------------------------------------------- tokens

  /** The lines that say something: neither blank nor only a comment. */
  function Tokens(lines: seq<string>): seq<Token> {
    if lines == [] then []
    else
      var cut := Cut(lines[0]);
      (if Trim(cut) == "" then [] else [Token(Indent(cut), Trim(cut))]) + Tokens(lines[1..])
  }

  function FoldTokens(st: State, tokens: seq<Token>): State
    decreases |tokens|
  {
    if tokens == [] then st else FoldTokens(StepToken(st, tokens[0]), tokens[1..])
  }

  /** Blank lines, comments and trailing blanks anywhere in a file make no difference. */
  lemma {:induction false} OnlyTokensMatter(st: State, lines: seq<string>)
    ensures Fold(st, lines) == FoldTokens(st, Tokens(lines))
    decreases |lines|
  {
    hide StepToken, Trim;
    if lines != [] {
      OnlyTokensMatter(StepLine(st, lines[0]), lines[1..]);
      var cut := Cut(lines[0]);
      if Trim(cut) != "" {
        assert Tokens(lines)[0] == Token(Indent(cut), Trim(cut)) && Tokens(lines)[1..] == Tokens(lines[1..]);
      } else {
        assert Tokens(lines) == Tokens(lines[1..]);
      }
    }
  }

  lemma {:induction false} FoldTokensAppend(st: State, a: seq<Token>, b: seq<Token>)
    ensures FoldTokens(st, a + b) == FoldTokens(FoldTokens(st, a), b)
    decreases |a|
  {
    hide StepToken;
    if a == [] {
      assert a + b == b;
    } else {
      assert (a + b)[1..] == a[1..] + b;
      FoldTokensAppend(StepToken(st, a[0]), a[1..], b);
    }
  }

  lemma {:induction false} TokensAppend(a: seq<string>, b: seq<string>)
    ensures Tokens(a + b) == Tokens(a) + Tokens(b)
  {
    if a == [] {
      assert a + b == b;
    } else {
      assert (a + b)[1..] == a[1..] + b;
      TokensAppend(a[1..], b);
    }
  }
}
