/** The layout the configuration writers share (src/protocol/ProtocolConfigLoader.cpp): a root key, under it single
    values and groups of values, two blanks of indentation per level. Printing it and parsing it again finds every
    value under its dotted path. */
module ConfigPrinter {
  import opened Foundation
  import opened Text
  import opened SimpleYaml
  import opened YamlTree

  /** A key and the text printed after it. */
  type Pair = (string, string)

  datatype Part = One(pair: Pair) | Group(key: string, pairs: seq<Pair>)

  function KeyOf(part: Part): string { if part.One? then part.pair.0 else part.key }

  // ---------------------------------------------------------------- the text

  function Spaces(n: nat): (s: string)
    ensures |s| == n && forall k :: 0 <= k < n ==> s[k] == ' '
  {
    if n == 0 then "" else " " + Spaces(n - 1)
  }

  function PairLines(indent: nat, pairs: seq<Pair>): seq<string> {
    if pairs == [] then []
    else [Spaces(indent) + (pairs[0].0 + ": " + pairs[0].1)] + PairLines(indent, pairs[1..])
  }

  function PartLines(part: Part): seq<string> {
    match part
    case One(pair) => PairLines(2, [pair])
    case Group(key, pairs) => [Spaces(2) + (key + ":")] + PairLines(4, pairs)
  }

  function Gap(blank: bool): seq<string> { if blank then [""] else [] }

  /** `spaced` asks for a blank line between the parts. */
  function PartsLines(parts: seq<Part>, spaced: bool): seq<string> {
    if parts == [] then []
    else PartLines(parts[0]) + Gap(spaced && |parts| > 1) + PartsLines(parts[1..], spaced)
  }

  function Unlines(lines: seq<string>): string {
    if lines == [] then "" else lines[0] + "\n" + Unlines(lines[1..])
  }

  function Printed(root: string, parts: seq<Part>, spaced: bool): string {
    Unlines([Spaces(0) + (root + ":")] + PartsLines(parts, spaced))
  }

  /** The layout: single values two blanks in, the values of a group four blanks in behind its key, and a blank line
      between two parts where asked for. */
  lemma PartLayout(key: string, pair: Pair, other: Pair)
    ensures PartLines(One(pair)) == ["  " + (pair.0 + ": " + pair.1)]
    ensures PartLines(Group(key, [pair, other])) ==
            ["  " + (key + ":"), "    " + (pair.0 + ": " + pair.1), "    " + (other.0 + ": " + other.1)]
    ensures PartsLines([One(pair), One(other)], true) == PartLines(One(pair)) + [""] + PartLines(One(other))
    ensures PartsLines([One(pair), One(other)], false) == PartLines(One(pair)) + PartLines(One(other))
  {
    assert Spaces(2) == "  " && Spaces(4) == "    ";
    assert PairLines(2, [pair][1..]) == [] && [pair, other][1..] == [other] && PairLines(4, [other][1..]) == [];
    assert PairLines(4, [other]) == [Spaces(4) + (other.0 + ": " + other.1)];
    assert PairLines(4, [pair, other]) == [Spaces(4) + (pair.0 + ": " + pair.1)] + PairLines(4, [other]);
    hide Spaces, PairLines;
    assert [One(pair), One(other)][1..] == [One(other)] && PartsLines([One(other)][1..], true) == [];
    assert PartsLines([One(other)][1..], false) == [];
  }

  // ---------------------------------------------------------------- the tree it spells

  /** The layout of a printed line: nothing in front of the colon, one blank behind it. */
  function Plainly(indent: nat): Line { Line(indent, "", " ") }

  function PairNode(indent: nat, p: Pair): Node { Leaf(p.0, p.1, Plainly(indent)) }

  function Leaves(indent: nat, pairs: seq<Pair>): (nodes: seq<Node>)
    ensures |nodes| == |pairs| && forall i :: 0 <= i < |pairs| ==> nodes[i] == PairNode(indent, pairs[i])
  {
    if pairs == [] then [] else [PairNode(indent, pairs[0])] + Leaves(indent, pairs[1..])
  }

  function PartNode(part: Part): Node {
    match part
    case One(pair) => PairNode(2, pair)
    case Group(key, pairs) => Block(key, Leaves(4, pairs), Plainly(2))
  }

  function PartNodes(parts: seq<Part>): (nodes: seq<Node>)
    ensures |nodes| == |parts| && forall i :: 0 <= i < |parts| ==> nodes[i] == PartNode(parts[i])
  {
    if parts == [] then [] else [PartNode(parts[0])] + PartNodes(parts[1..])
  }

  function Document(root: string, parts: seq<Part>): seq<Node> { [Block(root, PartNodes(parts), Plainly(0))] }

  /** What survives inside a line: no comment sign, no line break. */
  predicate Clean(s: string) { '#' !in s && '\n' !in s }

  predicate PairOk(p: Pair) { KeyOk(p.0) && Clean(p.0) && ValueOk(p.1) && Clean(p.1) }

  predicate PairsOk(pairs: seq<Pair>) {
    && (forall i :: 0 <= i < |pairs| ==> PairOk(pairs[i]))
    && (forall i, j :: 0 <= i < j < |pairs| ==> pairs[i].0 != pairs[j].0)
  }

  predicate PartOk(part: Part) {
    match part
    case One(pair) => PairOk(pair)
    case Group(key, pairs) => KeyOk(key) && Clean(key) && PairsOk(pairs)
  }

  predicate PartsOk(parts: seq<Part>) {
    && (forall i :: 0 <= i < |parts| ==> PartOk(parts[i]))
    && (forall i, j :: 0 <= i < j < |parts| ==> KeyOf(parts[i]) != KeyOf(parts[j]))
  }

  // ---------------------------------------------------------------- printing spells the tree

  lemma {:induction false} FindMissing(s: string, c: char)
    requires c !in s
    ensures Find(s, c) == |s|
  {
    if s != "" {
      assert forall x | x in s[1..] :: x in s;
      FindMissing(s[1..], c);
    }
  }

  lemma {:induction false} IndentOf(indent: nat, text: string)
    requires text != "" && text[0] != ' '
    ensures Indent(Spaces(indent) + text) == indent
  {
    var line := Spaces(indent) + text;
    if indent > 0 {
      assert line[1..] == Spaces(indent - 1) + text;
      IndentOf(indent - 1, text);
    }
  }

  lemma LineToken(indent: nat, text: string)
    requires text != "" && Trimmed(text) && Clean(text)
    ensures Tokens([Spaces(indent) + text]) == [Token(indent, text)]
    ensures '\n' !in Spaces(indent) + text
  {
    var line := Spaces(indent) + text;
    FindMissing(line, '#');
    assert Cut(line) == line;
    TrimSkips(Spaces(indent), text);
    TrimOfTrimmed(text);
    IndentOf(indent, text);
    assert [line][1..] == [] && Tokens([]) == [];
  }

  lemma CleanJoin(a: string, b: string)
    ensures Clean(a + b) <==> Clean(a) && Clean(b)
  {
    assert forall c :: c in a + b <==> c in a || c in b;
  }

  lemma PairTextOk(p: Pair)
    requires PairOk(p)
    ensures var text := p.0 + ": " + p.1; text != "" && Trimmed(text) && Clean(text)
  {
    CleanJoin(p.0, ": ");
    CleanJoin(p.0 + ": ", p.1);
  }

  predicate NoBreaks(lines: seq<string>) {
    forall i :: 0 <= i < |lines| ==> '\n' !in lines[i]
  }

  lemma {:induction false} PairTokens(indent: nat, pairs: seq<Pair>)
    requires forall i :: 0 <= i < |pairs| ==> PairOk(pairs[i])
    ensures Tokens(PairLines(indent, pairs)) == Render(Leaves(indent, pairs))
    ensures NoBreaks(PairLines(indent, pairs))
  {
    if pairs != [] {
      PairTextOk(pairs[0]);
      LineToken(indent, pairs[0].0 + ": " + pairs[0].1);
      PairTokens(indent, pairs[1..]);
      PairRendered(indent, pairs[0]);
      hide Trimmed, Clean, PairOk, Tokens, RenderNode;
      TokensAppend([Spaces(indent) + (pairs[0].0 + ": " + pairs[0].1)], PairLines(indent, pairs[1..]));
      assert Leaves(indent, pairs)[1..] == Leaves(indent, pairs[1..]);
    }
  }

  lemma PairRendered(indent: nat, p: Pair)
    ensures RenderNode(PairNode(indent, p)) == [Token(indent, p.0 + ": " + p.1)]
  {
    assert p.0 + "" + ":" + " " + p.1 == p.0 + ": " + p.1;
  }

  lemma HeaderToken(indent: nat, key: string)
    requires KeyOk(key) && Clean(key)
    ensures Tokens([Spaces(indent) + (key + ":")]) == [Token(indent, key + ":")]
    ensures '\n' !in Spaces(indent) + (key + ":")
  {
    CleanJoin(key, ":");
    LineToken(indent, key + ":");
  }

  lemma OneTokens(pair: Pair)
    requires PairOk(pair)
    ensures Tokens(PartLines(One(pair))) == RenderNode(PartNode(One(pair)))
    ensures NoBreaks(PartLines(One(pair)))
  {
    PairTokens(2, [pair]);
    assert Leaves(2, [pair]) == [PairNode(2, pair)] && [PairNode(2, pair)][1..] == [];
    hide Tokens, PairOk, RenderNode;
    assert Render([PairNode(2, pair)]) == RenderNode(PairNode(2, pair)) + [];
  }

  lemma GroupTokens(key: string, pairs: seq<Pair>)
    requires PartOk(Group(key, pairs))
    ensures Tokens(PartLines(Group(key, pairs))) == RenderNode(PartNode(Group(key, pairs)))
    ensures NoBreaks(PartLines(Group(key, pairs)))
  {
    HeaderToken(2, key);
    PairTokens(4, pairs);
    assert key + "" + ":" == key + ":";
    hide Tokens, PairsOk, KeyOk, Clean;
    TokensAppend([Spaces(2) + (key + ":")], PairLines(4, pairs));
  }

  lemma PartTokens(part: Part)
    requires PartOk(part)
    ensures Tokens(PartLines(part)) == RenderNode(PartNode(part))
    ensures NoBreaks(PartLines(part))
  {
    match part {
      case One(pair) => OneTokens(pair);
      case Group(key, pairs) => GroupTokens(key, pairs);
    }
  }

  lemma NoBreaksAppend(a: seq<string>, b: seq<string>)
    requires NoBreaks(a) && NoBreaks(b)
    ensures NoBreaks(a + b)
  {
  }

  lemma GapTokens(blank: bool)
    ensures Tokens(Gap(blank)) == [] && NoBreaks(Gap(blank))
  {
    assert [""][1..] == [];
  }

  lemma FirstPartTokens(part: Part, blank: bool, rest: seq<string>)
    requires PartOk(part) && NoBreaks(rest)
    ensures Tokens(PartLines(part) + Gap(blank) + rest) == RenderNode(PartNode(part)) + Tokens(rest)
    ensures NoBreaks(PartLines(part) + Gap(blank) + rest)
  {
    var first, gap := PartLines(part), Gap(blank);
    PartTokens(part);
    GapTokens(blank);
    hide *;
    NoBreaksAppend(first, gap);
    NoBreaksAppend(first + gap, rest);
    TokensAppend(first, gap);
    assert Tokens(first) + [] == Tokens(first);
    TokensAppend(first + gap, rest);
  }

  lemma {:induction false} PartsTokens(parts: seq<Part>, spaced: bool)
    requires forall i :: 0 <= i < |parts| ==> PartOk(parts[i])
    ensures Tokens(PartsLines(parts, spaced)) == Render(PartNodes(parts))
    ensures NoBreaks(PartsLines(parts, spaced))
  {
    if parts == [] {
      assert Tokens([]) == [];
    } else {
      hide Tokens, PartOk, PartLines, NoBreaks, Render, RenderNode, PartNode, PartNodes, Gap;
      PartsTokens(parts[1..], spaced);
      FirstPartTokens(parts[0], spaced && |parts| > 1, PartsLines(parts[1..], spaced));
      RenderFirstPart(parts);
    }
  }

  lemma RenderFirstPart(parts: seq<Part>)
    requires parts != []
    ensures Render(PartNodes(parts)) == RenderNode(PartNode(parts[0])) + Render(PartNodes(parts[1..]))
  {
    hide RenderNode;
    assert PartNodes(parts)[1..] == PartNodes(parts[1..]);
  }

  lemma {:induction false} LinesOfUnlines(lines: seq<string>)
    requires NoBreaks(lines)
    ensures Lines(Unlines(lines)) == lines
  {
    if lines != [] {
      var rest := Unlines(lines[1..]);
      var text := lines[0] + "\n" + rest;
      assert text == lines[0] + ['\n'] + rest;
      FindInFront(lines[0], '\n', rest);
      assert text[..|lines[0]|] == lines[0] && text[|lines[0]| + 1..] == rest;
      LinesOfUnlines(lines[1..]);
    }
  }

  lemma PairNodeOk(indent: nat, p: Pair)
    requires PairOk(p)
    ensures NodeOk(PairNode(indent, p))
  {
    assert p.0 + "" + ":" == p.0 + ":";
  }

  lemma {:induction false} LeavesOk(indent: nat, pairs: seq<Pair>)
    requires PairsOk(pairs)
    ensures TreeOk(Leaves(indent, pairs))
  {
    if pairs != [] {
      LeavesOk(indent, pairs[1..]);
      assert Leaves(indent, pairs)[1..] == Leaves(indent, pairs[1..]);
      PairNodeOk(indent, pairs[0]);
      hide KeyOk, ValueOk, Clean, NodeOk;
    }
  }

  lemma PartNodeOk(part: Part)
    requires PartOk(part)
    ensures NodeOk(PartNode(part))
  {
    if part.Group? {
      LeavesOk(4, part.pairs);
      assert part.key + "" + ":" == part.key + ":";
    } else {
      PairNodeOk(2, part.pair);
    }
    hide ValueOk, Clean, PairsOk, TreeOk;
  }

  lemma {:induction false} PartNodesOk(parts: seq<Part>)
    requires PartsOk(parts)
    ensures TreeOk(PartNodes(parts))
  {
    hide PartOk, NodeOk, PartNode;
    if parts != [] {
      PartNodesOk(parts[1..]);
      assert PartNodes(parts)[1..] == PartNodes(parts[1..]);
      PartNodeOk(parts[0]);
      PartNodeLines(parts);
    }
  }

  lemma PartNodeLines(parts: seq<Part>)
    ensures forall k :: 0 <= k < |parts| ==>
              PartNodes(parts)[k].key == KeyOf(parts[k]) && PartNodes(parts)[k].line.indent == 2
  {
  }

  lemma RenderDocument(root: string, parts: seq<Part>)
    ensures Render(Document(root, parts)) == [Token(0, root + ":")] + Render(PartNodes(parts))
  {
    var doc := Document(root, parts);
    assert doc[1..] == [] && root + "" + ":" == root + ":";
    assert Render(doc) == RenderNode(doc[0]) + [];
    assert RenderNode(doc[0]) == [Token(0, root + ":")] + Render(PartNodes(parts));
  }

  lemma DocumentOk(root: string, parts: seq<Part>)
    requires KeyOk(root) && PartsOk(parts)
    ensures TreeOk(Document(root, parts))
  {
    PartNodesOk(parts);
    assert forall k :: 0 <= k < |parts| ==> PartNodes(parts)[k].line.indent == 2;
    hide PartsOk;
    var doc := Document(root, parts);
    assert root + "" + ":" == root + ":";
    assert doc[1..] == [] && NodeOk(doc[0]);
    assert TreeOk([]);
  }

  lemma PrintedSpells(root: string, parts: seq<Part>, spaced: bool)
    requires KeyOk(root) && Clean(root) && PartsOk(parts)
    ensures Spells(Printed(root, parts, spaced), Document(root, parts))
  {
    var head, below := [Spaces(0) + (root + ":")], PartsLines(parts, spaced);
    HeaderToken(0, root);
    PartsTokens(parts, spaced);
    assert NoBreaks(head);
    RenderDocument(root, parts);
    DocumentOk(root, parts);
    hide Tokens, Lines, PartsLines, KeyOk, PartsOk, Clean, Render, NoBreaks, Document, Unlines, Spaces;
    NoBreaksAppend(head, below);
    LinesOfUnlines(head + below);
    TokensAppend(head, below);
  }

  // ---------------------------------------------------------------- finding what was printed

  /** The group's values are all in the map, each under its dotted path. */
  predicate GroupStored(cfg: map<string, string>, root: string, key: string, pairs: seq<Pair>) {
    forall j :: 0 <= j < |pairs| ==>
      Join([root, key, pairs[j].0]) in cfg && cfg[Join([root, key, pairs[j].0])] == pairs[j].1
  }

  predicate PartStored(cfg: map<string, string>, root: string, part: Part) {
    match part
    case One(pair) => Join([root, pair.0]) in cfg && cfg[Join([root, pair.0])] == pair.1
    case Group(key, pairs) => GroupStored(cfg, root, key, pairs)
  }

  lemma LookupPart(root: string, parts: seq<Part>, i: nat, rest: seq<string>)
    requires KeyOk(root) && PartsOk(parts) && i < |parts|
    ensures Lookup(Document(root, parts), [root, KeyOf(parts[i])] + rest) == LookupIn(PartNode(parts[i]), rest)
  {
    var below := [KeyOf(parts[i])] + rest;
    PartNodesOk(parts);
    LookupChild(PartNodes(parts), i, rest);
    hide PartsOk, TreeOk;
    assert ([root, KeyOf(parts[i])] + rest)[1..] == below;
  }

  /** Every printed value is found again. */
  lemma PrintedIsStored(root: string, parts: seq<Part>, spaced: bool, i: nat)
    requires KeyOk(root) && Clean(root) && PartsOk(parts) && i < |parts|
    ensures PartStored(Parse(Printed(root, parts, spaced)), root, parts[i])
  {
    var text := Printed(root, parts, spaced);
    PrintedSpells(root, parts, spaced);
    assert PartOk(parts[i]);
    match parts[i] {
      case One(pair) =>
        var path := [root, pair.0];
        LookupPart(root, parts, i, []);
        assert [root, KeyOf(parts[i])] + [] == path && '.' !in pair.0;
        hide Parse, Printed, Spells, Lookup, PartsOk, Join;
        ParsedTree(text, Document(root, parts), path);
      case Group(key, pairs) =>
        forall j | 0 <= j < |pairs|
          ensures Join([root, key, pairs[j].0]) in Parse(text)
          ensures Parse(text)[Join([root, key, pairs[j].0])] == pairs[j].1
        {
          GroupValueIsStored(root, parts, spaced, i, j);
        }
    }
  }

  lemma LookupGroupValue(root: string, parts: seq<Part>, i: nat, j: nat)
    requires KeyOk(root) && PartsOk(parts)
    requires i < |parts| && parts[i].Group? && j < |parts[i].pairs|
    ensures var path := [root, parts[i].key, parts[i].pairs[j].0];
            Dotless(path) && Lookup(Document(root, parts), path) == Some(parts[i].pairs[j].1)
  {
    var key, pairs := parts[i].key, parts[i].pairs;
    assert PartOk(parts[i]) && PairOk(pairs[j]);
    LookupPart(root, parts, i, [pairs[j].0]);
    LeavesOk(4, pairs);
    LookupChild(Leaves(4, pairs), j, []);
    hide PartsOk, TreeOk, Document;
    assert [root, KeyOf(parts[i])] + [pairs[j].0] == [root, key, pairs[j].0] && [pairs[j].0] + [] == [pairs[j].0];
  }

  lemma GroupValueIsStored(root: string, parts: seq<Part>, spaced: bool, i: nat, j: nat)
    requires KeyOk(root) && Clean(root) && PartsOk(parts)
    requires i < |parts| && parts[i].Group? && j < |parts[i].pairs|
    ensures var text, key := Printed(root, parts, spaced), Join([root, parts[i].key, parts[i].pairs[j].0]);
            key in Parse(text) && Parse(text)[key] == parts[i].pairs[j].1
  {
    hide *;
    PrintedSpells(root, parts, spaced);
    LookupGroupValue(root, parts, i, j);
    ParsedTree(Printed(root, parts, spaced), Document(root, parts), [root, parts[i].key, parts[i].pairs[j].0]);
  }

  // ---------------------------------------------------------------- what a parsed value can hold

  lemma CleanSlice(s: string, i: nat, j: nat)
    requires i <= j <= |s| && Clean(s)
    ensures Clean(s[i..j])
  {
    assert forall c :: c in s[i..j] ==> c in s;
  }

  lemma TrimClean(s: string)
    requires Clean(s)
    ensures Clean(Trim(s))
  {
    var i, j := TrimIsSlice(s);
    CleanSlice(s, i, j);
  }

  lemma UnquoteClean(s: string)
    requires Clean(s)
    ensures Clean(Unquote(s))
  {
    TrimClean(s);
    var t := Trim(s);
    if |t| >= 2 { CleanSlice(t, 1, |t| - 1); }
  }

  lemma {:induction false} LinesHaveNoBreaks(text: string)
    ensures NoBreaks(Lines(text))
    decreases |text|
  {
    if text != "" { LinesHaveNoBreaks(AfterLine(text)); }
  }

  predicate ValuesClean(out: map<string, string>) { forall key :: key in out ==> Clean(out[key]) }

  lemma LineKeepsValuesClean(st: State, line: string)
    requires ValuesClean(st.out) && '\n' !in line
    ensures ValuesClean(StepLine(st, line).out)
  {
    var cut := Cut(line);
    CleanCut(line);
    TrimClean(cut);
    var t := Trim(cut);
    var colon := Find(t, ':');
    if colon < |t| {
      CleanSlice(t, colon + 1, |t|);
      TrimClean(t[colon + 1..]);
    }
    if StartsWith(t, "- ") {
      CleanSlice(t, 2, |t|);
      TrimClean(t[2..]);
    }
    hide Trim, Clean, Join, Pop, Keys, NatText;
  }

  lemma CleanCut(line: string)
    requires '\n' !in line
    ensures Clean(Cut(line))
  {
    assert forall c :: c in Cut(line) ==> c in line;
  }

  lemma {:induction false} FoldKeepsValuesClean(st: State, lines: seq<string>)
    requires ValuesClean(st.out) && NoBreaks(lines)
    ensures ValuesClean(Fold(st, lines).out)
    decreases |lines|
  {
    hide StepLine, ValuesClean;
    if lines != [] {
      LineKeepsValuesClean(st, lines[0]);
      FoldKeepsValuesClean(StepLine(st, lines[0]), lines[1..]);
    }
  }

  /** No text parses to a value with a comment sign or a line break in it. */
  lemma ParsedValuesClean(text: string)
    ensures ValuesClean(Parse(text))
  {
    LinesHaveNoBreaks(text);
    hide Lines;
    FoldKeepsValuesClean(START, Lines(text));
  }
}
