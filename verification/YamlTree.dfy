/** What the configuration parser does to a properly indented tree: it flattens it to dotted paths. The reference is
    a lookup that walks the tree by the segments of a path and knows nothing of text, stacks or maps. */
module YamlTree {
  import opened Foundation
  import opened Text
  import opened SimpleYaml

  /** How a line is laid out: its indentation and the blanks in front of and behind its colon or dash. */
  datatype Line = Line(indent: nat, before: string, after: string)

  /** A "key: value" line, a "key:" line with deeper lines under it, or a "key:" line with "- item" lines under it. */
  datatype Node =
    | Leaf(key: string, value: string, line: Line)
    | Block(key: string, children: seq<Node>, line: Line)
    | Items(key: string, items: seq<string>, line: Line, lines: seq<Line>)

  // ---------------------------------------------------------------- the lines of a tree

  function RenderItems(items: seq<string>, lines: seq<Line>): seq<Token>
    requires |items| == |lines|
  {
    if items == [] then []
    else [Token(lines[0].indent, "- " + lines[0].after + items[0])] + RenderItems(items[1..], lines[1..])
  }

  function HeaderText(key: string, line: Line): string { key + line.before + ":" }

  function RenderNode(node: Node): seq<Token>
    decreases node
  {
    var head := HeaderText(node.key, node.line);
    match node
    case Leaf(_, value, line) => [Token(line.indent, head + line.after + value)]
    case Block(_, children, line) => [Token(line.indent, head)] + Render(children)
    case Items(_, items, line, lines) =>
      [Token(line.indent, head)] + if |items| == |lines| then RenderItems(items, lines) else []
  }

  function Render(nodes: seq<Node>): seq<Token>
    decreases nodes
  {
    if nodes == [] then [] else RenderNode(nodes[0]) + Render(nodes[1..])
  }

  // ---------------------------------------------------------------- the meaning of a tree

  /** The item a list segment names; segments are the decimal positions. */
  function LookupItem(items: seq<string>, first: nat, segment: string): Option<string> {
    if items == [] then None
    else if segment == NatText(first) then Some(items[0])
    else LookupItem(items[1..], first + 1, segment)
  }

  function LookupIn(node: Node, rest: seq<string>): Option<string>
    decreases node
  {
    match node
    case Leaf(_, value, _) => if rest == [] then Some(value) else None
    case Block(_, children, _) => Lookup(children, rest)
    case Items(_, items, _, _) => if |rest| == 1 then LookupItem(items, 0, rest[0]) else None
  }

  function Lookup(nodes: seq<Node>, path: seq<string>): Option<string>
    decreases nodes
  {
    if nodes == [] || path == [] then None
    else if nodes[0].key == path[0] then LookupIn(nodes[0], path[1..])
    else Lookup(nodes[1..], path)
  }

  // ---------------------------------------------------------------- well-formed trees

  predicate KeyOk(key: string) {
    key != "" && Trimmed(key) && ':' !in key && '.' !in key && !StartsWith(key + ":", "- ")
  }

  predicate ValueOk(value: string) { value != "" && Trimmed(value) }

  predicate NodeOk(node: Node)
    decreases node
  {
    && KeyOk(node.key) && Blanks(node.line.before) && !StartsWith(HeaderText(node.key, node.line), "- ")
    && match node
       case Leaf(_, value, line) => ValueOk(value) && Blanks(line.after)
       case Block(_, children, line) =>
         TreeOk(children) && forall k :: 0 <= k < |children| ==> children[k].line.indent > line.indent
       case Items(_, items, line, lines) =>
         |items| == |lines| && forall k :: 0 <= k < |items| ==> ItemOk(items[k], lines[k], line.indent)
  }

  predicate ItemOk(item: string, line: Line, floor: nat) {
    ValueOk(item) && Blanks(line.after) && line.indent > floor
  }

  /** Keys and values are ones a line can carry, lines under a key are indented more than it, a sibling behind lines
      like that is not indented more than their key (or it would be one of them), and siblings differ in key. */
  predicate TreeOk(nodes: seq<Node>)
    decreases nodes
  {
    nodes != [] ==>
      && NodeOk(nodes[0]) && TreeOk(nodes[1..])
      && (|nodes| > 1 && !nodes[0].Leaf? ==> nodes[1].line.indent <= nodes[0].line.indent)
      && forall k :: 0 < k < |nodes| ==> nodes[k].key != nodes[0].key
  }

  // ---------------------------------------------------------------- what the parser stores, in order

  type Entry = (seq<string>, string)

  function ItemEntries(prefix: seq<string>, items: seq<string>, first: nat): seq<Entry>
    decreases items
  {
    if items == [] then []
    else [(prefix + [NatText(first)], items[0])] + ItemEntries(prefix, items[1..], first + 1)
  }

  function NodeEntries(prefix: seq<string>, node: Node): seq<Entry>
    decreases node
  {
    match node
    case Leaf(key, value, _) => [(prefix + [key], value)]
    case Block(key, children, _) => Entries(prefix + [key], children)
    case Items(key, items, _, _) => ItemEntries(prefix + [key], items, 0)
  }

  function Entries(prefix: seq<string>, nodes: seq<Node>): seq<Entry>
    decreases nodes
  {
    if nodes == [] then [] else NodeEntries(prefix, nodes[0]) + Entries(prefix, nodes[1..])
  }

  function Store(out: map<string, string>, entries: seq<Entry>): map<string, string>
    decreases |entries|
  {
    if entries == [] then out else Store(out[Join(entries[0].0) := entries[0].1], entries[1..])
  }

  lemma {:induction false} StoreAppend(out: map<string, string>, a: seq<Entry>, b: seq<Entry>)
    ensures Store(out, a + b) == Store(Store(out, a), b)
    decreases |a|
  {
    hide Join;
    if a == [] {
      assert a + b == b;
    } else {
      assert (a + b)[1..] == a[1..] + b;
      StoreAppend(out[Join(a[0].0) := a[0].1], a[1..], b);
    }
  }

  // ---------------------------------------------------------------- one line of a tree

  lemma {:induction false} FindInFront(s: string, c: char, rest: string)
    requires c !in s
    ensures Find(s + [c] + rest, c) == |s|
  {
    if s == "" {
      assert s + [c] + rest == [c] + rest;
    } else {
      assert forall x | x in s[1..] :: x in s;
      assert (s + [c] + rest)[1..] == s[1..] + [c] + rest;
      assert (s + [c] + rest)[0] == s[0] && s[0] in s;
      FindInFront(s[1..], c, rest);
    }
  }

  /** Where a key goes under the open levels. */
  lemma JoinUnder(stack: seq<Level>, key: string)
    requires forall k :: 0 <= k < |stack| ==> stack[k].key != ""
    ensures Join(Keys(stack) + [key]) ==
            if Join(Keys(stack)) == "" then key else Join(Keys(stack)) + "." + key
  {
    var keys := Keys(stack);
    assert (keys + [key])[..|keys|] == keys;
    if keys != [] { JoinNonEmpty(keys); }
  }

  lemma JoinNonEmpty(segments: seq<string>)
    requires segments != [] && segments[0] != ""
    ensures Join(segments) != ""
  {
  }

  /** The colon that ends the key is the first one. */
  lemma ColonOf(key: string, line: Line, rest: string)
    requires KeyOk(key) && Blanks(line.before)
    ensures var t := HeaderText(key, line) + rest;
            var colon := Find(t, ':');
            colon < |t| && Trim(t[..colon]) == key && t[colon + 1..] == rest
  {
    var name := key + line.before;
    var t := HeaderText(key, line) + rest;
    assert ':' !in name;
    assert t == name + [':'] + rest;
    FindInFront(name, ':', rest);
    assert t[..|name|] == name && t[|name| + 1..] == rest;
    TrimSkipsBehind(key, line.before);
  }

  lemma NoDash(head: string, rest: string)
    requires |head| >= 2 && !StartsWith(head, "- ")
    ensures !StartsWith(head + rest, "- ")
  {
    assert (head + rest)[0] == head[0] && (head + rest)[1] == head[1];
  }

  lemma LeafStep(st: State, key: string, value: string, line: Line, stack: seq<Level>)
    requires NodeOk(Leaf(key, value, line)) && Pop(st.stack, line.indent) == stack
    requires forall k :: 0 <= k < |stack| ==> stack[k].key != ""
    ensures StepToken(st, Token(line.indent, HeaderText(key, line) + line.after + value))
            == State(stack, st.out[Join(Keys(stack) + [key]) := value], 0)
  {
    var rest := line.after + value;
    var head := HeaderText(key, line);
    assert head + line.after + value == head + rest;
    ColonOf(key, line, rest);
    NoDash(head, rest);
    TrimSkips(line.after, value);
    TrimOfTrimmed(value);
    JoinUnder(stack, key);
    hide Trim, Find, Join, Pop, NatText, Keys, HeaderText, KeyOk;
  }

  lemma HeaderStep(st: State, key: string, line: Line)
    requires KeyOk(key) && Blanks(line.before) && !StartsWith(HeaderText(key, line), "- ")
    ensures var stack := Pop(st.stack, line.indent);
            StepToken(st, Token(line.indent, HeaderText(key, line)))
            == State(stack + [Level(line.indent, key)], st.out, 0)
  {
    var head := HeaderText(key, line);
    assert head + "" == head;
    ColonOf(key, line, "");
    assert Trim("") == "";
    hide Trim, Find, Join, Pop, NatText, Keys, HeaderText, KeyOk;
  }

  lemma ItemStep(st: State, item: string, line: Line)
    requires ValueOk(item) && Blanks(line.after) && Pop(st.stack, line.indent) == st.stack && st.stack != []
    ensures StepToken(st, Token(line.indent, "- " + line.after + item))
            == State(st.stack, st.out[Join(Keys(st.stack) + [NatText(st.listIndex)]) := item], st.listIndex + 1)
  {
    var t := "- " + line.after + item;
    assert t[2..] == line.after + item && StartsWith(t, "- ");
    TrimSkips(line.after, item);
    TrimOfTrimmed(item);
    var keys, index := Keys(st.stack), NatText(st.listIndex);
    assert (keys + [index])[..|keys|] == keys;
    assert Join(keys + [index]) == Join(keys) + "." + index;
    hide Trim, Find, Join, Pop, NatText, Keys;
  }

  // ---------------------------------------------------------------- the parser's run over a tree

  /** The levels that stay open at this indentation, all with a key. */
  predicate Open(st: State, indent: nat, base: seq<Level>) {
    Pop(st.stack, indent) == base && forall k :: 0 <= k < |base| ==> base[k].key != ""
  }

  /** Nothing open is closed at this indentation. */
  predicate Above(base: seq<Level>, indent: nat) { base == [] || base[|base| - 1].indent < indent }

  lemma OpenIsAbove(st: State, indent: nat, base: seq<Level>)
    requires Open(st, indent, base)
    ensures Above(base, indent)
  {
    PopIsPrefix(st.stack, indent);
  }

  lemma KeysUnder(base: seq<Level>, level: Level)
    ensures Keys(base + [level]) == Keys(base) + [level.key]
  {
  }

  lemma FoldOne(st: State, token: Token)
    ensures FoldTokens(st, [token]) == StepToken(st, token)
  {
    hide StepToken;
    assert [token][1..] == [];
  }

  /** What was open at one indentation is open at a smaller one that is still above it. */
  lemma OpenFurtherOut(st: State, inner: nat, outer: nat, base: seq<Level>)
    requires Open(st, inner, base) && outer <= inner && Above(base, outer)
    ensures Open(st, outer, base)
  {
    PopTwice(st.stack, inner, outer);
  }

  /** Back at the indentation of its key a level closes. */
  lemma LevelCloses(st: State, inner: nat, level: Level, base: seq<Level>)
    requires Open(st, inner, base + [level]) && level.indent <= inner && Above(base, level.indent)
    ensures Open(st, level.indent, base)
  {
    var open := base + [level];
    assert open[..|open| - 1] == base;
    forall k | 0 <= k < |base| ensures base[k].key != "" { assert open[k] == base[k]; }
    PopTwice(st.stack, inner, level.indent);
  }

  lemma {:induction false} ItemsFlattened(st: State, items: seq<string>, lines: seq<Line>, floor: nat)
    requires |items| == |lines| && st.stack != [] && st.stack[|st.stack| - 1].indent == floor
    requires forall k :: 0 <= k < |items| ==> ItemOk(items[k], lines[k], floor)
    ensures var st' := FoldTokens(st, RenderItems(items, lines));
            st'.stack == st.stack && st'.out == Store(st.out, ItemEntries(Keys(st.stack), items, st.listIndex))
    decreases items
  {
    if items != [] {
      var token := Token(lines[0].indent, "- " + lines[0].after + items[0]);
      ItemStep(st, items[0], lines[0]);
      hide StepToken, Join, Pop, NatText, Keys;
      assert RenderItems(items, lines) == [token] + RenderItems(items[1..], lines[1..]);
      FoldTokensAppend(st, [token], RenderItems(items[1..], lines[1..]));
      FoldOne(st, token);
      ItemsFlattened(StepToken(st, token), items[1..], lines[1..], floor);
    }
  }

  /** The state after a "key:" line. */
  lemma HeaderOpens(st: State, key: string, line: Line, base: seq<Level>)
    requires Open(st, line.indent, base)
    requires KeyOk(key) && Blanks(line.before) && !StartsWith(HeaderText(key, line), "- ")
    ensures var st1 := FoldTokens(st, [Token(line.indent, HeaderText(key, line))]);
            && st1 == State(base + [Level(line.indent, key)], st.out, 0)
            && (forall indent: nat :: indent > line.indent ==> Open(st1, indent, st1.stack))
            && Open(st1, line.indent, base)
  {
    HeaderStep(st, key, line);
    FoldOne(st, Token(line.indent, HeaderText(key, line)));
    var st1 := FoldTokens(st, [Token(line.indent, HeaderText(key, line))]);
    hide StepToken;
    OpenIsAbove(st, line.indent, base);
    assert Open(st1, line.indent + 1, base + [Level(line.indent, key)]);
    LevelCloses(st1, line.indent + 1, Level(line.indent, key), base);
  }

  lemma LeafFlattened(st: State, key: string, value: string, line: Line, base: seq<Level>)
    requires Open(st, line.indent, base) && NodeOk(Leaf(key, value, line))
    ensures var st' := FoldTokens(st, RenderNode(Leaf(key, value, line)));
            && st'.stack == base && Open(st', line.indent, base)
            && st'.out == Store(st.out, NodeEntries(Keys(base), Leaf(key, value, line)))
  {
    LeafStep(st, key, value, line, base);
    PopTwice(st.stack, line.indent, line.indent);
    FoldOne(st, Token(line.indent, HeaderText(key, line) + line.after + value));
    hide StepToken, Join, Pop, Keys, HeaderText, NodeOk;
  }

  lemma {:induction false} BlockFlattened(st: State, node: Node, base: seq<Level>)
    requires node.Block? && Open(st, node.line.indent, base) && NodeOk(node)
    ensures var st' := FoldTokens(st, RenderNode(node));
            Open(st', node.line.indent, base) && st'.out == Store(st.out, NodeEntries(Keys(base), node))
    decreases node, 0
  {
    hide StepToken, Join, Pop, Keys, Open, HeaderText, Above;
    var level, header := Level(node.line.indent, node.key), [Token(node.line.indent, HeaderText(node.key, node.line))];
    var kids, below := node.children, base + [level];
    HeaderOpens(st, node.key, node.line, base);
    KeysUnder(base, level);
    var st1 := FoldTokens(st, header);
    FoldTokensAppend(st, header, Render(kids));
    AllAbove(base, level, kids);
    TreeFlattened(st1, kids, below);
    if kids != [] {
      OpenIsAbove(st, node.line.indent, base);
      LevelCloses(FoldTokens(st1, Render(kids)), kids[|kids| - 1].line.indent, level, base);
    }
  }

  lemma AllAbove(base: seq<Level>, level: Level, nodes: seq<Node>)
    requires forall k :: 0 <= k < |nodes| ==> nodes[k].line.indent > level.indent
    ensures forall k :: 0 <= k < |nodes| ==> Above(base + [level], nodes[k].line.indent)
  {
  }

  lemma ListFlattened(st: State, node: Node, base: seq<Level>)
    requires node.Items? && Open(st, node.line.indent, base) && NodeOk(node)
    ensures var st' := FoldTokens(st, RenderNode(node));
            Open(st', node.line.indent, base) && st'.out == Store(st.out, NodeEntries(Keys(base), node))
  {
    hide StepToken, Join, Pop, Keys, HeaderText, ItemOk;
    var level, header := Level(node.line.indent, node.key), [Token(node.line.indent, HeaderText(node.key, node.line))];
    HeaderOpens(st, node.key, node.line, base);
    KeysUnder(base, level);
    var st1 := FoldTokens(st, header);
    FoldTokensAppend(st, header, RenderItems(node.items, node.lines));
    ItemsFlattened(st1, node.items, node.lines, node.line.indent);
  }

  lemma {:induction false} NodeFlattened(st: State, node: Node, base: seq<Level>)
    requires Open(st, node.line.indent, base) && NodeOk(node)
    ensures var st' := FoldTokens(st, RenderNode(node));
            && Open(st', node.line.indent, base) && (node.Leaf? ==> st'.stack == base)
            && st'.out == Store(st.out, NodeEntries(Keys(base), node))
    decreases node, 1
  {
    match node {
      case Leaf(key, value, line) => LeafFlattened(st, key, value, line, base);
      case Block(_, _, _) => BlockFlattened(st, node, base);
      case Items(_, _, _, _) => ListFlattened(st, node, base);
    }
    hide StepToken, Join, Pop, Keys, Open, HeaderText, NodeOk, RenderNode, NodeEntries;
  }

  /** What a node leaves open is what its next sibling finds open. */
  lemma NextSibling(st: State, node: Node, next: Node, base: seq<Level>)
    requires Open(st, node.line.indent, base) && (node.Leaf? ==> st.stack == base)
    requires Above(base, next.line.indent) && (!node.Leaf? ==> next.line.indent <= node.line.indent)
    ensures Open(st, next.line.indent, base)
  {
    if !node.Leaf? { OpenFurtherOut(st, node.line.indent, next.line.indent, base); }
  }

  /** The lines of a tree store its entries, in order, under the open levels, and leave those open. */
  lemma {:induction false} TreeFlattened(st: State, nodes: seq<Node>, base: seq<Level>)
    requires TreeOk(nodes) && (nodes != [] ==> Open(st, nodes[0].line.indent, base))
    requires forall k :: 0 <= k < |nodes| ==> Above(base, nodes[k].line.indent)
    ensures var st' := FoldTokens(st, Render(nodes));
            && (nodes == [] ==> st' == st)
            && (nodes != [] ==> Open(st', nodes[|nodes| - 1].line.indent, base))
            && st'.out == Store(st.out, Entries(Keys(base), nodes))
    decreases nodes, 2
  {
    hide StepToken, Join, Pop, Keys, Open, Above, NodeOk, RenderNode, NodeEntries;
    if nodes != [] {
      FoldTokensAppend(st, RenderNode(nodes[0]), Render(nodes[1..]));
      NodeFlattened(st, nodes[0], base);
      var st1 := FoldTokens(st, RenderNode(nodes[0]));
      if |nodes| > 1 { NextSibling(st1, nodes[0], nodes[1], base); }
      TreeFlattened(st1, nodes[1..], base);
      StoreAppend(st.out, NodeEntries(Keys(base), nodes[0]), Entries(Keys(base), nodes[1..]));
    }
  }

  // ---------------------------------------------------------------- dotted paths

  predicate Dotless(path: seq<string>) {
    forall k :: 0 <= k < |path| ==> '.' !in path[k]
  }

  lemma {:induction false} NatTextDotless(n: nat)
    ensures '.' !in NatText(n)
  {
    if n >= 10 { NatTextDotless(n / 10); }
  }

  lemma LastDot(a: string, x: string)
    requires '.' !in x
    ensures var s := a + "." + x;
            s[|a|] == '.' && forall k :: |a| < k < |s| ==> s[k] != '.'
  {
    var s := a + "." + x;
    assert forall k :: |a| < k < |s| ==> s[k] == x[k - |a| - 1];
  }

  /** A dotless last segment is what follows the last dot. */
  lemma LastSegment(a: string, x: string, b: string, y: string)
    requires '.' !in x && '.' !in y && a + "." + x == b + "." + y
    ensures a == b && x == y
  {
    var s, t := a + "." + x, b + "." + y;
    LastDot(a, x);
    LastDot(b, y);
    assert |a| == |b|;
    assert a == s[..|a|] && b == t[..|b|];
    assert x == s[|a| + 1..] && y == t[|b| + 1..];
  }

  lemma JoinHasDot(path: seq<string>)
    requires |path| > 1
    ensures '.' in Join(path)
  {
    var front := Join(path[..|path| - 1]);
    assert Join(path)[|front|] == '.';
  }

  lemma {:induction false} JoinInjective(a: seq<string>, b: seq<string>)
    requires a != [] && b != [] && Dotless(a) && Dotless(b) && Join(a) == Join(b)
    ensures a == b
    decreases |a|
  {
    if |a| > 1 { JoinHasDot(a); }
    if |b| > 1 { JoinHasDot(b); }
    assert '.' !in a[0] && '.' !in b[0];
    assert |a| == 1 <==> |b| == 1;
    if |a| > 1 {
      var a', b' := a[..|a| - 1], b[..|b| - 1];
      LastSegment(Join(a'), a[|a| - 1], Join(b'), b[|b| - 1]);
      JoinInjective(a', b');
      assert a == a' + [a[|a| - 1]] && b == b' + [b[|b| - 1]];
    }
  }

  // ---------------------------------------------------------------- entries are the tree

  /** The entry names a path below `prefix` and holds what the walk finds there. */
  predicate Names(e: Entry, prefix: seq<string>, found: Option<string>) {
    |prefix| < |e.0| && prefix == e.0[..|prefix|] && Dotless(e.0[|prefix|..]) && found == Some(e.1)
  }

  lemma {:induction false} ItemEntrySound(prefix: seq<string>, items: seq<string>, first: nat, i: nat)
    requires i < |ItemEntries(prefix, items, first)|
    ensures |ItemEntries(prefix, items, first)| == |items|
    ensures ItemEntries(prefix, items, first)[i] == (prefix + [NatText(first + i)], items[i])
    ensures LookupItem(items, first, NatText(first + i)) == Some(items[i])
    decreases items
  {
    hide NatText;
    NatTextInjective(first, first + i);
    if i > 0 {
      ItemEntrySound(prefix, items[1..], first + 1, i - 1);
    } else if |items| > 1 {
      ItemEntrySound(prefix, items[1..], first + 1, 0);
    }
  }

  lemma {:induction false} NodeEntrySound(prefix: seq<string>, node: Node, i: nat)
    requires NodeOk(node) && i < |NodeEntries(prefix, node)|
    ensures var e := NodeEntries(prefix, node)[i];
            |prefix| < |e.0| && e.0[|prefix|] == node.key && Names(e, prefix, LookupIn(node, e.0[|prefix| + 1..]))
    decreases node
  {
    var e := NodeEntries(prefix, node)[i];
    var below := prefix + [node.key];
    match node {
      case Leaf(_, _, _) =>
      case Block(_, children, _) =>
        EntrySound(below, children, i);
        assert e.0[|prefix|..] == [node.key] + e.0[|below|..];
        assert e.0[..|prefix|] == below[..|prefix|] && e.0[|prefix|] == below[|prefix|];
      case Items(_, items, _, _) =>
        ItemEntrySound(below, items, 0, i);
        NatTextDotless(i);
        assert e.0[|prefix| + 1..] == [NatText(i)];
        hide NatText;
    }
  }

  lemma {:induction false} LookupUsesKey(nodes: seq<Node>, path: seq<string>)
    requires Lookup(nodes, path).Some?
    ensures path != [] && exists k :: 0 <= k < |nodes| && nodes[k].key == path[0]
    decreases nodes
  {
    if nodes[0].key != path[0] {
      LookupUsesKey(nodes[1..], path);
      var k :| 0 <= k < |nodes[1..]| && nodes[1..][k].key == path[0];
      assert nodes[k + 1].key == path[0];
    }
  }

  lemma {:induction false} EntrySound(prefix: seq<string>, nodes: seq<Node>, i: nat)
    requires TreeOk(nodes) && i < |Entries(prefix, nodes)|
    ensures var e := Entries(prefix, nodes)[i];
            |prefix| < |e.0| && Names(e, prefix, Lookup(nodes, e.0[|prefix|..]))
    decreases nodes
  {
    var first := NodeEntries(prefix, nodes[0]);
    var e := Entries(prefix, nodes)[i];
    if i < |first| {
      NodeEntrySound(prefix, nodes[0], i);
      assert e.0[|prefix|..][1..] == e.0[|prefix| + 1..];
    } else {
      EntrySound(prefix, nodes[1..], i - |first|);
      var path := e.0[|prefix|..];
      LookupUsesKey(nodes[1..], path);
      var k :| 0 <= k < |nodes[1..]| && nodes[1..][k].key == path[0];
      assert nodes[k + 1].key != nodes[0].key;
    }
  }

  lemma {:induction false} ItemEntryComplete(prefix: seq<string>, items: seq<string>, first: nat, segment: string)
    requires LookupItem(items, first, segment).Some?
    ensures (prefix + [segment], LookupItem(items, first, segment).value) in ItemEntries(prefix, items, first)
    decreases items
  {
    hide NatText;
    if segment != NatText(first) {
      ItemEntryComplete(prefix, items[1..], first + 1, segment);
    }
  }

  lemma {:induction false} EntryComplete(prefix: seq<string>, nodes: seq<Node>, path: seq<string>)
    requires Lookup(nodes, path).Some?
    ensures (prefix + path, Lookup(nodes, path).value) in Entries(prefix, nodes)
    decreases nodes
  {
    if nodes[0].key == path[0] {
      var below, rest := prefix + [path[0]], path[1..];
      assert below + rest == prefix + path;
      match nodes[0] {
        case Leaf(_, _, _) => assert prefix + path == below;
        case Block(_, children, _) => EntryComplete(below, children, rest);
        case Items(_, items, _, _) =>
          ItemEntryComplete(below, items, 0, rest[0]);
          assert rest == [rest[0]];
      }
    } else {
      EntryComplete(prefix, nodes[1..], path);
    }
  }

  // ---------------------------------------------------------------- the stored map

  lemma {:induction false} StoreHas(out: map<string, string>, entries: seq<Entry>, e: Entry)
    requires e in entries || Join(e.0) in out
    ensures Join(e.0) in Store(out, entries)
    decreases |entries|
  {
    hide Join;
    if entries != [] {
      StoreHas(out[Join(entries[0].0) := entries[0].1], entries[1..], e);
    }
  }

  lemma {:induction false} StoreComesFrom(out: map<string, string>, entries: seq<Entry>, key: string) returns (i: nat)
    requires key in Store(out, entries)
    ensures i <= |entries|
    ensures i < |entries| ==> Join(entries[i].0) == key && Store(out, entries)[key] == entries[i].1
    ensures i == |entries| ==> key in out && Store(out, entries)[key] == out[key]
    decreases |entries|
  {
    hide Join;
    if entries == [] {
      i := 0;
    } else {
      i := StoreComesFrom(out[Join(entries[0].0) := entries[0].1], entries[1..], key);
      if i < |entries| - 1 {
        i := i + 1;
      } else if Join(entries[0].0) == key {
        i := 0;
      } else {
        i := i + 1;
      }
    }
  }

  /** The text is a tree, with any comments, blank lines and blanks around what counts. */
  predicate Spells(text: string, nodes: seq<Node>) {
    TreeOk(nodes) && Tokens(Lines(text)) == Render(nodes)
  }

  lemma ParsedEntries(text: string, nodes: seq<Node>)
    requires Spells(text, nodes)
    ensures Parse(text) == Store(map[], Entries([], nodes))
  {
    hide Fold, FoldTokens, Render, Tokens, Lines, TreeOk;
    OnlyTokensMatter(START, Lines(text));
    TreeFlattened(START, nodes, []);
  }

  /** Every key of the result is the dotted path of something in the tree. */
  lemma ParsedKeyIsPath(text: string, nodes: seq<Node>, key: string) returns (path: seq<string>)
    requires Spells(text, nodes) && key in Parse(text)
    ensures path != [] && Dotless(path) && Join(path) == key && Lookup(nodes, path) == Some(Parse(text)[key])
  {
    hide Parse, Join, Lookup, TreeOk, Render, Tokens, Lines;
    ParsedEntries(text, nodes);
    var entries := Entries([], nodes);
    var i := StoreComesFrom(map[], entries, key);
    EntrySound([], nodes, i);
    path := entries[i].0;
    assert path[0..] == path;
  }

  /** Flattening: a dotted path is in the result exactly when the tree has something there, and holds just that. */
  lemma ParsedTree(text: string, nodes: seq<Node>, path: seq<string>)
    requires Spells(text, nodes) && path != [] && Dotless(path)
    ensures Join(path) in Parse(text) <==> Lookup(nodes, path).Some?
    ensures Lookup(nodes, path).Some? ==> Parse(text)[Join(path)] == Lookup(nodes, path).value
  {
    hide Parse, Spells, Join, Lookup, Entries, Dotless;
    ParsedEntries(text, nodes);
    if Lookup(nodes, path).Some? {
      EntryComplete([], nodes, path);
      assert [] + path == path;
      StoreHas(map[], Entries([], nodes), (path, Lookup(nodes, path).value));
    }
    if Join(path) in Parse(text) {
      var path' := ParsedKeyIsPath(text, nodes, Join(path));
      JoinInjective(path, path');
    }
  }

  /** A walk goes through the sibling that has the key. */
  lemma {:induction false} LookupChild(nodes: seq<Node>, i: nat, rest: seq<string>)
    requires TreeOk(nodes) && i < |nodes|
    ensures Lookup(nodes, [nodes[i].key] + rest) == LookupIn(nodes[i], rest)
    decreases nodes
  {
    var path := [nodes[i].key] + rest;
    assert path[1..] == rest;
    if i > 0 { LookupChild(nodes[1..], i - 1, rest); }
  }

  lemma {:induction false} LookupItemAt(items: seq<string>, first: nat, i: nat)
    ensures LookupItem(items, first, NatText(first + i)) == if i < |items| then Some(items[i]) else None
    decreases items
  {
    hide NatText;
    NatTextInjective(first, first + i);
    if items != [] {
      if i > 0 { LookupItemAt(items[1..], first + 1, i - 1); }
    }
    if i == 0 && items != [] { assert NatText(first) == NatText(first + i); }
  }
}
