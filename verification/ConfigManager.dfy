/** The protocol section of the main configuration (src/foundation/config/ConfigManager.cpp): a loop reads list items
    from the flat map until an index is missing. */
module ConfigManager {
  import opened Foundation
  import opened Text
  import opened SimpleYaml
  import ConfigMeaning
  import YamlTree

  datatype ProtocolConfig = ProtocolConfig(
    active: string, allowMultiOnline: bool, priority: seq<string>, reserveMultiOnlineArchitecture: bool)

  const DEFAULT_PRIORITY := ["gb28181", "onvif", "private"]

  function Get(cfg: map<string, string>, key: string, fallback: string): string {
    if key in cfg then Unquote(cfg[key]) else fallback
  }

  function GetBool(cfg: map<string, string>, key: string, fallback: bool): bool {
    if key in cfg then BoolOf(LowerText(Trim(cfg[key])), fallback) else fallback
  }

  function PriorityKey(i: nat): string { "protocol.priority." + NatText(i) }

  /** The items stored under 0, 1, 2, ... up to the first index that is missing. */
  predicate IsPriorityList(cfg: map<string, string>, list: seq<string>) {
    && (forall i: nat :: i < |list| ==> PriorityKey(i) in cfg && list[i] == Unquote(cfg[PriorityKey(i)]))
    && PriorityKey(|list|) !in cfg
  }

  lemma PriorityListUnique(cfg: map<string, string>, a: seq<string>, b: seq<string>)
    requires IsPriorityList(cfg, a) && IsPriorityList(cfg, b)
    ensures a == b
  {
    assert |a| == |b|;
  }

  lemma PriorityKeyInjective(i: nat, j: nat)
    ensures PriorityKey(i) == PriorityKey(j) <==> i == j
  {
    NatTextInjective(i, j);
    hide NatText;
    if PriorityKey(i) == PriorityKey(j) {
      var n := |"protocol.priority."|;
      assert PriorityKey(i)[n..] == NatText(i) && PriorityKey(j)[n..] == NatText(j);
    }
  }

  /** A finite set holds only so many of the keys. */
  lemma {:induction false} AtMostAllKeys(keys: set<string>, n: nat)
    requires forall i: nat :: i < n ==> PriorityKey(i) in keys
    ensures n <= |keys|
  {
    if n > 0 {
      forall i: nat | i < n - 1 ensures PriorityKey(i) != PriorityKey(n - 1) { PriorityKeyInjective(i, n - 1); }
      hide PriorityKey;
      AtMostAllKeys(keys - {PriorityKey(n - 1)}, n - 1);
    }
  }

  /** The unbounded loop ends: each turn uses up another key of a finite map. */
  method LoadPriority(cfg: map<string, string>) returns (priority: seq<string>)
    ensures exists list ::
              IsPriorityList(cfg, list) && priority == if list == [] then ["gb28181", "onvif", "private"] else list
  {
    hide PriorityKey, Unquote;
    priority := [];
    var i: nat := 0;
    while true
      invariant i == |priority| <= |cfg.Keys|
      invariant forall k: nat :: k < i ==> PriorityKey(k) in cfg && priority[k] == Unquote(cfg[PriorityKey(k)])
      decreases |cfg.Keys| - i
    {
      var key := PriorityKey(i);
      if key !in cfg { break; }
      AtMostAllKeys(cfg.Keys, i + 1);
      priority := priority + [Unquote(cfg[key])];
      i := i + 1;
    }
    assert IsPriorityList(cfg, priority);
    if priority == [] { priority := DEFAULT_PRIORITY; }
  }

  method LoadProtocol(text: string) returns (p: ProtocolConfig)
    ensures p.active == Get(Parse(text), "protocol.active", "gb28181")
    ensures p.allowMultiOnline == GetBool(Parse(text), "protocol.allow_multi_online", false)
    ensures p.reserveMultiOnlineArchitecture == GetBool(Parse(text), "protocol.reserve_multi_online_architecture", true)
    ensures exists list ::
              && IsPriorityList(Parse(text), list)
              && p.priority == if list == [] then ["gb28181", "onvif", "private"] else list
  {
    hide IsPriorityList, Parse;
    var cfg := ParseSimpleYaml(text);
    var priority := LoadPriority(cfg);
    p := ProtocolConfig(
      Get(cfg, "protocol.active", "gb28181"), GetBool(cfg, "protocol.allow_multi_online", false),
      priority, GetBool(cfg, "protocol.reserve_multi_online_architecture", true));
  }

  /** A flag of this section: read without taking off quotes. */
  predicate BareFlagMeans(found: Option<string>, b: bool, fallback: bool) {
    if found.None? then b == fallback else ConfigMeaning.FlagOf(found.value, b, fallback)
  }

  lemma SectionPaths()
    ensures Join(["protocol", "active"]) == "protocol.active"
    ensures Join(["protocol", "allow_multi_online"]) == "protocol.allow_multi_online"
    ensures Join(["protocol", "reserve_multi_online_architecture"]) == "protocol.reserve_multi_online_architecture"
    ensures YamlTree.Dotless(["protocol", "active"]) && YamlTree.Dotless(["protocol", "allow_multi_online"])
    ensures YamlTree.Dotless(["protocol", "reserve_multi_online_architecture"])
  {
    hide Join, YamlTree.Dotless;
    InSection("active");
    InSection("allow_multi_online");
    InSection("reserve_multi_online_architecture");
    AllowKey();
    ReserveKey();
    assert "protocol" + "." + "active" == "protocol.active" && '.' !in "active";
  }

  lemma InSection(key: string)
    ensures Join(["protocol", key]) == "protocol" + "." + key
    ensures '.' !in key ==> YamlTree.Dotless(["protocol", key])
  {
    assert ["protocol", key][..1] == ["protocol"];
  }

  lemma AllowKey()
    ensures "protocol" + "." + "allow_multi_online" == "protocol.allow_multi_online" && '.' !in "allow_multi_online"
  {
  }

  lemma ReserveKey()
    ensures "protocol" + "." + "reserve_multi_online_architecture" == "protocol.reserve_multi_online_architecture"
    ensures '.' !in "reserve_multi_online_architecture"
  {
  }

  lemma GetSays(cfg: map<string, string>, path: seq<string>, found: Option<string>, s: string, fallback: string)
    requires ConfigMeaning.Holding(cfg, path, found)
    ensures Get(cfg, Join(path), fallback) == s <==> ConfigMeaning.TextMeans(found, s, fallback)
  {
    hide Join, Unquote, ConfigMeaning.Says, Trimmed;
    if found.Some? { ConfigMeaning.SaysUnquoted(found.value, s); }
  }

  lemma GetBoolSays(cfg: map<string, string>, path: seq<string>, found: Option<string>, b: bool, fallback: bool)
    requires ConfigMeaning.Holding(cfg, path, found)
    ensures GetBool(cfg, Join(path), fallback) == b <==> BareFlagMeans(found, b, fallback)
  {
    hide Join, LowerText, BoolOf, ConfigMeaning.FlagOf;
    if found.Some? {
      TrimOfTrimmed(found.value);
      ConfigMeaning.FlagOfLower(found.value, b, fallback);
    }
    hide Trim, Trimmed;
  }

  /** The single values of the section mean what the tree says at their paths, or the default where nothing is there. */
  lemma SectionMeans(text: string, nodes: seq<YamlTree.Node>, active: string, allow: bool, reserve: bool)
    requires YamlTree.Spells(text, nodes)
    ensures Get(Parse(text), "protocol.active", "gb28181") == active <==>
            ConfigMeaning.TextMeans(YamlTree.Lookup(nodes, ["protocol", "active"]), active, "gb28181")
    ensures GetBool(Parse(text), "protocol.allow_multi_online", false) == allow <==>
            BareFlagMeans(YamlTree.Lookup(nodes, ["protocol", "allow_multi_online"]), allow, false)
    ensures GetBool(Parse(text), "protocol.reserve_multi_online_architecture", true) == reserve <==>
            BareFlagMeans(YamlTree.Lookup(nodes, ["protocol", "reserve_multi_online_architecture"]), reserve, true)
  {
    SectionPaths();
    hide Join, Parse, Get, GetBool, BareFlagMeans, ConfigMeaning.TextMeans, ConfigMeaning.Holding, YamlTree.Spells,
      YamlTree.Lookup, YamlTree.Dotless;
    var a, b := ["protocol", "active"], ["protocol", "allow_multi_online"];
    var c := ["protocol", "reserve_multi_online_architecture"];
    ConfigMeaning.ParsedHolds(text, nodes, a);
    ConfigMeaning.ParsedHolds(text, nodes, b);
    ConfigMeaning.ParsedHolds(text, nodes, c);
    GetSays(Parse(text), a, YamlTree.Lookup(nodes, a), active, "gb28181");
    GetBoolSays(Parse(text), b, YamlTree.Lookup(nodes, b), allow, false);
    GetBoolSays(Parse(text), c, YamlTree.Lookup(nodes, c), reserve, true);
  }

  function UnquoteAll(items: seq<string>): (r: seq<string>)
    ensures |r| == |items| && forall i :: 0 <= i < |r| ==> r[i] == Unquote(items[i])
  {
    seq(|items|, i requires 0 <= i < |items| => Unquote(items[i]))
  }

  lemma PriorityPath(i: nat)
    ensures YamlTree.Dotless(["protocol", "priority", NatText(i)])
    ensures Join(["protocol", "priority", NatText(i)]) == PriorityKey(i)
  {
    YamlTree.NatTextDotless(i);
    hide NatText;
    var path := ["protocol", "priority", NatText(i)];
    assert path[..2] == ["protocol", "priority"] && path[..2][..1] == ["protocol"];
    assert Join(path[..2]) == "protocol" + "." + "priority";
    assert "protocol" + "." + "priority" + "." + NatText(i) == PriorityKey(i);
  }

  /** The tree's list under protocol / priority. */
  predicate HasPriorityItems(nodes: seq<YamlTree.Node>, a: nat, b: nat) {
    && a < |nodes| && nodes[a].Block? && nodes[a].key == "protocol"
    && b < |nodes[a].children| && nodes[a].children[b].Items? && nodes[a].children[b].key == "priority"
  }

  lemma ItemStored(text: string, nodes: seq<YamlTree.Node>, a: nat, b: nat, i: nat)
    requires YamlTree.Spells(text, nodes) && HasPriorityItems(nodes, a, b)
    ensures var items := nodes[a].children[b].items;
            && (PriorityKey(i) in Parse(text) <==> i < |items|)
            && (i < |items| ==> Parse(text)[PriorityKey(i)] == items[i])
  {
    var kids := nodes[a].children;
    assert YamlTree.NodeOk(nodes[a]) by { ChildOk(nodes, a); }
    var path, rest := ["protocol", "priority", NatText(i)], ["priority", NatText(i)];
    YamlTree.LookupChild(nodes, a, rest);
    YamlTree.LookupChild(kids, b, [NatText(i)]);
    YamlTree.LookupItemAt(kids[b].items, 0, i);
    assert ["protocol"] + rest == path && ["priority"] + [NatText(i)] == rest;
    PriorityPath(i);
    hide NatText, Parse, YamlTree.Spells, YamlTree.TreeOk, YamlTree.Lookup, Join, PriorityKey;
    YamlTree.ParsedTree(text, nodes, path);
  }

  /** Where the file spells a list under protocol / priority, comments and blank lines included, the loop gives back
      its items, unquoted and in order. */
  lemma ListRebuilt(text: string, nodes: seq<YamlTree.Node>, a: nat, b: nat, list: seq<string>)
    requires YamlTree.Spells(text, nodes) && HasPriorityItems(nodes, a, b)
    requires IsPriorityList(Parse(text), list)
    ensures list == UnquoteAll(nodes[a].children[b].items)
  {
    hide Parse, PriorityKey, YamlTree.Spells;
    forall i: nat { ItemStored(text, nodes, a, b, i); }
    assert IsPriorityList(Parse(text), UnquoteAll(nodes[a].children[b].items));
    PriorityListUnique(Parse(text), list, UnquoteAll(nodes[a].children[b].items));
  }

  lemma {:induction false} ChildOk(nodes: seq<YamlTree.Node>, i: nat)
    requires YamlTree.TreeOk(nodes) && i < |nodes|
    ensures YamlTree.NodeOk(nodes[i])
    decreases nodes
  {
    if i > 0 { ChildOk(nodes[1..], i - 1); }
  }
}
