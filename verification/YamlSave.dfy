// Saving a configuration: stale entries of three sections are pruned, then the generated tree is merged.
module YamlSave {
  import opened Text
  import opened YamlTree
  import opened YamlMeaning
  import opened YamlKeys

  function RemoveKey(t: Tree, key: string): Tree {
    if t.Null? || t.kind != Mapping || key == "" then t
    else
      var j := FindPair(t.content, key, 0);
      if j < 0 then t else t.(content := t.content[..2 * j] + t.content[2 * j + 2..])
  }

  // t with v as the value of pair i
  function WithValue(t: Tree, i: nat, v: Tree): Tree
    requires t.Node? && IsPair(t.content, i)
  {
    t.(content := t.content[2 * i + 1 := v])
  }

  const EMPTY_MAPPING := Node(Mapping, "!!map", "", "", [])

  // What becomes of the value of a section that both trees hold.
  function PrunedSection(dv: Tree, sv: Tree): Tree {
    if sv.Null? || sv.kind != Mapping || dv.Null? || dv.kind != Mapping then sv else PruneMissing(dv, sv)
  }

  // pruneMappingToGeneratedKeys with a single key
  function PruneSection(d: Tree, s: Tree, key: string): Tree {
    if key == "" || !BothMappings(d, s) then d
    else
      var i, j := FindPair(d.content, key, 0), FindPair(s.content, key, 0);
      if i < 0 then d
      else if j >= 0 then WithValue(d, i, PrunedSection(d.content[2 * i + 1], s.content[2 * j + 1]))
      else if key == "oauth-model-alias" then WithValue(d, i, EMPTY_MAPPING)
      else RemoveKey(d, key)
  }

  // pruneMappingToGeneratedKeys below the parents named by the path
  function PruneNested(d: Tree, s: Tree, keys: seq<string>): Tree
    requires keys != []
    decreases |keys|
  {
    if |keys| == 1 then
      if s.Null? || s.kind != Mapping then RemoveKey(d, keys[0]) else PruneSection(d, s, keys[0])
    else if keys[0] == "" || d.Null? || d.kind != Mapping then d
    else
      var i := FindPair(d.content, keys[0], 0);
      if i < 0 then d
      else WithValue(d, i, PruneNested(d.content[2 * i + 1], Below(s, keys[0]), keys[1..]))
  }

  // The source parent one key further down: nil once the key is missing.
  function Below(s: Tree, key: string): Tree {
    if s.Null? || s.kind != Mapping then s
    else match Lookup(s.content, key) case Some(v) => v case None => Null
  }

  const EXCLUDED_MODELS := "oauth-excluded-models"
  const MODEL_ALIAS := "oauth-model-alias"
  const PLUGIN_CONFIGS := ["plugins", "configs"]

  function PruneStale(d: Tree, s: Tree): Tree {
    PruneNested(PruneSection(PruneSection(d, s, EXCLUDED_MODELS), s, MODEL_ALIAS), s, PLUGIN_CONFIGS)
  }

  function Save(d: Tree, s: Tree): Tree {
    MergeMapping(PruneStale(d, s), s, [])
  }

  // ---------- lookups through the operations ----------

  lemma {:induction false} LookupSkip(content: seq<Tree>, j: nat, k: string)
    requires IsPair(content, j)
    ensures Lookup(content[..2 * j] + content[2 * j + 2..], k) ==
      if FindPair(content, k, 0) == j then Lookup(content[2 * j + 2..], k) else Lookup(content, k)
    decreases j
  {
    var less := content[..2 * j] + content[2 * j + 2..];
    LookupHead(content, k);
    if j == 0 {
      assert less == content[2..];
    } else {
      assert less[2..] == content[2..][..2 * (j - 1)] + content[2..][2 * (j - 1) + 2..];
      assert content[2..][2 * (j - 1) + 2..] == content[2 * j + 2..];
      LookupHead(less, k);
      LookupFrom(content, k, 0);
      LookupSkip(content[2..], j - 1, k);
    }
  }

  // No key of t occurs twice.
  ghost predicate UniqueKeys(t: Tree) {
    t.Node? && DistinctKeys(t.content)
  }

  lemma DistinctAfter(content: seq<Tree>, j: nat, k: string)
    requires DistinctKeys(content) && FindPair(content, k, 0) == j
    ensures Lookup(content[2 * j + 2..], k) == None
  {
    var rest := content[2 * j + 2..];
    assert forall m :: IsPair(rest, m) ==> IsPair(content, j + 1 + m) && content[2 * (j + 1 + m)] == rest[2 * m];
  }

  lemma RemoveKeyLookup(t: Tree, key: string, k: string)
    requires UniqueKeys(t) && t.kind == Mapping && key != ""
    ensures Lookup(RemoveKey(t, key).content, k) == if k == key then None else Lookup(t.content, k)
  {
    var j := FindPair(t.content, key, 0);
    if j >= 0 {
      LookupSkip(t.content, j, k);
      if k == key {
        DistinctAfter(t.content, j, k);
      }
    }
  }

  // ---------- what the pruning leaves of each section ----------

  function SectionValue(dv: Option<Tree>, sv: Option<Tree>, key: string): Option<Tree> {
    match dv
    case None => None
    case Some(d) =>
      match sv
      case Some(s) => Some(PrunedSection(d, s))
      case None => if key == MODEL_ALIAS then Some(EMPTY_MAPPING) else None
  }

  lemma SectionLookup(d: Tree, s: Tree, key: string, k: string)
    requires UniqueKeys(d) && BothMappings(d, s) && key != ""
    ensures Lookup(PruneSection(d, s, key).content, k) ==
      if k == key then SectionValue(Lookup(d.content, key), Lookup(s.content, key), key) else Lookup(d.content, k)
  {
    var i, j := FindPair(d.content, key, 0), FindPair(s.content, key, 0);
    if i >= 0 {
      if j >= 0 {
        LookupUpdate(d.content, i, PrunedSection(d.content[2 * i + 1], s.content[2 * j + 1]), k);
      } else if key == MODEL_ALIAS {
        LookupUpdate(d.content, i, EMPTY_MAPPING, k);
      } else {
        RemoveKeyLookup(d, key, k);
      }
    }
  }

  // A mapping as the parser builds it in which no key occurs twice.
  ghost predicate Sound(t: Tree) {
    WellFormed(t) && t.kind == Mapping && UniqueKeys(t)
  }

  lemma PrunedSectionForm(dv: Tree, sv: Tree)
    requires WellFormed(dv) && Plain(sv)
    ensures WellFormed(PrunedSection(dv, sv))
  {
    PlainIsWellFormed(sv);
    KeepPairsWellFormed(dv.content, KeptKeys(sv.content));
  }

  lemma UpdateForm(t: Tree, i: nat, v: Tree)
    requires Sound(t) && IsPair(t.content, i) && WellFormed(v)
    ensures Sound(WithValue(t, i, v))
  {
    var more := t.content[2 * i + 1 := v];
    assert forall j :: IsPair(more, j) ==> IsPair(t.content, j) && more[2 * j] == t.content[2 * j];
  }

  lemma RemoveForm(t: Tree, key: string)
    requires Sound(t)
    ensures Sound(RemoveKey(t, key))
  {
    var j := FindPair(t.content, key, 0);
    if key != "" && j >= 0 {
      var less := t.content[..2 * j] + t.content[2 * j + 2..];
      assert forall i :: IsPair(less, i) ==>
        var m := if i < j then i else i + 1; IsPair(t.content, m) && less[2 * i] == t.content[2 * m];
    }
  }

  lemma SharedForm(d: Tree, s: Tree, i: nat, j: nat)
    requires Sound(d) && Plain(s) && s.kind == Mapping && IsPair(d.content, i) && IsPair(s.content, j)
    ensures Sound(WithValue(d, i, PrunedSection(d.content[2 * i + 1], s.content[2 * j + 1])))
  {
    PrunedSectionForm(d.content[2 * i + 1], s.content[2 * j + 1]);
    UpdateForm(d, i, PrunedSection(d.content[2 * i + 1], s.content[2 * j + 1]));
  }

  lemma SectionCases(d: Tree, s: Tree, key: string)
    requires BothMappings(d, s)
    ensures var i, j := FindPair(d.content, key, 0), FindPair(s.content, key, 0);
      PruneSection(d, s, key) ==
        if key == "" || i < 0 then d
        else if j >= 0 then WithValue(d, i, PrunedSection(d.content[2 * i + 1], s.content[2 * j + 1]))
        else if key == MODEL_ALIAS then WithValue(d, i, EMPTY_MAPPING)
        else RemoveKey(d, key)
  {
  }

  lemma LostForm(d: Tree, key: string, i: nat)
    requires Sound(d) && IsPair(d.content, i)
    ensures Sound(WithValue(d, i, EMPTY_MAPPING)) && Sound(RemoveKey(d, key))
  {
    UpdateForm(d, i, EMPTY_MAPPING);
    RemoveForm(d, key);
  }

  lemma PrunedTree(d: Tree, s: Tree, key: string) returns (r: Tree)
    requires Sound(d) && Plain(s) && s.kind == Mapping
    ensures r == PruneSection(d, s, key) && Sound(r)
  {
    r := d;
    var i, j := FindPair(d.content, key, 0), FindPair(s.content, key, 0);
    SectionCases(d, s, key);
    if key != "" && i >= 0 {
      if j >= 0 {
        SharedForm(d, s, i, j);
        r := WithValue(d, i, PrunedSection(d.content[2 * i + 1], s.content[2 * j + 1]));
      } else {
        LostForm(d, key, i);
        r := if key == MODEL_ALIAS then WithValue(d, i, EMPTY_MAPPING) else RemoveKey(d, key);
      }
    }
  }

  lemma SectionForm(d: Tree, s: Tree, key: string)
    requires Sound(d) && Plain(s) && s.kind == Mapping
    ensures Sound(PruneSection(d, s, key))
  {
    var r := PrunedTree(d, s, key);
  }

  // The value of the plugins key once its stale configs are pruned.
  function PrunedPlugins(p: Tree, s: Tree): Tree {
    PruneNested(p, Below(s, "plugins"), ["configs"])
  }

  lemma NestedIs(d: Tree, s: Tree)
    requires d.Node? && d.kind == Mapping
    ensures var i := FindPair(d.content, "plugins", 0);
      PruneNested(d, s, PLUGIN_CONFIGS) ==
        if i < 0 then d else WithValue(d, i, PrunedPlugins(d.content[2 * i + 1], s))
  {
    assert PLUGIN_CONFIGS[0] == "plugins" && PLUGIN_CONFIGS[1..] == ["configs"];
  }

  lemma PrunedPluginsForm(p: Tree, s: Tree)
    requires WellFormed(p) && (p.kind == Mapping ==> UniqueKeys(p)) && Plain(s) && s.kind == Mapping
    ensures WellFormed(PrunedPlugins(p, s)) && PrunedPlugins(p, s).kind == p.kind
  {
    var sp := Below(s, "plugins");
    if sp.Node? && sp.kind == Mapping {
      PlainBelow(s, "plugins");
      if p.kind == Mapping {
        SectionForm(p, sp, "configs");
      }
    } else if p.kind == Mapping {
      RemoveForm(p, "configs");
    }
  }

  lemma PlainBelow(s: Tree, key: string)
    requires Plain(s) && s.kind == Mapping
    ensures Below(s, key).Node? ==> Plain(Below(s, key))
  {
    var j := FindPair(s.content, key, 0);
    if j >= 0 {
      assert Plain(s.content[2 * j + 1]);
    }
  }

  // The user's tree: no key occurs twice at the root or under plugins.
  ghost predicate UserTree(d: Tree) {
    Sound(d) && PluginsSound(Lookup(d.content, "plugins"))
  }

  function ConfigsValue(dv: Option<Tree>, s: Tree): Option<Tree> {
    match dv case Some(p) => Some(PrunedPlugins(p, s)) case None => None
  }

  lemma SectionsPruned(d: Tree, s: Tree, k: string)
    requires UserTree(d) && Plain(s) && s.kind == Mapping
    ensures var f := PruneSection(PruneSection(d, s, EXCLUDED_MODELS), s, MODEL_ALIAS);
      Sound(f) && Lookup(f.content, k) ==
        if k in {EXCLUDED_MODELS, MODEL_ALIAS} then SectionValue(Lookup(d.content, k), Lookup(s.content, k), k) else Lookup(d.content, k)
  {
    var e := PruneSection(d, s, EXCLUDED_MODELS);
    SectionForm(d, s, EXCLUDED_MODELS);
    SectionForm(e, s, MODEL_ALIAS);
    SectionLookup(d, s, EXCLUDED_MODELS, k);
    SectionLookup(d, s, EXCLUDED_MODELS, MODEL_ALIAS);
    SectionLookup(e, s, MODEL_ALIAS, k);
  }

  // What plugins holds in the user's tree, if anything.
  ghost predicate PluginsSound(p: Option<Tree>) {
    p.Some? ==> WellFormed(p.value) && (p.value.kind == Mapping ==> UniqueKeys(p.value))
  }

  lemma ValueUpdated(f: Tree, key: string, i: nat, value: Tree, k: string)
    requires Sound(f) && FindPair(f.content, key, 0) == i && WellFormed(value)
    ensures Sound(WithValue(f, i, value))
    ensures Lookup(WithValue(f, i, value).content, k) == if k == key then Some(value) else Lookup(f.content, k)
  {
    UpdateForm(f, i, value);
    LookupUpdate(f.content, i, value, k);
  }

  lemma PluginsUpdated(f: Tree, s: Tree, i: nat, k: string) returns (r: Tree)
    requires Sound(f) && Plain(s) && s.kind == Mapping && FindPair(f.content, "plugins", 0) == i
    requires PluginsSound(Some(f.content[2 * i + 1]))
    ensures r == WithValue(f, i, PrunedPlugins(f.content[2 * i + 1], s)) && Sound(r)
    ensures Lookup(r.content, k) == if k == "plugins" then Some(PrunedPlugins(f.content[2 * i + 1], s)) else Lookup(f.content, k)
  {
    PrunedPluginsForm(f.content[2 * i + 1], s);
    r := WithValue(f, i, PrunedPlugins(f.content[2 * i + 1], s));
    ValueUpdated(f, "plugins", i, PrunedPlugins(f.content[2 * i + 1], s), k);
  }

  lemma NestedTree(f: Tree, s: Tree, k: string) returns (r: Tree)
    requires Sound(f) && Plain(s) && s.kind == Mapping && PluginsSound(Lookup(f.content, "plugins"))
    ensures r == PruneNested(f, s, PLUGIN_CONFIGS) && Sound(r)
    ensures Lookup(r.content, k) == if k == "plugins" then ConfigsValue(Lookup(f.content, k), s) else Lookup(f.content, k)
  {
    NestedIs(f, s);
    r := f;
    var i := FindPair(f.content, "plugins", 0);
    if i >= 0 {
      r := PluginsUpdated(f, s, i, k);
    }
  }

  lemma PluginsPruned(f: Tree, s: Tree, k: string)
    requires Sound(f) && Plain(s) && s.kind == Mapping && PluginsSound(Lookup(f.content, "plugins"))
    ensures Sound(PruneNested(f, s, PLUGIN_CONFIGS))
    ensures Lookup(PruneNested(f, s, PLUGIN_CONFIGS).content, k) ==
      if k == "plugins" then ConfigsValue(Lookup(f.content, k), s) else Lookup(f.content, k)
  {
    var r := NestedTree(f, s, k);
  }

  lemma StaleForm(d: Tree, s: Tree, k: string)
    requires UserTree(d) && Plain(s) && s.kind == Mapping
    ensures WellFormed(PruneStale(d, s)) && PruneStale(d, s).kind == Mapping
    ensures Lookup(PruneStale(d, s).content, k) ==
      if k in {EXCLUDED_MODELS, MODEL_ALIAS} then SectionValue(Lookup(d.content, k), Lookup(s.content, k), k)
      else if k == "plugins" then ConfigsValue(Lookup(d.content, k), s)
      else Lookup(d.content, k)
  {
    SectionsPruned(d, s, k);
    SectionsPruned(d, s, "plugins");
    PluginsPruned(PruneSection(PruneSection(d, s, EXCLUDED_MODELS), s, MODEL_ALIAS), s, k);
  }

  // ---------- what is saved ----------

  // A saved section r holds nothing but the source's section: no other key, and no section where the source
  // has none, except that a model alias section the user had becomes an explicit empty mapping.
  ghost predicate SectionSaved(key: string, dv: Option<Tree>, sv: Option<Tree>, r: Option<Tree>) {
    match sv
    case None => r == if key == "oauth-model-alias" && dv.Some? then Some(Node(Mapping, "!!map", "", "", [])) else None
    case Some(s) => s.Node? && s.kind == Mapping && r.Some? ==> KeysWithin(r.value, s)
  }

  lemma SourceWithin(s: Tree)
    requires Plain(s) && s.kind == Mapping
    ensures KeysWithin(s, s)
  {
    forall j: nat | IsPair(s.content, j) ensures HasKey(s.content, TrimSpace(s.content[2 * j].value)) {
    }
  }

  lemma PrunedSectionWithin(dv: Tree, sv: Tree)
    requires WellFormed(dv) && Plain(sv) && sv.kind == Mapping
    ensures WellFormed(PrunedSection(dv, sv)) && KeysWithin(PrunedSection(dv, sv), sv)
  {
    PrunedSectionForm(dv, sv);
    if dv.kind == Mapping {
      PrunedWithin(dv, sv);
    } else {
      SourceWithin(sv);
    }
  }

  lemma PlainValue(s: Tree, key: string)
    requires Plain(s) && s.kind == Mapping
    ensures Lookup(s.content, key).Some? ==> Plain(Lookup(s.content, key).value)
  {
    PlainBelow(s, key);
    var j := FindPair(s.content, key, 0);
    assert j >= 0 ==> s.content[2 * j + 1].Node?;
  }

  lemma WellFormedValue(d: Tree, key: string)
    requires WellFormed(d)
    ensures Lookup(d.content, key).Some? ==> WellFormed(Lookup(d.content, key).value)
  {
  }

  // Merging a section's pruned value leaves the section with the source's keys only.
  lemma SectionMerged(key: string, dv: Option<Tree>, sv: Option<Tree>, child: Path)
    requires dv.Some? ==> WellFormed(dv.value)
    requires sv.Some? ==> Plain(sv.value)
    ensures SectionSaved(key, dv, sv, MergedValue(SectionValue(dv, sv, key), sv, child))
  {
    if sv.Some? && sv.value.kind == Mapping {
      if dv.Some? {
        PrunedSectionWithin(dv.value, sv.value);
        MergedWithin(PrunedSection(dv.value, sv.value), sv.value, child);
      } else {
        NewWithin(child, sv.value);
      }
    }
  }

  // Deleted entries do not come back when a configuration is saved.
  lemma DeletionsStick(d: Tree, s: Tree, key: string)
    requires UserTree(d) && Plain(s) && s.kind == Mapping && key in {"oauth-excluded-models", "oauth-model-alias"}
    ensures SectionSaved(key, Lookup(d.content, key), Lookup(s.content, key), Lookup(Save(d, s).content, key))
  {
    StaleForm(d, s, key);
    MergedLookup(PruneStale(d, s), s, [], key);
    WellFormedValue(d, key);
    PlainValue(s, key);
    SectionMerged(key, Lookup(d.content, key), Lookup(s.content, key), [] + [key]);
  }

  // The configs of plugins: within the source's, and gone where the source has none.
  lemma ConfigsMerged(p: Tree, sv: Tree, child: Path)
    requires WellFormed(p) && (p.kind == Mapping ==> UniqueKeys(p)) && Plain(sv) && sv.kind == Mapping
    ensures var x := MergeNode(PruneNested(p, sv, ["configs"]), sv, child);
      x.Node? && SectionSaved("configs", None, Lookup(sv.content, "configs"), Lookup(x.content, "configs"))
  {
    var q, c, sub := PruneNested(p, sv, ["configs"]), Lookup(sv.content, "configs"), child + ["configs"];
    PlainValue(sv, "configs");
    var x := MergeNode(q, sv, child);
    if p.kind == Mapping {
      var dv := Lookup(p.content, "configs");
      SectionForm(p, sv, "configs");
      SectionLookup(p, sv, "configs", "configs");
      MergedLookup(q, sv, child, "configs");
      WellFormedValue(p, "configs");
      SectionMerged("configs", dv, c, sub);
    } else {
      PlainIsWellFormed(sv);
      MergedLookup(CopyShallow(p, sv), sv, child, "configs");
      if c.Some? && c.value.kind == Mapping {
        PlainIsWellFormed(c.value);
        SourceWithin(c.value);
        MergedWithin(c.value, c.value, sub);
      }
    }
  }

  lemma {:induction false} PrunedHasNoOther(path: Path, s: Tree, j: nat, k: string)
    requires Plain(s) && s.kind == Mapping && FindPair(s.content, k, j) < 0
    ensures Lookup(PrunePairs(path, s, j), k) == None
    decreases |s.content| - j
  {
    if IsPair(s.content, j) {
      PrunedHasNoOther(path, s, j + 1, k);
      LookupMore(PrunePair(path, s, j), PrunePairs(path, s, j + 1), k);
    }
  }

  // A pruned copy holds under k what is left of the value under k.
  lemma PrunedValue(path: Path, s: Tree, k: string)
    requires Plain(s) && s.kind == Mapping
    ensures var r := Lookup(Prune(path, s).content, k);
      r.Some? ==> Lookup(s.content, k).Some? && r.value == Prune(path + [k], Lookup(s.content, k).value)
  {
    if Lookup(s.content, k).None? {
      PrunedHasNoOther(path, s, 0, k);
    } else {
      PrunedKeyValue(path, s, FindPair(s.content, k, 0));
    }
  }

  lemma PrunedKeyValue(path: Path, s: Tree, i: nat)
    requires Plain(s) && s.kind == Mapping && IsPair(s.content, i)
    ensures var k := s.content[2 * i].value; var r := Lookup(Prune(path, s).content, k);
      r.Some? ==> r.value == Prune(path + [k], s.content[2 * i + 1])
  {
    PrunedLookup(path, s, 0, i);
  }

  lemma NewConfigs(sv: Tree, child: Path)
    requires Plain(sv) && sv.kind == Mapping
    ensures SectionSaved("configs", None, Lookup(sv.content, "configs"), Lookup(Prune(child, sv).content, "configs"))
  {
    PrunedValue(child, sv, "configs");
    PlainValue(sv, "configs");
    var c := Lookup(sv.content, "configs");
    if c.Some? && c.value.kind == Mapping {
      NewWithin(child + ["configs"], c.value);
    }
  }

  // Plugin configs that were deleted do not come back when a configuration is saved.
  lemma PluginDeletionsStick(d: Tree, s: Tree)
    requires UserTree(d) && Plain(s) && s.kind == Mapping
    ensures match Lookup(Save(d, s).content, "plugins")
      case None => true
      case Some(x) =>
        x.Node? && x.kind == Mapping ==>
          match Lookup(s.content, "plugins")
          case None => Lookup(x.content, "configs") == None
          case Some(sv) => sv.Node? && sv.kind == Mapping ==>
            SectionSaved("configs", None, Lookup(sv.content, "configs"), Lookup(x.content, "configs"))
  {
    var child := [] + ["plugins"];
    var dv, sv := Lookup(d.content, "plugins"), Lookup(s.content, "plugins");
    StaleForm(d, s, "plugins");
    MergedLookup(PruneStale(d, s), s, [], "plugins");
    PlainValue(s, "plugins");
    if sv.None? {
      if dv.Some? && dv.value.kind == Mapping {
        RemoveKeyLookup(dv.value, "configs", "configs");
      }
    } else if sv.value.kind == Mapping {
      if dv.Some? {
        ConfigsMerged(dv.value, sv.value, child);
      } else {
        NewConfigs(sv.value, child);
      }
    }
  }

  // ---------- the saved file means what the configuration says ----------

  lemma SaveCovers(d: Tree, s: Tree)
    requires UserTree(d) && Plain(s) && s.kind == Mapping
    ensures WellFormed(Save(d, s)) && Covers([], Save(d, s), s)
  {
    StaleForm(d, s, "");
    MergeMappingCovers(PruneStale(d, s), s, []);
  }

  // The value under a path of keys.
  function Resolve(t: Tree, keys: Path): Option<Tree> {
    if keys == [] then Some(t)
    else if t.Null? || t.kind != Mapping then None
    else match Lookup(t.content, keys[0]) case Some(v) => Resolve(v, keys[1..]) case None => None
  }
}
