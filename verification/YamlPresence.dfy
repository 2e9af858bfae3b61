// Which settings of a configuration are found in the saved file, and which ones are not written out.
module YamlPresence {
  import opened Text
  import opened YamlTree
  import opened YamlDefaults
  import opened YamlMeaning
  import opened YamlKeys
  import opened YamlSave

  // How many of the keys the mappings of d hold before one lacks the next key; None if none of them lacks one.
  function MissingAt(d: Tree, keys: Path): Option<nat>
    decreases |keys|
  {
    if keys == [] || d.Null? || d.kind != Mapping then None
    else match Lookup(d.content, keys[0])
      case None => Some(0)
      case Some(v) => match MissingAt(v, keys[1..]) case None => None case Some(m) => Some(m + 1)
  }

  // The setting of s under the keys is not written out: d lacks one of the keys, and what would be added there
  // is left out, or what remains of it holds the setting no more.
  ghost predicate Absent(d: Tree, s: Tree, path: Path, keys: Path)
    requires s.Node? && Resolve(s, keys).Some?
    decreases |keys|
  {
    keys != [] && d.Node? && d.kind == Mapping &&
    var v, child, rest := Lookup(s.content, keys[0]).value, path + [keys[0]], keys[1..];
    match Lookup(d.content, keys[0])
    case None => LeftOut(child, v) || Vanishes(child + rest, Resolve(v, rest).value)
    case Some(w) => v.Node? && Absent(w, v, child, rest)
  }

  // ---------- new values ----------

  lemma FirstStep(s: Tree, keys: Path)
    requires Plain(s) && Resolve(s, keys).Some? && keys != []
    ensures s.kind == Mapping && Lookup(s.content, keys[0]).Some?
    ensures Plain(Lookup(s.content, keys[0]).value)
    ensures Resolve(s, keys) == Resolve(Lookup(s.content, keys[0]).value, keys[1..])
  {
    PlainValue(s, keys[0]);
  }

  lemma PathStep(path: Path, keys: Path)
    requires keys != []
    ensures path + keys == (path + [keys[0]]) + keys[1..]
  {
  }

  lemma NodeValue(s: Tree, key: string, v: Tree) returns (j: nat)
    requires Plain(s) && s.kind == Mapping && Lookup(s.content, key) == Some(v)
    ensures IsPair(s.content, j) && s.content[2 * j].Node? && s.content[2 * j].value == key && s.content[2 * j + 1] == v
  {
    j := FindPair(s.content, key, 0);
  }

  // Where a value vanishes, everything under it vanishes.
  lemma {:induction false} VanishesBelow(path: Path, t: Tree, keys: Path)
    requires Plain(t) && Resolve(t, keys).Some? && Vanishes(path, t)
    ensures Vanishes(path + keys, Resolve(t, keys).value)
    decreases |keys|
  {
    if keys == [] {
      assert path + keys == path;
    } else {
      FirstStep(t, keys);
      PathStep(path, keys);
      var v := Lookup(t.content, keys[0]).value;
      var j := NodeValue(t, keys[0], v);
      VanishesBelow(path + [keys[0]], v, keys[1..]);
    }
  }

  lemma {:induction false} LeftOutBelow(path: Path, t: Tree, keys: Path)
    requires Plain(t) && Resolve(t, keys).Some? && LeftOut(path, t)
    ensures LeftOut(path + keys, Resolve(t, keys).value)
    decreases |keys|
  {
    if keys == [] {
      assert path + keys == path;
    } else {
      FirstStep(t, keys);
      PathStep(path, keys);
      var v := Lookup(t.content, keys[0]).value;
      var j := NodeValue(t, keys[0], v);
      LeftOutBelow(path + [keys[0]], v, keys[1..]);
    }
  }

  // Of a new mapping, a setting is dropped exactly when it vanishes.
  lemma {:induction false} NewPresence(path: Path, t: Tree, keys: Path)
    requires Plain(t) && Resolve(t, keys).Some?
    ensures Resolve(Prune(path, t), keys).None? <==> keys != [] && Vanishes(path + keys, Resolve(t, keys).value)
    decreases |keys|
  {
    if keys != [] {
      var child := path + [keys[0]];
      FirstStep(t, keys);
      PathStep(path, keys);
      var v := Lookup(t.content, keys[0]).value;
      var j := NodeValue(t, keys[0], v);
      NewStep(path, t, keys, j, v);
      NewPresence(child, v, keys[1..]);
      if Vanishes(child, v) {
        VanishesBelow(child, v, keys[1..]);
      } else if keys[1..] == [] {
        assert path + keys == child;
      }
    }
  }

  lemma NewStep(path: Path, t: Tree, keys: Path, j: nat, v: Tree)
    requires Plain(t) && t.kind == Mapping && keys != [] && IsPair(t.content, j)
    requires t.content[2 * j].value == keys[0] && t.content[2 * j + 1] == v
    ensures Resolve(Prune(path, t), keys) ==
      if Vanishes(path + [keys[0]], v) then None else Resolve(Prune(path + [keys[0]], v), keys[1..])
  {
    PrunedLookup(path, t, 0, j);
    DroppedIff(path, t, j);
  }

  // ---------- merged values ----------

  lemma {:induction false} NothingMissing(t: Tree, path: Path, keys: Path)
    requires Plain(t) && Resolve(t, keys).Some?
    ensures !Absent(t, t, path, keys) && MissingAt(t, keys) == None
    decreases |keys|
  {
    if keys != [] {
      FirstStep(t, keys);
      NothingMissing(Lookup(t.content, keys[0]).value, path + [keys[0]], keys[1..]);
    }
  }

  // A setting is missing from a merged tree exactly when it is not written out.
  lemma {:induction false} MergedPresence(d: Tree, s: Tree, path: Path, keys: Path)
    requires WellFormed(d) && Plain(s) && Resolve(s, keys).Some?
    ensures Resolve(MergeNode(d, s, path), keys).None? <==> Absent(d, s, path, keys)
    decreases |keys|, 1
  {
    if keys != [] {
      FirstStep(s, keys);
      if d.kind == Mapping {
        MappingPresence(d, s, path, keys);
      } else {
        PlainIsWellFormed(s);
        var copy := CopyShallow(d, s);
        MappingPresence(copy, s, path, keys);
        NothingMissing(s, path, keys);
      }
    }
  }

  lemma {:induction false} MappingPresence(d: Tree, s: Tree, path: Path, keys: Path)
    requires WellFormed(d) && Plain(s) && Resolve(s, keys).Some? && keys != [] && BothMappings(d, s)
    ensures Resolve(MergeMapping(d, s, path), keys).None? <==> Absent(d, s, path, keys)
    decreases |keys|, 0
  {
    var child, rest := path + [keys[0]], keys[1..];
    FirstStep(s, keys);
    MergedLookup(d, s, path, keys[0]);
    MergeMappingCovers(d, s, path);
    var v := Lookup(s.content, keys[0]).value;
    WellFormedValue(d, keys[0]);
    match Lookup(d.content, keys[0])
    case Some(w) => MergedPresence(w, v, child, rest);
    case None =>
      NewPresence(child, v, rest);
      if Vanishes(child + rest, Resolve(v, rest).value) && rest == [] {
        assert child + rest == child;
        VanishesLeftOut(child, v);
      }
  }

  lemma {:induction false} ZeroLeftOut(path: Path, t: Tree)
    requires AllZero(t)
    ensures LeftOut(path, t)
    decreases t
  {
    if t.Node? && t.kind == Sequence {
      forall i | 0 <= i < |t.content| ensures LeftOutOfList(path, t.content[i]) {
        ZeroLeftOut(path, t.content[i]);
      }
    } else if t.Node? && t.kind == Mapping {
      forall j: nat | IsPair(t.content, j) && t.content[2 * j].Node?
        ensures LeftOut(path + [t.content[2 * j].value], t.content[2 * j + 1])
      {
        ZeroLeftOut(path + [t.content[2 * j].value], t.content[2 * j + 1]);
      }
    }
  }

  lemma {:induction false} VanishesLeftOut(path: Path, t: Tree)
    requires Vanishes(path, t)
    ensures LeftOut(path, t)
    decreases t
  {
    if t.Node? && t.kind == Sequence {
      ZeroLeftOut(path, t);
    } else if t.Node? && t.kind == Mapping {
      forall j: nat | IsPair(t.content, j) && t.content[2 * j].Node?
        ensures LeftOut(path + [t.content[2 * j].value], t.content[2 * j + 1])
      {
        VanishesLeftOut(path + [t.content[2 * j].value], t.content[2 * j + 1]);
      }
    }
  }

  // ---------- pruning stale entries makes no setting of the configuration new ----------

  // d and e lack the same ones of the keys, and the same settings of s are absent.
  ghost predicate Alike(d: Tree, e: Tree, s: Tree, path: Path, keys: Path)
    requires s.Node? && Resolve(s, keys).Some?
  {
    Absent(e, s, path, keys) == Absent(d, s, path, keys) && MissingAt(e, keys) == MissingAt(d, keys)
  }

  ghost predicate ValuesAlike(dv: Option<Tree>, ev: Option<Tree>, v: Tree, path: Path, keys: Path)
    requires v.Node? && Resolve(v, keys).Some?
  {
    dv == ev || (dv.Some? && ev.Some? && Alike(dv.value, ev.value, v, path, keys))
  }

  lemma MissingStep(d: Tree, e: Tree, keys: Path)
    requires keys != [] && BothMappings(d, e)
    requires var dv, ev := Lookup(d.content, keys[0]), Lookup(e.content, keys[0]);
      dv == ev || (dv.Some? && ev.Some? && MissingAt(dv.value, keys[1..]) == MissingAt(ev.value, keys[1..]))
    ensures MissingAt(d, keys) == MissingAt(e, keys)
  {
  }

  lemma AbsentStep(d: Tree, e: Tree, s: Tree, path: Path, keys: Path)
    requires s.Node? && Resolve(s, keys).Some? && keys != [] && BothMappings(d, e) && Lookup(s.content, keys[0]).value.Node?
    requires var v, dv, ev := Lookup(s.content, keys[0]).value, Lookup(d.content, keys[0]), Lookup(e.content, keys[0]);
      dv == ev ||
      (dv.Some? && ev.Some? && Absent(dv.value, v, path + [keys[0]], keys[1..]) == Absent(ev.value, v, path + [keys[0]], keys[1..]))
    ensures Absent(d, s, path, keys) == Absent(e, s, path, keys)
  {
  }

  lemma AlikeStep(d: Tree, e: Tree, s: Tree, path: Path, keys: Path)
    requires Plain(s) && Resolve(s, keys).Some? && keys != [] && BothMappings(d, e)
    requires var v := Lookup(s.content, keys[0]).value;
      v.Node? && ValuesAlike(Lookup(d.content, keys[0]), Lookup(e.content, keys[0]), v, path + [keys[0]], keys[1..])
    ensures Alike(d, e, s, path, keys)
  {
    MissingStep(d, e, keys);
    AbsentStep(d, e, s, path, keys);
  }

  lemma SectionAlike(dv: Tree, sv: Tree, path: Path, keys: Path)
    requires WellFormed(dv) && Plain(sv) && Resolve(sv, keys).Some?
    ensures Alike(dv, PrunedSection(dv, sv), sv, path, keys)
  {
    if keys != [] {
      FirstStep(sv, keys);
      if dv.kind == Mapping {
        var j := NodeValue(sv, keys[0], Lookup(sv.content, keys[0]).value);
        KeptKeysHas(sv.content, j);
        KeepPairsLookup(dv.content, KeptKeys(sv.content), keys[0]);
        AlikeStep(dv, PrunedSection(dv, sv), sv, path, keys);
      } else {
        NothingMissing(sv, path, keys);
      }
    }
  }

  lemma OptionalAlike(dv: Option<Tree>, sv: Tree, key: string, path: Path, keys: Path)
    requires Plain(sv) && Resolve(sv, keys).Some? && (dv.Some? ==> WellFormed(dv.value))
    ensures ValuesAlike(dv, SectionValue(dv, Some(sv), key), sv, path, keys)
  {
    if dv.Some? {
      SectionAlike(dv.value, sv, path, keys);
    }
  }

  lemma PluginsAlike(p: Tree, sv: Tree, path: Path, keys: Path)
    requires WellFormed(p) && p.kind == Mapping && UniqueKeys(p) && Plain(sv) && Resolve(sv, keys).Some? && keys != []
    ensures sv.kind == Mapping && Alike(p, PruneSection(p, sv, "configs"), sv, path, keys)
  {
    FirstStep(sv, keys);
    SectionForm(p, sv, "configs");
    SectionLookup(p, sv, "configs", keys[0]);
    if keys[0] == "configs" {
      WellFormedValue(p, "configs");
      OptionalAlike(Lookup(p.content, "configs"), Lookup(sv.content, "configs").value, "configs", path + ["configs"], keys[1..]);
    }
    AlikeStep(p, PruneSection(p, sv, "configs"), sv, path, keys);
  }

  lemma ConfigsAlike(dv: Option<Tree>, s: Tree, path: Path, keys: Path)
    requires PluginsSound(dv) && Plain(s) && s.kind == Mapping && Lookup(s.content, "plugins").Some?
    requires Lookup(s.content, "plugins").value.Node? && Resolve(Lookup(s.content, "plugins").value, keys).Some?
    ensures ValuesAlike(dv, ConfigsValue(dv, s), Lookup(s.content, "plugins").value, path, keys)
  {
    PlainValue(s, "plugins");
    if dv.Some? && keys != [] {
      var sv := Lookup(s.content, "plugins").value;
      FirstStep(sv, keys);
      if dv.value.kind == Mapping {
        PluginsAlike(dv.value, sv, path, keys);
      }
    }
  }

  lemma StaleAlike(d: Tree, s: Tree, keys: Path)
    requires UserTree(d) && Plain(s) && s.kind == Mapping && Resolve(s, keys).Some?
    ensures Alike(d, PruneStale(d, s), s, [], keys)
  {
    if keys != [] {
      FirstStep(s, keys);
      StaleForm(d, s, keys[0]);
      StaleValuesAlike(d, s, keys);
      AlikeStep(d, PruneStale(d, s), s, [], keys);
    }
  }

  lemma StaleValuesAlike(d: Tree, s: Tree, keys: Path)
    requires UserTree(d) && Plain(s) && s.kind == Mapping && Resolve(s, keys).Some? && keys != []
    ensures var v := Lookup(s.content, keys[0]).value;
      v.Node? && ValuesAlike(Lookup(d.content, keys[0]), Lookup(PruneStale(d, s).content, keys[0]), v, [] + [keys[0]], keys[1..])
  {
    var k, child := keys[0], [] + [keys[0]];
    FirstStep(s, keys);
    StaleForm(d, s, k);
    if k in {EXCLUDED_MODELS, MODEL_ALIAS} {
      WellFormedValue(d, k);
      OptionalAlike(Lookup(d.content, k), Lookup(s.content, k).value, k, child, keys[1..]);
    } else if k == "plugins" {
      ConfigsAlike(Lookup(d.content, k), s, child, keys[1..]);
    }
  }

  // ---------- the saved file ----------

  // A setting of the configuration is missing from the saved file exactly when it is not written out as a new one.
  lemma SavedIff(d: Tree, s: Tree, keys: Path)
    requires UserTree(d) && Plain(s) && s.kind == Mapping && Resolve(s, keys).Some?
    ensures Resolve(Save(d, s), keys).None? <==> Absent(d, s, [], keys)
  {
    StaleForm(d, s, "");
    StaleAlike(d, s, keys);
    MergedPresence(PruneStale(d, s), s, [], keys);
  }

  lemma {:induction false} ScalarAbsent(d: Tree, s: Tree, path: Path, keys: Path)
    requires Plain(s) && Resolve(s, keys).Some?
    requires Resolve(s, keys).value.Node? && Resolve(s, keys).value.kind == Scalar
    ensures Absent(d, s, path, keys) <==> MissingAt(d, keys).Some? && LeftOut(path + keys, Resolve(s, keys).value)
    decreases |keys|
  {
    if keys != [] && d.Node? && d.kind == Mapping {
      var child, rest := path + [keys[0]], keys[1..];
      FirstStep(s, keys);
      PathStep(path, keys);
      var v := Lookup(s.content, keys[0]).value;
      match Lookup(d.content, keys[0])
      case Some(w) => ScalarAbsent(w, v, child, rest);
      case None =>
        if LeftOut(child, v) {
          LeftOutBelow(child, v, rest);
        }
    }
  }

  lemma {:induction false} CoveredScalar(path: Path, d: Tree, s: Tree, keys: Path)
    requires Plain(s) && Covers(path, d, s) && Resolve(d, keys).Some?
    requires Resolve(s, keys).Some? && Resolve(s, keys).value.Node? && Resolve(s, keys).value.kind == Scalar
    ensures var v, w := Resolve(s, keys).value, Resolve(d, keys).value;
      w.Node? && w.kind == Scalar && w.tag == v.tag && w.value == v.value
    decreases |keys|
  {
    if keys != [] {
      var j := FindPair(s.content, keys[0], 0);
      assert PairCovered(path, d, s, j);
      CoveredScalar(path + [keys[0]], Lookup(d.content, keys[0]).value, s.content[2 * j + 1], keys[1..]);
    }
  }

  // What the saved file holds under the keys of a scalar has its tag and value.
  lemma SavedSame(d: Tree, s: Tree, keys: Path)
    requires UserTree(d) && Plain(s) && s.kind == Mapping && Resolve(Save(d, s), keys).Some?
    requires Resolve(s, keys).Some? && Resolve(s, keys).value.Node? && Resolve(s, keys).value.kind == Scalar
    ensures var v, w := Resolve(s, keys).value, Resolve(Save(d, s), keys).value;
      w.Node? && w.kind == Scalar && w.tag == v.tag && w.value == v.value
  {
    SaveCovers(d, s);
    CoveredScalar([], Save(d, s), s, keys);
  }

  lemma AbsentScalar(d: Tree, s: Tree, keys: Path)
    requires UserTree(d) && Plain(s) && s.kind == Mapping
    requires Resolve(s, keys).Some? && Resolve(s, keys).value.Node? && Resolve(s, keys).value.kind == Scalar
    ensures var v := Resolve(s, keys).value;
      Resolve(Save(d, s), keys).None? <==>
        MissingAt(d, keys).Some? && (ZeroScalar(v.tag, v.value) || NamedScalar(Join(keys, "."), v.tag, v.value))
  {
    SavedIff(d, s, keys);
    ScalarAbsent(d, s, [], keys);
    assert [] + keys == keys;
  }

  // Every scalar of the configuration is found in the saved file under the same keys, with the same tag and
  // value. It is missing if and only if a mapping on the way to it in the user's tree lacks the next key, and it is a
  // false, a zero, an empty text, a null, or one of five defaults.
  lemma SavedScalar(d: Tree, s: Tree, keys: Path)
    requires UserTree(d) && Plain(s) && s.kind == Mapping
    requires Resolve(s, keys).Some? && Resolve(s, keys).value.Node? && Resolve(s, keys).value.kind == Scalar
    ensures var v := Resolve(s, keys).value;
      match Resolve(Save(d, s), keys)
      case Some(w) => w.Node? && w.kind == Scalar && w.tag == v.tag && w.value == v.value
      case None => true
    ensures var v, full := Resolve(s, keys).value, Join(keys, ".");
      Resolve(Save(d, s), keys).None? <==>
        MissingAt(d, keys).Some? &&
        ((v.tag == "!!bool" && v.value == "false")
         || ((v.tag == "!!int" || v.tag == "!!float") && (v.value == "0" || v.value == "0.0"))
         || (v.tag == "!!str" && v.value == "")
         || v.tag == "!!null"
         || (full == "pprof.addr" && v.tag == "!!str" && v.value == "127.0.0.1:8316")
         || (full == "remote-management.panel-github-repository" && v.tag == "!!str" &&
             v.value == "https://github.com/router-for-me/Cli-Proxy-API-Management-Center")
         || (full == "plugins.dir" && v.tag == "!!str" && v.value == "plugins")
         || (full == "routing.strategy" && v.tag == "!!str" && v.value == "round-robin")
         || (full == "error-logs-max-files" && v.tag == "!!int" && v.value == "10"))
  {
    AbsentScalar(d, s, keys);
    if Resolve(Save(d, s), keys).Some? {
      SavedSame(d, s, keys);
    }
  }

  lemma {:induction false} LastKeyAbsent(d: Tree, s: Tree, path: Path, keys: Path)
    requires Plain(s) && Resolve(s, keys).Some? && MissingAt(d, keys) == Some(|keys| - 1)
    ensures Absent(d, s, path, keys) <==> LeftOut(path + keys, Resolve(s, keys).value)
    decreases |keys|
  {
    var child, rest := path + [keys[0]], keys[1..];
    FirstStep(s, keys);
    PathStep(path, keys);
    var v := Lookup(s.content, keys[0]).value;
    match Lookup(d.content, keys[0])
    case Some(w) => LastKeyAbsent(w, v, child, rest);
    case None =>
      assert rest == [] && child + rest == child;
      if Vanishes(child, v) {
        VanishesLeftOut(child, v);
      }
  }

  // A value under a key that the user's mapping lacks, be it a scalar, a list or a mapping, is missing from the saved
  // file if and only if every leaf in it is left out.
  lemma SavedValue(d: Tree, s: Tree, keys: Path)
    requires UserTree(d) && Plain(s) && s.kind == Mapping && Resolve(s, keys).Some?
    requires MissingAt(d, keys) == Some(|keys| - 1)
    ensures Resolve(Save(d, s), keys).None? <==> LeftOut(keys, Resolve(s, keys).value)
  {
    SavedIff(d, s, keys);
    LastKeyAbsent(d, s, [], keys);
    assert [] + keys == keys;
  }

  // ---------- what a merge keeps ----------

  // A pruned copy holds nothing that the value does not hold.
  lemma {:induction false} PrunedResolves(path: Path, t: Tree, keys: Path)
    requires Plain(t) && Resolve(Prune(path, t), keys).Some?
    ensures Resolve(t, keys).Some?
    decreases |keys|
  {
    if keys != [] {
      PrunedValue(path, t, keys[0]);
      PlainValue(t, keys[0]);
      PrunedResolves(path + [keys[0]], Lookup(t.content, keys[0]).value, keys[1..]);
    }
  }

  // r holds nothing that neither d nor s holds, and the style, anchor and comments of what d holds are still there.
  ghost predicate Kept(d: Tree, s: Tree, r: Tree, keys: Path) {
    r.Node? && Resolve(r, keys).Some? ==>
      (Resolve(d, keys).Some? || Resolve(s, keys).Some?) && SameNote(Resolve(d, keys), Resolve(r, keys))
  }

  ghost predicate SameNote(was: Option<Tree>, now: Option<Tree>) {
    was.Some? && was.value.Node? && now.Some? ==> now.value.Node? && now.value.note == was.value.note
  }

  lemma {:induction false} PairsKeepNote(d: Tree, s: Tree, j: nat, path: Path)
    requires d.Node? && s.Node?
    ensures MergePairs(d, s, j, path).note == d.note
    decreases |s.content| - j
  {
    if IsPair(s.content, j) {
      PairsKeepNote(MergePair(d, s, j, path), s, j + 1, path);
    }
  }

  lemma NodeKeepsNote(d: Tree, s: Tree, path: Path)
    requires d.Node? && s.Node?
    ensures MergeNode(d, s, path).note == d.note
  {
    PairsKeepNote(d, s, 0, path);
    PairsKeepNote(CopyShallow(d, s), s, 0, path);
  }

  lemma {:induction false} MergeKeeps(d: Tree, s: Tree, path: Path, keys: Path)
    requires WellFormed(d) && Plain(s)
    ensures Kept(d, s, MergeNode(d, s, path), keys)
    decreases |keys|, 1
  {
    if keys != [] && s.kind == Mapping {
      if d.kind == Mapping {
        MappingKeeps(d, s, path, keys);
      } else {
        PlainIsWellFormed(s);
        MappingKeeps(CopyShallow(d, s), s, path, keys);
      }
    } else if keys == [] {
      NodeKeepsNote(d, s, path);
    }
  }

  lemma {:induction false} MappingKeeps(d: Tree, s: Tree, path: Path, keys: Path)
    requires WellFormed(d) && Plain(s) && keys != [] && BothMappings(d, s)
    ensures Kept(d, s, MergeMapping(d, s, path), keys)
    decreases |keys|, 0
  {
    var child, rest := path + [keys[0]], keys[1..];
    MergedLookup(d, s, path, keys[0]);
    MergeMappingCovers(d, s, path);
    PlainValue(s, keys[0]);
    WellFormedValue(d, keys[0]);
    var dv, sv := Lookup(d.content, keys[0]), Lookup(s.content, keys[0]);
    if sv.Some? && dv.Some? {
      MergeKeeps(dv.value, sv.value, child, rest);
    } else if sv.Some? && Resolve(Prune(child, sv.value), rest).Some? {
      PrunedResolves(child, sv.value, rest);
    }
  }

  // A save keeps the style, anchor and comments of everything that the pruning of stale entries leaves.
  lemma SaveKeeps(d: Tree, s: Tree, keys: Path)
    requires UserTree(d) && Plain(s) && s.kind == Mapping
    ensures Kept(PruneStale(d, s), s, Save(d, s), keys)
  {
    StaleForm(d, s, "");
    MergeKeeps(PruneStale(d, s), s, [], keys);
  }

  // ---------- dotted paths ----------

  ghost predicate Dotless(keys: Path) {
    keys != [] && forall i | 0 <= i < |keys| :: '.' !in keys[i]
  }

  lemma DotFirst(a: string, more: string)
    requires '.' !in a && (more == [] || more[0] == '.')
    ensures (a + more)[..|a|] == a && (a + more)[|a|..] == more
    ensures forall i | 0 <= i < |a| :: (a + more)[i] != '.'
    ensures |a| < |a + more| ==> (a + more)[|a|] == '.'
  {
  }

  // What stands before the first dot of a text is determined by the text.
  lemma DotSplits(a: string, b: string, more: string, other: string)
    requires '.' !in a && '.' !in b && (more == [] || more[0] == '.') && (other == [] || other[0] == '.')
    requires a + more == b + other
    ensures a == b && more == other
  {
    DotFirst(a, more);
    DotFirst(b, other);
  }

  function Rest(keys: Path): string
    requires keys != []
  {
    if |keys| == 1 then "" else "." + Join(keys[1..], ".")
  }

  lemma JoinRest(keys: Path)
    requires keys != []
    ensures Join(keys, ".") == keys[0] + Rest(keys)
  {
  }

  lemma RestSplits(keys: Path, other: Path)
    requires keys != [] && other != [] && Rest(keys) == Rest(other)
    ensures (|keys| == 1) == (|other| == 1)
    ensures |keys| > 1 ==> Join(keys[1..], ".") == Join(other[1..], ".")
  {
    if |keys| > 1 && |other| > 1 {
      assert Rest(keys)[1..] == Join(keys[1..], ".");
      assert Rest(other)[1..] == Join(other[1..], ".");
    }
  }

  lemma SameKeys(keys: Path, other: Path)
    requires keys != [] && other != [] && keys[0] == other[0] && keys[1..] == other[1..]
    ensures keys == other
  {
    assert keys == [keys[0]] + keys[1..];
    assert other == [other[0]] + other[1..];
  }

  // No two lists of dotless keys have the same dotted path.
  lemma {:induction false} DottedOnce(keys: Path, other: Path)
    requires Dotless(keys) && Dotless(other) && Join(keys, ".") == Join(other, ".")
    ensures keys == other
    decreases |keys|
  {
    JoinRest(keys);
    JoinRest(other);
    DotSplits(keys[0], other[0], Rest(keys), Rest(other));
    RestSplits(keys, other);
    if |keys| > 1 {
      DottedOnce(keys[1..], other[1..]);
    }
    SameKeys(keys, other);
  }

  // Two keys, such as pprof and addr, are the only ones that join to their dotted path.
  lemma TwoKeys(keys: Path, a: string, b: string)
    requires Dotless(keys) && '.' !in a && '.' !in b
    ensures Join(keys, ".") == a + "." + b <==> keys == [a, b]
  {
    var both := [a, b];
    assert Join(both, ".") == a + "." + b by {
      JoinRest(both);
      assert both[1..] == [b];
    }
    if Join(keys, ".") == a + "." + b {
      DottedOnce(keys, both);
    }
  }
}
