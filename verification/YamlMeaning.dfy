// What a merge means: afterwards the destination says, at every depth, what the source says.
module YamlMeaning {
  import opened Text
  import opened YamlTree
  import opened YamlDefaults

  // ---------- the trees the theorems are about ----------

  // A tree as the parser builds it: no nil node, and as many values as keys in every mapping.
  ghost predicate WellFormed(t: Tree) {
    t.Node? && (t.kind == Mapping ==> |t.content| % 2 == 0) &&
    forall i | 0 <= i < |t.content| :: WellFormed(t.content[i])
  }

  ghost predicate DistinctKeys(content: seq<Tree>) {
    forall i, j :: 0 <= i < j && IsPair(content, j) && content[2 * i].Node? && content[2 * j].Node? ==>
      content[2 * i].value != content[2 * j].value
  }

  ghost predicate NonBlankKeys(content: seq<Tree>) {
    forall j :: IsPair(content, j) ==> content[2 * j].Node? && TrimSpace(content[2 * j].value) != ""
  }

  // A tree as marshalling a configuration yields it: scalars, sequences and mappings only,
  // and in every mapping distinct non-blank keys.
  ghost predicate Plain(t: Tree) {
    t.Node? && t.kind in {Scalar, Sequence, Mapping} &&
    (t.kind == Mapping ==> |t.content| % 2 == 0 && DistinctKeys(t.content) && NonBlankKeys(t.content)) &&
    forall i | 0 <= i < |t.content| :: Plain(t.content[i])
  }

  lemma {:induction false} PlainIsWellFormed(t: Tree)
    requires Plain(t)
    ensures WellFormed(t)
  {
    forall i | 0 <= i < |t.content| ensures WellFormed(t.content[i]) {
      PlainIsWellFormed(t.content[i]);
    }
  }

  // ---------- d says at `path` what s says ----------

  // The pair (key, value) of the source is found in d, or its value is one that is left out.
  ghost predicate PairCovered(path: Path, d: Tree, s: Tree, j: nat)
    requires d.Node? && s.Node? && IsPair(s.content, j)
    decreases s, 0
  {
    var key, value := s.content[2 * j], s.content[2 * j + 1];
    key.Node? &&
    match Lookup(d.content, key.value)
    case Some(v) => Covers(path + [key.value], v, value)
    case None => LeftOut(path + [key.value], value)
  }

  ghost predicate Covers(path: Path, d: Tree, s: Tree)
    decreases s, 1
  {
    d.Node? && s.Node? &&
    match s.kind
    case Scalar => d.kind == Scalar && d.tag == s.tag && d.value == s.value
    case Sequence =>
      (IsNullScalar(d) && s.content == [])
      || (d.kind == Sequence && |d.content| == |s.content| &&
          forall i | 0 <= i < |s.content| :: Covers(path, d.content[i], s.content[i]))
    case Mapping => d.kind == Mapping && forall j: nat | IsPair(s.content, j) :: PairCovered(path, d, s, j)
    case _ => false
  }

  // ---------- facts about keys ----------

  lemma LookupAppend(content: seq<Tree>, key: Tree, value: Tree, k: string)
    requires key.Node? && |content| % 2 == 0
    ensures Lookup(content + [key, value], k) ==
      if Lookup(content, k).Some? then Lookup(content, k) else if key.value == k then Some(value) else None
  {
    var more := content + [key, value];
    var j := FindPair(content, k, 0);
    assert IsPair(more, |content| / 2) && more[2 * (|content| / 2)] == key;
    assert forall i :: IsPair(content, i) ==> IsPair(more, i) && more[2 * i] == content[2 * i];
    assert forall i :: IsPair(more, i) ==> IsPair(content, i) || i == |content| / 2;
    assert j >= 0 ==> FindPair(more, k, 0) == j;
  }

  lemma LookupUpdate(content: seq<Tree>, j: nat, value: Tree, k: string)
    requires IsPair(content, j) && content[2 * j].Node? && FindPair(content, content[2 * j].value, 0) == j
    ensures Lookup(content[2 * j + 1 := value], k) == if k == content[2 * j].value then Some(value) else Lookup(content, k)
  {
    var more := content[2 * j + 1 := value];
    var a, b := FindPair(content, k, 0), FindPair(more, k, 0);
    assert forall i :: IsPair(content, i) == IsPair(more, i);
    assert forall i :: IsPair(content, i) ==> more[2 * i] == content[2 * i];
    assert a == b;
    if a >= 0 && a != j {
      assert more[2 * a + 1] == content[2 * a + 1];
    }
  }

  lemma {:induction false} LookupFrom(content: seq<Tree>, k: string, j: nat)
    requires |content| >= 2
    ensures FindPair(content, k, j + 1) ==
      (var r := FindPair(content[2..], k, j); if r < 0 then -1 else r + 1)
    decreases |content| - j
  {
    if IsPair(content, j + 1) {
      assert IsPair(content[2..], j) && content[2..][2 * j] == content[2 * (j + 1)];
      LookupFrom(content, k, j + 1);
    }
  }

  lemma LookupHead(content: seq<Tree>, k: string)
    requires |content| >= 2
    ensures Lookup(content, k) ==
      if content[0].Node? && content[0].value == k then Some(content[1]) else Lookup(content[2..], k)
  {
    LookupFrom(content, k, 0);
    var r := FindPair(content[2..], k, 0);
    if r >= 0 {
      assert content[2..][2 * r + 1] == content[2 * (r + 1) + 1];
    }
  }

  // Keeping the wanted pairs of a mapping changes no lookup of a wanted key and finds no unwanted one.
  lemma {:induction false} KeepPairsLookup(content: seq<Tree>, keep: set<string>, k: string)
    ensures Lookup(KeepPairs(content, keep), k) == if TrimSpace(k) in keep then Lookup(content, k) else None
    decreases |content|
  {
    if |content| >= 2 {
      var rest := KeepPairs(content[2..], keep);
      KeepPairsLookup(content[2..], keep, k);
      LookupHead(content, k);
      if !(content[0].Node? && TrimSpace(content[0].value) !in keep) {
        var kept := content[..2] + rest;
        assert kept[2..] == rest;
        LookupHead(kept, k);
      }
    }
  }

  lemma {:induction false} KeepPairsWellFormed(content: seq<Tree>, keep: set<string>)
    requires forall i | 0 <= i < |content| :: WellFormed(content[i])
    ensures |KeepPairs(content, keep)| % 2 == |content| % 2
    ensures forall i | 0 <= i < |KeepPairs(content, keep)| :: WellFormed(KeepPairs(content, keep)[i])
    decreases |content|
  {
    if |content| >= 2 {
      KeepPairsWellFormed(content[2..], keep);
    }
  }

  lemma KeptKeysHas(content: seq<Tree>, j: nat)
    requires NonBlankKeys(content) && IsPair(content, j)
    ensures TrimSpace(content[2 * j].value) in KeptKeys(content)
  {
  }

  // ---------- copies and pruned copies ----------

  lemma PairFoundFirst(s: Tree, j: nat)
    requires Plain(s) && s.kind == Mapping && IsPair(s.content, j)
    ensures s.content[2 * j].Node? && FindPair(s.content, s.content[2 * j].value, 0) == j
    ensures Lookup(s.content, s.content[2 * j].value) == Some(s.content[2 * j + 1])
  {
    var r := FindPair(s.content, s.content[2 * j].value, 0);
    assert IsPair(s.content, r);
  }

  lemma {:induction false} CoversItself(path: Path, s: Tree)
    requires Plain(s)
    ensures Covers(path, s, s)
    decreases s
  {
    if s.kind == Mapping {
      forall j: nat | IsPair(s.content, j) ensures PairCovered(path, s, s, j) {
        PairFoundFirst(s, j);
        CoversItself(path + [s.content[2 * j].value], s.content[2 * j + 1]);
      }
    } else if s.kind == Sequence {
      forall i | 0 <= i < |s.content| ensures Covers(path, s.content[i], s.content[i]) {
        CoversItself(path, s.content[i]);
      }
    }
  }

  lemma LookupMore(kept: seq<Tree>, rest: seq<Tree>, k: string)
    requires kept == [] || (|kept| == 2 && kept[0].Node?)
    ensures Lookup(kept + rest, k) == if kept != [] && kept[0].value == k then Some(kept[1]) else Lookup(rest, k)
  {
    if kept == [] {
      assert kept + rest == rest;
    } else {
      assert (kept + rest)[2..] == rest;
      LookupHead(kept + rest, k);
    }
  }

  // What PrunePairs leaves of key k: the pruned value of the first pair with that key that is kept.
  lemma {:induction false} PrunedLookup(path: Path, s: Tree, j: nat, i: nat)
    requires Plain(s) && s.kind == Mapping && IsPair(s.content, i)
    ensures |PrunePairs(path, s, j)| % 2 == 0
    ensures Lookup(PrunePairs(path, s, j), s.content[2 * i].value) ==
      if j <= i && PrunePair(path, s, i) != [] then Some(Prune(path + [s.content[2 * i].value], s.content[2 * i + 1])) else None
    decreases |s.content| - j
  {
    if IsPair(s.content, j) {
      PrunedLookup(path, s, j + 1, i);
      LookupMore(PrunePair(path, s, j), PrunePairs(path, s, j + 1), s.content[2 * i].value);
    }
  }

  lemma {:induction false} PrunedPairsWellFormed(path: Path, s: Tree, j: nat)
    requires Plain(s) && s.kind == Mapping
    ensures |PrunePairs(path, s, j)| % 2 == 0
    ensures forall i | 0 <= i < |PrunePairs(path, s, j)| :: WellFormed(PrunePairs(path, s, j)[i])
    decreases s, 0, |s.content| - j
  {
    if IsPair(s.content, j) {
      PlainIsWellFormed(s.content[2 * j]);
      PrunedIsWellFormed(path + [s.content[2 * j].value], s.content[2 * j + 1]);
      PrunedPairsWellFormed(path, s, j + 1);
    }
  }

  lemma {:induction false} PrunedIsWellFormed(path: Path, s: Tree)
    requires Plain(s)
    ensures WellFormed(Prune(path, s))
    decreases s, 1, 0
  {
    if s.kind == Mapping {
      PrunedPairsWellFormed(path, s, 0);
    } else if s.kind == Sequence {
      forall i | 0 <= i < |s.content| ensures WellFormed(Prune(path, s.content[i])) {
        PrunedIsWellFormed(path, s.content[i]);
      }
    } else {
      PlainIsWellFormed(s);
    }
  }

  // A pruned copy of s still says what s says.
  lemma {:induction false} PrunedCovers(path: Path, s: Tree)
    requires Plain(s)
    ensures Covers(path, Prune(path, s), s)
    decreases s
  {
    if s.kind == Mapping {
      forall j: nat | IsPair(s.content, j) ensures PairCovered(path, Prune(path, s), s, j) {
        PrunedPairCovered(path, s, j);
      }
    } else if s.kind == Sequence {
      forall i | 0 <= i < |s.content| ensures Covers(path, Prune(path, s.content[i]), s.content[i]) {
        PrunedCovers(path, s.content[i]);
      }
    }
  }

  lemma {:induction false} PrunedPairCovered(path: Path, s: Tree, j: nat)
    requires Plain(s) && s.kind == Mapping && IsPair(s.content, j)
    ensures PairCovered(path, Prune(path, s), s, j)
    decreases s, 0
  {
    var child, value := path + [s.content[2 * j].value], s.content[2 * j + 1];
    PrunedLookup(path, s, 0, j);
    DefaultIff(child, value);
    if PrunePair(path, s, j) != [] {
      PrunedCovers(child, value);
    } else if IsKnownDefault(child, value) {
      PruneKeepsDefault(child, value);
    } else {
      assert IsEmptyCollection(Prune(child, value));
    }
  }

  // ---------- the merge ----------

  // The first j pairs of s are covered.
  ghost predicate PairsCovered(path: Path, d: Tree, s: Tree, j: nat) {
    d.Node? && s.Node? && forall i: nat | i < j && IsPair(s.content, i) :: PairCovered(path, d, s, i)
  }

  // What a merged mapping holds under k depends on what its two sides hold under k, and on nothing else.
  ghost function MergedValue(dv: Option<Tree>, sv: Option<Tree>, child: Path): Option<Tree> {
    match sv
    case None => dv
    case Some(v) =>
      match dv
      case Some(w) => Some(MergeNode(w, v, child))
      case None => if LeftOut(child, v) then None else Some(Prune(child, v))
  }

  lemma OldPairLookup(d: Tree, s: Tree, j: nat, path: Path, k: string)
    requires d.Node? && s.Node? && IsPair(s.content, j) && s.content[2 * j].Node? && Lookup(d.content, s.content[2 * j].value).Some?
    ensures var key := s.content[2 * j].value;
      Lookup(MergePair(d, s, j, path).content, k) ==
        if k != key then Lookup(d.content, k) else Some(MergeNode(Lookup(d.content, key).value, s.content[2 * j + 1], path + [key]))
  {
    var i, key := FindPair(d.content, s.content[2 * j].value, 0), s.content[2 * j].value;
    LookupUpdate(d.content, i, MergeNode(d.content[2 * i + 1], s.content[2 * j + 1], path + [key]), k);
  }

  lemma NewPairLookup(d: Tree, s: Tree, j: nat, path: Path, k: string)
    requires d.Node? && s.Node? && IsPair(s.content, j) && s.content[2 * j].Node? && Lookup(d.content, s.content[2 * j].value).None?
    requires |d.content| % 2 == 0
    ensures var key := s.content[2 * j].value;
      Lookup(MergePair(d, s, j, path).content, k) ==
        if k != key then Lookup(d.content, k)
        else if LeftOut(path + [key], s.content[2 * j + 1]) then None
        else Some(Prune(path + [key], s.content[2 * j + 1]))
  {
    DefaultIff(path + [s.content[2 * j].value], s.content[2 * j + 1]);
    LookupAppend(d.content, s.content[2 * j], Prune(path + [s.content[2 * j].value], s.content[2 * j + 1]), k);
  }

  lemma MergePairLookup(d: Tree, s: Tree, j: nat, path: Path, k: string)
    requires d.Node? && s.Node? && IsPair(s.content, j) && s.content[2 * j].Node? && |d.content| % 2 == 0
    ensures Lookup(MergePair(d, s, j, path).content, k) ==
      if k != s.content[2 * j].value then Lookup(d.content, k)
      else MergedValue(Lookup(d.content, k), Some(s.content[2 * j + 1]), path + [k])
  {
    if Lookup(d.content, s.content[2 * j].value).Some? {
      OldPairLookup(d, s, j, path, k);
    } else {
      NewPairLookup(d, s, j, path, k);
    }
  }

  lemma {:induction false} OthersStayCovered(d: Tree, s: Tree, j: nat, m: nat, path: Path)
    requires d.Node? && s.Node? && IsPair(s.content, j) && s.content[2 * j].Node? && |d.content| % 2 == 0
    requires IsPair(s.content, m) && PairCovered(path, d, s, m) && s.content[2 * m].value != s.content[2 * j].value
    ensures PairCovered(path, MergePair(d, s, j, path), s, m)
  {
    MergePairLookup(d, s, j, path, s.content[2 * m].value);
  }

  lemma NewPairCovered(d: Tree, s: Tree, j: nat, path: Path)
    requires WellFormed(d) && d.kind == Mapping && Plain(s) && s.kind == Mapping && IsPair(s.content, j)
    requires Lookup(d.content, s.content[2 * j].value).None?
    ensures WellFormed(MergePair(d, s, j, path)) && MergePair(d, s, j, path).kind == Mapping
    ensures PairCovered(path, MergePair(d, s, j, path), s, j)
  {
    var key, value := s.content[2 * j], s.content[2 * j + 1];
    MergePairLookup(d, s, j, path, key.value);
    PlainIsWellFormed(key);
    PrunedIsWellFormed(path + [key.value], value);
    PrunedCovers(path + [key.value], value);
  }

  lemma {:induction false} MergePairCovered(d: Tree, s: Tree, j: nat, path: Path)
    requires WellFormed(d) && d.kind == Mapping && Plain(s) && s.kind == Mapping && IsPair(s.content, j)
    ensures WellFormed(MergePair(d, s, j, path)) && MergePair(d, s, j, path).kind == Mapping
    ensures PairCovered(path, MergePair(d, s, j, path), s, j)
    decreases s, 0, 0
  {
    var key, value := s.content[2 * j], s.content[2 * j + 1];
    var i := FindPair(d.content, key.value, 0);
    if i >= 0 {
      MergePairLookup(d, s, j, path, key.value);
      MergeNodeCovers(d.content[2 * i + 1], value, path + [key.value]);
    } else {
      NewPairCovered(d, s, j, path);
    }
  }

  lemma {:induction false} MergePairCovers(d: Tree, s: Tree, j: nat, path: Path)
    requires WellFormed(d) && d.kind == Mapping && Plain(s) && s.kind == Mapping && IsPair(s.content, j)
    requires PairsCovered(path, d, s, j)
    ensures WellFormed(MergePair(d, s, j, path)) && MergePair(d, s, j, path).kind == Mapping
    ensures PairsCovered(path, MergePair(d, s, j, path), s, j + 1)
    decreases s, 0, 1
  {
    MergePairCovered(d, s, j, path);
    forall m: nat | m < j && IsPair(s.content, m) ensures PairCovered(path, MergePair(d, s, j, path), s, m) {
      OthersStayCovered(d, s, j, m, path);
    }
  }

  lemma {:induction false} MergePairsCovers(d: Tree, s: Tree, j: nat, path: Path, r: Tree)
    requires WellFormed(d) && d.kind == Mapping && Plain(s) && s.kind == Mapping && r == MergePairs(d, s, j, path)
    requires PairsCovered(path, d, s, j)
    ensures WellFormed(r) && r.kind == Mapping && Covers(path, r, s)
    decreases s, 0, |s.content| - j + 1
  {
    if IsPair(s.content, j) {
      MergePairCovers(d, s, j, path);
      MergePairsCovers(MergePair(d, s, j, path), s, j + 1, path, r);
    } else {
      AllPairsCovered(d, s, j, path);
    }
  }

  lemma AllPairsCovered(d: Tree, s: Tree, j: nat, path: Path)
    requires PairsCovered(path, d, s, j) && d.kind == Mapping && s.kind == Mapping && !IsPair(s.content, j)
    ensures Covers(path, d, s)
  {
  }

  lemma PruneMissingCovers(path: Path, d: Tree, s: Tree)
    requires WellFormed(d) && Plain(s) && Covers(path, d, s)
    ensures WellFormed(PruneMissing(d, s)) && Covers(path, PruneMissing(d, s), s)
  {
    if BothMappings(d, s) {
      var keep := KeptKeys(s.content);
      KeepPairsWellFormed(d.content, keep);
      forall j: nat | IsPair(s.content, j) ensures PairCovered(path, PruneMissing(d, s), s, j) {
        KeptKeysHas(s.content, j);
        KeepPairsLookup(d.content, keep, s.content[2 * j].value);
        assert PairCovered(path, d, s, j);
      }
    }
  }

  lemma {:induction false} MergeElementCovers(e: Tree, t: Tree, path: Path)
    requires e.Null? || WellFormed(e)
    requires Plain(t)
    ensures WellFormed(MergeElement(e, t, path)) && Covers(path, MergeElement(e, t, path), t)
    decreases t, 3, 0
  {
    if e.Null? {
      PlainIsWellFormed(t);
      CoversItself(path, t);
    } else {
      MergeNodeCovers(e, t, path);
      PruneMissingCovers(path, MergeNode(e, t, path), t);
    }
  }

  lemma {:induction false} MergeElementsCovers(prior: seq<Tree>, s: Tree, path: Path, i: nat)
    requires forall k | 0 <= k < |prior| :: WellFormed(prior[k])
    requires Plain(s) && i < |s.content|
    ensures WellFormed(MergeElements(prior, s, path)[i])
    ensures Covers(path, MergeElements(prior, s, path)[i], s.content[i])
    decreases s, 1, 0
  {
    if prior == [] {
      PlainIsWellFormed(s.content[i]);
      CoversItself(path, s.content[i]);
    } else {
      var plan := Plan(prior, NoneUsed(|prior|), s.content);
      MergeElementCovers(OldElement(prior, plan[i]), s.content[i], path);
    }
  }

  // After a merge the destination covers the source at every depth.
  lemma {:induction false} MergeNodeCovers(d: Tree, s: Tree, path: Path)
    requires WellFormed(d) && Plain(s)
    ensures WellFormed(MergeNode(d, s, path)) && Covers(path, MergeNode(d, s, path), s)
    decreases s, 2, 0
  {
    if s.kind == Mapping {
      PlainIsWellFormed(s);
      var start := if d.kind == Mapping then d else CopyShallow(d, s);
      MergePairsCovers(start, s, 0, path, MergePairs(start, s, 0, path));
    } else if s.kind == Sequence && !(IsNullScalar(d) && s.content == []) {
      forall i: nat | i < |s.content|
        ensures WellFormed(MergeNode(d, s, path).content[i]) && Covers(path, MergeNode(d, s, path).content[i], s.content[i])
      {
        MergeElementsCovers(AsSequence(d).content, s, path, i);
      }
    }
  }

  lemma MergeMappingCovers(d: Tree, s: Tree, path: Path)
    requires WellFormed(d) && Plain(s) && s.kind == Mapping
    ensures WellFormed(MergeMapping(d, s, path)) && Covers(path, MergeMapping(d, s, path), s)
  {
    MergeNodeCovers(d, s, path);
    if d.kind != Mapping {
      PlainIsWellFormed(s);
      CoversItself(path, s);
    }
  }
}
