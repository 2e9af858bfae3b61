// Which keys a merged mapping has, in which order, and what each of them holds.
module YamlKeys {
  import opened Text
  import opened YamlTree
  import opened YamlDefaults
  import opened YamlMeaning

  // The key nodes of a mapping from pair j on, in order.
  function Keys(content: seq<Tree>, j: nat): seq<Tree>
    decreases |content| - j
  {
    if IsPair(content, j) then [content[2 * j]] + Keys(content, j + 1) else []
  }

  // The keys of s, from pair j on, that a merge adds to d: those d lacks and whose value is not left out.
  ghost function NewKeys(d: Tree, s: Tree, path: Path, j: nat): seq<Tree>
    requires d.Node? && s.Node?
    decreases |s.content| - j
  {
    if !IsPair(s.content, j) then [] else NewKey(d, s, path, j) + NewKeys(d, s, path, j + 1)
  }

  ghost function NewKey(d: Tree, s: Tree, path: Path, j: nat): seq<Tree>
    requires d.Node? && s.Node? && IsPair(s.content, j)
  {
    var key, value := s.content[2 * j], s.content[2 * j + 1];
    if key.Null? || Lookup(d.content, key.value).Some? || LeftOut(path + [key.value], value) then []
    else [key]
  }

  lemma {:induction false} KeysAppend(content: seq<Tree>, key: Tree, value: Tree, j: nat)
    requires |content| % 2 == 0 && 2 * j <= |content|
    ensures Keys(content + [key, value], j) == Keys(content, j) + [key]
    decreases |content| - j
  {
    var more := content + [key, value];
    if IsPair(content, j) {
      assert more[2 * j] == content[2 * j];
      KeysAppend(content, key, value, j + 1);
    } else {
      assert IsPair(more, j) && more[2 * j] == key && !IsPair(more, j + 1);
    }
  }

  lemma {:induction false} KeysOfUpdate(content: seq<Tree>, i: nat, value: Tree, j: nat)
    requires IsPair(content, i)
    ensures Keys(content[2 * i + 1 := value], j) == Keys(content, j)
    decreases |content| - j
  {
    var more := content[2 * i + 1 := value];
    if IsPair(content, j) {
      assert more[2 * j] == content[2 * j];
      KeysOfUpdate(content, i, value, j + 1);
    }
  }

  // d and e both have the key, or neither does.
  predicate SameKey(d: Tree, e: Tree, key: string)
    requires d.Node? && e.Node?
  {
    Lookup(e.content, key).Some? == Lookup(d.content, key).Some?
  }

  // d and e have the same ones of the keys of s from pair j on.
  ghost predicate SameKeysFrom(d: Tree, e: Tree, s: Tree, j: nat)
    requires d.Node? && e.Node? && s.Node?
  {
    forall i: nat :: j <= i && IsPair(s.content, i) && s.content[2 * i].Node? ==> SameKey(d, e, s.content[2 * i].value)
  }

  // Appending a key that s has no more from pair j on changes no new key from there on.
  lemma {:induction false} NewKeysStable(d: Tree, e: Tree, s: Tree, path: Path, j: nat)
    requires d.Node? && e.Node? && s.Node?
    requires SameKeysFrom(d, e, s, j)
    ensures NewKeys(e, s, path, j) == NewKeys(d, s, path, j)
    decreases |s.content| - j
  {
    if IsPair(s.content, j) {
      NewKeysStable(d, e, s, path, j + 1);
    }
  }

  lemma MergePairForm(d: Tree, s: Tree, j: nat, path: Path)
    requires WellFormed(d) && d.kind == Mapping && Plain(s) && s.kind == Mapping && IsPair(s.content, j)
    ensures WellFormed(MergePair(d, s, j, path)) && MergePair(d, s, j, path).kind == Mapping
  {
    var key, value := s.content[2 * j], s.content[2 * j + 1];
    var i := FindPair(d.content, key.value, 0);
    if i >= 0 {
      MergeNodeCovers(d.content[2 * i + 1], value, path + [key.value]);
    } else {
      PlainIsWellFormed(key);
      PrunedIsWellFormed(path + [key.value], value);
    }
  }

  function LookupAfter(content: seq<Tree>, key: string, j: nat): Option<Tree> {
    var i := FindPair(content, key, j);
    if i < 0 then None else Some(content[2 * i + 1])
  }

  lemma {:induction false} MergePairsLookup(d: Tree, s: Tree, j: nat, path: Path, k: string)
    requires d.Node? && |d.content| % 2 == 0 && Plain(s) && s.kind == Mapping
    ensures Lookup(MergePairs(d, s, j, path).content, k) == MergedValue(Lookup(d.content, k), LookupAfter(s.content, k, j), path + [k])
    decreases |s.content| - j
  {
    if IsPair(s.content, j) {
      LookupStep(d, s, j, path, k);
      MergePairsLookup(MergePair(d, s, j, path), s, j + 1, path, k);
    }
  }

  lemma LookupStep(d: Tree, s: Tree, j: nat, path: Path, k: string)
    requires d.Node? && |d.content| % 2 == 0 && Plain(s) && s.kind == Mapping && IsPair(s.content, j)
    ensures var e := MergePair(d, s, j, path);
      |e.content| % 2 == 0 &&
      MergedValue(Lookup(e.content, k), LookupAfter(s.content, k, j + 1), path + [k]) ==
      MergedValue(Lookup(d.content, k), LookupAfter(s.content, k, j), path + [k])
  {
    MergePairLookup(d, s, j, path, k);
    NoSecondPair(s, j, k);
  }

  lemma NoSecondPair(s: Tree, j: nat, k: string)
    requires Plain(s) && s.kind == Mapping && IsPair(s.content, j)
    ensures k == s.content[2 * j].value ==> LookupAfter(s.content, k, j) == Some(s.content[2 * j + 1]) && LookupAfter(s.content, k, j + 1) == None
    ensures k != s.content[2 * j].value ==> LookupAfter(s.content, k, j) == LookupAfter(s.content, k, j + 1)
  {
    var i := FindPair(s.content, k, j + 1);
    assert i >= 0 ==> IsPair(s.content, i) && j < i;
  }

  lemma MergeIsPairs(d: Tree, s: Tree, path: Path)
    requires BothMappings(d, s)
    ensures MergeMapping(d, s, path) == MergePairs(d, s, 0, path)
  {
  }

  lemma FromFirst(content: seq<Tree>, k: string)
    ensures LookupAfter(content, k, 0) == Lookup(content, k)
  {
  }

  // Siblings do not interfere: every key of a merged mapping holds the merge of what the two sides hold under it.
  lemma MergedLookup(d: Tree, s: Tree, path: Path, k: string)
    requires WellFormed(d) && d.kind == Mapping && Plain(s) && s.kind == Mapping
    ensures Lookup(MergeMapping(d, s, path).content, k) == MergedValue(Lookup(d.content, k), Lookup(s.content, k), path + [k])
  {
    MergeIsPairs(d, s, path);
    FromFirst(s.content, k);
    MergePairsLookup(d, s, 0, path, k);
  }

  // Merging pair j adds its key, or no key.
  lemma MergePairKeys(d: Tree, s: Tree, j: nat, path: Path)
    requires d.Node? && s.Node? && IsPair(s.content, j) && s.content[2 * j].Node? && |d.content| % 2 == 0
    ensures Keys(MergePair(d, s, j, path).content, 0) == Keys(d.content, 0) + NewKey(d, s, path, j)
  {
    var key, value := s.content[2 * j], s.content[2 * j + 1];
    var i, child := FindPair(d.content, key.value, 0), path + [key.value];
    if i >= 0 {
      KeysOfUpdate(d.content, i, MergeNode(d.content[2 * i + 1], value, child), 0);
    } else {
      DefaultIff(child, value);
      KeysAppend(d.content, key, Prune(child, value), 0);
    }
  }

  lemma OtherKeysStay(d: Tree, s: Tree, j: nat, path: Path)
    requires d.Node? && |d.content| % 2 == 0 && Plain(s) && s.kind == Mapping && IsPair(s.content, j)
    ensures SameKeysFrom(d, MergePair(d, s, j, path), s, j + 1)
  {
    forall i: nat | j + 1 <= i && IsPair(s.content, i) && s.content[2 * i].Node?
      ensures SameKey(d, MergePair(d, s, j, path), s.content[2 * i].value)
    {
      MergePairLookup(d, s, j, path, s.content[2 * i].value);
    }
  }

  lemma NewKeysAfter(d: Tree, e: Tree, s: Tree, j: nat, path: Path)
    requires d.Node? && |d.content| % 2 == 0 && Plain(s) && s.kind == Mapping && IsPair(s.content, j)
    requires e == MergePair(d, s, j, path)
    ensures NewKeys(e, s, path, j + 1) == NewKeys(d, s, path, j + 1)
  {
    OtherKeysStay(d, s, j, path);
    NewKeysStable(d, e, s, path, j + 1);
  }

  lemma KeysStep(d: Tree, s: Tree, j: nat, path: Path) returns (e: Tree)
    requires d.Node? && |d.content| % 2 == 0 && Plain(s) && s.kind == Mapping && IsPair(s.content, j)
    ensures e == MergePair(d, s, j, path) && e.Node? && |e.content| % 2 == 0
    ensures NewKeys(e, s, path, j + 1) == NewKeys(d, s, path, j + 1)
    ensures Keys(e.content, 0) == Keys(d.content, 0) + NewKey(d, s, path, j)
  {
    e := MergePair(d, s, j, path);
    MergePairKeys(d, s, j, path);
    NewKeysAfter(d, e, s, j, path);
  }

  // r has the keys of d, and then those that s brings in from pair j on.
  ghost predicate KeysFrom(d: Tree, s: Tree, j: nat, path: Path, r: Tree) {
    d.Node? && s.Node? && r.Node? && Keys(r.content, 0) == Keys(d.content, 0) + NewKeys(d, s, path, j)
  }

  lemma KeysFromNext(d: Tree, s: Tree, j: nat, path: Path, e: Tree, r: Tree)
    requires d.Node? && |d.content| % 2 == 0 && Plain(s) && s.kind == Mapping && IsPair(s.content, j)
    requires e == MergePair(d, s, j, path) && KeysFrom(e, s, j + 1, path, r)
    ensures KeysFrom(d, s, j, path, r)
  {
    var same := KeysStep(d, s, j, path);
    Grouped(Keys(d.content, 0), NewKey(d, s, path, j), NewKeys(d, s, path, j + 1));
  }

  lemma KeysFromEnd(d: Tree, s: Tree, j: nat, path: Path)
    requires d.Node? && s.Node? && !IsPair(s.content, j)
    ensures KeysFrom(d, s, j, path, d)
  {
  }

  lemma EvenAfter(d: Tree, s: Tree, j: nat, path: Path)
    requires d.Node? && s.Node? && |d.content| % 2 == 0 && IsPair(s.content, j)
    ensures |MergePair(d, s, j, path).content| % 2 == 0
  {
  }

  lemma {:induction false} MergePairsKeys(d: Tree, s: Tree, j: nat, path: Path, r: Tree)
    requires d.Node? && |d.content| % 2 == 0 && Plain(s) && s.kind == Mapping && r == MergePairs(d, s, j, path)
    ensures KeysFrom(d, s, j, path, r)
    decreases |s.content| - j
  {
    if IsPair(s.content, j) {
      var e := MergePair(d, s, j, path);
      EvenAfter(d, s, j, path);
      MergePairsKeys(e, s, j + 1, path, r);
      KeysFromNext(d, s, j, path, e, r);
    } else {
      KeysFromEnd(d, s, j, path);
    }
  }

  // A merged mapping has the keys of the destination in their order, then the new ones in the order of the source.
  lemma MergedKeys(d: Tree, s: Tree, path: Path)
    requires WellFormed(d) && d.kind == Mapping && Plain(s) && s.kind == Mapping
    ensures Keys(MergeMapping(d, s, path).content, 0) == Keys(d.content, 0) + NewKeys(d, s, path, 0)
  {
    MergeIsPairs(d, s, path);
    MergePairsKeys(d, s, 0, path, MergePairs(d, s, 0, path));
  }

  // ---------- keys that stay within the source's ----------

  // Some pair has the key, blanks around it aside.
  ghost predicate HasKey(content: seq<Tree>, key: string) {
    key != "" && exists i: nat :: IsPair(content, i) && content[2 * i].Node? && TrimSpace(content[2 * i].value) == key
  }

  // Every key of t is a key of s.
  ghost predicate KeysWithin(t: Tree, s: Tree) {
    t.Node? && s.Node? && t.kind == Mapping &&
    forall j :: IsPair(t.content, j) ==> t.content[2 * j].Node? && HasKey(s.content, TrimSpace(t.content[2 * j].value))
  }

  lemma KeptIff(content: seq<Tree>, key: string)
    ensures key in KeptKeys(content) <==> HasKey(content, key)
  {
    if HasKey(content, key) {
      var i: nat :| IsPair(content, i) && content[2 * i].Node? && TrimSpace(content[2 * i].value) == key;
    }
  }

  lemma {:induction false} KeepPairsWithin(content: seq<Tree>, keep: set<string>, j: nat)
    requires forall i :: IsPair(content, i) ==> content[2 * i].Node?
    requires IsPair(KeepPairs(content, keep), j)
    ensures KeepPairs(content, keep)[2 * j].Node? && TrimSpace(KeepPairs(content, keep)[2 * j].value) in keep
    decreases |content|
  {
    var rest := KeepPairs(content[2..], keep);
    assert IsPair(content, 0);
    assert forall i :: IsPair(content[2..], i) ==> IsPair(content, i + 1) && content[2..][2 * i] == content[2 * (i + 1)];
    if content[0].Node? && TrimSpace(content[0].value) !in keep {
      KeepPairsWithin(content[2..], keep, j);
    } else if j > 0 {
      assert KeepPairs(content, keep)[2 * j] == rest[2 * (j - 1)];
      KeepPairsWithin(content[2..], keep, j - 1);
    }
  }

  lemma PrunedWithin(d: Tree, s: Tree)
    requires WellFormed(d) && BothMappings(d, s)
    ensures KeysWithin(PruneMissing(d, s), s)
  {
    var keep := KeptKeys(s.content);
    var content := KeepPairs(d.content, keep);
    forall j: nat | IsPair(content, j) ensures content[2 * j].Node? && HasKey(s.content, TrimSpace(content[2 * j].value)) {
      KeepPairsWithin(d.content, keep, j);
      KeptIff(s.content, TrimSpace(content[2 * j].value));
    }
  }

  // Inside a sequence element, no top-level key survives that the source element lacks.
  lemma ElementWithin(e: Tree, t: Tree, path: Path)
    requires WellFormed(e) && Plain(t) && t.kind == Mapping
    ensures KeysWithin(MergeElement(e, t, path), t)
  {
    MergeNodeCovers(e, t, path);
    PrunedWithin(MergeNode(e, t, path), t);
  }

  lemma {:induction false} MergePairsWithin(d: Tree, s: Tree, j: nat, path: Path)
    requires KeysWithin(d, s) && WellFormed(d) && Plain(s) && s.kind == Mapping
    ensures KeysWithin(MergePairs(d, s, j, path), s)
    decreases |s.content| - j
  {
    if IsPair(s.content, j) {
      WithinStep(d, s, j, path);
      MergePairsWithin(MergePair(d, s, j, path), s, j + 1, path);
    }
  }

  lemma WithinStep(d: Tree, s: Tree, j: nat, path: Path)
    requires KeysWithin(d, s) && WellFormed(d) && Plain(s) && s.kind == Mapping && IsPair(s.content, j)
    ensures KeysWithin(MergePair(d, s, j, path), s) && WellFormed(MergePair(d, s, j, path))
  {
    MergePairForm(d, s, j, path);
    PairWithin(d, s, j, path);
  }

  lemma PairWithin(d: Tree, s: Tree, j: nat, path: Path)
    requires KeysWithin(d, s) && IsPair(s.content, j) && |d.content| % 2 == 0
    requires s.content[2 * j].Node? && TrimSpace(s.content[2 * j].value) != ""
    ensures KeysWithin(MergePair(d, s, j, path), s)
  {
    var e := MergePair(d, s, j, path);
    forall i: nat | IsPair(e.content, i) ensures e.content[2 * i].Node? && HasKey(s.content, TrimSpace(e.content[2 * i].value)) {
      assert IsPair(d.content, i) || e.content[2 * i] == s.content[2 * j];
    }
  }

  // Merging brings in no key the source lacks.
  lemma MergedWithin(d: Tree, s: Tree, path: Path)
    requires KeysWithin(d, s) && WellFormed(d) && Plain(s) && s.kind == Mapping
    ensures KeysWithin(MergeNode(d, s, path), s)
  {
    MergePairsWithin(d, s, 0, path);
  }

  // Every key of the list, at the even places, is among the kept ones.
  ghost predicate KeysIn(pairs: seq<Tree>, keep: set<string>) {
    forall i: nat | IsPair(pairs, i) :: pairs[2 * i].Node? && TrimSpace(pairs[2 * i].value) in keep
  }

  lemma KeysInMore(kept: seq<Tree>, rest: seq<Tree>, keep: set<string>)
    requires KeysIn(rest, keep)
    requires kept != [] ==> |kept| == 2 && kept[0].Node? && TrimSpace(kept[0].value) in keep
    ensures KeysIn(kept + rest, keep)
  {
    if kept == [] {
      assert kept + rest == rest;
    } else {
      forall i: nat | i > 0 && IsPair(kept + rest, i) ensures IsPair(rest, i - 1) && (kept + rest)[2 * i] == rest[2 * (i - 1)] {
      }
    }
  }

  lemma {:induction false} PrunedPairsWithin(path: Path, s: Tree, j: nat)
    requires Plain(s) && s.kind == Mapping
    ensures KeysIn(PrunePairs(path, s, j), KeptKeys(s.content))
    decreases |s.content| - j
  {
    if IsPair(s.content, j) {
      KeptKeysHas(s.content, j);
      PrunedPairsWithin(path, s, j + 1);
      KeysInMore(PrunePair(path, s, j), PrunePairs(path, s, j + 1), KeptKeys(s.content));
    }
  }

  lemma NewWithin(path: Path, s: Tree)
    requires Plain(s) && s.kind == Mapping
    ensures KeysWithin(Prune(path, s), s)
  {
    PrunedPairsWithin(path, s, 0);
    var pairs := PrunePairs(path, s, 0);
    forall i: nat | IsPair(pairs, i) ensures HasKey(s.content, TrimSpace(pairs[2 * i].value)) {
      KeptIff(s.content, TrimSpace(pairs[2 * i].value));
    }
  }
}
