// Saving a configuration on nodes: the user's tree is pruned and merged in place.
module YamlSaveInPlace {
  import opened Text
  import opened YamlTree
  import opened YamlNode
  import opened YamlCopy
  import opened YamlFrames
  import opened YamlMerge
  import opened YamlSave

  method RemoveMapKey(n: Node?, key: string, ghost s: Shape) returns (ghost r: Shape)
    requires Valid(s) && Root(s) == n
    modifies Nodes(s)
    ensures Valid(r) && Root(r) == n && Nodes(r) <= Nodes(s) && Denote(r) == RemoveKey(old(Denote(s)), key)
  {
    if n == null || n.kind != Mapping || key == "" {
      KeyNotRemoved(s, key);
      return s;
    }
    r := RemovePairOf(n, key, s);
  }

  lemma KeyNotRemoved(s: Shape, key: string)
    requires Valid(s) && (Root(s) == null || Root(s).kind != Mapping || key == "")
    ensures RemoveKey(Denote(s), key) == Denote(s)
  {
  }

  method RemovePairOf(n: Node, key: string, ghost s: Shape) returns (ghost r: Shape)
    requires Valid(s) && Root(s) == n && n.kind == Mapping && key != ""
    modifies Nodes(s)
    ensures Valid(r) && Root(r) == n && Nodes(r) <= Nodes(s) && Denote(r) == RemoveKey(old(Denote(s)), key)
  {
    NodesAllocated(s);
    var j := FindMapKeyIndex(n, key, s);
    RemoveFound(Denote(s), key, j);
    if j < 0 {
      return s;
    }
    r := RemoveRange(n, 2 * j, 2 * j + 2, s);
  }

  lemma RemoveFound(t: Tree, key: string, j: int)
    requires t.Node? && t.kind == Mapping && key != "" && j == FindPair(t.content, key, 0)
    ensures RemoveKey(t, key) == if j < 0 then t else WithContent(t, t.content[..2 * j] + t.content[2 * j + 2..])
  {
  }

  // The section both trees hold: replaced by a copy unless both are mappings, pruned otherwise.
  method PruneSharedSection(dst: Node, sv: Node, i: nat, ghost d: Shape, ghost s: Shape) returns (ghost r: Shape)
    requires Mergeable(d, s) && Root(d) == dst && i < |dst.content| && Root(s) == sv
    modifies Nodes(d)
    ensures Valid(r) && Root(r) == dst && MadeFrom(d, r)
    ensures Denote(r) == WithElement(old(Denote(d)), i, PrunedSection(old(Denote(d)).content[i], old(Denote(s))))
  {
    NodesAllocated(d);
    var dv := dst.content[i];
    if sv.kind != Mapping || dv == null || dv.kind != Mapping {
      r := FillElement(dst, sv, i, d, s);
    } else {
      KidNodesIn(d.kids, i);
      ghost var k := PruneMissingMapKeys(dv, sv, d.kids[i], s);
      KidRebuilt(d, i, k);
      r := WithKid(d, i, k);
    }
  }

  method PutEmptyMapping(dst: Node, i: nat, ghost d: Shape) returns (ghost r: Shape)
    requires Valid(d) && Root(d) == dst && i < |dst.content|
    modifies dst`content
    ensures Valid(r) && Root(r) == dst && MadeFrom(d, r) && Denote(r) == WithElement(old(Denote(d)), i, EMPTY_MAPPING)
  {
    NodesAllocated(d);
    ghost var t := Denote(d);
    var n := new Node(Mapping, "!!map", "", "", null, []);
    CellDenotes(n, [], []);
    r := PutElement(dst, n, i, d, Cell(n, []), t);
  }

  // pruneMappingToGeneratedKeys with a single key
  method PruneSectionInPlace(dst: Node, src: Node, key: string, ghost d: Shape, ghost s: Shape) returns (ghost r: Shape)
    requires Mergeable(d, s) && Root(d) == dst && Root(s) == src
    modifies Nodes(d)
    ensures Mergeable(r, s) && Root(r) == dst && MadeFrom(d, r) && Denote(s) == old(Denote(s))
    ensures Denote(r) == PruneSection(old(Denote(d)), old(Denote(s)), key)
  {
    NodesAllocated(d);
    NodesAllocated(s);
    if key == "" || dst.kind != Mapping || src.kind != Mapping {
      return d;
    }
    var i := FindMapKeyIndex(dst, key, d);
    if i < 0 {
      return d;
    }
    var j := FindMapKeyIndex(src, key, s);
    SectionFound(Denote(d), Denote(s), key);
    r := PruneFoundSection(dst, src, key, i, j, d, s);
  }

  // PruneSection once the key is found at pair i of t, and at pair j of u or nowhere.
  function SectionAt(t: Tree, u: Tree, key: string, i: nat, j: int): Tree {
    if j < 0 then if key == MODEL_ALIAS then WithElement(t, 2 * i + 1, EMPTY_MAPPING) else RemoveKey(t, key)
    else if t.Node? && u.Node? && IsPair(t.content, i) && IsPair(u.content, j) then
      WithElement(t, 2 * i + 1, PrunedSection(t.content[2 * i + 1], u.content[2 * j + 1]))
    else t
  }

  lemma SectionFound(t: Tree, u: Tree, key: string)
    requires key != "" && BothMappings(t, u) && FindPair(t.content, key, 0) >= 0
    ensures PruneSection(t, u, key) == SectionAt(t, u, key, FindPair(t.content, key, 0), FindPair(u.content, key, 0))
  {
  }

  lemma SectionLost(t: Tree, u: Tree, key: string, i: nat, j: int)
    requires j < 0
    ensures SectionAt(t, u, key, i, j) == if key == MODEL_ALIAS then WithElement(t, 2 * i + 1, EMPTY_MAPPING) else RemoveKey(t, key)
  {
  }

  lemma SectionShared(t: Tree, u: Tree, key: string, i: nat, j: nat)
    requires t.Node? && u.Node? && IsPair(t.content, i) && IsPair(u.content, j)
    ensures SectionAt(t, u, key, i, j) == WithElement(t, 2 * i + 1, PrunedSection(t.content[2 * i + 1], u.content[2 * j + 1]))
  {
  }

  // A generated tree below a generated one
  lemma KidOf(s: Shape, i: nat)
    requires Valid(s) && Generated(s) && s.Cell? && i < |s.kids|
    ensures Valid(s.kids[i]) && Generated(s.kids[i]) && s.kids[i].Cell? && Nodes(s.kids[i]) <= Nodes(s)
    ensures i < |s.node.content| && Root(s.kids[i]) == s.node.content[i]
    ensures i < |Denote(s).content| && Denote(s).content[i] == Denote(s.kids[i])
  {
    GeneratedKid(s, i);
  }

  // A section of the user's tree alone: removed, except that a model alias section is left as an empty mapping.
  method PruneLostSection(dst: Node, key: string, i: nat, ghost d: Shape) returns (ghost r: Shape)
    requires Valid(d) && Root(d) == dst && i < |dst.content|
    modifies Nodes(d)
    ensures Valid(r) && Root(r) == dst && MadeFrom(d, r)
    ensures Denote(r) == if key == MODEL_ALIAS then WithElement(old(Denote(d)), i, EMPTY_MAPPING) else RemoveKey(old(Denote(d)), key)
  {
    if key == "oauth-model-alias" {
      r := PutEmptyMapping(dst, i, d);
    } else {
      r := RemoveMapKey(dst, key, d);
    }
  }

  method PruneFoundSection(dst: Node, src: Node, key: string, i: nat, j: int, ghost d: Shape, ghost s: Shape) returns (ghost r: Shape)
    requires Mergeable(d, s) && Root(d) == dst && Root(s) == src && 2 * i + 1 < |dst.content| && (j >= 0 ==> 2 * j + 1 < |src.content|)
    modifies Nodes(d)
    ensures Valid(r) && Root(r) == dst && MadeFrom(d, r)
    ensures Denote(r) == SectionAt(old(Denote(d)), old(Denote(s)), key, i, j)
  {
    if j < 0 {
      SectionLost(Denote(d), Denote(s), key, i, j);
      r := PruneLostSection(dst, key, 2 * i + 1, d);
      return;
    }
    SectionShared(Denote(d), Denote(s), key, i, j);
    KidOf(s, 2 * j + 1);
    r := PruneSharedSection(dst, src.content[2 * j + 1], 2 * i + 1, d, s.kids[2 * j + 1]);
  }

  lemma BelowMissing(u: Tree, key: string)
    requires u.Node? && u.kind == Mapping && FindPair(u.content, key, 0) < 0
    ensures Below(u, key) == Null
  {
  }

  lemma BelowFound(u: Tree, key: string, j: nat)
    requires u.Node? && u.kind == Mapping && FindPair(u.content, key, 0) == j
    ensures Below(u, key) == u.content[2 * j + 1]
  {
  }

  lemma BelowOther(s: Shape, key: string)
    requires Valid(s) && (Root(s) == null || Root(s).kind != Mapping)
    ensures Below(Denote(s), key) == Denote(s)
  {
  }

  method MappingBelow(src: Node, key: string, ghost s: Shape, ghost u: Tree) returns (below: Node?, ghost b: Shape)
    requires Valid(s) && Root(s) == src && Generated(s) && src.kind == Mapping && Denote(s) == u
    ensures Valid(b) && Root(b) == below && Generated(b) && Nodes(b) <= Nodes(s)
    ensures Denote(b) == Below(u, key)
  {
    NodesAllocated(s);
    var j := FindMapKeyIndex(src, key, s);
    if j < 0 {
      BelowMissing(u, key);
      return null, Nil;
    }
    BelowFound(u, key, j);
    KidOf(s, 2 * j + 1);
    return src.content[2 * j + 1], s.kids[2 * j + 1];
  }

  // The source parent one key further down.
  method SourceBelow(src: Node?, key: string, ghost s: Shape) returns (below: Node?, ghost b: Shape)
    requires Valid(s) && Root(s) == src && Generated(s)
    ensures Valid(b) && Root(b) == below && Generated(b) && Nodes(b) <= Nodes(s) && Denote(b) == Below(old(Denote(s)), key)
  {
    if src == null || src.kind != Mapping {
      BelowOther(s, key);
      return src, s;
    }
    below, b := MappingBelow(src, key, s, Denote(s));
  }

  // pruneMappingToGeneratedKeys below the parents named by the keys
  method PruneNestedInPlace(dst: Node?, src: Node?, keys: seq<string>, ghost d: Shape, ghost s: Shape) returns (ghost r: Shape)
    requires Mergeable(d, s) && Root(d) == dst && Root(s) == src && keys != []
    modifies Nodes(d)
    ensures Mergeable(r, s) && Root(r) == dst && MadeFrom(d, r) && Denote(s) == old(Denote(s))
    ensures Denote(r) == PruneNested(old(Denote(d)), old(Denote(s)), keys)
    decreases |keys|, 2
  {
    r := d;
    NodesAllocated(d);
    NodesAllocated(s);
    if |keys| == 1 {
      if src == null || src.kind != Mapping {
        r := RemoveMapKey(dst, keys[0], d);
      } else if dst != null {
        r := PruneSectionInPlace(dst, src, keys[0], d, s);
      }
    } else if keys[0] != "" && dst != null && dst.kind == Mapping {
      r := PruneUnderKey(dst, src, keys, d, s);
    }
  }

  lemma NestedUnderKey(t: Tree, u: Tree, keys: seq<string>, i: nat, v: Tree)
    requires |keys| > 1 && keys[0] != "" && t.Node? && t.kind == Mapping && FindPair(t.content, keys[0], 0) == i
    requires v == PruneNested(t.content[2 * i + 1], Below(u, keys[0]), keys[1..])
    ensures PruneNested(t, u, keys) == WithElement(t, 2 * i + 1, v)
  {
  }

  method PruneUnderKey(dst: Node, src: Node?, keys: seq<string>, ghost d: Shape, ghost s: Shape) returns (ghost r: Shape)
    requires Mergeable(d, s) && Root(d) == dst && Root(s) == src && |keys| > 1 && keys[0] != "" && dst.kind == Mapping
    modifies Nodes(d)
    ensures Valid(r) && Root(r) == dst && MadeFrom(d, r)
    ensures Denote(r) == PruneNested(old(Denote(d)), old(Denote(s)), keys)
    decreases |keys|, 1
  {
    NodesAllocated(d);
    NodesAllocated(s);
    var i := FindMapKeyIndex(dst, keys[0], d);
    if i < 0 {
      return d;
    }
    NestedUnderKey(Denote(d), Denote(s), keys, i, PruneNested(Denote(d).content[2 * i + 1], Below(Denote(s), keys[0]), keys[1..]));
    r := PruneFoundKey(dst, src, keys, i, d, s);
  }

  method PruneFoundKey(dst: Node, src: Node?, keys: seq<string>, i: nat, ghost d: Shape, ghost s: Shape) returns (ghost r: Shape)
    requires Mergeable(d, s) && Root(d) == dst && Root(s) == src && |keys| > 1 && 2 * i + 1 < |dst.content|
    modifies Nodes(d)
    ensures Valid(r) && Root(r) == dst && MadeFrom(d, r)
    ensures var t, u := old(Denote(d)), old(Denote(s));
      Denote(r) == WithElement(t, 2 * i + 1, PruneNested(t.content[2 * i + 1], Below(u, keys[0]), keys[1..]))
    decreases |keys|, 0
  {
    NodesAllocated(d);
    NodesAllocated(s);
    ghost var b: Shape;
    var below;
    below, b := SourceBelow(src, keys[0], s);
    r := PruneValueUnder(dst, 2 * i + 1, below, keys[1..], d, b);
  }

  method PruneValueUnder(dst: Node, i: nat, src: Node?, keys: seq<string>, ghost d: Shape, ghost s: Shape) returns (ghost r: Shape)
    requires Mergeable(d, s) && Root(d) == dst && i < |dst.content| && Root(s) == src && keys != []
    modifies Nodes(d)
    ensures Valid(r) && Root(r) == dst && MadeFrom(d, r)
    ensures Denote(r) == WithElement(old(Denote(d)), i, PruneNested(old(Denote(d)).content[i], old(Denote(s)), keys))
    decreases |keys|, 3
  {
    NodesAllocated(d);
    KidNodesIn(d.kids, i);
    ghost var k := PruneNestedInPlace(dst.content[i], src, keys, d.kids[i], s);
    KidRebuilt(d, i, k);
    r := WithKid(d, i, k);
  }

  // The order of the steps in SaveConfigPreserveComments: prune the three sections, then merge.
  method SaveInPlace(original: Node, generated: Node, ghost d: Shape, ghost s: Shape) returns (ghost r: Shape)
    requires Mergeable(d, s) && Root(d) == original && Root(s) == generated
    modifies Nodes(d)
    ensures Mergeable(r, s) && Root(r) == original && MadeFrom(d, r)
    ensures Denote(r) == Save(old(Denote(d)), old(Denote(s)))
  {
    r := PruneSectionInPlace(original, generated, "oauth-excluded-models", d, s);
    r := PruneSectionInPlace(original, generated, "oauth-model-alias", r, s);
    r := PruneNestedInPlace(original, generated, ["plugins", "configs"], r, s);
    r := MergeMappingPreserve(original, generated, [], r, s);
  }
}
