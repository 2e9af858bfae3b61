// The comment-preserving merge: the generated tree is merged into the user's nodes in place.
module YamlMerge {
  import opened Text
  import opened YamlTree
  import opened YamlNode
  import opened YamlCopy
  import opened YamlFrames
  import opened YamlPrune

  // ---------- removing pairs ----------

  function WithContent(t: Tree, content: seq<Tree>): Tree {
    if t.Node? then t.(content := content) else t
  }

  lemma KidsWithout(content: seq<Node?>, kids: seq<Shape>, trees: seq<Tree>, i: nat, j: nat)
    requires Kids(content, kids, trees) && i <= j <= |kids|
    ensures Kids(content[..i] + content[j..], kids[..i] + kids[j..], trees[..i] + trees[j..])
  {
    var less := kids[..i] + kids[j..];
    forall a, b | 0 <= a < b < |less| ensures Nodes(less[a]) !! Nodes(less[b]) {
      assert less[a] == kids[if a < i then a else a + j - i];
      assert less[b] == kids[if b < i then b else b + j - i];
    }
  }

  lemma KidNodesWithout(kids: seq<Shape>, i: nat, j: nat)
    requires i <= j <= |kids|
    ensures KidNodes(kids[..i] + kids[j..]) <= KidNodes(kids)
  {
    var less := kids[..i] + kids[j..];
    forall a | 0 <= a < |less| ensures Nodes(less[a]) <= KidNodes(kids) {
      KidNodesIn(kids, if a < i then a else a + j - i);
    }
  }

  method RemoveRange(dst: Node, i: nat, j: nat, ghost d: Shape) returns (ghost r: Shape)
    requires Valid(d) && Root(d) == dst && i <= j <= |dst.content|
    modifies dst`content
    ensures Valid(r) && Root(r) == dst && Nodes(r) <= Nodes(d)
    ensures Denote(r) == WithContent(old(Denote(d)), old(Denote(d)).content[..i] + old(Denote(d)).content[j..])
  {
    ghost var trees := Denote(d).content;
    CellHasKids(d);
    KidsWithout(dst.content, d.kids, trees, i, j);
    KidNodesWithout(d.kids, i, j);
    dst.content := dst.content[..i] + dst.content[j..];
    CellDenotes(dst, d.kids[..i] + d.kids[j..], trees[..i] + trees[j..]);
    r := Cell(dst, d.kids[..i] + d.kids[j..]);
  }

  predicate Unwanted(t: Tree, keep: set<string>) {
    t.Node? && TrimSpace(t.value) !in keep
  }

  lemma KeepStep(c: seq<Tree>, keep: set<string>, i: nat)
    requires i + 1 < |c|
    ensures Unwanted(c[i], keep) ==>
      var less := c[..i] + c[i + 2..];
      c[..i] + KeepPairs(c[i..], keep) == less[..i] + KeepPairs(less[i..], keep)
    ensures !Unwanted(c[i], keep) ==> c[..i] + KeepPairs(c[i..], keep) == c[..i + 2] + KeepPairs(c[i + 2..], keep)
  {
    var less := c[..i] + c[i + 2..];
    assert c[i..][0] == c[i] && c[i..][2..] == c[i + 2..] && c[i..][..2] == c[i..i + 2];
    assert less[..i] == c[..i] && less[i..] == c[i + 2..];
    assert c[..i] + c[i..i + 2] == c[..i + 2];
  }

  method PruneMissingMapKeys(dst: Node, src: Node, ghost d: Shape, ghost s: Shape) returns (ghost r: Shape)
    requires Valid(d) && Root(d) == dst && Valid(s) && Root(s) == src && Nodes(d) !! Nodes(s)
    modifies dst`content
    ensures Valid(r) && Root(r) == dst && Nodes(r) <= Nodes(d)
    ensures Denote(r) == PruneMissing(old(Denote(d)), old(Denote(s)))
  {
    r := d;
    if dst.kind != Mapping || src.kind != Mapping {
      return;
    }
    var keep := KeptKeys(View(src, s).content);
    r := KeepOnly(dst, keep, d);
  }

  method KeepOnly(dst: Node, keep: set<string>, ghost d: Shape) returns (ghost r: Shape)
    requires Valid(d) && Root(d) == dst
    modifies dst`content
    ensures Valid(r) && Root(r) == dst && Nodes(r) <= Nodes(d)
    ensures Denote(r) == WithContent(old(Denote(d)), KeepPairs(old(Denote(d)).content, keep))
  {
    ghost var t := Denote(d);
    ghost var c := t.content;
    r := d;
    var i := 0;
    while i + 1 < |dst.content|
      invariant 0 <= i <= |dst.content| && Valid(r) && Root(r) == dst && Nodes(r) <= Nodes(d)
      invariant Denote(r) == WithContent(t, c) && KeepPairs(t.content, keep) == c[..i] + KeepPairs(c[i..], keep)
      decreases |dst.content| - i
    {
      KeepStep(c, keep, i);
      var k := dst.content[i];
      assert c[i] == Denote(r.kids[i]);
      if k != null && TrimSpace(k.value) !in keep {
        r := RemoveRange(dst, i, i + 2, r);
        c := c[..i] + c[i + 2..];
      } else {
        i := i + 2;
      }
    }
    assert c == c[..i] + c[i..];
  }

  // ---------- reordering a sequence ----------

  ghost predicate UsesOnce(plan: seq<int>) {
    forall i, j :: 0 <= i < j < |plan| && plan[i] >= 0 ==> plan[i] != plan[j]
  }

  // An old element is never chosen twice, and never one that was used before.
  lemma {:induction false} PlanUsesOnce(original: seq<Tree>, used: seq<bool>, src: seq<Tree>)
    requires |used| == |original|
    ensures forall i | 0 <= i < |src| :: var m := Plan(original, used, src)[i]; -1 <= m < |original| && (m >= 0 ==> !used[m])
    ensures UsesOnce(Plan(original, used, src))
    decreases |src|
  {
    if src != [] {
      var m := MatchElement(original, used, src[0]);
      PlanUsesOnce(original, if m >= 0 then used[m := true] else used, src[1..]);
    }
  }

  function Reordered(d: Tree, s: Tree): Tree {
    if !d.Node? || !s.Node? || d.content == [] || s.content == [] then d
    else WithContent(d, PickTrees(d.content, Plan(d.content, NoneUsed(|d.content|), s.content)))
  }

  function PickTrees(trees: seq<Tree>, plan: seq<int>): seq<Tree> {
    seq(|plan|, i requires 0 <= i < |plan| => OldElement(trees, plan[i]))
  }

  function PickNodes(nodes: seq<Node?>, plan: seq<int>): seq<Node?> {
    seq(|plan|, i requires 0 <= i < |plan| => if 0 <= plan[i] < |nodes| then nodes[plan[i]] else null)
  }

  ghost function PickKids(kids: seq<Shape>, plan: seq<int>): seq<Shape> {
    seq(|plan|, i requires 0 <= i < |plan| => if 0 <= plan[i] < |kids| then kids[plan[i]] else Nil)
  }

  lemma KidsPicked(content: seq<Node?>, kids: seq<Shape>, trees: seq<Tree>, plan: seq<int>)
    requires Kids(content, kids, trees)
    requires UsesOnce(plan)
    ensures Kids(PickNodes(content, plan), PickKids(kids, plan), PickTrees(trees, plan))
    ensures KidNodes(PickKids(kids, plan)) <= KidNodes(kids)
  {
    forall i | 0 <= i < |plan| ensures Nodes(PickKids(kids, plan)[i]) <= KidNodes(kids) {
      if 0 <= plan[i] < |kids| {
        KidNodesIn(kids, plan[i]);
      }
    }
  }

  ghost function OldPlan(t: Tree, u: Tree): seq<int> {
    if t.Node? && u.Node? then Plan(t.content, NoneUsed(|t.content|), u.content) else []
  }

  method ReorderSequenceForMerge(dst: Node, src: Node, ghost d: Shape, ghost s: Shape) returns (ghost r: Shape)
    requires Valid(d) && Root(d) == dst && Valid(s) && Root(s) == src && Nodes(d) !! Nodes(s)
    modifies dst`content
    ensures Valid(r) && r.Cell? && d.Cell? && s.Cell? && Root(r) == dst && Nodes(r) <= Nodes(d)
    ensures Denote(r) == Reordered(old(Denote(d)), old(Denote(s)))
    ensures r.kids == if d.kids == [] || s.kids == [] then d.kids else PickKids(d.kids, OldPlan(old(Denote(d)), old(Denote(s))))
  {
    if dst.content == [] || src.content == [] {
      return d;
    }
    NodesAllocated(d);
    ghost var plan := Plan(Denote(d).content, NoneUsed(|d.kids|), Denote(s).content);
    PlanUsesOnce(Denote(d).content, NoneUsed(|d.kids|), Denote(s).content);
    var ordered := OrderedElements(dst, src, d, s);
    r := Rearrange(dst, ordered, plan, d);
  }

  method Rearrange(dst: Node, ordered: seq<Node?>, ghost plan: seq<int>, ghost d: Shape) returns (ghost r: Shape)
    requires Valid(d) && Root(d) == dst && ordered == PickNodes(dst.content, plan)
    requires UsesOnce(plan)
    modifies dst`content
    ensures Valid(r) && Root(r) == dst && Nodes(r) <= Nodes(d) && r.kids == PickKids(d.kids, plan)
    ensures Denote(r) == WithContent(old(Denote(d)), PickTrees(old(Denote(d)).content, plan))
  {
    ghost var trees := Denote(d).content;
    CellHasKids(d);
    KidsPicked(dst.content, d.kids, trees, plan);
    dst.content := ordered;
    CellDenotes(dst, PickKids(d.kids, plan), PickTrees(trees, plan));
    r := Cell(dst, PickKids(d.kids, plan));
  }

  lemma PlanStep(original: seq<Tree>, used: seq<bool>, target: seq<Tree>, i: nat, plan: seq<int>)
    requires |used| == |original| && i < |target| == |plan| && Plan(original, used, target[i..]) == plan[i..]
    ensures MatchElement(original, used, target[i]) == plan[i]
    ensures Plan(original, if plan[i] >= 0 then used[plan[i] := true] else used, target[i + 1..]) == plan[i + 1..]
  {
    assert target[i..][0] == target[i] && target[i..][1..] == target[i + 1..];
    assert plan[i..][0] == plan[i] && plan[i..][1..] == plan[i + 1..];
  }

  method OrderedElements(dst: Node, src: Node, ghost d: Shape, ghost s: Shape) returns (ordered: seq<Node?>)
    requires Valid(d) && Root(d) == dst && Valid(s) && Root(s) == src
    ensures ordered == PickNodes(dst.content, Plan(old(Denote(d)).content, NoneUsed(|d.kids|), old(Denote(s)).content))
  {
    var original, target := View(dst, d).content, View(src, s).content;
    ghost var plan := Plan(original, NoneUsed(|d.kids|), target);
    var used := NoneUsed(|dst.content|);
    ordered := [];
    var i := 0;
    while i < |src.content|
      invariant 0 <= i <= |src.content| && |used| == |original| && |ordered| == i
      invariant forall k | 0 <= k < i :: ordered[k] == if 0 <= plan[k] < |dst.content| then dst.content[plan[k]] else null
      invariant Plan(original, used, target[i..]) == plan[i..]
    {
      PlanStep(original, used, target, i, plan);
      var m := MatchElement(original, used, target[i]);
      if m >= 0 {
        ordered := ordered + [dst.content[m]];
        used := used[m := true];
      } else {
        ordered := ordered + [null];
      }
      i := i + 1;
    }
  }

  // ---------- merging ----------

  // The arguments of a merge: a user's tree and a generated tree with no node in common.
  ghost predicate Mergeable(d: Shape, s: Shape)
    reads Nodes(d), Nodes(s)
  {
    Valid(d) && Valid(s) && Nodes(d) !! Nodes(s) && Generated(s)
  }

  // A new tree is put in place of what position i held.
  lemma ElementPut(n: Node, d: Shape, i: nat, k: Shape, before: seq<Node?>, t: Tree)
    requires d.Cell? && d.node == n && i < |d.kids| && t.Node? && Kids(before, d.kids, t.content) && n !in KidNodes(d.kids)
    requires Valid(k) && Nodes(k) !! Nodes(d) && n.content == before[i := Root(k)]
    requires t.kind == n.kind && t.tag == n.tag && t.value == n.value && t.note == n.note
    ensures Valid(WithKid(d, i, k)) && Denote(WithKid(d, i, k)) == WithElement(t, i, Denote(k))
  {
    KidsApart(d, i, k);
    var kids := d.kids[i := k];
    assert Kids(n.content, kids, t.content[i := Denote(k)]);
    CellDenotes(n, kids, t.content[i := Denote(k)]);
  }

  // Only position i of the content was written, or trees below it.
  ghost predicate SameOtherKids(d: Shape, r: Shape, i: nat) {
    d.Cell? && r.Cell? && |r.kids| == |d.kids| && forall j | 0 <= j < |d.kids| && j != i :: r.kids[j] == d.kids[j]
  }

  method FillElement(dst: Node, e: Node?, i: nat, ghost d: Shape, ghost s: Shape) returns (ghost r: Shape)
    requires Valid(d) && Root(d) == dst && i < |dst.content|
    requires Valid(s) && Root(s) == e && NoAliases(s)
    modifies dst`content
    ensures Valid(r) && Root(r) == dst && MadeFrom(d, r) && SameOtherKids(d, r, i)
    ensures Denote(r) == WithElement(old(Denote(d)), i, old(Denote(s)))
  {
    NodesAllocated(d);
    ghost var t, before := Denote(d), dst.content;
    CellHasKids(d);
    ghost var k: Shape;
    var cp;
    cp, k := CopyTree(e, s);
    r := PutElement(dst, cp, i, d, k, t);
  }

  method PutElement(dst: Node, cp: Node?, i: nat, ghost d: Shape, ghost k: Shape, ghost t: Tree) returns (ghost r: Shape)
    requires Valid(d) && Denote(d) == t && Root(d) == dst && i < |dst.content|
    requires Valid(k) && Root(k) == cp && Nodes(k) !! Nodes(d)
    modifies dst`content
    ensures Valid(r) && Root(r) == dst && Nodes(r) <= Nodes(d) + Nodes(k) && SameOtherKids(d, r, i)
    ensures Denote(r) == WithElement(t, i, old(Denote(k)))
  {
    ghost var before := dst.content;
    CellHasKids(d);
    dst.content := dst.content[i := cp];
    KidsStay(d, t.content);
    ElementPut(dst, d, i, k, before, t);
    r := WithKid(d, i, k);
  }

  method MergeElementInPlace(dst: Node, src: Node, i: nat, path: Path, ghost d: Shape, ghost s: Shape) returns (ghost r: Shape)
    requires Mergeable(d, s) && Root(d) == dst && Root(s) == src && i < |dst.content| && i < |src.content|
    modifies Nodes(d)
    ensures Valid(r) && Root(r) == dst && MadeFrom(d, r) && SameOtherKids(d, r, i)
    ensures d.kids[i].Cell? ==> Root(r.kids[i]) == Root(d.kids[i])
    ensures Denote(r) == WithElement(old(Denote(d)), i, MergeElement(old(Denote(d)).content[i], old(Denote(s)).content[i], path))
    decreases s, 0
  {
    if dst.content[i] == null {
      GeneratedKid(s, i);
      r := FillElement(dst, src.content[i], i, d, s.kids[i]);
      return;
    }
    ghost var k := MergeKid(dst.content[i], src.content[i], path, d, i, s, i);
    r := PruneElement(dst, src, i, WithKid(d, i, k), s);
  }

  // Merges the tree below position j of s into the tree below position i of d.
  method MergeKid(e: Node, f: Node?, path: Path, ghost d: Shape, ghost i: nat, ghost s: Shape, ghost j: nat) returns (ghost k: Shape)
    requires Mergeable(d, s) && d.Cell? && s.Cell? && i < |d.kids| && j < |s.kids| && Root(d.kids[i]) == e && Root(s.kids[j]) == f
    modifies Nodes(d.kids[i])
    ensures Valid(k) && Root(k) == e && MadeFrom(d.kids[i], k) && Mergeable(WithKid(d, i, k), s)
    ensures Valid(WithKid(d, i, k)) && MadeFrom(d, WithKid(d, i, k))
    ensures Denote(WithKid(d, i, k)) == WithElement(old(Denote(d)), i, MergeNode(old(Denote(d)).content[i], old(Denote(s)).content[j], path))
    ensures Denote(s) == old(Denote(s))
    decreases s, 0, 0, 0
  {
    NodesAllocated(d);
    NodesAllocated(s);
    KidNodesIn(d.kids, i);
    GeneratedKid(s, j);
    k := MergeNodePreserve(e, f, path, d.kids[i], s.kids[j]);
    KidRebuilt(d, i, k);
  }

  function MergedUpTo(t: Tree, u: Tree, path: Path, n: nat): Tree {
    if t.Null? || u.Null? then t
    else
      WithContent(t, seq(|t.content|, i requires 0 <= i < |t.content| =>
        if i < n && i < |u.content| then MergeElement(t.content[i], u.content[i], path) else t.content[i]))
  }

  method MergeElementsInPlace(dst: Node, src: Node, path: Path, ghost d: Shape, ghost s: Shape) returns (ghost r: Shape)
    requires Mergeable(d, s) && Root(d) == dst && Root(s) == src
    modifies Nodes(d)
    ensures Mergeable(r, s) && r.Cell? && Root(r) == dst && MadeFrom(d, r) && |r.kids| == |d.kids|
    ensures forall i | 0 <= i < |d.kids| && d.kids[i].Cell? :: Root(r.kids[i]) == Root(d.kids[i])
    ensures Denote(r) == MergedUpTo(old(Denote(d)), old(Denote(s)), path, |s.kids|) && Denote(s) == old(Denote(s))
    decreases s, 1
  {
    NodesAllocated(s);
    ghost var t, u := Denote(d), Denote(s);
    r := d;
    var minContent := if |src.content| < |dst.content| then |src.content| else |dst.content|;
    var i := 0;
    assert Denote(r) == MergedUpTo(t, u, path, 0);
    while i < minContent
      invariant r.Cell? && 0 <= i <= minContent && minContent <= |d.kids| == |r.kids|
      invariant Mergeable(r, s) && Root(r) == dst && MadeFrom(d, r) && Denote(s) == u
      invariant forall j | 0 <= j < |d.kids| && d.kids[j].Cell? :: Root(r.kids[j]) == Root(d.kids[j])
      invariant Denote(r) == MergedUpTo(t, u, path, i)
    {
      r := MergeElementInPlace(dst, src, i, path, r, s);
      assert Denote(r) == MergedUpTo(t, u, path, i + 1);
      i := i + 1;
    }
    assert MergedUpTo(t, u, path, i) == MergedUpTo(t, u, path, |s.kids|);
  }

  lemma KidNodesConcat(a: seq<Shape>, b: seq<Shape>)
    ensures KidNodes(a + b) == KidNodes(a) + KidNodes(b)
  {
    var c := a + b;
    forall i | 0 <= i < |a| ensures Nodes(a[i]) <= KidNodes(c) {
      assert c[i] == a[i];
    }
    forall i | 0 <= i < |b| ensures Nodes(b[i]) <= KidNodes(c) {
      assert c[|a| + i] == b[i];
    }
  }

  lemma NodesPlusTwo(n: Node, kids: seq<Shape>, k: Shape, c: Shape)
    ensures Nodes(Cell(n, kids + [k, c])) == Nodes(Cell(n, kids)) + Nodes(k) + Nodes(c)
  {
    KidNodesConcat(kids, [k, c]);
    assert KidNodes([k, c]) == Nodes(k) + Nodes(c) by {
      assert [k, c][0] == k && [k, c][1] == c;
    }
  }

  lemma DisjointConcat(a: seq<Shape>, b: seq<Shape>)
    requires Disjoint(a) && Disjoint(b) && KidNodes(a) !! KidNodes(b)
    ensures Disjoint(a + b)
  {
    forall i, j | 0 <= i < j < |a + b| ensures Nodes((a + b)[i]) !! Nodes((a + b)[j]) {
      if i < |a| {
        KidNodesIn(a, i);
      }
      if j >= |a| {
        KidNodesIn(b, j - |a|);
      }
    }
  }

  lemma KidsConcat(content: seq<Node?>, a: seq<Shape>, trees: seq<Tree>, content': seq<Node?>, b: seq<Shape>, trees': seq<Tree>)
    requires Kids(content, a, trees) && Kids(content', b, trees') && KidNodes(a) !! KidNodes(b)
    ensures Kids(content + content', a + b, trees + trees')
  {
    DisjointConcat(a, b);
  }

  method AppendRest(dst: Node, src: Node, ghost d: Shape, ghost s: Shape) returns (ghost r: Shape)
    requires Mergeable(d, s) && Root(d) == dst && Root(s) == src
    modifies dst`content
    ensures Valid(r) && Root(r) == dst && MadeFrom(d, r) && r.Cell? && |d.kids| <= |r.kids| && r.kids[..|d.kids|] == d.kids
    ensures |d.kids| < |s.kids| ==> Denote(r) == WithContent(old(Denote(d)), old(Denote(d)).content + old(Denote(s)).content[|d.kids|..])
    ensures |d.kids| >= |s.kids| ==> Denote(r) == old(Denote(d))
  {
    r := d;
    if |dst.content| < |src.content| {
      NodesAllocated(d);
      ghost var t, u, before := Denote(d), Denote(s), dst.content;
      ghost var start := |dst.content|;
      CellHasKids(d);
      ghost var kids: seq<Shape>;
      var content;
      content, kids := CopyContentFrom(src, |dst.content|, s);
      KidsAllocated(kids);
      dst.content := dst.content + content;
      KidsStay(d, t.content);
      KidsConcat(before, d.kids, t.content, content, kids, u.content[start..]);
      KidNodesConcat(d.kids, kids);
      CellDenotes(dst, d.kids + kids, t.content + u.content[start..]);
      r := Cell(dst, d.kids + kids);
    }
  }

  // v with as many elements as u: cut off, or filled up from u
  function Fitted(v: Tree, u: Tree): Tree
    requires v.Node? && u.Node?
  {
    WithContent(v, if |v.content| < |u.content| then v.content + u.content[|v.content|..] else v.content[..|u.content|])
  }

  lemma SequenceMerged(t: Tree, u: Tree, path: Path)
    requires t.Node? && u.Node?
    ensures var v := MergedUpTo(Reordered(t, u), u, path, |u.content|);
      v.Node? && Fitted(v, u) == WithContent(t, MergeElements(t.content, u, path))
  {
    if t.content != [] && u.content != [] {
      var plan := Plan(t.content, NoneUsed(|t.content|), u.content);
      assert |Reordered(t, u).content| == |u.content|;
      assert MergedUpTo(Reordered(t, u), u, path, |u.content|).content == MergeElements(t.content, u, path);
    }
  }

  method FitSequence(dst: Node, src: Node, ghost d: Shape, ghost s: Shape) returns (ghost r: Shape)
    requires Mergeable(d, s) && Root(d) == dst && Root(s) == src
    modifies Nodes(d)
    ensures Valid(r) && Root(r) == dst && MadeFrom(d, r) && r.Cell?
    ensures Denote(r) == Fitted(old(Denote(d)), old(Denote(s)))
    ensures |r.kids| == |s.kids| && (|d.kids| <= |s.kids| ==> r.kids[..|d.kids|] == d.kids)
  {
    if |src.content| < |dst.content| {
      r := RemoveRange(dst, |src.content|, |dst.content|, d);
    } else {
      r := AppendRest(dst, src, d, s);
    }
  }

  // Element i of r is the old element the plan chose for it, merged in place, wherever it chose one.
  ghost predicate ReusesElements(d: Shape, r: Shape, plan: seq<int>) {
    d.Cell? && r.Cell? && |r.kids| == |plan| &&
    (d.kids != [] ==> forall i | 0 <= i < |plan| :: 0 <= plan[i] < |d.kids| && d.kids[plan[i]].Cell? ==> Root(r.kids[i]) == Root(d.kids[plan[i]]))
  }

  method MergeInOrder(dst: Node, src: Node, path: Path, ghost d: Shape, ghost s: Shape) returns (ghost r: Shape)
    requires Mergeable(d, s) && Root(d) == dst && Root(s) == src
    modifies Nodes(d)
    ensures Mergeable(r, s) && Root(r) == dst && MadeFrom(d, r) && r.Cell? && |r.kids| == |s.kids|
    ensures Denote(r) == Fitted(MergedUpTo(old(Denote(d)), old(Denote(s)), path, |s.kids|), old(Denote(s)))
    ensures |d.kids| <= |s.kids| ==> forall i | 0 <= i < |d.kids| && d.kids[i].Cell? :: Root(r.kids[i]) == Root(d.kids[i])
    decreases s, 2, 0
  {
    NodesAllocated(s);
    ghost var m := MergeElementsInPlace(dst, src, path, d, s);
    r := FitSequence(dst, src, m, s);
    assert |d.kids| <= |s.kids| ==> forall i | 0 <= i < |d.kids| :: r.kids[..|d.kids|][i] == m.kids[i];
  }

  method MergeSequenceInPlace(dst: Node, src: Node, path: Path, ghost d: Shape, ghost s: Shape) returns (ghost r: Shape)
    requires Mergeable(d, s) && Root(d) == dst && Root(s) == src
    modifies Nodes(d)
    ensures Mergeable(r, s) && Root(r) == dst && MadeFrom(d, r)
    ensures Denote(r) == WithContent(old(Denote(d)), MergeElements(old(Denote(d)).content, old(Denote(s)), path))
    ensures ReusesElements(d, r, OldPlan(old(Denote(d)), old(Denote(s))))
    decreases s, 2, 1
  {
    NodesAllocated(s);
    ghost var t, u := Denote(d), Denote(s);
    SequenceMerged(t, u, path);
    r := ReorderSequenceForMerge(dst, src, d, s);
    r := MergeInOrder(dst, src, path, r, s);
  }

  // Some pair of u is merged into the value at position i of t's content.
  ghost predicate Addressed(t: Tree, u: Tree, i: int)
    requires t.Node? && u.Node?
  {
    exists j: nat :: IsPair(u.content, j) && ValueIndex(t, u, j) == i
  }

  // r keeps the pairs of d in their places: the same nodes, and the same trees where u addresses nothing.
  ghost predicate KeepsPairs(d: Shape, r: Shape, t: Tree, u: Tree)
    requires t.Node? && u.Node?
  {
    d.Cell? && r.Cell? && |d.kids| <= |r.kids| &&
    forall i | 0 <= i < |d.kids| :: Root(r.kids[i]) == Root(d.kids[i]) && (!Addressed(t, u, i) ==> r.kids[i] == d.kids[i])
  }

  method MergeMappingPreserve(dst: Node?, src: Node?, path: Path, ghost d: Shape, ghost s: Shape) returns (ghost r: Shape)
    requires Mergeable(d, s) && Root(d) == dst && Root(s) == src
    modifies Nodes(d)
    ensures Mergeable(r, s) && Root(r) == dst && MadeFrom(d, r)
    ensures Denote(r) == MergeMapping(old(Denote(d)), old(Denote(s)), path)
    ensures BothMappings(old(Denote(d)), old(Denote(s))) ==> KeepsPairs(d, r, old(Denote(d)), old(Denote(s)))
    decreases s, 2, 0
  {
    r := d;
    if dst == null || src == null {
      return;
    }
    NodesAllocated(s);
    if dst.kind != Mapping || src.kind != Mapping {
      r := CopyNodeShallow(dst, src, d, s);
      return;
    }
    r := MergePairsInPlace(dst, src, path, d, s);
  }

  method MergePairsInPlace(dst: Node, src: Node, path: Path, ghost d: Shape, ghost s: Shape) returns (ghost r: Shape)
    requires Mergeable(d, s) && Root(d) == dst && Root(s) == src && dst.kind == Mapping
    modifies Nodes(d)
    ensures Mergeable(r, s) && Root(r) == dst && MadeFrom(d, r)
    ensures Denote(r) == MergePairs(old(Denote(d)), old(Denote(s)), 0, path)
    ensures KeepsPairs(d, r, old(Denote(d)), old(Denote(s)))
    decreases s, 1, 1
  {
    NodesAllocated(s);
    ghost var t, u := Denote(d), Denote(s);
    r := d;
    var j := 0;
    while 2 * j + 1 < |src.content|
      invariant 0 <= j && MadeFrom(d, r) && Merging(dst, src, path, d, r, s, t, u, j)
    {
      r := MergeNextPair(dst, src, j, path, d, r, s, t, u);
      j := j + 1;
    }
  }

  ghost predicate Merging(dst: Node, src: Node, path: Path, d: Shape, r: Shape, s: Shape, t: Tree, u: Tree, j: nat)
    reads Nodes(r), Nodes(s)
  {
    Mergeable(r, s) && Root(r) == dst && Root(s) == src && Denote(s) == u && MergingPairs(d, r, t, u, Denote(r), j, path)
  }

  method MergeNextPair(dst: Node, src: Node, j: nat, path: Path, ghost d: Shape, ghost r: Shape, ghost s: Shape, ghost t: Tree, ghost u: Tree)
    returns (ghost r': Shape)
    requires Merging(dst, src, path, d, r, s, t, u, j) && 2 * j + 1 < |src.content|
    modifies Nodes(r)
    ensures Merging(dst, src, path, d, r', s, t, u, j + 1) && MadeFrom(r, r')
    decreases s, 1, 0
  {
    NodesAllocated(s);
    ghost var v := Denote(r);
    r' := MergePairInPlace(dst, src, j, path, r, s);
    MergingPairsStep(d, r, r', t, u, v, j, path);
  }

  // After j pairs of u, d has become r, which denotes v.
  ghost predicate MergingPairs(d: Shape, r: Shape, t: Tree, u: Tree, v: Tree, j: nat, path: Path) {
    t.Node? && u.Node? && v.Node? && v.kind == Mapping && d.Cell? && |d.kids| == |t.content| <= |v.content| && KeepsPairs(d, r, t, u) &&
    MergePairs(t, u, 0, path) == MergePairs(v, u, j, path) &&
    forall i | 0 <= i < |d.kids| && i % 2 == 0 :: v.content[i] == t.content[i]
  }

  lemma SameKeysFound(a: seq<Tree>, b: seq<Tree>, key: string)
    requires |a| <= |b| && forall i | 0 <= i < |a| && i % 2 == 0 :: a[i] == b[i]
    ensures var f := FindPair(b, key, 0); 0 <= f && 2 * f + 1 < |a| ==> FindPair(a, key, 0) == f
  {
    var f := FindPair(b, key, 0);
    if 0 <= f && 2 * f + 1 < |a| {
      assert forall i :: IsPair(a, i) ==> IsPair(b, i) && a[2 * i] == b[2 * i];
      assert IsPair(a, f);
    }
  }

  lemma MergingPairsStep(d: Shape, r: Shape, r': Shape, t: Tree, u: Tree, v: Tree, j: nat, path: Path)
    requires MergingPairs(d, r, t, u, v, j, path) && IsPair(u.content, j) && u.content[2 * j].Node?
    requires KeepsAllBut(r, r', ValueIndex(v, u, j))
    ensures MergingPairs(d, r', t, u, MergePair(v, u, j, path), j + 1, path)
  {
    SameKeysFound(t.content, v.content, u.content[2 * j].value);
  }

  // Where the value of u's pair j is merged into t's content.
  ghost function ValueIndex(t: Tree, u: Tree, j: nat): int {
    if t.Node? && u.Node? && IsPair(u.content, j) && u.content[2 * j].Node? then 2 * FindPair(t.content, u.content[2 * j].value, 0) + 1 else -1
  }

  ghost predicate KeepsAllBut(d: Shape, r: Shape, v: int) {
    d.Cell? && r.Cell? && |d.kids| <= |r.kids| &&
    forall i | 0 <= i < |d.kids| :: Root(r.kids[i]) == Root(d.kids[i]) && (i != v ==> r.kids[i] == d.kids[i])
  }

  method MergePairInPlace(dst: Node, src: Node, j: nat, path: Path, ghost d: Shape, ghost s: Shape) returns (ghost r: Shape)
    requires Mergeable(d, s) && Root(d) == dst && Root(s) == src && dst.kind == Mapping && 2 * j + 1 < |src.content|
    modifies Nodes(d)
    ensures Valid(r) && Root(r) == dst && MadeFrom(d, r)
    ensures Denote(r) == MergePair(old(Denote(d)), old(Denote(s)), j, path)
    ensures KeepsAllBut(d, r, ValueIndex(old(Denote(d)), old(Denote(s)), j))
    decreases s, 0, 1
  {
    NodesAllocated(d);
    NodesAllocated(s);
    GeneratedKid(s, 2 * j);
    var sk := src.content[2 * j];
    var i := FindMapKeyIndex(dst, sk.value, d);
    if i >= 0 {
      r := MergeOldPair(dst, src, j, sk, i, path, d, s);
    } else {
      r := MergeNewPair(dst, src, j, sk, path, d, s);
    }
  }

  // The key of pair j is that of pair i of the destination.
  method MergeOldPair(dst: Node, src: Node, j: nat, sk: Node, i: nat, path: Path, ghost d: Shape, ghost s: Shape) returns (ghost r: Shape)
    requires Mergeable(d, s) && Root(d) == dst && Root(s) == src && 2 * j + 1 < |src.content| && src.content[2 * j] == sk
    requires FindPair(Denote(d).content, sk.value, 0) == i
    modifies Nodes(d)
    ensures Valid(r) && Root(r) == dst && MadeFrom(d, r)
    ensures Denote(r) == MergePair(old(Denote(d)), old(Denote(s)), j, path)
    ensures KeepsAllBut(d, r, ValueIndex(old(Denote(d)), old(Denote(s)), j))
    decreases s, 0, 0, 2
  {
    ghost var t, u, key := Denote(d), Denote(s), sk.value;
    assert u.content[2 * j] == Denote(s.kids[2 * j]);
    r := MergeIntoValue(dst, 2 * i + 1, src.content[2 * j + 1], path + [sk.value], d, s, 2 * j + 1);
    MergePairFound(t, u, j, path, key, i, Denote(r));
  }

  // The destination lacks the key of pair j.
  method MergeNewPair(dst: Node, src: Node, j: nat, sk: Node, path: Path, ghost d: Shape, ghost s: Shape) returns (ghost r: Shape)
    requires Mergeable(d, s) && Root(d) == dst && Root(s) == src && 2 * j + 1 < |src.content| && src.content[2 * j] == sk
    requires FindPair(Denote(d).content, sk.value, 0) < 0
    modifies dst`content
    ensures Valid(r) && Root(r) == dst && MadeFrom(d, r)
    ensures Denote(r) == MergePair(old(Denote(d)), old(Denote(s)), j, path)
    ensures KeepsAllBut(d, r, ValueIndex(old(Denote(d)), old(Denote(s)), j))
  {
    ghost var t, u, key := Denote(d), Denote(s), sk.value;
    assert u.content[2 * j] == Denote(s.kids[2 * j]);
    r := AddPair(dst, sk, src.content[2 * j + 1], path + [sk.value], d, s, 2 * j);
    MergePairNew(t, u, j, path, key, Denote(r));
  }

  lemma MergePairFound(t: Tree, u: Tree, j: nat, path: Path, key: string, i: nat, r: Tree)
    requires t.Node? && u.Node? && IsPair(u.content, j) && u.content[2 * j].Node? && u.content[2 * j].value == key
    requires FindPair(t.content, key, 0) == i
    requires r == WithElement(t, 2 * i + 1, MergeNode(t.content[2 * i + 1], u.content[2 * j + 1], path + [key]))
    ensures r == MergePair(t, u, j, path) && 2 * i + 1 == ValueIndex(t, u, j)
  {
  }

  lemma MergePairNew(t: Tree, u: Tree, j: nat, path: Path, key: string, r: Tree)
    requires t.Node? && u.Node? && IsPair(u.content, j) && u.content[2 * j].Node? && u.content[2 * j].value == key
    requires FindPair(t.content, key, 0) < 0
    requires r == AddedPair(t, u.content[2 * j], Prune(path + [key], u.content[2 * j + 1]), path + [key])
    ensures r == MergePair(t, u, j, path) && -1 == ValueIndex(t, u, j)
  {
  }

  method MergeIntoValue(dst: Node, i: nat, sv: Node?, child: Path, ghost d: Shape, ghost s: Shape, ghost m: nat) returns (ghost r: Shape)
    requires Mergeable(d, s) && Root(d) == dst && i < |dst.content| && s.Cell? && m < |s.kids| && Root(s.kids[m]) == sv
    modifies Nodes(d)
    ensures Valid(r) && Root(r) == dst && MadeFrom(d, r) && KeepsAllBut(d, r, i)
    ensures Denote(r) == WithElement(old(Denote(d)), i, MergeNode(old(Denote(d)).content[i], old(Denote(s)).content[m], child))
    decreases s, 0, 0, 1
  {
    r := d;
    if dst.content[i] == null {
      assert Denote(d).content[i := Null] == Denote(d).content;
    } else {
      ghost var k := MergeKid(dst.content[i], sv, child, d, i, s, m);
      r := WithKid(d, i, k);
    }
  }

  // Adds a copy of the pair at positions i and i + 1 of s, unless its pruned value is a known default.
  method AddPair(dst: Node, sk: Node, sv: Node?, child: Path, ghost d: Shape, ghost s: Shape, ghost i: nat) returns (ghost r: Shape)
    requires Mergeable(d, s) && Root(d) == dst && s.Cell? && i + 1 < |s.kids| && Root(s.kids[i]) == sk && Root(s.kids[i + 1]) == sv
    modifies dst`content
    ensures Valid(r) && Root(r) == dst && MadeFrom(d, r) && KeepsAllBut(d, r, -1)
    ensures Denote(r) == AddedPair(old(Denote(d)), old(Denote(s)).content[i], Prune(child, old(Denote(s)).content[i + 1]), child)
  {
    NodesAllocated(d);
    NodesAllocated(s);
    CellHasKids(d);
    GeneratedKid(s, i);
    GeneratedKid(s, i + 1);
    ghost var t, key, value, before := Denote(d), Denote(s.kids[i]), Denote(s.kids[i + 1]), dst.content;
    ghost var k: Shape, c: Shape;
    var newKey, candidate;
    candidate, c := NewCandidate(child, sv, s.kids[i + 1]);
    if IsKnownDefault(child, View(candidate, c)) {
      return d;
    }
    NodesAllocated(c);
    newKey, k := CopyTree(sk, s.kids[i]);
    KidsStay(d, t.content);
    r := AppendPair(dst, newKey, candidate, d, k, c, t, key, Prune(child, value));
  }

  function AddedPair(t: Tree, key: Tree, candidate: Tree, child: Path): Tree {
    if t.Null? || IsKnownDefault(child, candidate) then t else t.(content := t.content + [key, candidate])
  }

  method NewCandidate(child: Path, sv: Node?, ghost s: Shape) returns (candidate: Node?, ghost c: Shape)
    requires Valid(s) && Root(s) == sv && NoAliases(s)
    ensures Valid(c) && Root(c) == candidate && fresh(Nodes(c)) && Denote(c) == Prune(child, old(Denote(s)))
  {
    candidate, c := CopyTree(sv, s);
    c := PruneKnownDefaultsInNewNode(child, candidate, c);
  }

  method AppendPair(dst: Node, key: Node?, value: Node?, ghost d: Shape, ghost k: Shape, ghost c: Shape, ghost t: Tree, ghost kt: Tree, ghost ct: Tree)
    returns (ghost r: Shape)
    requires Valid(d) && Valid(k) && Valid(c) && Root(d) == dst && Root(k) == key && Root(c) == value
    requires Nodes(d) !! Nodes(k) && Nodes(d) !! Nodes(c) && Nodes(k) !! Nodes(c)
    requires Denote(d) == t && Denote(k) == kt && Denote(c) == ct
    modifies dst`content
    ensures Valid(r) && Root(r) == dst && Nodes(r) <= Nodes(d) + Nodes(k) + Nodes(c) && KeepsAllBut(d, r, -1)
    ensures Denote(r) == WithContent(t, t.content + [kt, ct])
  {
    NodesAllocated(d);
    CellHasKids(d);
    KidsPlusTwo(dst.content, d.kids, t.content, k, kt, c, ct);
    ghost var more := dst.content + [key, value];
    dst.content := dst.content + [key, value];
    NodesPlusTwo(dst, d.kids, k, c);
    KidsStay(Cell(dst, d.kids + [k, c]), t.content + [kt, ct]);
    CellDenotes(dst, d.kids + [k, c], t.content + [kt, ct]);
    r := Cell(dst, d.kids + [k, c]);
  }

  method MergeNodePreserve(dst: Node?, src: Node?, path: Path, ghost d: Shape, ghost s: Shape) returns (ghost r: Shape)
    requires Mergeable(d, s) && Root(d) == dst && Root(s) == src
    modifies Nodes(d)
    ensures Mergeable(r, s) && Root(r) == dst && MadeFrom(d, r)
    ensures Denote(r) == MergeNode(old(Denote(d)), old(Denote(s)), path)
    decreases s, 3
  {
    r := d;
    if dst == null || src == null {
      return;
    }
    NodesAllocated(s);
    match src.kind
    case Mapping =>
      if dst.kind != Mapping {
        r := CopyNodeShallow(dst, src, d, s);
      }
      r := MergeMappingPreserve(dst, src, path, r, s);
    case Sequence =>
      r := MergeSequence(dst, src, path, d, s);
    case Scalar =>
      r := SetScalar(dst, src, d, s);
    case Alias =>
      assert false; // a generated tree has no alias
    case Unset =>
    case Document =>
      r := CopyNodeShallow(dst, src, d, s);
  }

  method MergeSequence(dst: Node, src: Node, path: Path, ghost d: Shape, ghost s: Shape) returns (ghost r: Shape)
    requires Mergeable(d, s) && Root(d) == dst && Root(s) == src && src.kind == Sequence
    modifies Nodes(d)
    ensures Mergeable(r, s) && Root(r) == dst && MadeFrom(d, r)
    ensures Denote(r) == MergeNode(old(Denote(d)), old(Denote(s)), path)
    decreases s, 2, 2
  {
    r := d;
    NodesAllocated(s);
    if dst.kind == Scalar && dst.tag == "!!null" && |src.content| == 0 {
      return;
    }
    if dst.kind != Sequence {
      r := BecomeSequence(dst, d);
    }
    r := MergeSequenceInPlace(dst, src, path, r, s);
  }

  function Retagged(t: Tree, kind: Kind, tag: string, value: string): Tree {
    if t.Node? then t.(kind := kind, tag := tag, value := value) else t
  }

  method BecomeSequence(dst: Node, ghost d: Shape) returns (ghost r: Shape)
    requires Valid(d) && Root(d) == dst
    modifies dst
    ensures Valid(r) && Root(r) == dst && Nodes(r) <= Nodes(d)
    ensures Denote(r) == Retagged(WithContent(old(Denote(d)), []), Sequence, "!!seq", old(dst.value))
  {
    dst.kind, dst.tag, dst.content := Sequence, "!!seq", [];
    CellDenotes(dst, [], []);
    r := Cell(dst, []);
  }

  method SetScalar(dst: Node, src: Node, ghost d: Shape, ghost s: Shape) returns (ghost r: Shape)
    requires Valid(d) && Root(d) == dst && Valid(s) && Root(s) == src && Nodes(d) !! Nodes(s)
    modifies dst`kind, dst`tag, dst`value
    ensures Valid(r) && Root(r) == dst && Nodes(r) <= Nodes(d)
    ensures Denote(r) == Retagged(old(Denote(d)), src.kind, src.tag, src.value)
  {
    CellHasKids(d);
    ghost var trees := Denote(d).content;
    NodesAllocated(d);
    dst.kind, dst.tag, dst.value := src.kind, src.tag, src.value;
    KidsStay(d, trees);
    CellDenotes(dst, d.kids, trees);
    r := d;
  }

  method PruneElement(dst: Node, src: Node, i: nat, ghost d: Shape, ghost s: Shape) returns (ghost r: Shape)
    requires Mergeable(d, s) && Root(d) == dst && Root(s) == src && i < |dst.content| && i < |src.content| && dst.content[i] != null
    modifies Nodes(d)
    ensures Valid(r) && Root(r) == dst && MadeFrom(d, r) && SameOtherKids(d, r, i) && Root(r.kids[i]) == Root(d.kids[i])
    ensures Denote(r) == WithElement(old(Denote(d)), i, PruneMissing(old(Denote(d)).content[i], old(Denote(s)).content[i]))
  {
    r := d;
    var e, f := dst.content[i], src.content[i];
    if f != null && e.kind == Mapping && f.kind == Mapping {
      NodesAllocated(d);
      KidNodesIn(d.kids, i);
      GeneratedKid(s, i);
      ghost var k := PruneMissingMapKeys(e, f, d.kids[i], s.kids[i]);
      KidRebuilt(d, i, k);
      r := WithKid(d, i, k);
    }
  }
}
