// Dropping the default-valued descendants of a new node, in place.
module YamlPrune {
  import opened Text
  import opened YamlTree
  import opened YamlNode
  import opened YamlCopy
  import opened YamlFrames

  // From position `start` on, the content of the node is as it was when s denoted t.
  ghost predicate Pending(s: Shape, t: Tree, start: nat)
    reads Nodes(s)
  {
    s.Cell? && t.Node? && |s.kids| == |t.content| == |s.node.content| && Disjoint(s.kids) && s.node !in KidNodes(s.kids) &&
    s.node.kind == t.kind && s.node.tag == t.tag && s.node.value == t.value && s.node.note == t.note &&
    (forall i | start <= i < |s.kids| :: Valid(s.kids[i]) && Denote(s.kids[i]) == t.content[i]) &&
    forall i | 0 <= i < |s.kids| :: s.node.content[i] == Root(s.kids[i])
  }

  ghost predicate AmongFirst(kids: seq<Shape>, s: Shape, n: nat) {
    s.Cell? && forall x | x in KidNodes(kids) :: exists i :: 0 <= i < n && i < |s.kids| && x in Nodes(s.kids[i])
  }

  // The first j pairs have been filtered into kids that denote `trees`; the rest of s still denotes t.
  ghost predicate Filtering(path: Path, filtered: seq<Node?>, kids: seq<Shape>, trees: seq<Tree>, s: Shape, t: Tree, j: nat)
    reads Nodes(s), KidNodes(kids)
  {
    Pending(s, t, 2 * j) && Kids(filtered, kids, trees) && AmongFirst(kids, s, 2 * j) &&
    PrunePairs(path, t, 0) == trees + PrunePairs(path, t, j)
  }

  lemma FilteringDone(path: Path, filtered: seq<Node?>, kids: seq<Shape>, trees: seq<Tree>, s: Shape, t: Tree, j: nat)
    requires Filtering(path, filtered, kids, trees, s, t, j) && !IsPair(t.content, j)
    ensures Kids(filtered, kids, PrunePairs(path, t, 0)) && KidNodes(kids) <= KidNodes(s.kids)
  {
    assert trees + [] == trees;
  }

  method PruneKnownDefaultsInNewNode(path: Path, n: Node?, ghost s: Shape) returns (ghost r: Shape)
    requires Valid(s) && Root(s) == n
    modifies Nodes(s)
    ensures Valid(r) && Root(r) == n && Nodes(r) <= Nodes(s) && Denote(r) == Prune(path, old(Denote(s)))
    decreases s, 2
  {
    r := s;
    if n == null {
      return;
    }
    if n.kind == Mapping {
      r := PruneMappingInPlace(path, n, s);
    } else if n.kind == Sequence {
      r := PruneSequenceInPlace(path, n, s);
    }
  }

  ghost function PrunedUpTo(path: Path, t: Tree, i: nat): Tree
    requires t.Node?
  {
    t.(content := seq(|t.content|, j requires 0 <= j < |t.content| => if j < i then Prune(path, t.content[j]) else t.content[j]))
  }

  method PruneElementInPlace(path: Path, n: Node, i: nat, ghost s: Shape, ghost whole: Shape) returns (ghost r: Shape)
    requires Valid(s) && Root(s) == n && i < |n.content|
    requires whole.Cell? && i < |whole.kids| && s.kids[i] == whole.kids[i]
    modifies Nodes(s)
    ensures Valid(r) && Root(r) == n && Nodes(r) <= Nodes(s) && |r.kids| == |s.kids|
    ensures Denote(r) == WithElement(old(Denote(s)), i, Prune(path, old(Denote(s)).content[i]))
    ensures forall j | 0 <= j < |s.kids| && j != i :: r.kids[j] == s.kids[j]
    ensures n.content == old(n.content)
    decreases whole, 0
  {
    NodesAllocated(s);
    KidNodesIn(s.kids, i);
    ghost var k := PruneKnownDefaultsInNewNode(path, n.content[i], s.kids[i]);
    KidRebuilt(s, i, k);
    r := WithKid(s, i, k);
  }

  method PruneSequenceInPlace(path: Path, n: Node, ghost s: Shape) returns (ghost r: Shape)
    requires Valid(s) && Root(s) == n && n.kind == Sequence
    modifies Nodes(s)
    ensures Valid(r) && Root(r) == n && Nodes(r) <= Nodes(s) && Denote(r) == Prune(path, old(Denote(s)))
    decreases s, 1
  {
    ghost var t := Denote(s);
    r := s;
    var i := 0;
    while i < |n.content|
      invariant 0 <= i <= |n.content|
      invariant Valid(r) && Root(r) == n && Nodes(r) <= Nodes(s) && |r.kids| == |s.kids|
      invariant Denote(r) == PrunedUpTo(path, t, i)
      invariant forall j | i <= j < |s.kids| :: r.kids[j] == s.kids[j]
    {
      r := PruneElementInPlace(path, n, i, r, s);
      i := i + 1;
    }
  }

  method PruneMappingInPlace(path: Path, n: Node, ghost s: Shape) returns (ghost r: Shape)
    requires Valid(s) && Root(s) == n && n.kind == Mapping
    modifies Nodes(s)
    ensures Valid(r) && Root(r) == n && Nodes(r) <= Nodes(s) && Denote(r) == Prune(path, old(Denote(s)))
    decreases s, 1
  {
    ghost var t := Denote(s);
    ghost var kids: seq<Shape>;
    var filtered;
    filtered, kids := FilterPairs(path, n, s, t);
    n.content := filtered;
    CellDenotes(n, kids, PrunePairs(path, t, 0));
    r := Cell(n, kids);
  }

  // The keys and pruned values of n that are no default.
  method FilterPairs(path: Path, n: Node, ghost s: Shape, ghost t: Tree) returns (filtered: seq<Node?>, ghost kids: seq<Shape>)
    requires Root(s) == n && Pending(s, t, 0)
    modifies KidNodes(s.kids)
    ensures Kids(filtered, kids, PrunePairs(path, t, 0)) && KidNodes(kids) <= KidNodes(s.kids)
    decreases s, 0, 2
  {
    filtered, kids := [], [];
    ghost var trees: seq<Tree> := [];
    var j := 0;
    assert trees + PrunePairs(path, t, 0) == PrunePairs(path, t, 0);
    while 2 * j + 1 < |n.content|
      invariant 0 <= j && 2 * j <= |n.content|
      invariant Filtering(path, filtered, kids, trees, s, t, j)
      modifies KidNodes(s.kids)
    {
      filtered, kids, trees := PrunePairInPlace(path, n, j, filtered, s, t, kids, trees);
      j := j + 1;
    }
    FilteringDone(path, filtered, kids, trees, s, t, j);
  }

  method PrunePairInPlace(path: Path, n: Node, j: nat, filtered: seq<Node?>, ghost s: Shape, ghost t: Tree, ghost kids: seq<Shape>, ghost trees: seq<Tree>)
    returns (filtered': seq<Node?>, ghost kids': seq<Shape>, ghost trees': seq<Tree>)
    requires Root(s) == n && Filtering(path, filtered, kids, trees, s, t, j) && IsPair(t.content, j)
    modifies KidNodes(s.kids)
    ensures Filtering(path, filtered', kids', trees', s, t, j + 1)
    decreases s, 0, 1
  {
    filtered', kids', trees' := filtered, kids, trees;
    var k, v := n.content[2 * j], n.content[2 * j + 1];
    if k == null || v == null {
      PairDropped(path, filtered, kids, trees, s, t, j);
      return;
    }
    var child := path + [k.value];
    if IsKnownDefault(child, View(v, s.kids[2 * j + 1])) {
      PairDropped(path, filtered, kids, trees, s, t, j);
      return;
    }
    ghost var w := PruneValueInPlace(path, k, v, j, filtered, s, t, kids, trees);
    if (v.kind == Mapping || v.kind == Sequence) && v.content == [] {
      PairDroppedAfter(path, filtered, kids, trees, s, t, j, w);
    } else {
      filtered', kids' := filtered + [k, v], kids + [s.kids[2 * j], w];
      trees' := trees + [t.content[2 * j], Prune(child, t.content[2 * j + 1])];
      PairKept(path, filtered, kids, trees, s, t, j, w);
    }
  }

  lemma PairDropped(path: Path, filtered: seq<Node?>, kids: seq<Shape>, trees: seq<Tree>, s: Shape, t: Tree, j: nat)
    requires Filtering(path, filtered, kids, trees, s, t, j) && IsPair(t.content, j) && PrunePair(path, t, j) == []
    ensures Filtering(path, filtered, kids, trees, s, t, j + 1)
  {
    assert [] + PrunePairs(path, t, j + 1) == PrunePairs(path, t, j + 1);
  }

  // Pair j of s has been pruned: its value is now a tree of shape w.
  ghost predicate PairPruned(path: Path, filtered: seq<Node?>, kids: seq<Shape>, trees: seq<Tree>, s: Shape, t: Tree, j: nat, w: Shape)
    reads Nodes(s), KidNodes(kids), Nodes(w)
  {
    Kids(filtered, kids, trees) && AmongFirst(kids, s, 2 * j) && t.Node? && IsPair(t.content, j) &&
    PrunePairs(path, t, 0) == trees + PrunePairs(path, t, j) &&
    t.content[2 * j].Node? && t.content[2 * j + 1].Node? &&
    KidPruned(path + [t.content[2 * j].value], s, t, j, w)
  }

  ghost predicate KidPruned(child: Path, s: Shape, t: Tree, j: nat, w: Shape)
    reads Nodes(s), Nodes(w)
  {
    t.Node? && IsPair(t.content, j) && Pending(s, t, 2 * (j + 1)) &&
    (KidNodesIn(s.kids, 2 * j); Valid(s.kids[2 * j]) && Denote(s.kids[2 * j]) == t.content[2 * j]) &&
    Valid(w) && Root(w) == Root(s.kids[2 * j + 1]) && Nodes(w) <= Nodes(s.kids[2 * j + 1]) &&
    Denote(w) == Prune(child, t.content[2 * j + 1])
  }

  lemma PairDroppedAfter(path: Path, filtered: seq<Node?>, kids: seq<Shape>, trees: seq<Tree>, s: Shape, t: Tree, j: nat, w: Shape)
    requires PairPruned(path, filtered, kids, trees, s, t, j, w) && PrunePair(path, t, j) == []
    ensures Filtering(path, filtered, kids, trees, s, t, j + 1)
  {
    assert [] + PrunePairs(path, t, j + 1) == PrunePairs(path, t, j + 1);
  }

  lemma PairKept(path: Path, filtered: seq<Node?>, kids: seq<Shape>, trees: seq<Tree>, s: Shape, t: Tree, j: nat, w: Shape)
    requires PairPruned(path, filtered, kids, trees, s, t, j, w) && PrunePair(path, t, j) != []
    ensures Filtering(path, filtered + [s.node.content[2 * j], s.node.content[2 * j + 1]], kids + [s.kids[2 * j], w],
      trees + [t.content[2 * j], Prune(path + [t.content[2 * j].value], t.content[2 * j + 1])], s, t, j + 1)
  {
    KidNodesIn(s.kids, 2 * j);
    FirstAreApart(kids, s, j);
    KidsPlusTwo(filtered, kids, trees, s.kids[2 * j], t.content[2 * j], w, Denote(w));
    PrunePairsStep(path, t, j, trees);
    AmongFirstPlus(kids, s, j, w);
  }

  lemma PrunePairsStep(path: Path, t: Tree, j: nat, trees: seq<Tree>)
    requires t.Node? && IsPair(t.content, j)
    ensures trees + PrunePairs(path, t, j) == trees + PrunePair(path, t, j) + PrunePairs(path, t, j + 1)
  {
  }

  lemma KidsPlusTwo(content: seq<Node?>, kids: seq<Shape>, trees: seq<Tree>, a: Shape, t: Tree, b: Shape, u: Tree)
    requires Kids(content, kids, trees) && Valid(a) && Valid(b) && Denote(a) == t && Denote(b) == u
    requires KidNodes(kids) !! Nodes(a) && KidNodes(kids) !! Nodes(b) && Nodes(a) !! Nodes(b)
    ensures Kids(content + [Root(a), Root(b)], kids + [a, b], trees + [t, u])
  {
    KidsPlusOne(content, kids, trees, a, t);
    KidNodesAppend(kids, a);
    KidsPlusOne(content + [Root(a)], kids + [a], trees + [t], b, u);
    assert content + [Root(a)] + [Root(b)] == content + [Root(a), Root(b)];
    assert kids + [a] + [b] == kids + [a, b];
    assert trees + [t] + [u] == trees + [t, u];
  }

  lemma FirstAreApart(kids: seq<Shape>, s: Shape, j: nat)
    requires AmongFirst(kids, s, 2 * j) && Disjoint(s.kids) && IsPairIndex(s, j)
    ensures KidNodes(kids) !! Nodes(s.kids[2 * j]) && KidNodes(kids) !! Nodes(s.kids[2 * j + 1])
    ensures Nodes(s.kids[2 * j]) !! Nodes(s.kids[2 * j + 1])
  {
  }

  predicate IsPairIndex(s: Shape, j: int) {
    s.Cell? && 0 <= j && 2 * j + 1 < |s.kids|
  }

  lemma KidsPlusOne(content: seq<Node?>, kids: seq<Shape>, trees: seq<Tree>, k: Shape, t: Tree)
    requires Kids(content, kids, trees) && Valid(k) && Denote(k) == t && KidNodes(kids) !! Nodes(k)
    ensures Kids(content + [Root(k)], kids + [k], trees + [t])
  {
    forall i | 0 <= i < |kids| ensures Nodes(kids[i]) <= KidNodes(kids) {
      KidNodesIn(kids, i);
    }
  }

  lemma AmongFirstPlus(kids: seq<Shape>, s: Shape, j: nat, w: Shape)
    requires AmongFirst(kids, s, 2 * j) && IsPairIndex(s, j) && Nodes(w) <= Nodes(s.kids[2 * j + 1])
    ensures AmongFirst(kids + [s.kids[2 * j], w], s, 2 * (j + 1))
  {
    KidNodesAppend(kids, s.kids[2 * j]);
    KidNodesAppend(kids + [s.kids[2 * j]], w);
    assert kids + [s.kids[2 * j]] + [w] == kids + [s.kids[2 * j], w];
  }

  ghost predicate KidsDenote(kids: seq<Shape>, trees: seq<Tree>)
    reads KidNodes(kids)
  {
    |kids| == |trees| && forall i | 0 <= i < |kids| :: Valid(kids[i]) && Denote(kids[i]) == trees[i]
  }

  twostate lemma KidsStay(new s: Shape, new trees: seq<Tree>)
    requires s.Cell? && old(allocated(s)) && old(KidsDenote(s.kids, trees))
    requires forall n | n in KidNodes(s.kids) :: old(allocated(n)) ==> unchanged(n)
    ensures KidsDenote(s.kids, trees)
  {
    forall i | 0 <= i < |s.kids| ensures Valid(s.kids[i]) && Denote(s.kids[i]) == trees[i] {
      KidNodesIn(s.kids, i);
      Untouched(s.kids[i]);
    }
  }

  twostate lemma PendingStays(new s: Shape, new t: Tree, new start: nat, new i: nat)
    requires old(allocated(s)) && old(Pending(s, t, start)) && start <= i < |s.kids| && OnlyKidWritten(s, s.kids[i])
    ensures Pending(s, t, i + 1)
    ensures forall j | start <= j < i :: Valid(s.kids[j]) && Denote(s.kids[j]) == t.content[j]
  {
    KidNodesIn(s.kids, i);
    assert unchanged(s.node);
    forall j | start <= j < |s.kids| && j != i ensures Valid(s.kids[j]) && Denote(s.kids[j]) == t.content[j] {
      KidNodesIn(s.kids, j);
      Untouched(s.kids[j]);
    }
  }

  method PruneValueInPlace(path: Path, k: Node, v: Node, j: nat, filtered: seq<Node?>, ghost s: Shape, ghost t: Tree, ghost kids: seq<Shape>, ghost trees: seq<Tree>)
    returns (ghost w: Shape)
    requires Filtering(path, filtered, kids, trees, s, t, j) && IsPair(t.content, j)
    requires s.node.content[2 * j] == k && s.node.content[2 * j + 1] == v
    modifies KidNodes(s.kids)
    ensures PairPruned(path, filtered, kids, trees, s, t, j, w)
    decreases s, 0, 0, 1
  {
    FirstAreApart(kids, s, j);
    w := PruneKidInPlace(path + [k.value], v, j, s, t);
    KidsStay(Cell(s.node, kids), trees);
  }

  method PruneKidInPlace(child: Path, v: Node, j: nat, ghost s: Shape, ghost t: Tree) returns (ghost w: Shape)
    requires Pending(s, t, 2 * j) && IsPair(t.content, j) && s.node.content[2 * j + 1] == v
    modifies Nodes(s.kids[2 * j + 1])
    ensures KidPruned(child, s, t, j, w)
    decreases s, 0, 0, 0
  {
    NodesAllocated(s);
    KidNodesIn(s.kids, 2 * j + 1);
    w := PruneKnownDefaultsInNewNode(child, v, s.kids[2 * j + 1]);
    KidIsPruned(child, s, t, j, w);
  }

  twostate lemma KidIsPruned(new child: Path, new s: Shape, new t: Tree, new j: nat, new w: Shape)
    requires old(allocated(s)) && old(Pending(s, t, 2 * j)) && IsPair(t.content, j) && OnlyKidWritten(s, s.kids[2 * j + 1])
    requires Valid(w) && Root(w) == Root(s.kids[2 * j + 1]) && Nodes(w) <= Nodes(s.kids[2 * j + 1])
    requires Denote(w) == Prune(child, t.content[2 * j + 1])
    ensures KidPruned(child, s, t, j, w)
  {
    KeyStays(s, t, j);
  }

  twostate lemma KeyStays(new s: Shape, new t: Tree, new j: nat)
    requires old(allocated(s)) && old(Pending(s, t, 2 * j)) && IsPair(t.content, j) && OnlyKidWritten(s, s.kids[2 * j + 1])
    ensures Pending(s, t, 2 * (j + 1)) && Nodes(s.kids[2 * j]) <= Nodes(s)
    ensures Valid(s.kids[2 * j]) && Denote(s.kids[2 * j]) == t.content[2 * j]
  {
    PendingStays(s, t, 2 * j, 2 * j + 1);
    KidNodesIn(s.kids, 2 * j);
  }
}
