// Trees of nodes under change: what a write leaves alone, and what a rebuilt tree denotes.
module YamlFrames {
  import opened Text
  import opened YamlTree
  import opened YamlNode
  import opened YamlCopy

  ghost function WithKid(s: Shape, i: nat, k: Shape): Shape
    requires s.Cell? && i < |s.kids|
  {
    s.(kids := s.kids[i := k])
  }

  // Nothing is in the tree `r` but nodes of `d` and nodes allocated since.
  twostate predicate MadeFrom(new d: Shape, new r: Shape) {
    forall n | n in Nodes(r) :: n in Nodes(d) || !old(allocated(n))
  }

  twostate lemma NodesWereAllocated(new s: Shape)
    requires old(allocated(s))
    ensures forall n | n in Nodes(s) :: old(allocated(n))
    decreases s
  {
    if s.Cell? {
      forall n | n in KidNodes(s.kids) ensures old(allocated(n)) {
        var i :| 0 <= i < |s.kids| && n in Nodes(s.kids[i]);
        NodesWereAllocated(s.kids[i]);
      }
    }
  }

  // A tree whose nodes are unchanged still denotes the same value.
  twostate lemma Untouched(new s: Shape)
    requires old(allocated(s)) && old(Valid(s))
    requires forall n | n in Nodes(s) :: old(allocated(n)) ==> unchanged(n)
    ensures Valid(s) && Denote(s) == old(Denote(s))
  {
    NodesWereAllocated(s);
  }

  function WithElement(t: Tree, i: nat, e: Tree): Tree {
    if t.Node? && i < |t.content| then t.(content := t.content[i := e]) else t
  }

  twostate predicate OnlyKidWritten(new s: Shape, new kid: Shape)
    reads Nodes(s)
  {
    forall n | n in Nodes(s) && n !in Nodes(kid) :: old(allocated(n)) ==> unchanged(n)
  }

  lemma KidsApart(s: Shape, i: nat, k: Shape)
    requires s.Cell? && i < |s.kids| && Disjoint(s.kids) && s.node !in KidNodes(s.kids)
    requires forall n | n in Nodes(k) :: n in Nodes(s.kids[i]) || n !in Nodes(s)
    ensures s.node !in KidNodes(WithKid(s, i, k).kids) && Disjoint(WithKid(s, i, k).kids)
  {
    KidNodesIn(s.kids, i);
    forall j, n | 0 <= j < |s.kids| && j != i && n in Nodes(s.kids[j]) ensures n !in Nodes(k) {
      KidNodesIn(s.kids, j);
    }
  }

  lemma KidPutIn(s: Shape, i: nat, k: Shape, t: Tree)
    requires s.Cell? && i < |s.kids| && |s.node.content| == |s.kids|
    requires s.node !in KidNodes(WithKid(s, i, k).kids) && Disjoint(WithKid(s, i, k).kids)
    requires forall j | 0 <= j < |s.kids| :: s.node.content[j] == Root(s.kids[j])
    requires Valid(k) && Root(k) == Root(s.kids[i])
    requires t.Node? && t.kind == s.node.kind && t.tag == s.node.tag && t.value == s.node.value && t.note == s.node.note
    requires |t.content| == |s.kids|
    requires forall j | 0 <= j < |s.kids| && j != i :: Valid(s.kids[j]) && Denote(s.kids[j]) == t.content[j]
    ensures Valid(WithKid(s, i, k)) && Denote(WithKid(s, i, k)) == WithElement(t, i, Denote(k))
  {
    var r := WithKid(s, i, k);
    assert Valid(r);
    assert Denote(r).content == t.content[i := Denote(k)];
  }

  // Rebuilding the subtree at position i touches no other part of the tree.
  twostate lemma KidRebuilt(new s: Shape, i: nat, new k: Shape)
    requires old(allocated(s)) && s.Cell? && i < |s.kids| && old(Valid(s))
    requires Valid(k) && Root(k) == Root(s.kids[i]) && MadeFrom(s.kids[i], k) && OnlyKidWritten(s, s.kids[i])
    ensures Valid(WithKid(s, i, k)) && MadeFrom(s, WithKid(s, i, k))
    ensures Denote(WithKid(s, i, k)) == WithElement(old(Denote(s)), i, Denote(k))
  {
    NodesWereAllocated(s);
    KidNodesIn(s.kids, i);
    KidsApart(s, i, k);
    forall j | 0 <= j < |s.kids| && j != i ensures Valid(s.kids[j]) && Denote(s.kids[j]) == old(Denote(s).content[j]) {
      KidNodesIn(s.kids, j);
      Untouched(s.kids[j]);
    }
    assert unchanged(s.node);
    KidPutIn(s, i, k, old(Denote(s)));
  }

  // ---------- reading ----------

  ghost predicate NoNils(s: Shape) {
    s.Cell? ==> forall i | 0 <= i < |s.kids| :: s.kids[i].Cell? && NoNils(s.kids[i])
  }

  // A generated tree: no alias and no nil node.
  ghost predicate Generated(s: Shape)
    reads Nodes(s)
  {
    NoAliases(s) && NoNils(s)
  }

  lemma GeneratedKid(s: Shape, i: nat)
    requires s.Cell? && i < |s.kids| && Generated(s)
    ensures Generated(s.kids[i]) && s.kids[i].Cell? && Nodes(s.kids[i]) <= Nodes(s)
  {
    KidNodesIn(s.kids, i);
  }

  method FindMapKeyIndex(n: Node, key: string, ghost s: Shape) returns (j: int)
    requires Valid(s) && Root(s) == n
    ensures j == if n.kind == Mapping then FindPair(old(Denote(s)).content, key, 0) else -1
  {
    if n.kind != Mapping {
      return -1;
    }
    j := 0;
    while 2 * j + 1 < |n.content|
      invariant 0 <= j
      invariant FindPair(Denote(s).content, key, 0) == FindPair(Denote(s).content, key, j)
    {
      var k := n.content[2 * j];
      assert k == Root(s.kids[2 * j]) && Denote(s).content[2 * j] == Denote(s.kids[2 * j]);
      if k != null && k.value == key {
        return j;
      }
      j := j + 1;
    }
    return -1;
  }

  // ---------- copying children ----------

  // The pointers of `content` root trees of the shapes `kids`, with no node in common, that denote `trees`.
  ghost predicate Kids(content: seq<Node?>, kids: seq<Shape>, trees: seq<Tree>)
    reads KidNodes(kids)
  {
    |content| == |kids| == |trees| && Disjoint(kids) &&
    forall i | 0 <= i < |kids| :: content[i] == Root(kids[i]) && Valid(kids[i]) && Denote(kids[i]) == trees[i]
  }

  lemma KidsAllocated(kids: seq<Shape>)
    ensures forall n | n in KidNodes(kids) :: allocated(n)
  {
    forall n | n in KidNodes(kids) ensures allocated(n) {
      var i :| 0 <= i < |kids| && n in Nodes(kids[i]);
      NodesAllocated(kids[i]);
    }
  }

  lemma KidNodesAppend(kids: seq<Shape>, k: Shape)
    ensures KidNodes(kids + [k]) == KidNodes(kids) + Nodes(k)
  {
    var more := kids + [k];
    assert more[|kids|] == k;
    forall n | n in KidNodes(kids) ensures n in KidNodes(more) {
      var i :| 0 <= i < |kids| && n in Nodes(kids[i]);
      assert more[i] == kids[i];
    }
  }

  // Appends a copy of the tree rooted at n to what has been copied so far.
  method AppendCopy(n: Node?, content: seq<Node?>, ghost kids: seq<Shape>, ghost trees: seq<Tree>, ghost s: Shape, ghost t: Tree)
    returns (more: seq<Node?>, ghost k: Shape)
    requires Kids(content, kids, trees) && Valid(s) && Root(s) == n && NoAliases(s) && Denote(s) == t
    ensures Kids(more, kids + [k], trees + [t]) && fresh(Nodes(k))
    ensures KidNodes(kids + [k]) == KidNodes(kids) + Nodes(k)
  {
    KidsAllocated(kids);
    var cp;
    cp, k := CopyTree(n, s);
    more := content + [cp];
    assert forall i | 0 <= i < |kids| :: Nodes(kids[i]) <= KidNodes(kids);
    KidNodesAppend(kids, k);
  }

  // Copies one more tree of a node's content.
  method CopyNext(src: Node, start: nat, i: nat, content: seq<Node?>, ghost kids: seq<Shape>, ghost s: Shape, ghost trees: seq<Tree>)
    returns (more: seq<Node?>, ghost moreKids: seq<Shape>)
    requires Valid(s) && Root(s) == src && NoAliases(s) && Denote(s).content == trees
    requires start <= i < |src.content| && Kids(content, kids, trees[start..i])
    ensures Kids(more, moreKids, trees[start..i + 1])
    ensures forall n | n in KidNodes(moreKids) :: n in KidNodes(kids) || fresh(n)
  {
    KidNodesIn(s.kids, i);
    ghost var k: Shape;
    more, k := AppendCopy(src.content[i], content, kids, trees[start..i], s.kids[i], trees[i]);
    moreKids := kids + [k];
    SliceGrows(trees, start, i);
  }

  method CopyContentFrom(src: Node, start: nat, ghost s: Shape) returns (content: seq<Node?>, ghost kids: seq<Shape>)
    requires Valid(s) && Root(s) == src && NoAliases(s) && start <= |src.content|
    ensures Kids(content, kids, old(Denote(s)).content[start..]) && fresh(KidNodes(kids))
  {
    NodesAllocated(s);
    ghost var trees := Denote(s).content;
    content, kids := [], [];
    var i := start;
    while i < |src.content|
      invariant start <= i <= |src.content|
      invariant Kids(content, kids, trees[start..i]) && fresh(KidNodes(kids))
    {
      content, kids := CopyNext(src, start, i, content, kids, s, trees);
      i := i + 1;
    }
    assert trees[start..|trees|] == trees[start..];
  }

  lemma CellDenotes(n: Node, kids: seq<Shape>, trees: seq<Tree>)
    requires Kids(n.content, kids, trees) && n !in KidNodes(kids)
    ensures Valid(Cell(n, kids)) && Denote(Cell(n, kids)) == Tree.Node(n.kind, n.tag, n.value, n.note, trees)
  {
    assert Valid(Cell(n, kids));
    assert Denote(Cell(n, kids)).content == trees;
  }

  lemma CellHasKids(s: Shape)
    requires Valid(s) && s.Cell?
    ensures Kids(s.node.content, s.kids, Denote(s).content)
    ensures Denote(s) == Tree.Node(s.node.kind, s.node.tag, s.node.value, s.node.note, Denote(s).content)
  {
  }

  method CopyNodeShallow(dst: Node, src: Node, ghost d: Shape, ghost s: Shape) returns (ghost r: Shape)
    requires Valid(d) && Root(d) == dst && Valid(s) && Root(s) == src
    requires Nodes(d) !! Nodes(s) && NoAliases(s)
    modifies dst
    ensures Valid(r) && Root(r) == dst && MadeFrom(d, r)
    ensures Denote(r) == CopyShallow(old(Denote(d)), old(Denote(s)))
  {
    NodesAllocated(s);
    ghost var trees := Denote(s).content;
    ghost var kids: seq<Shape>;
    var content;
    content, kids := CopyContentFrom(src, 0, s);
    KidsAllocated(kids);
    dst.kind, dst.tag, dst.value := src.kind, src.tag, src.value;
    dst.content := content;
    assert trees[0..] == trees;
    CellDenotes(dst, kids, trees);
    r := Cell(dst, kids);
  }
}
