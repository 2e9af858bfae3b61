// Deep copies of node graphs. Alias edges may close cycles, so the copier remembers what it has copied.
module YamlCopy {
  import opened Text
  import opened YamlTree
  import opened YamlNode

  // Every node that U's nodes point to is in U.
  ghost predicate Closed(U: set<Node>)
    reads U
  {
    forall n | n in U ::
      (n.alias != null ==> n.alias in U) &&
      forall i | 0 <= i < |n.content| :: n.content[i] != null ==> n.content[i] in U
  }

  predicate Mapped(f: map<Node, Node>, n: Node?, cp: Node?) {
    if n == null then cp == null else n in f && cp == f[n]
  }

  // f[n] carries n's fields, with every pointer replaced by its image.
  ghost predicate Copied(f: map<Node, Node>, n: Node)
    requires n in f
    reads n, f[n]
  {
    var cp := f[n];
    cp.kind == n.kind && cp.tag == n.tag && cp.value == n.value && cp.note == n.note &&
    Mapped(f, n.alias, cp.alias) && |cp.content| == |n.content| &&
    forall i | 0 <= i < |n.content| :: Mapped(f, n.content[i], cp.content[i])
  }

  ghost predicate Injective(f: map<Node, Node>) {
    forall a, b | a in f && b in f && a != b :: f[a] != f[b]
  }

  class Copier {
    var seen: map<Node, Node>

    constructor ()
      ensures seen == map[]
    {
      seen := map[];
    }

    // Every node met so far is copied, except those of P, whose copies are being filled in.
    ghost predicate Valid(U: set<Node>, P: set<Node>)
      reads this, U, seen.Values
    {
      seen.Keys <= U && seen.Values !! U && Injective(seen) && P <= seen.Keys &&
      forall m | m in seen && m !in P :: Copied(seen, m)
    }

    twostate predicate Grown()
      reads this
    {
      (forall m | m in old(seen) :: m in seen && seen[m] == old(seen)[m]) &&
      forall m | m in seen && m !in old(seen) :: fresh(seen[m])
    }

    // Copies what is reachable from n and not yet copied; only nodes allocated here are written.
    method Copy(n: Node?, ghost U: set<Node>, ghost P: set<Node>) returns (cp: Node?)
      requires Closed(U) && Valid(U, P) && (n != null ==> n in U)
      modifies this
      ensures Valid(U, P) && Mapped(seen, n, cp) && Grown()
      decreases U - seen.Keys, 1
    {
      if n == null {
        return null;
      }
      if n in seen {
        return seen[n];
      }
      var c := Start(n, U, P);
      CopyAlias(n, c, U, P + {n});
      CopyContent(n, c, U, P + {n});
      assert P + {n} - {n} == P;
      cp := c;
    }

    method Start(n: Node, ghost U: set<Node>, ghost P: set<Node>) returns (c: Node)
      requires Valid(U, P) && n in U && n !in seen
      modifies this
      ensures Valid(U, P + {n}) && Started(n, c, U, P + {n}) && c.alias == n.alias
      ensures fresh(c) && Grown() && U - seen.Keys < U - old(seen.Keys)
    {
      c := new Node(n.kind, n.tag, n.value, n.note, n.alias, n.content);
      seen := seen[n := c];
      assert n in U - old(seen.Keys) && n !in U - seen.Keys;
    }

    // The copy c of n is allocated and remembered; its own pointers are not translated yet.
    ghost predicate Started(n: Node, c: Node, U: set<Node>, P: set<Node>)
      reads this, U, n, c
    {
      n in U && c !in U && n in P && n in seen && seen[n] == c && c.content == n.content &&
      c.kind == n.kind && c.tag == n.tag && c.value == n.value && c.note == n.note
    }

    method CopyAlias(n: Node, c: Node, ghost U: set<Node>, ghost P: set<Node>)
      requires Closed(U) && Valid(U, P) && Started(n, c, U, P)
      modifies this, c`alias
      ensures Valid(U, P) && Started(n, c, U, P) && Mapped(seen, n.alias, c.alias) && Grown()
      decreases U - seen.Keys, 3
    {
      var a := Copy(n.alias, U, P);
      c.alias := a;
    }

    method CopyContent(n: Node, c: Node, ghost U: set<Node>, ghost P: set<Node>)
      requires Closed(U) && Valid(U, P) && Started(n, c, U, P) && Mapped(seen, n.alias, c.alias)
      modifies this, c`content
      ensures Valid(U, P - {n}) && n in seen && seen[n] == c && Grown()
      decreases U - seen.Keys, 3
    {
      var content: seq<Node?> := [];
      while |content| < |n.content|
        invariant |content| <= |n.content| && CopiedSoFar(n, c, content, U, P) && Grown()
        modifies this
      {
        assert U - seen.Keys == U - old(seen.Keys) || U - seen.Keys < U - old(seen.Keys);
        content := CopyOne(n, c, content, U, P);
      }
      c.content := content;
    }

    // The first elements of the content of n are translated.
    ghost predicate CopiedSoFar(n: Node, c: Node, content: seq<Node?>, U: set<Node>, P: set<Node>)
      reads this, U, seen.Values, n, c
    {
      Valid(U, P) && Started(n, c, U, P) && Mapped(seen, n.alias, c.alias) && |content| <= |n.content| &&
      forall j | 0 <= j < |content| :: Mapped(seen, n.content[j], content[j])
    }

    method CopyOne(n: Node, c: Node, content: seq<Node?>, ghost U: set<Node>, ghost P: set<Node>) returns (more: seq<Node?>)
      requires Closed(U) && CopiedSoFar(n, c, content, U, P) && |content| < |n.content|
      modifies this
      ensures |more| == |content| + 1 && CopiedSoFar(n, c, more, U, P) && Grown()
      decreases U - seen.Keys, 2
    {
      var e := Copy(n.content[|content|], U, P);
      more := content + [e];
    }
  }

  // f maps a graph onto an isomorphic one with no node in common.
  ghost predicate Isomorphism(f: map<Node, Node>, U: set<Node>)
    reads U, f.Values
  {
    f.Keys <= U && f.Values !! U && Injective(f) && forall m | m in f :: Copied(f, m)
  }

  method DeepCopyNode(n: Node?, ghost U: set<Node>) returns (cp: Node?, ghost f: map<Node, Node>)
    requires Closed(U) && (n != null ==> n in U)
    ensures Isomorphism(f, U) && Mapped(f, n, cp) && fresh(f.Values)
  {
    var copier := new Copier();
    cp := copier.Copy(n, U, {});
    f := copier.seen;
  }

  // ---------- what an isomorphic copy looks like from its root ----------

  datatype Edge = ToAlias | ToContent(i: nat)

  // The node reached from n along a path of edges, if there is such a path.
  ghost function Follow(n: Node?, path: seq<Edge>, U: set<Node>): (r: Option<Node?>)
    requires Closed(U) && (n != null ==> n in U)
    reads U
    ensures r.Some? && r.value != null ==> r.value in U
    decreases |path|
  {
    if path == [] then Some(n)
    else if n == null then None
    else match path[0]
      case ToAlias => Follow(n.alias, path[1..], U)
      case ToContent(i) => if i < |n.content| then Follow(n.content[i], path[1..], U) else None
  }

  // Every path leads in the copy to the image of where it leads in the original.
  lemma {:induction false} CopyFollows(f: map<Node, Node>, U: set<Node>, n: Node?, cp: Node?, path: seq<Edge>)
    requires Closed(U) && Isomorphism(f, U) && Closed(f.Values) && (n != null ==> n in U) && Mapped(f, n, cp)
    ensures match Follow(n, path, U)
      case None => Follow(cp, path, f.Values) == None
      case Some(m) => exists c :: Follow(cp, path, f.Values) == Some(c) && Mapped(f, m, c)
    decreases |path|
  {
    if path != [] && n != null {
      assert Copied(f, n);
      match path[0]
      case ToAlias => CopyFollows(f, U, n.alias, cp.alias, path[1..]);
      case ToContent(i) =>
        if i < |n.content| {
          assert Mapped(f, n.content[i], cp.content[i]);
          CopyFollows(f, U, n.content[i], cp.content[i], path[1..]);
        }
    } else if path == [] {
      assert Follow(cp, path, f.Values) == Some(cp);
    }
  }

  // Sharing is preserved: two paths meet in the copy exactly when they meet in the original,
  // and no path of the copy leads to an original node.
  lemma CopyPreservesSharing(f: map<Node, Node>, U: set<Node>, n: Node?, cp: Node?, p: seq<Edge>, q: seq<Edge>)
    requires Closed(U) && Isomorphism(f, U) && Closed(f.Values) && (n != null ==> n in U) && Mapped(f, n, cp)
    ensures Follow(cp, p, f.Values) == Follow(cp, q, f.Values) <==> Follow(n, p, U) == Follow(n, q, U)
    ensures Follow(cp, p, f.Values).Some? && Follow(cp, p, f.Values).value != null ==> Follow(cp, p, f.Values).value !in U
  {
    CopyFollows(f, U, n, cp, p);
    CopyFollows(f, U, n, cp, q);
  }

  // ---------- copies of trees ----------

  ghost predicate NoAliases(s: Shape)
    reads Nodes(s)
  {
    forall n | n in Nodes(s) :: n.alias == null && n.kind != Alias
  }

  lemma KidNodesIn(kids: seq<Shape>, i: nat)
    requires i < |kids|
    ensures Nodes(kids[i]) <= KidNodes(kids)
    ensures kids[i].Cell? ==> kids[i].node in KidNodes(kids)
  {
  }

  lemma {:induction false} TreeIsClosed(s: Shape)
    requires Valid(s) && NoAliases(s)
    ensures Closed(Nodes(s))
  {
    if s.Cell? {
      forall n | n in Nodes(s)
        ensures forall j | 0 <= j < |n.content| :: n.content[j] != null ==> n.content[j] in Nodes(s)
      {
        if n == s.node {
          forall j | 0 <= j < |n.content| && n.content[j] != null ensures n.content[j] in Nodes(s) {
            KidNodesIn(s.kids, j);
          }
        } else {
          var i :| 0 <= i < |s.kids| && n in Nodes(s.kids[i]);
          KidNodesIn(s.kids, i);
          TreeIsClosed(s.kids[i]);
        }
      }
    }
  }

  ghost function Image(f: map<Node, Node>, s: Shape): Shape
    requires Nodes(s) <= f.Keys
    decreases s
  {
    match s
    case Nil => Nil
    case Cell(n, kids) => Cell(f[n], seq(|kids|, i requires 0 <= i < |kids| => (KidNodesIn(kids, i); Image(f, kids[i]))))
  }

  lemma {:induction false} ImageNode(f: map<Node, Node>, s: Shape, x: Node) returns (n: Node)
    requires Nodes(s) <= f.Keys && x in Nodes(Image(f, s))
    ensures n in Nodes(s) && f[n] == x
    decreases s
  {
    n := s.node;
    if x != f[n] {
      var i :| 0 <= i < |s.kids| && x in Nodes(Image(f, s).kids[i]);
      KidNodesIn(s.kids, i);
      n := ImageNode(f, s.kids[i], x);
    }
  }

  // An isomorphism defined at the root of a tree is defined on all of it.
  lemma {:induction false} DefinedOnTree(f: map<Node, Node>, U: set<Node>, s: Shape)
    requires Valid(s) && Isomorphism(f, U) && (s.Cell? ==> s.node in f)
    ensures Nodes(s) <= f.Keys
  {
    if s.Cell? {
      assert Copied(f, s.node);
      forall i | 0 <= i < |s.kids| ensures Nodes(s.kids[i]) <= f.Keys {
        assert Mapped(f, s.node.content[i], f[s.node].content[i]);
        DefinedOnTree(f, U, s.kids[i]);
      }
    }
  }

  // The isomorphic copy of a tree is a tree that denotes the same value.
  lemma {:induction false} ImageDenotes(f: map<Node, Node>, U: set<Node>, s: Shape)
    requires Valid(s) && Isomorphism(f, U) && Nodes(s) <= f.Keys
    ensures Valid(Image(f, s)) && Mapped(f, Root(s), Root(Image(f, s))) && Denote(Image(f, s)) == Denote(s)
  {
    if s.Cell? {
      assert Copied(f, s.node);
      var c := Image(f, s);
      forall i | 0 <= i < |s.kids|
        ensures Valid(c.kids[i]) && c.node.content[i] == Root(c.kids[i]) && Denote(c.kids[i]) == Denote(s.kids[i])
      {
        KidNodesIn(s.kids, i);
        ImageDenotes(f, U, s.kids[i]);
        assert Mapped(f, s.node.content[i], c.node.content[i]);
      }
      ImageKidsApart(f, s);
      assert Denote(c).content == Denote(s).content;
    }
  }

  lemma ImageKidsApart(f: map<Node, Node>, s: Shape)
    requires Valid(s) && s.Cell? && Injective(f) && Nodes(s) <= f.Keys
    ensures Disjoint(Image(f, s).kids) && f[s.node] !in KidNodes(Image(f, s).kids)
  {
    var kids := Image(f, s).kids;
    forall i | 0 <= i < |kids| ensures Nodes(s.kids[i]) <= f.Keys && kids[i] == Image(f, s.kids[i]) {
      KidNodesIn(s.kids, i);
    }
    forall i, j, x | 0 <= i < j < |kids| && x in Nodes(kids[i]) ensures x !in Nodes(kids[j]) {
      if x in Nodes(kids[j]) {
        var a := ImageNode(f, s.kids[i], x);
        var b := ImageNode(f, s.kids[j], x);
        assert false;
      }
    }
    if f[s.node] in KidNodes(kids) {
      var i :| 0 <= i < |kids| && f[s.node] in Nodes(kids[i]);
      KidNodesIn(s.kids, i);
      var a := ImageNode(f, s.kids[i], f[s.node]);
      assert false;
    }
  }

  lemma ImageInValues(f: map<Node, Node>, s: Shape)
    requires Nodes(s) <= f.Keys
    ensures Nodes(Image(f, s)) <= f.Values
  {
    forall x | x in Nodes(Image(f, s)) ensures x in f.Values {
      var n := ImageNode(f, s, x);
    }
  }

  lemma ImageTree(f: map<Node, Node>, s: Shape, cp: Node?)
    requires Valid(s) && Isomorphism(f, Nodes(s)) && Mapped(f, Root(s), cp)
    ensures Nodes(s) <= f.Keys
    ensures Valid(Image(f, s)) && Root(Image(f, s)) == cp && Denote(Image(f, s)) == Denote(s) && Nodes(Image(f, s)) <= f.Values
  {
    DefinedOnTree(f, Nodes(s), s);
    ImageInValues(f, s);
    ImageDenotes(f, Nodes(s), s);
  }

  method CopyTree(n: Node?, ghost s: Shape) returns (cp: Node?, ghost c: Shape)
    requires Valid(s) && Root(s) == n && NoAliases(s)
    ensures Valid(c) && Root(c) == cp && fresh(Nodes(c)) && Denote(c) == old(Denote(s))
  {
    NodesAllocated(s);
    TreeIsClosed(s);
    ghost var f: map<Node, Node>;
    cp, f := DeepCopyNode(n, Nodes(s));
    assert Valid(s) && Denote(s) == old(Denote(s));
    ImageTree(f, s, cp);
    c := Image(f, s);
  }
}
