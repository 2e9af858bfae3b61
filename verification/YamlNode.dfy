// YAML nodes in memory, and the trees they hang together as.
module YamlNode {
  import opened Text
  import opened YamlTree

  // yaml.Node. Merging never writes the style, the anchor or the comments of a node: they are `note`.
  class Node {
    var kind: Kind
    var tag: string
    var value: string
    const note: string
    var alias: Node?
    var content: seq<Node?>

    constructor (kind: Kind, tag: string, value: string, note: string, alias: Node?, content: seq<Node?>)
      ensures this.kind == kind && this.tag == tag && this.value == value && this.note == note
      ensures this.alias == alias && this.content == content
    {
      this.kind, this.tag, this.value, this.note, this.alias, this.content := kind, tag, value, note, alias, content;
    }
  }

  // How nodes hang together: Nil stands for a nil pointer, Cell for a node and what its content holds.
  datatype Shape = Nil | Cell(node: Node, kids: seq<Shape>)

  function Root(s: Shape): Node? {
    match s case Nil => null case Cell(n, _) => n
  }

  ghost function Nodes(s: Shape): set<Node> {
    match s
    case Nil => {}
    case Cell(n, kids) => {n} + KidNodes(kids)
  }

  ghost function KidNodes(kids: seq<Shape>): set<Node> {
    set i, n | 0 <= i < |kids| && n in Nodes(kids[i]) :: n
  }

  ghost predicate Disjoint(kids: seq<Shape>) {
    forall i, j :: 0 <= i < j < |kids| ==> Nodes(kids[i]) !! Nodes(kids[j])
  }

  // The nodes of s form a tree of that shape.
  ghost predicate Valid(s: Shape)
    reads Nodes(s)
  {
    match s
    case Nil => true
    case Cell(n, kids) =>
      |n.content| == |kids| && n !in KidNodes(kids) && Disjoint(kids) &&
      forall i | 0 <= i < |kids| :: n.content[i] == Root(kids[i]) && Valid(kids[i])
  }

  // The value a tree of nodes denotes.
  function View(n: Node?, ghost s: Shape): (t: Tree)
    requires Valid(s) && Root(s) == n
    reads Nodes(s)
    ensures t.Null? == (n == null)
    ensures n != null ==> t.kind == n.kind && t.tag == n.tag && t.value == n.value && t.note == n.note && |t.content| == |n.content|
    decreases s
  {
    if n == null then Null
    else
      Tree.Node(n.kind, n.tag, n.value, n.note,
        seq(|n.content|, i requires 0 <= i < |n.content| && n == Root(s) && Valid(s) reads Nodes(s) => View(n.content[i], s.kids[i])))
  }

  ghost function Denote(s: Shape): (t: Tree)
    requires Valid(s)
    reads Nodes(s)
    ensures t.Node? == s.Cell? && (s.Cell? ==> |t.content| == |s.kids|)
  {
    View(Root(s), s)
  }

  lemma {:induction false} NodesAllocated(s: Shape)
    ensures forall n | n in Nodes(s) :: allocated(n)
  {
    if s.Cell? {
      forall n | n in KidNodes(s.kids) ensures allocated(n) {
        var i :| 0 <= i < |s.kids| && n in Nodes(s.kids[i]);
        NodesAllocated(s.kids[i]);
      }
    }
  }
}
