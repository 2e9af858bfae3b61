// The values denoted by YAML node trees, and what merging a generated configuration
// into the user's tree computes on them.
module YamlTree {
  import opened Text

  datatype Kind = Unset | Document | Sequence | Mapping | Scalar | Alias

  // `note` stands for the style, anchor and comments attached to a node. `Null` is a nil pointer.
  datatype Tree = Null | Node(kind: Kind, tag: string, value: string, note: string, content: seq<Tree>)

  type Path = seq<string>

  const DEFAULT_PPROF_ADDR := "127.0.0.1:8316"
  const DEFAULT_PANEL_REPOSITORY := "https://github.com/router-for-me/Cli-Proxy-API-Management-Center"

  // ---------- keys of a mapping: pair j is content[2j], content[2j + 1] ----------

  predicate IsPair(content: seq<Tree>, j: int) {
    0 <= j && 2 * j + 1 < |content|
  }

  // Index of the first pair from j on whose key has the given value, or -1.
  function FindPair(content: seq<Tree>, key: string, j: nat): (r: int)
    ensures -1 <= r
    ensures r >= 0 ==> j <= r && IsPair(content, r) && content[2 * r].Node? && content[2 * r].value == key
    ensures forall i :: j <= i && IsPair(content, i) && (r < 0 || i < r) ==> !(content[2 * i].Node? && content[2 * i].value == key)
    decreases |content| - j
  {
    if !IsPair(content, j) then -1
    else if content[2 * j].Node? && content[2 * j].value == key then j
    else FindPair(content, key, j + 1)
  }

  function Lookup(content: seq<Tree>, key: string): Option<Tree> {
    var j := FindPair(content, key, 0);
    if j < 0 then None else Some(content[2 * j + 1])
  }

  // ---------- default values ----------

  predicate IsZeroValue(t: Tree) {
    match t
    case Null => true
    case Node(Scalar, tag, value, _, _) =>
      (tag == "!!bool" && value == "false")
      || ((tag == "!!int" || tag == "!!float") && (value == "0" || value == "0.0"))
      || (tag == "!!str" && value == "")
      || tag == "!!null"
    case Node(Sequence, _, _, _, content) => forall i | 0 <= i < |content| :: IsZeroValue(content[i])
    case Node(Mapping, _, _, _, content) => forall i | 0 <= i < |content| :: i % 2 == 1 ==> IsZeroValue(content[i])
    case _ => false
  }

  predicate IsNamedDefault(path: Path, t: Tree) {
    t.Node? && t.kind == Scalar && path != [] &&
    var full := Join(path, ".");
    if t.tag == "!!str" then
      (full == "pprof.addr" && t.value == DEFAULT_PPROF_ADDR)
      || (full == "remote-management.panel-github-repository" && t.value == DEFAULT_PANEL_REPOSITORY)
      || (full == "plugins.dir" && t.value == "plugins")
      || (full == "routing.strategy" && t.value == "round-robin")
    else
      t.tag == "!!int" && full == "error-logs-max-files" && t.value == "10"
  }

  predicate IsKnownDefault(path: Path, t: Tree) {
    IsZeroValue(t) || IsNamedDefault(path, t)
  }

  predicate IsEmptyCollection(t: Tree) {
    t.Node? && (t.kind == Mapping || t.kind == Sequence) && t.content == []
  }

  // The value of a new node once its default-valued descendants are dropped.
  function Prune(path: Path, t: Tree): (r: Tree)
    decreases t, 1, 0
  {
    if t.Null? then t
    else if t.kind == Mapping then t.(content := PrunePairs(path, t, 0))
    else if t.kind == Sequence then t.(content := seq(|t.content|, i requires 0 <= i < |t.content| => Prune(path, t.content[i])))
    else t
  }

  function PrunePairs(path: Path, t: Tree, j: nat): seq<Tree>
    requires t.Node?
    decreases t, 0, |t.content| - j
  {
    if !IsPair(t.content, j) then []
    else PrunePair(path, t, j) + PrunePairs(path, t, j + 1)
  }

  // What is left of pair j: nothing, or its key and pruned value.
  function PrunePair(path: Path, t: Tree, j: nat): seq<Tree>
    requires t.Node? && IsPair(t.content, j)
    decreases t, 0, 0
  {
    var key, value := t.content[2 * j], t.content[2 * j + 1];
    if key.Null? || value.Null? then []
    else
      var child := path + [key.value];
      if IsKnownDefault(child, value) then []
      else
        var pruned := Prune(child, value);
        if IsEmptyCollection(pruned) then [] else [key, pruned]
  }

  // ---------- matching sequence elements ----------

  predicate StructurallyEqual(a: Tree, b: Tree) {
    if a.Null? || b.Null? then a.Null? && b.Null?
    else if a.kind != b.kind then false
    else match a.kind
      case Mapping =>
        |a.content| == |b.content| &&
        forall i | 0 <= i < |a.content| - |a.content| % 2 :: StructurallyEqual(a.content[i], b.content[i])
      case Sequence =>
        |a.content| == |b.content| &&
        forall i | 0 <= i < |a.content| :: StructurallyEqual(a.content[i], b.content[i])
      case Alias => false // a generated tree has no alias, so this is not reached in a merge
      case _ => TrimSpace(a.value) == TrimSpace(b.value)
  }

  predicate ScalarPair(content: seq<Tree>, j: int) {
    IsPair(content, j) && content[2 * j].Node? && content[2 * j + 1].Node? && content[2 * j + 1].kind == Scalar
  }

  function MappingScalar(content: seq<Tree>, key: string, j: nat): string
    decreases |content| - j
  {
    if !IsPair(content, j) then ""
    else if ScalarPair(content, j) && ToLower(TrimSpace(content[2 * j].value)) == ToLower(key) then TrimSpace(content[2 * j + 1].value)
    else MappingScalar(content, key, j + 1)
  }

  const IDENTITY_KEYS := ["id", "name", "alias", "api-key", "api_key", "apikey", "key", "provider", "model"]

  function NamedIdentity(content: seq<Tree>, keys: seq<string>): string {
    if keys == [] then ""
    else
      var v := MappingScalar(content, keys[0], 0);
      if v != "" then keys[0] + "=" + v else NamedIdentity(content, keys[1..])
  }

  function FirstScalarIdentity(content: seq<Tree>, j: nat): string
    decreases |content| - j
  {
    if !IsPair(content, j) then ""
    else if ScalarPair(content, j) && TrimSpace(content[2 * j + 1].value) != "" then
      ToLower(TrimSpace(content[2 * j].value)) + "=" + TrimSpace(content[2 * j + 1].value)
    else FirstScalarIdentity(content, j + 1)
  }

  function Identity(t: Tree): string {
    if t.Null? || t.kind != Mapping then ""
    else
      var named := NamedIdentity(t.content, IDENTITY_KEYS);
      if named != "" then named else FirstScalarIdentity(t.content, 0)
  }

  // First unused non-nil element from i on that satisfies p, or -1.
  function FirstUnused(original: seq<Tree>, used: seq<bool>, p: Tree -> bool, i: nat): (r: int)
    requires |used| == |original|
    ensures -1 <= r < |original|
    ensures r >= 0 ==> i <= r && !used[r] && original[r].Node? && p(original[r])
    ensures forall m | i <= m < |original| && (r < 0 || m < r) :: used[m] || original[m].Null? || !p(original[m])
    decreases |original| - i
  {
    if i >= |original| then -1
    else if !used[i] && original[i].Node? && p(original[i]) then i
    else FirstUnused(original, used, p, i + 1)
  }

  function MatchByIdentity(original: seq<Tree>, used: seq<bool>, target: Tree): (r: int)
    requires |used| == |original|
    ensures -1 <= r < |original| && (r >= 0 ==> !used[r] && original[r].Node?)
  {
    if target.Null? then -1
    else if target.kind == Mapping && Identity(target) != "" then
      FirstUnused(original, used, (o: Tree) => o.Node? && o.kind == Mapping && Identity(o) == Identity(target), 0)
    else if target.kind == Scalar && TrimSpace(target.value) != "" then
      FirstUnused(original, used, (o: Tree) => o.Node? && o.kind == Scalar && TrimSpace(o.value) == TrimSpace(target.value), 0)
    else -1
  }

  function MatchElement(original: seq<Tree>, used: seq<bool>, target: Tree): (r: int)
    requires |used| == |original|
    ensures -1 <= r < |original| && (r >= 0 ==> !used[r] && original[r].Node?)
  {
    if target.Null? then -1
    else
      var byIdentity := MatchByIdentity(original, used, target);
      if byIdentity >= 0 then byIdentity
      else FirstUnused(original, used, (o: Tree) => StructurallyEqual(o, target), 0)
  }

  // For every element of src, the index of the old element that takes its place, or -1.
  function Plan(original: seq<Tree>, used: seq<bool>, src: seq<Tree>): (plan: seq<int>)
    requires |used| == |original|
    ensures |plan| == |src|
    decreases |src|
  {
    if src == [] then []
    else
      var m := MatchElement(original, used, src[0]);
      [m] + Plan(original, if m >= 0 then used[m := true] else used, src[1..])
  }

  // ---------- merging ----------

  // The trimmed, non-blank keys of a mapping.
  function KeptKeys(content: seq<Tree>): set<string> {
    set j | 0 <= j < |content| && IsPair(content, j) && content[2 * j].Node? && TrimSpace(content[2 * j].value) != "" :: TrimSpace(content[2 * j].value)
  }

  function KeepPairs(content: seq<Tree>, keep: set<string>): seq<Tree> {
    if |content| < 2 then content
    else if content[0].Node? && TrimSpace(content[0].value) !in keep then KeepPairs(content[2..], keep)
    else content[..2] + KeepPairs(content[2..], keep)
  }

  predicate BothMappings(d: Tree, s: Tree) {
    d.Node? && s.Node? && d.kind == Mapping && s.kind == Mapping
  }

  function PruneMissing(d: Tree, s: Tree): Tree {
    if BothMappings(d, s) then d.(content := KeepPairs(d.content, KeptKeys(s.content))) else d
  }

  function CopyShallow(d: Tree, s: Tree): Tree
    requires d.Node? && s.Node?
  {
    d.(kind := s.kind, tag := s.tag, value := s.value, content := s.content)
  }

  function MergeMapping(d: Tree, s: Tree, path: Path): (r: Tree)
    decreases s, 1, 0
  {
    if d.Null? || s.Null? then d
    else if !BothMappings(d, s) then CopyShallow(d, s)
    else MergePairs(d, s, 0, path)
  }

  // Merges the pairs of s from j on.
  function MergePairs(d: Tree, s: Tree, j: nat, path: Path): (r: Tree)
    requires d.Node? && s.Node?
    ensures r.Node?
    decreases s, 0, |s.content| - j
  {
    if !IsPair(s.content, j) then d
    else MergePairs(MergePair(d, s, j, path), s, j + 1, path)
  }

  function MergePair(d: Tree, s: Tree, j: nat, path: Path): (r: Tree)
    requires d.Node? && s.Node? && IsPair(s.content, j)
    ensures r.Node?
    decreases s, 0, 0
  {
    var key, value := s.content[2 * j], s.content[2 * j + 1];
    if key.Null? then d
    else
      var child := path + [key.value];
      var i := FindPair(d.content, key.value, 0);
      if i >= 0 then d.(content := d.content[2 * i + 1 := MergeNode(d.content[2 * i + 1], value, child)])
      else
        var candidate := Prune(child, value);
        if IsKnownDefault(child, candidate) then d else d.(content := d.content + [key, candidate])
  }

  predicate IsNullScalar(d: Tree) {
    d.Node? && d.kind == Scalar && d.tag == "!!null"
  }

  // The sequence node that receives the elements.
  function AsSequence(d: Tree): (r: Tree)
    requires d.Node?
    ensures r.Node?
  {
    if d.kind == Sequence then d else d.(kind := Sequence, tag := "!!seq", content := [])
  }

  function MergeNode(d: Tree, s: Tree, path: Path): (r: Tree)
    ensures r.Node? == d.Node?
    decreases s, 2, 0
  {
    if d.Null? || s.Null? then d
    else match s.kind
      case Mapping => MergeMapping(if d.kind == Mapping then d else CopyShallow(d, s), s, path)
      case Sequence =>
        if IsNullScalar(d) && s.content == [] then d
        else
          var seqNode := AsSequence(d);
          seqNode.(content := MergeElements(seqNode.content, s, path))
      case Scalar => d.(kind := s.kind, tag := s.tag, value := s.value)
      case Alias => d.(kind := s.kind, tag := s.tag, value := s.value)
      case Unset => d
      case Document => CopyShallow(d, s)
  }

  function NoneUsed(n: nat): seq<bool> {
    seq(n, _ => false)
  }

  function OldElement(prior: seq<Tree>, m: int): Tree {
    if 0 <= m < |prior| then prior[m] else Null
  }

  function MergeElements(prior: seq<Tree>, s: Tree, path: Path): (r: seq<Tree>)
    requires s.Node?
    ensures |r| == |s.content|
    decreases s, 1, 0
  {
    if prior == [] then s.content
    else
      var plan := Plan(prior, NoneUsed(|prior|), s.content);
      seq(|s.content|, i requires 0 <= i < |s.content| => MergeElement(OldElement(prior, plan[i]), s.content[i], path))
  }

  function MergeElement(e: Tree, t: Tree, path: Path): Tree
    decreases t, 3, 0
  {
    if e.Null? then t else PruneMissing(MergeNode(e, t, path), t)
  }
}
