// Which old list element a merged element takes over: the one with the same identity, told by what stands in the two
// elements.
module YamlMatching {
  import opened Text
  import opened YamlTree
  import opened YamlMeaning
  import opened YamlKeys
  import opened YamlSave
  import opened YamlPresence

  // The keys that identify an element, in the order in which they are tried.
  const NAMES := ["id", "name", "alias", "api-key", "api_key", "apikey", "key", "provider", "model"]

  // ---------- what tells an element from others ----------

  ghost predicate ScalarAt(content: seq<Tree>, j: nat) {
    2 * j + 1 < |content| && content[2 * j].Node? && content[2 * j + 1].Node? && content[2 * j + 1].kind == Scalar
  }

  function KeyAt(content: seq<Tree>, j: nat): string
    requires 2 * j + 1 < |content| && content[2 * j].Node?
  {
    ToLower(TrimSpace(content[2 * j].value))
  }

  function ValueAt(content: seq<Tree>, j: nat): string
    requires 2 * j + 1 < |content| && content[2 * j + 1].Node?
  {
    TrimSpace(content[2 * j + 1].value)
  }

  // Pair j is the first one that holds a scalar under the key, in any case and with any blanks around it.
  ghost predicate FirstUnder(content: seq<Tree>, key: string, j: nat) {
    ScalarAt(content, j) && KeyAt(content, j) == key &&
    forall i: nat | i < j && ScalarAt(content, i) :: KeyAt(content, i) != key
  }

  // What stands under the key, if a scalar does, is blank.
  ghost predicate Blank(content: seq<Tree>, key: string) {
    forall j: nat | FirstUnder(content, key, j) :: ValueAt(content, j) == ""
  }

  // Pair j identifies the element: it holds a value under the first of the names that has one.
  ghost predicate Named(content: seq<Tree>, n: nat, j: nat) {
    n < |NAMES| && FirstUnder(content, NAMES[n], j) && ValueAt(content, j) != "" &&
    forall m: nat | m < n :: Blank(content, NAMES[m])
  }

  // Pair j is the first one with a non-blank scalar.
  ghost predicate FirstScalar(content: seq<Tree>, j: nat) {
    ScalarAt(content, j) && ValueAt(content, j) != "" &&
    forall i: nat | i < j && ScalarAt(content, i) :: ValueAt(content, i) == ""
  }

  ghost predicate Unnamed(content: seq<Tree>) {
    forall n: nat | n < |NAMES| :: Blank(content, NAMES[n])
  }

  // The element is told by this key and value.
  ghost predicate ToldBy(t: Tree, key: string, value: string) {
    t.Node? && t.kind == Mapping &&
    exists j: nat :: ScalarAt(t.content, j) && ValueAt(t.content, j) == value && KeyAt(t.content, j) == key &&
      ((exists n: nat :: Named(t.content, n, j)) || (Unnamed(t.content) && FirstScalar(t.content, j)))
  }

  // ---------- identities ----------

  lemma SmallNames()
    ensures |NAMES| == 9 && NAMES == IDENTITY_KEYS
    ensures forall n: nat | n < |NAMES| :: ToLower(NAMES[n]) == NAMES[n] && '=' !in NAMES[n]
  {
  }

  lemma {:induction false} ScalarUnder(content: seq<Tree>, key: string, i: nat, j: nat)
    requires FirstUnder(content, key, j) && ToLower(key) == key && i <= j
    ensures MappingScalar(content, key, i) == ValueAt(content, j)
    decreases j - i
  {
    assert ScalarAt(content, i) <==> ScalarPair(content, i);
    if i < j {
      ScalarUnder(content, key, i + 1, j);
    }
  }

  lemma {:induction false} NoScalarUnder(content: seq<Tree>, key: string, i: nat)
    requires ToLower(key) == key
    requires forall j: nat | ScalarAt(content, j) :: KeyAt(content, j) != key
    ensures MappingScalar(content, key, i) == ""
    decreases |content| - i
  {
    assert ScalarAt(content, i) <==> ScalarPair(content, i);
    if IsPair(content, i) {
      NoScalarUnder(content, key, i + 1);
    }
  }

  // The first pair from i on with a scalar under the key, if there is one
  lemma {:induction false} FindUnder(content: seq<Tree>, key: string, i: nat) returns (j: nat)
    requires exists m: nat :: i <= m && ScalarAt(content, m) && KeyAt(content, m) == key
    ensures i <= j && ScalarAt(content, j) && KeyAt(content, j) == key
    ensures forall m: nat | i <= m < j && ScalarAt(content, m) :: KeyAt(content, m) != key
    decreases |content| - i
  {
    var m: nat :| i <= m && ScalarAt(content, m) && KeyAt(content, m) == key;
    if ScalarAt(content, i) && KeyAt(content, i) == key {
      j := i;
    } else {
      j := FindUnder(content, key, i + 1);
    }
  }

  lemma BlankIs(content: seq<Tree>, key: string)
    requires ToLower(key) == key && Blank(content, key)
    ensures MappingScalar(content, key, 0) == ""
  {
    if exists m: nat :: 0 <= m && ScalarAt(content, m) && KeyAt(content, m) == key {
      var j := FindUnder(content, key, 0);
      assert FirstUnder(content, key, j);
      ScalarUnder(content, key, 0, j);
    } else {
      NoScalarUnder(content, key, 0);
    }
  }

  lemma {:induction false} NamedFrom(content: seq<Tree>, m: nat, n: nat, j: nat)
    requires Named(content, n, j) && m <= n
    ensures NamedIdentity(content, NAMES[m..]) == NAMES[n] + "=" + ValueAt(content, j)
    decreases n - m
  {
    SmallNames();
    assert NAMES[m..][0] == NAMES[m] && NAMES[m..][1..] == NAMES[m + 1..];
    if m < n {
      BlankIs(content, NAMES[m]);
      NamedFrom(content, m + 1, n, j);
    } else {
      ScalarUnder(content, NAMES[n], 0, j);
    }
  }

  lemma {:induction false} UnnamedFrom(content: seq<Tree>, m: nat)
    requires Unnamed(content) && m <= |NAMES|
    ensures NamedIdentity(content, NAMES[m..]) == ""
    decreases |NAMES| - m
  {
    SmallNames();
    if m < |NAMES| {
      assert NAMES[m..][0] == NAMES[m] && NAMES[m..][1..] == NAMES[m + 1..];
      BlankIs(content, NAMES[m]);
      UnnamedFrom(content, m + 1);
    }
  }

  lemma {:induction false} FirstScalarFrom(content: seq<Tree>, i: nat, j: nat)
    requires FirstScalar(content, j) && i <= j
    ensures FirstScalarIdentity(content, i) == KeyAt(content, j) + "=" + ValueAt(content, j)
    decreases j - i
  {
    assert ScalarAt(content, i) <==> ScalarPair(content, i);
    if i < j {
      FirstScalarFrom(content, i + 1, j);
    }
  }

  // An element is told by a key and a value exactly when they make up its identity.
  lemma ToldIdentity(t: Tree, key: string, value: string)
    requires ToldBy(t, key, value)
    ensures Identity(t) == key + "=" + value
  {
    SmallNames();
    var content := t.content;
    var j: nat :| ScalarAt(content, j) && ValueAt(content, j) == value && KeyAt(content, j) == key &&
      ((exists n: nat :: Named(content, n, j)) || (Unnamed(content) && FirstScalar(content, j)));
    assert NAMES[0..] == NAMES;
    if exists n: nat :: Named(content, n, j) {
      var n: nat :| Named(content, n, j);
      NamedFrom(content, 0, n, j);
    } else {
      UnnamedFrom(content, 0);
      FirstScalarFrom(content, 0, j);
    }
  }

  lemma {:induction false} NoScalarFrom(content: seq<Tree>, i: nat)
    requires forall j: nat | ScalarAt(content, j) :: ValueAt(content, j) == ""
    ensures FirstScalarIdentity(content, i) == ""
    decreases |content| - i
  {
    assert ScalarAt(content, i) <==> ScalarPair(content, i);
    if IsPair(content, i) {
      NoScalarFrom(content, i + 1);
    }
  }

  // Without a scalar that is not blank, there is no identity.
  lemma NothingTells(t: Tree)
    requires t.Node? && t.kind == Mapping && forall j: nat | ScalarAt(t.content, j) :: ValueAt(t.content, j) == ""
    ensures Identity(t) == ""
  {
    assert NAMES[0..] == NAMES;
    SmallNames();
    UnnamedFrom(t.content, 0);
    NoScalarFrom(t.content, 0);
  }

  lemma {:induction false} FindScalar(content: seq<Tree>, i: nat) returns (j: nat)
    requires exists m: nat :: i <= m && ScalarAt(content, m) && ValueAt(content, m) != ""
    ensures i <= j && ScalarAt(content, j) && ValueAt(content, j) != ""
    ensures forall m: nat | i <= m < j && ScalarAt(content, m) :: ValueAt(content, m) == ""
    decreases |content| - i
  {
    var m: nat :| i <= m && ScalarAt(content, m) && ValueAt(content, m) != "";
    if ScalarAt(content, i) && ValueAt(content, i) != "" {
      j := i;
    } else {
      j := FindScalar(content, i + 1);
    }
  }

  lemma {:induction false} FindName(content: seq<Tree>, n: nat) returns (m: nat, j: nat)
    requires n <= |NAMES| && !Unnamed(content) && forall i: nat | i < n :: Blank(content, NAMES[i])
    ensures Named(content, m, j)
    decreases |NAMES| - n
  {
    if Blank(content, NAMES[n]) {
      m, j := FindName(content, n + 1);
    } else {
      m := n;
      j :| FirstUnder(content, NAMES[n], j) && ValueAt(content, j) != "";
    }
  }

  // An element with a scalar that is not blank is told by some key and value.
  lemma SomethingTells(t: Tree, i: nat) returns (key: string, value: string)
    requires t.Node? && t.kind == Mapping && ScalarAt(t.content, i) && ValueAt(t.content, i) != ""
    ensures ToldBy(t, key, value)
  {
    var j: nat;
    if Unnamed(t.content) {
      j := FindScalar(t.content, 0);
      assert FirstScalar(t.content, j);
    } else {
      var n;
      n, j := FindName(t.content, 0);
    }
    key, value := KeyAt(t.content, j), ValueAt(t.content, j);
  }

  // ---------- structural equality ----------

  // What is found at a position of a tree: the child with the first index, the child of that with the second, ...
  function At(t: Tree, position: seq<nat>): Option<Tree>
    decreases |position|
  {
    if position == [] then Some(t)
    else if t.Node? && t.kind in {Mapping, Sequence} && position[0] < |t.content| then At(t.content[position[0]], position[1..])
    else None
  }

  // At the position both trees have a node of the same kind, with the same text around blanks if it is a scalar,
  // or neither has one.
  predicate AlikeAt(a: Tree, b: Tree, position: seq<nat>) {
    match (At(a, position), At(b, position))
    case (Some(x), Some(y)) =>
      x.Node? && y.Node? && x.kind == y.kind && (x.kind == Scalar ==> TrimSpace(x.value) == TrimSpace(y.value))
    case (None, None) => true
    case _ => false
  }

  ghost predicate AlikeTrees(a: Tree, b: Tree) {
    forall position: seq<nat> :: AlikeAt(a, b, position)
  }

  lemma AlikeBelow(a: Tree, b: Tree, i: nat)
    requires a.Node? && b.Node? && a.kind == b.kind && a.kind in {Mapping, Sequence} && |a.content| == |b.content|
    requires AlikeTrees(a, b) && i < |a.content|
    ensures AlikeTrees(a.content[i], b.content[i])
  {
    forall position: seq<nat> ensures AlikeAt(a.content[i], b.content[i], position) {
      assert AlikeAt(a, b, [i] + position);
      assert ([i] + position)[1..] == position;
    }
  }

  lemma Child(t: Tree, n: nat)
    requires t.Node? && t.kind in {Mapping, Sequence}
    ensures At(t, [n]) == if n < |t.content| then Some(t.content[n]) else None
  {
  }

  lemma AlikeLengths(a: Tree, b: Tree)
    requires AlikeTrees(a, b)
    ensures a.Node? && b.Node? && a.kind == b.kind && (a.kind == Scalar ==> TrimSpace(a.value) == TrimSpace(b.value))
    ensures a.kind in {Mapping, Sequence} ==> |a.content| == |b.content|
  {
    assert AlikeAt(a, b, []);
    if a.kind in {Mapping, Sequence} {
      Child(a, |a.content|);
      Child(b, |a.content|);
      Child(a, |b.content|);
      Child(b, |b.content|);
      assert AlikeAt(a, b, [|a.content|]) && AlikeAt(a, b, [|b.content|]);
    }
  }

  lemma AlikeAbove(a: Tree, b: Tree, position: seq<nat>)
    requires a.Node? && b.Node? && a.kind == b.kind && (a.kind == Scalar ==> TrimSpace(a.value) == TrimSpace(b.value))
    requires a.kind in {Mapping, Sequence} ==> |a.content| == |b.content|
    requires a.kind in {Mapping, Sequence} ==> forall i | 0 <= i < |a.content| :: AlikeTrees(a.content[i], b.content[i])
    ensures AlikeAt(a, b, position)
  {
    if position != [] && a.kind in {Mapping, Sequence} && position[0] < |a.content| {
      assert AlikeAt(a.content[position[0]], b.content[position[0]], position[1..]);
    }
  }

  // Two trees are structurally equal exactly when they are alike at every position.
  lemma {:induction false} StructurallyEqualIff(a: Tree, b: Tree)
    requires WellFormed(a) && Plain(b)
    ensures StructurallyEqual(a, b) <==> AlikeTrees(a, b)
    decreases b
  {
    if a.kind == b.kind && |a.content| == |b.content| {
      forall i | 0 <= i < |b.content| ensures StructurallyEqual(a.content[i], b.content[i]) <==> AlikeTrees(a.content[i], b.content[i]) {
        StructurallyEqualIff(a.content[i], b.content[i]);
      }
    }
    if AlikeTrees(a, b) {
      AlikeLengths(a, b);
      if a.kind != Scalar {
        forall i | 0 <= i < |a.content| ensures StructurallyEqual(a.content[i], b.content[i]) {
          AlikeBelow(a, b, i);
        }
      }
    }
    if StructurallyEqual(a, b) {
      forall position: seq<nat> ensures AlikeAt(a, b, position) {
        AlikeAbove(a, b, position);
      }
    }
  }

  // ---------- the old element that is chosen ----------

  // The two elements are told by the same text, or hold the same scalar.
  ghost predicate SameElement(o: Tree, t: Tree) {
    o.Node? && t.Node? && o.kind == t.kind &&
    ((t.kind == Mapping && exists key, value, name, text ::
       ToldBy(t, key, value) && ToldBy(o, name, text) && name + "=" + text == key + "=" + value)
     || (t.kind == Scalar && TrimSpace(t.value) != "" && TrimSpace(o.value) == TrimSpace(t.value)))
  }

  lemma NotBlank(key: string, value: string)
    ensures key + "=" + value != ""
  {
    assert |key + "=" + value| > 0;
  }

  lemma SameMapping(o: Tree, t: Tree)
    requires o.Node? && t.Node? && o.kind == Mapping && t.kind == Mapping
    ensures SameElement(o, t) <==> Identity(t) != "" && Identity(o) == Identity(t)
  {
    if SameElement(o, t) {
      var key, value, name, text :|
        ToldBy(t, key, value) && ToldBy(o, name, text) && name + "=" + text == key + "=" + value;
      ToldIdentity(t, key, value);
      ToldIdentity(o, name, text);
      NotBlank(key, value);
    }
    if Identity(t) != "" && Identity(o) == Identity(t) {
      var key, value := IdentityTold(t);
      var name, text := IdentityTold(o);
    }
  }

  lemma IdentityTold(t: Tree) returns (key: string, value: string)
    requires t.Node? && t.kind == Mapping && Identity(t) != ""
    ensures ToldBy(t, key, value) && Identity(t) == key + "=" + value
  {
    if forall j: nat | ScalarAt(t.content, j) :: ValueAt(t.content, j) == "" {
      NothingTells(t);
    }
    var i: nat :| ScalarAt(t.content, i) && ValueAt(t.content, i) != "";
    key, value := SomethingTells(t, i);
    ToldIdentity(t, key, value);
  }

  // The first unused old element that is the same, if there is one
  lemma MatchedByIdentity(original: seq<Tree>, used: seq<bool>, t: Tree)
    requires |used| == |original| && t.Node?
    ensures var r := MatchByIdentity(original, used, t);
      (r >= 0 ==> SameElement(original[r], t)) &&
      forall m | 0 <= m < |original| && (r < 0 || m < r) && !used[m] :: !SameElement(original[m], t)
  {
    forall m | 0 <= m < |original| && original[m].Node? && original[m].kind == Mapping && t.kind == Mapping
      ensures SameElement(original[m], t) <==> Identity(t) != "" && Identity(original[m]) == Identity(t)
    {
      SameMapping(original[m], t);
    }
  }

  ghost predicate AllWellFormed(list: seq<Tree>) {
    forall i | 0 <= i < |list| :: WellFormed(list[i])
  }

  // An element takes over the first unused old one that is the same. If there is none, it takes over the first unused
  // one that is alike at every position, and none if there is no such one either.
  lemma MatchIs(original: seq<Tree>, used: seq<bool>, t: Tree) returns (r: int)
    requires |used| == |original| && AllWellFormed(original) && Plain(t)
    ensures r == MatchElement(original, used, t) && -1 <= r < |original|
    ensures r >= 0 ==> !used[r] && (SameElement(original[r], t) || AlikeTrees(original[r], t))
    ensures forall m | 0 <= m < |original| && !used[m] && SameElement(original[m], t) ::
      0 <= r <= m && SameElement(original[r], t)
    ensures forall m | 0 <= m < |original| && !used[m] && AlikeTrees(original[m], t) ::
      0 <= r && (r <= m || SameElement(original[r], t))
  {
    r := MatchElement(original, used, t);
    MatchedByIdentity(original, used, t);
    forall m | 0 <= m < |original| ensures StructurallyEqual(original[m], t) <==> AlikeTrees(original[m], t) {
      StructurallyEqualIff(original[m], t);
    }
  }

  // ---------- elements that are alike are the same ----------

  ghost predicate ScalarKeys(t: Tree) {
    t.Node? && forall j: nat | 2 * j + 1 < |t.content| :: t.content[2 * j].Node? && t.content[2 * j].kind == Scalar
  }

  // The same pairs hold scalars, under the same keys and with the same values.
  ghost predicate PairsAgree(c: seq<Tree>, d: seq<Tree>) {
    forall j: nat :: ScalarAt(c, j) == ScalarAt(d, j) &&
      (ScalarAt(c, j) ==> KeyAt(c, j) == KeyAt(d, j) && ValueAt(c, j) == ValueAt(d, j))
  }

  lemma AlikePairs(o: Tree, t: Tree)
    requires o.Node? && o.kind == Mapping && AlikeTrees(o, t) && ScalarKeys(t)
    ensures PairsAgree(o.content, t.content)
  {
    AlikeLengths(o, t);
    forall j: nat | 2 * j + 1 < |t.content|
      ensures ScalarAt(o.content, j) == ScalarAt(t.content, j)
      ensures ScalarAt(t.content, j) ==>
        KeyAt(o.content, j) == KeyAt(t.content, j) && ValueAt(o.content, j) == ValueAt(t.content, j)
    {
      AlikeBelow(o, t, 2 * j);
      AlikeLengths(o.content[2 * j], t.content[2 * j]);
      AlikeBelow(o, t, 2 * j + 1);
      AlikeLengths(o.content[2 * j + 1], t.content[2 * j + 1]);
    }
  }

  lemma UnderAgree(c: seq<Tree>, d: seq<Tree>, key: string, j: nat)
    requires PairsAgree(c, d)
    ensures FirstUnder(c, key, j) == FirstUnder(d, key, j)
  {
  }

  lemma BlankAgree(c: seq<Tree>, d: seq<Tree>, key: string)
    requires PairsAgree(c, d)
    ensures Blank(c, key) == Blank(d, key)
  {
    forall j: nat ensures FirstUnder(c, key, j) == FirstUnder(d, key, j) {
      UnderAgree(c, d, key, j);
    }
  }

  lemma NamedAgree(c: seq<Tree>, d: seq<Tree>, n: nat, j: nat)
    requires PairsAgree(c, d) && Named(d, n, j)
    ensures Named(c, n, j)
  {
    UnderAgree(c, d, NAMES[n], j);
    forall m: nat | m < n ensures Blank(c, NAMES[m]) {
      BlankAgree(c, d, NAMES[m]);
    }
  }

  lemma UnnamedAgree(c: seq<Tree>, d: seq<Tree>)
    requires PairsAgree(c, d) && Unnamed(d)
    ensures Unnamed(c)
  {
    forall m: nat | m < |NAMES| ensures Blank(c, NAMES[m]) {
      BlankAgree(c, d, NAMES[m]);
    }
  }

  lemma AlikeTold(o: Tree, t: Tree, key: string, value: string)
    requires o.Node? && o.kind == Mapping && AlikeTrees(o, t) && ScalarKeys(t) && ToldBy(t, key, value)
    ensures ToldBy(o, key, value)
  {
    AlikePairs(o, t);
    var c, d := o.content, t.content;
    var j: nat :| ScalarAt(d, j) && ValueAt(d, j) == value && KeyAt(d, j) == key &&
      ((exists n: nat :: Named(d, n, j)) || (Unnamed(d) && FirstScalar(d, j)));
    if exists n: nat :: Named(d, n, j) {
      var n: nat :| Named(d, n, j);
      NamedAgree(c, d, n, j);
    } else {
      UnnamedAgree(c, d);
      assert FirstScalar(c, j);
    }
    assert ScalarAt(c, j) && ValueAt(c, j) == value && KeyAt(c, j) == key;
  }

  // ---------- tokens: what an element is recognised by ----------

  // No scalar that is not blank stands in the element.
  ghost predicate Untold(t: Tree) {
    t.Node? &&
    (t.kind == Mapping ==> forall j: nat | ScalarAt(t.content, j) :: ValueAt(t.content, j) == "") &&
    (t.kind == Scalar ==> TrimSpace(t.value) == "")
  }

  // A mapping is recognised by the key and value that tell it, a scalar by its text, any other element by nothing.
  ghost predicate Token(t: Tree, token: string) {
    t.Node? &&
    ((t.kind == Mapping && exists key, value :: ToldBy(t, key, value) && token == "mapping " + (key + "=" + value))
     || (t.kind == Scalar && TrimSpace(t.value) != "" && token == "scalar " + TrimSpace(t.value))
     || (Untold(t) && token == ""))
  }

  lemma TokenIs(t: Tree, token: string)
    requires Token(t, token)
    ensures t.kind == Mapping ==> token == if Identity(t) == "" then "" else "mapping " + Identity(t)
    ensures t.kind == Scalar ==> token == if TrimSpace(t.value) == "" then "" else "scalar " + TrimSpace(t.value)
    ensures t.kind != Mapping && t.kind != Scalar ==> token == ""
  {
    if t.kind == Mapping {
      if Untold(t) {
        NothingTells(t);
        assert forall key, value :: !ToldBy(t, key, value);
      } else {
        var key, value :| ToldBy(t, key, value) && token == "mapping " + (key + "=" + value);
        ToldIdentity(t, key, value);
        NotBlank(key, value);
      }
    }
  }

  lemma TokensDiffer(a: string, b: string)
    ensures "mapping " + a != "scalar " + b && "mapping " + a != "" && "scalar " + b != ""
    ensures "mapping " + a == "mapping " + b ==> a == b
    ensures "scalar " + a == "scalar " + b ==> a == b
  {
    var m, s := "mapping ", "scalar ";
    assert (m + a)[0] == 'm' && (s + b)[0] == 's';
    assert (m + a)[|m|..] == a && (m + b)[|m|..] == b && (s + a)[|s|..] == a && (s + b)[|s|..] == b;
  }

  // Elements are the same exactly when they have the same token.
  lemma SameToken(o: Tree, t: Tree, a: string, b: string)
    requires Token(o, a) && Token(t, b)
    ensures SameElement(o, t) <==> a == b && b != ""
  {
    TokenIs(o, a);
    TokenIs(t, b);
    TokensDiffer(Identity(o), Identity(t));
    TokensDiffer(Identity(t), TrimSpace(o.value));
    TokensDiffer(Identity(o), TrimSpace(t.value));
    TokensDiffer(TrimSpace(o.value), TrimSpace(t.value));
    if o.kind == Mapping && t.kind == Mapping {
      SameMapping(o, t);
    }
  }

  lemma AlikeToken(o: Tree, t: Tree, a: string, b: string)
    requires Token(o, a) && Token(t, b) && AlikeTrees(o, t) && (t.kind == Mapping ==> ScalarKeys(t))
    ensures a == b
  {
    AlikeLengths(o, t);
    TokenIs(o, a);
    TokenIs(t, b);
    if t.kind == Mapping {
      AlikePairs(o, t);
      if Untold(t) {
        assert Untold(o);
        NothingTells(o);
        NothingTells(t);
      } else {
        var key, value :| ToldBy(t, key, value) && b == "mapping " + (key + "=" + value);
        AlikeTold(o, t, key, value);
        ToldIdentity(o, key, value);
        NotBlank(key, value);
      }
    }
  }

  // Which key and which value make up a token is determined by it, unless the key contains the sign between them.
  lemma ToldApart(key: string, value: string, name: string, text: string)
    requires '=' !in key && '=' !in name && key + "=" + value == name + "=" + text
    ensures key == name && value == text
  {
    var a, b := key + "=" + value, name + "=" + text;
    assert a[|key|] == '=' && b[|name|] == '=';
    assert forall i | 0 <= i < |key| :: a[i] == key[i] && a[i] in key;
    assert forall i | 0 <= i < |name| :: b[i] == name[i] && b[i] in name;
    assert |key| == |name|;
    assert key == a[..|key|] && name == b[..|name|];
    assert value == a[|key| + 1..] && text == b[|name| + 1..];
  }

  ghost predicate Tokens(list: seq<Tree>, tokens: seq<string>) {
    |tokens| == |list| && forall i | 0 <= i < |list| :: Token(list[i], tokens[i])
  }

  // ---------- the plan ----------

  // Whatever else is in use, the element takes over an old one with its own token, and none only if none is free.
  ghost predicate TakesOwn(original: seq<Tree>, tokens: seq<string>, t: Tree, token: string)
    requires |tokens| == |original|
  {
    forall used: seq<bool> | |used| == |original| :: OwnOrNone(MatchElement(original, used, t), tokens, used, token)
  }

  ghost predicate OwnOrNone(r: int, tokens: seq<string>, used: seq<bool>, token: string)
    requires |used| == |tokens|
  {
    if 0 <= r < |tokens| then tokens[r] == token
    else token == "" || forall m | 0 <= m < |tokens| && tokens[m] == token :: used[m]
  }

  lemma ElementTakesOwn(original: seq<Tree>, tokens: seq<string>, t: Tree, token: string)
    requires AllWellFormed(original) && Tokens(original, tokens)
    requires Plain(t) && (t.kind == Mapping ==> ScalarKeys(t)) && Token(t, token)
    ensures TakesOwn(original, tokens, t, token)
  {
    forall used: seq<bool> | |used| == |original| ensures OwnOrNone(MatchElement(original, used, t), tokens, used, token) {
      var r := MatchIs(original, used, t);
      if r >= 0 {
        SameToken(original[r], t, tokens[r], token);
        if AlikeTrees(original[r], t) {
          AlikeToken(original[r], t, tokens[r], token);
        }
      } else {
        forall m | 0 <= m < |tokens| && tokens[m] == token && token != "" ensures used[m] {
          SameToken(original[m], t, tokens[m], token);
        }
      }
    }
  }

  // No two elements have the same token.
  ghost predicate Distinct(tokens: seq<string>) {
    forall i, j | 0 <= i < j < |tokens| && tokens[i] == tokens[j] :: tokens[i] == ""
  }

  ghost predicate Free(tokens: seq<string>, used: seq<bool>, wanted: seq<string>)
    requires |used| == |tokens|
  {
    forall m, i | 0 <= m < |tokens| && 0 <= i < |wanted| && tokens[m] == wanted[i] && tokens[m] != "" :: !used[m]
  }

  // The plan takes every element with a token to the old one with that token, and to none if there is none. An
  // element without a token takes over none that has one.
  ghost predicate PlanKept(plan: seq<int>, tokens: seq<string>, wanted: seq<string>) {
    |plan| == |wanted| &&
    (forall i | 0 <= i < |plan| :: plan[i] == -1 || (0 <= plan[i] < |tokens| && tokens[plan[i]] == wanted[i])) &&
    forall i, m | 0 <= i < |plan| && 0 <= m < |tokens| && tokens[m] == wanted[i] && tokens[m] != "" :: plan[i] == m
  }

  lemma {:induction false} PlanTakesOwn(original: seq<Tree>, tokens: seq<string>, used: seq<bool>, src: seq<Tree>,
                                        wanted: seq<string>)
    requires |used| == |original| == |tokens| && |src| == |wanted|
    requires forall i | 0 <= i < |src| :: TakesOwn(original, tokens, src[i], wanted[i])
    requires Distinct(tokens) && Distinct(wanted) && Free(tokens, used, wanted)
    ensures PlanKept(Plan(original, used, src), tokens, wanted)
    decreases |src|
  {
    if src != [] {
      var m := MatchElement(original, used, src[0]);
      var now := if m >= 0 then used[m := true] else used;
      assert TakesOwn(original, tokens, src[0], wanted[0]);
      assert OwnOrNone(m, tokens, used, wanted[0]);
      forall i | 0 <= i < |src[1..]| ensures TakesOwn(original, tokens, src[1..][i], wanted[1..][i]) {
        assert TakesOwn(original, tokens, src[i + 1], wanted[i + 1]);
      }
      PlanTakesOwn(original, tokens, now, src[1..], wanted[1..]);
      PlanMore(m, Plan(original, now, src[1..]), tokens, used, wanted);
    }
  }

  lemma PlanMore(m: int, rest: seq<int>, tokens: seq<string>, used: seq<bool>, wanted: seq<string>)
    requires |used| == |tokens| && wanted != [] && -1 <= m < |tokens| && Distinct(tokens)
    requires OwnOrNone(m, tokens, used, wanted[0]) && Free(tokens, used, wanted)
    requires PlanKept(rest, tokens, wanted[1..])
    ensures PlanKept([m] + rest, tokens, wanted)
  {
    var plan := [m] + rest;
    forall i | 0 <= i < |plan|
      ensures plan[i] == -1 || (0 <= plan[i] < |tokens| && tokens[plan[i]] == wanted[i])
      ensures forall k | 0 <= k < |tokens| && tokens[k] == wanted[i] && tokens[k] != "" :: plan[i] == k
    {
      if i > 0 {
        assert plan[i] == rest[i - 1] && wanted[i] == wanted[1..][i - 1];
      }
    }
  }

  ghost predicate Listed(s: Tree) {
    Plain(s) && forall i | 0 <= i < |s.content| :: s.content[i].Node? && (s.content[i].kind == Mapping ==> ScalarKeys(s.content[i]))
  }

  // Where no token occurs twice in either list, every element of the source takes over the old one with its token.
  lemma PlanIsByToken(original: seq<Tree>, tokens: seq<string>, s: Tree, wanted: seq<string>)
    requires AllWellFormed(original) && Tokens(original, tokens) && Distinct(tokens)
    requires Listed(s) && Tokens(s.content, wanted) && Distinct(wanted)
    ensures PlanKept(Plan(original, NoneUsed(|original|), s.content), tokens, wanted)
  {
    forall i | 0 <= i < |s.content| ensures TakesOwn(original, tokens, s.content[i], wanted[i]) {
      ElementTakesOwn(original, tokens, s.content[i], wanted[i]);
    }
    PlanTakesOwn(original, tokens, NoneUsed(|original|), s.content, wanted);
  }

  // ---------- what becomes of the elements ----------

  lemma {:induction false} PrunedMissingKeeps(d: Tree, s: Tree, keys: Path)
    requires WellFormed(d) && Plain(s) && Resolve(PruneMissing(d, s), keys).Some? && keys != []
    ensures Resolve(PruneMissing(d, s), keys) == Resolve(d, keys)
  {
    if BothMappings(d, s) {
      KeepPairsLookup(d.content, KeptKeys(s.content), keys[0]);
    }
  }

  lemma ElementKeeps(e: Tree, t: Tree, path: Path, keys: Path)
    requires WellFormed(e) && Plain(t)
    ensures Kept(e, t, MergeElement(e, t, path), keys)
  {
    var merged := MergeNode(e, t, path);
    MergeKeeps(e, t, path, keys);
    MergeNodeCovers(e, t, path);
    if keys != [] && Resolve(PruneMissing(merged, t), keys).Some? {
      PrunedMissingKeeps(merged, t, keys);
    }
  }

  // Where no token occurs twice in either list, a merged element is what becomes of the old one with its token. It
  // keeps its style, anchor and comments, and those of everything below it, and takes no key over from another element.
  lemma MergedByToken(prior: seq<Tree>, tokens: seq<string>, s: Tree, wanted: seq<string>, path: Path, i: nat, m: nat)
    requires AllWellFormed(prior) && Tokens(prior, tokens) && Distinct(tokens)
    requires Listed(s) && Tokens(s.content, wanted) && Distinct(wanted)
    requires i < |s.content| && m < |prior| && tokens[m] == wanted[i] && tokens[m] != ""
    ensures MergeElements(prior, s, path)[i] == MergeElement(prior[m], s.content[i], path)
    ensures MergeElements(prior, s, path)[i].Node? && MergeElements(prior, s, path)[i].note == prior[m].note
    ensures forall keys :: Kept(prior[m], s.content[i], MergeElements(prior, s, path)[i], keys)
  {
    PlanIsByToken(prior, tokens, s, wanted);
    var r := MergeElements(prior, s, path)[i];
    forall keys: Path ensures Kept(prior[m], s.content[i], r, keys) {
      ElementKeeps(prior[m], s.content[i], path, keys);
    }
    assert Kept(prior[m], s.content[i], r, []);
  }

  // Merging a list in another order moves every element along with its comments.
  lemma Reordered(prior: seq<Tree>, tokens: seq<string>, s: Tree, order: seq<nat>, path: Path)
    requires AllWellFormed(prior) && Tokens(prior, tokens) && "" !in tokens && Distinct(tokens)
    requires Listed(s) && |order| == |s.content|
    requires forall i | 0 <= i < |order| :: order[i] < |prior| && Token(s.content[i], tokens[order[i]])
    requires forall i, j | 0 <= i < j < |order| :: order[i] != order[j]
    ensures forall i | 0 <= i < |order| ::
      MergeElements(prior, s, path)[i].Node? && MergeElements(prior, s, path)[i].note == prior[order[i]].note
  {
    var wanted := seq(|order|, i requires 0 <= i < |order| => tokens[order[i]]);
    forall i, j | 0 <= i < j < |order| ensures wanted[i] != wanted[j] {
      assert order[i] < order[j] || order[j] < order[i];
    }
    forall i | 0 <= i < |order|
      ensures MergeElements(prior, s, path)[i].Node? && MergeElements(prior, s, path)[i].note == prior[order[i]].note
    {
      MergedByToken(prior, tokens, s, wanted, path, i, order[i]);
    }
  }

  // A list that takes the place of something else is the source's, element by element; a mapping that does has the
  // source's tag. Only a null stays for an empty list.
  lemma Replaced(d: Tree, s: Tree, path: Path)
    requires d.Node? && s.Node? && d.kind != s.kind
    ensures var r := MergeNode(d, s, path);
      (s.kind == Sequence ==>
        if d.kind == Scalar && d.tag == "!!null" && s.content == [] then r == d
        else r.kind == Sequence && r.tag == "!!seq" && r.content == s.content) &&
      (s.kind == Mapping ==> r.kind == Mapping && r.tag == s.tag && r.value == s.value)
  {
    if s.kind == Mapping {
      PairsKeepTag(CopyShallow(d, s), s, 0, path);
    }
  }

  lemma {:induction false} PairsKeepTag(d: Tree, s: Tree, j: nat, path: Path)
    requires d.Node? && s.Node?
    ensures var r := MergePairs(d, s, j, path); r.kind == d.kind && r.tag == d.tag && r.value == d.value
    decreases |s.content| - j
  {
    if IsPair(s.content, j) {
      PairsKeepTag(MergePair(d, s, j, path), s, j + 1, path);
    }
  }
}
