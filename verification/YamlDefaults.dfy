// Which new settings a save leaves out, written out value by value.
module YamlDefaults {
  import opened Text
  import opened YamlTree

  // ---------- the values that are not written as new settings ----------

  predicate ZeroScalar(tag: string, value: string) {
    (tag == "!!bool" && value == "false")
    || (tag in {"!!int", "!!float"} && value in {"0", "0.0"})
    || (tag == "!!str" && value == "")
    || tag == "!!null"
  }

  // The defaults that are no zero values, by their dotted paths.
  predicate NamedScalar(full: string, tag: string, value: string) {
    (full == "pprof.addr" && tag == "!!str" && value == DEFAULT_PPROF_ADDR)
    || (full == "remote-management.panel-github-repository" && tag == "!!str" && value == DEFAULT_PANEL_REPOSITORY)
    || (full == "plugins.dir" && tag == "!!str" && value == "plugins")
    || (full == "routing.strategy" && tag == "!!str" && value == "round-robin")
    || (full == "error-logs-max-files" && tag == "!!int" && value == "10")
  }

  // Every leaf of t is a zero scalar.
  ghost predicate AllZero(t: Tree) {
    t.Null? ||
    match t.kind
    case Scalar => ZeroScalar(t.tag, t.value)
    case Sequence => forall i | 0 <= i < |t.content| :: AllZero(t.content[i])
    case Mapping => forall j: nat | IsPair(t.content, j) :: AllZero(t.content[2 * j + 1])
    case _ => false
  }

  // Every leaf of t is a zero scalar, or a default named by the keys that lead to it. What stands in a list
  // has no key of its own, so a scalar there is not named.
  ghost predicate LeftOut(path: Path, t: Tree)
    decreases t, 0
  {
    t.Null? ||
    match t.kind
    case Scalar => ZeroScalar(t.tag, t.value) || (path != [] && NamedScalar(Join(path, "."), t.tag, t.value))
    case Sequence => forall i | 0 <= i < |t.content| :: LeftOutOfList(path, t.content[i])
    case Mapping => forall j: nat | IsPair(t.content, j) ::
      t.content[2 * j].Null? || LeftOut(path + [t.content[2 * j].value], t.content[2 * j + 1])
    case _ => false
  }

  ghost predicate LeftOutOfList(path: Path, t: Tree)
    decreases t, 1
  {
    if t.Node? && t.kind == Scalar then ZeroScalar(t.tag, t.value) else LeftOut(path, t)
  }

  // The same, but every leaf in a list is a zero scalar.
  ghost predicate Vanishes(path: Path, t: Tree)
    decreases t
  {
    t.Null? ||
    match t.kind
    case Scalar => ZeroScalar(t.tag, t.value) || (path != [] && NamedScalar(Join(path, "."), t.tag, t.value))
    case Sequence => AllZero(t)
    case Mapping => forall j: nat | IsPair(t.content, j) ::
      t.content[2 * j].Null? || Vanishes(path + [t.content[2 * j].value], t.content[2 * j + 1])
    case _ => false
  }

  lemma {:induction false} ZeroIff(t: Tree)
    ensures IsZeroValue(t) <==> AllZero(t)
    decreases t
  {
    if t.Node? && t.kind == Sequence {
      forall i | 0 <= i < |t.content| ensures IsZeroValue(t.content[i]) <==> AllZero(t.content[i]) {
        ZeroIff(t.content[i]);
      }
    } else if t.Node? && t.kind == Mapping {
      forall j: nat | IsPair(t.content, j) ensures IsZeroValue(t.content[2 * j + 1]) <==> AllZero(t.content[2 * j + 1]) {
        ZeroIff(t.content[2 * j + 1]);
      }
      ZeroValues(t);
    }
  }

  lemma ZeroValues(t: Tree)
    requires t.Node? && t.kind == Mapping
    ensures IsZeroValue(t) <==> forall j: nat | IsPair(t.content, j) :: IsZeroValue(t.content[2 * j + 1])
  {
    if forall j: nat | IsPair(t.content, j) :: IsZeroValue(t.content[2 * j + 1]) {
      forall i | 0 <= i < |t.content| && i % 2 == 1 ensures IsZeroValue(t.content[i]) {
        assert IsPair(t.content, i / 2) && 2 * (i / 2) + 1 == i;
      }
    }
  }

  // A pruned mapping whose values are all zero is empty.
  lemma {:induction false} ZeroPairsVanish(path: Path, t: Tree, j: nat)
    requires t.Node? && t.kind == Mapping && IsZeroValue(t)
    ensures PrunePairs(path, t, j) == []
    decreases |t.content| - j
  {
    if IsPair(t.content, j) {
      assert IsZeroValue(t.content[2 * j + 1]);
      assert PrunePair(path, t, j) == [];
      ZeroPairsVanish(path, t, j + 1);
    }
  }

  lemma {:induction false} PruneKeepsZero(path: Path, t: Tree)
    requires IsZeroValue(t)
    ensures IsZeroValue(Prune(path, t))
    decreases t
  {
    if t.Node? && t.kind == Mapping {
      ZeroPairsVanish(path, t, 0);
    } else if t.Node? && t.kind == Sequence {
      forall i | 0 <= i < |t.content| ensures IsZeroValue(Prune(path, t.content[i])) {
        PruneKeepsZero(path, t.content[i]);
      }
    }
  }

  // Pruning keeps known-default values known-default.
  lemma PruneKeepsDefault(path: Path, t: Tree)
    requires IsKnownDefault(path, t)
    ensures IsKnownDefault(path, Prune(path, t))
  {
    if IsZeroValue(t) {
      PruneKeepsZero(path, t);
    }
  }

  lemma NamedIff(path: Path, t: Tree)
    ensures IsNamedDefault(path, t) <==>
      t.Node? && t.kind == Scalar && path != [] && NamedScalar(Join(path, "."), t.tag, t.value)
  {
  }

  // ---------- which pairs of a new mapping are dropped ----------

  // Nothing is left of pair j, or what is left is zero.
  ghost predicate PairGone(path: Path, t: Tree, j: nat)
    requires t.Node? && IsPair(t.content, j)
  {
    t.content[2 * j].Null? || t.content[2 * j + 1].Null? || LeftOut(path + [t.content[2 * j].value], t.content[2 * j + 1])
  }

  lemma {:induction false} PairsZeroIff(path: Path, t: Tree, j: nat)
    requires t.Node? && t.kind == Mapping
    requires forall i: nat | j <= i && IsPair(t.content, i) :: ZeroPair(PrunePair(path, t, i)) <==> PairGone(path, t, i)
    ensures ZeroPairs(PrunePairs(path, t, j)) <==> forall i: nat | j <= i && IsPair(t.content, i) :: PairGone(path, t, i)
    decreases |t.content| - j
  {
    if IsPair(t.content, j) {
      PairsZeroIff(path, t, j + 1);
      ZeroPairsMore(PrunePair(path, t, j), PrunePairs(path, t, j + 1));
    }
  }

  predicate ZeroPair(pair: seq<Tree>) {
    pair == [] || (|pair| == 2 && IsZeroValue(pair[1]))
  }

  ghost predicate ZeroPairs(content: seq<Tree>) {
    forall j: nat | IsPair(content, j) :: IsZeroValue(content[2 * j + 1])
  }

  lemma ZeroPairsMore(pair: seq<Tree>, rest: seq<Tree>)
    requires pair == [] || |pair| == 2
    ensures ZeroPairs(pair + rest) <==> ZeroPair(pair) && ZeroPairs(rest)
  {
    if pair == [] {
      assert pair + rest == rest;
    } else {
      var all := pair + rest;
      assert forall j: nat :: IsPair(all, j + 1) == IsPair(rest, j);
      assert forall j: nat | IsPair(rest, j) :: all[2 * (j + 1) + 1] == rest[2 * j + 1];
      if ZeroPairs(all) {
        assert IsPair(all, 0);
        forall j: nat | IsPair(rest, j) ensures IsZeroValue(rest[2 * j + 1]) {
          assert IsPair(all, j + 1);
        }
      }
      if ZeroPair(pair) && ZeroPairs(rest) {
        forall j: nat | IsPair(all, j) ensures IsZeroValue(all[2 * j + 1]) {
          if j > 0 {
            assert IsPair(rest, j - 1);
          }
        }
      }
    }
  }

  lemma PrunedList(path: Path, t: Tree)
    requires t.Node? && t.kind == Sequence
    ensures IsZeroValue(Prune(path, t)) <==> forall i | 0 <= i < |t.content| :: IsZeroValue(Prune(path, t.content[i]))
  {
    var content := Prune(path, t).content;
    assert forall i | 0 <= i < |t.content| :: content[i] == Prune(path, t.content[i]);
  }

  // What is left of a new value is a default exactly when the value is left out, whatever the tree.
  lemma {:induction false} DefaultIff(path: Path, t: Tree)
    ensures IsKnownDefault(path, Prune(path, t)) <==> LeftOut(path, t)
    decreases t, 1
  {
    ZeroIff(t);
    NamedIff(path, Prune(path, t));
    if t.Node? && t.kind == Mapping {
      forall j: nat | IsPair(t.content, j) ensures ZeroPair(PrunePair(path, t, j)) <==> PairGone(path, t, j) {
        PairGoneIff(path, t, j);
      }
      PairsZeroIff(path, t, 0);
      ZeroValues(Prune(path, t));
      assert (forall j: nat | IsPair(t.content, j) :: PairGone(path, t, j)) <==> LeftOut(path, t);
    } else if t.Node? && t.kind == Sequence {
      forall i | 0 <= i < |t.content| ensures IsZeroValue(Prune(path, t.content[i])) <==> LeftOutOfList(path, t.content[i]) {
        ListElementIff(path, t.content[i]);
      }
      PrunedList(path, t);
    }
  }

  lemma {:induction false} ListElementIff(path: Path, t: Tree)
    ensures IsZeroValue(Prune(path, t)) <==> LeftOutOfList(path, t)
    decreases t, 2
  {
    if t.Node? && t.kind == Scalar {
      ZeroIff(t);
    } else {
      DefaultIff(path, t);
      NamedIff(path, Prune(path, t));
    }
  }

  lemma {:induction false} PairGoneIff(path: Path, t: Tree, j: nat)
    requires t.Node? && t.kind == Mapping && IsPair(t.content, j)
    ensures ZeroPair(PrunePair(path, t, j)) <==> PairGone(path, t, j)
    decreases t, 0
  {
    var key, value := t.content[2 * j], t.content[2 * j + 1];
    if key.Node? && value.Node? {
      var child := path + [key.value];
      DefaultIff(child, value);
      NamedIff(child, Prune(child, value));
      if IsKnownDefault(child, value) {
        PruneKeepsDefault(child, value);
      }
    }
  }

  // Exactly the pairs whose value vanishes are dropped from a new mapping.
  lemma {:induction false} DroppedIff(path: Path, t: Tree, j: nat)
    requires t.Node? && t.kind == Mapping && IsPair(t.content, j)
    ensures PrunePair(path, t, j) == [] <==>
      t.content[2 * j].Null? || Vanishes(path + [t.content[2 * j].value], t.content[2 * j + 1])
    decreases t, 0
  {
    var key, value := t.content[2 * j], t.content[2 * j + 1];
    if key.Node? && value.Node? {
      VanishesIff(path + [key.value], value);
    }
  }

  lemma {:induction false} VanishesIff(path: Path, t: Tree)
    requires t.Node?
    ensures IsKnownDefault(path, t) || IsEmptyCollection(Prune(path, t)) <==> Vanishes(path, t)
    decreases t, 1
  {
    ZeroIff(t);
    NamedIff(path, t);
    if t.kind == Mapping {
      forall j: nat | IsPair(t.content, j)
        ensures PrunePair(path, t, j) == [] <==>
          t.content[2 * j].Null? || Vanishes(path + [t.content[2 * j].value], t.content[2 * j + 1])
      {
        DroppedIff(path, t, j);
      }
      AllDropped(path, t, 0);
      if IsZeroValue(t) {
        ZeroPairsVanish(path, t, 0);
      }
    }
  }

  lemma {:induction false} AllDropped(path: Path, t: Tree, j: nat)
    requires t.Node?
    ensures PrunePairs(path, t, j) == [] <==> forall i: nat | j <= i && IsPair(t.content, i) :: PrunePair(path, t, i) == []
    decreases |t.content| - j
  {
    if IsPair(t.content, j) {
      AllDropped(path, t, j + 1);
    }
  }
}
