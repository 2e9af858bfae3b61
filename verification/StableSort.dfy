// A stable sort. It has one result for a given order: the one that inserts each element behind those it is not
// strictly before.
module StableSort {

  function Insert<T>(before: (T, T) -> bool, sorted: seq<T>, x: T): seq<T> {
    if sorted != [] && before(x, sorted[|sorted| - 1]) then
      Insert(before, sorted[..|sorted| - 1], x) + [sorted[|sorted| - 1]]
    else sorted + [x]
  }

  function Sort<T>(before: (T, T) -> bool, s: seq<T>): seq<T> {
    if s == [] then [] else Insert(before, Sort(before, s[..|s| - 1]), s[|s| - 1])
  }

  // ---------- the same elements ----------

  predicate DistinctBy<T, K(==)>(key: T -> K, s: seq<T>) {
    forall i, j :: 0 <= i < j < |s| ==> key(s[i]) != key(s[j])
  }

  lemma {:induction false} InsertMembers<T(!new)>(before: (T, T) -> bool, sorted: seq<T>, x: T)
    ensures forall y :: y in Insert(before, sorted, x) <==> y in sorted || y == x
    ensures |Insert(before, sorted, x)| == |sorted| + 1
  {
    if sorted != [] && before(x, sorted[|sorted| - 1]) {
      assert sorted == sorted[..|sorted| - 1] + [sorted[|sorted| - 1]];
      InsertMembers(before, sorted[..|sorted| - 1], x);
    }
  }

  lemma {:induction false} SortMembers<T(!new)>(before: (T, T) -> bool, s: seq<T>)
    ensures forall y :: y in Sort(before, s) <==> y in s
    ensures |Sort(before, s)| == |s|
  {
    if s != [] {
      assert s == s[..|s| - 1] + [s[|s| - 1]];
      SortMembers(before, s[..|s| - 1]);
      InsertMembers(before, Sort(before, s[..|s| - 1]), s[|s| - 1]);
    }
  }

  lemma {:induction false} InsertMultiset<T(!new)>(before: (T, T) -> bool, sorted: seq<T>, x: T)
    ensures multiset(Insert(before, sorted, x)) == multiset(sorted) + multiset{x}
  {
    if sorted != [] && before(x, sorted[|sorted| - 1]) {
      assert sorted == sorted[..|sorted| - 1] + [sorted[|sorted| - 1]];
      InsertMultiset(before, sorted[..|sorted| - 1], x);
    }
  }

  lemma {:induction false} SortMultiset<T(!new)>(before: (T, T) -> bool, s: seq<T>)
    ensures multiset(Sort(before, s)) == multiset(s)
  {
    if s != [] {
      assert s == s[..|s| - 1] + [s[|s| - 1]];
      SortMultiset(before, s[..|s| - 1]);
      InsertMultiset(before, Sort(before, s[..|s| - 1]), s[|s| - 1]);
    }
  }

  lemma {:induction false} InsertDistinct<T(!new), K>(before: (T, T) -> bool, key: T -> K, sorted: seq<T>, x: T)
    requires DistinctBy(key, sorted) && forall y :: y in sorted ==> key(y) != key(x)
    ensures DistinctBy(key, Insert(before, sorted, x))
  {
    if sorted != [] && before(x, sorted[|sorted| - 1]) {
      var init, last := sorted[..|sorted| - 1], sorted[|sorted| - 1];
      assert sorted == init + [last];
      InsertDistinct(before, key, init, x);
      InsertMembers(before, init, x);
      assert sorted[|sorted| - 1] in sorted;
      forall y | y in Insert(before, init, x) ensures key(y) != key(last) {
        if y != x {
          assert y in init;
          var i :| 0 <= i < |init| && init[i] == y;
          assert sorted[i] == y;
        }
      }
    }
  }

  lemma {:induction false} SortDistinct<T(!new), K>(before: (T, T) -> bool, key: T -> K, s: seq<T>)
    requires DistinctBy(key, s)
    ensures DistinctBy(key, Sort(before, s))
  {
    if s != [] {
      var init, last := s[..|s| - 1], s[|s| - 1];
      assert s == init + [last];
      SortDistinct(before, key, init);
      SortMembers(before, init);
      forall y | y in Sort(before, init) ensures key(y) != key(last) {
        assert y in init;
        var i :| 0 <= i < |init| && init[i] == y;
        assert s[i] == y;
      }
      InsertDistinct(before, key, Sort(before, init), last);
    }
  }

  // ---------- their order ----------

  ghost predicate WeakOrder<T(!new)>(before: (T, T) -> bool) {
    (forall a, b :: before(a, b) ==> !before(b, a)) &&
    (forall a, b, c :: !before(a, b) && !before(b, c) ==> !before(a, c))
  }

  predicate Sorted<T>(before: (T, T) -> bool, s: seq<T>) {
    forall i, j :: 0 <= i < j < |s| ==> !before(s[j], s[i])
  }

  lemma {:induction false} InsertSorts<T(!new)>(before: (T, T) -> bool, sorted: seq<T>, x: T)
    requires WeakOrder(before) && Sorted(before, sorted)
    ensures Sorted(before, Insert(before, sorted, x))
  {
    if sorted != [] {
      var init, last := sorted[..|sorted| - 1], sorted[|sorted| - 1];
      assert sorted == init + [last];
      if before(x, last) {
        InsertSorts(before, init, x);
        InsertMembers(before, init, x);
        assert forall y :: y in Insert(before, init, x) ==> !before(last, y);
      } else {
        assert forall y :: y in init ==> !before(last, y) && !before(x, y);
      }
    }
  }

  lemma {:induction false} SortSorts<T(!new)>(before: (T, T) -> bool, s: seq<T>)
    requires WeakOrder(before)
    ensures Sorted(before, Sort(before, s))
  {
    if s != [] {
      SortSorts(before, s[..|s| - 1]);
      InsertSorts(before, Sort(before, s[..|s| - 1]), s[|s| - 1]);
    }
  }
}
