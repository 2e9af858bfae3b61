// The reasoning replay caches: bounded maps with sliding expiry and eviction of the oldest entries. The three
// caches of the repository have the same code; they differ in how items are normalised.
module ReplayCache {
  import opened StableSort
  import opened Text
  import S = SlidingCell

  // Seconds
  const TTL := 3600

  const MAX_ENTRIES := 10240
  const EVICT_BATCH := 128

  // What the cache holds for a key: items, and when they were last stored or looked up.
  type Cell = S.Cell<seq<string>>

  type Cells = map<string, Cell>

  // ---------- the operations as functions ----------

  predicate Expired(c: Cell, now: int) {
    S.Expired(TTL, c, now)
  }

  function Found(cells: Cells, key: string, now: int): Option<seq<string>> {
    if key in cells && !Expired(cells[key], now) then Some(cells[key].value) else None
  }

  function Touched(cells: Cells, key: string, now: int): Cells {
    if key !in cells then cells
    else if Expired(cells[key], now) then cells - {key}
    else cells[key := cells[key].(stamp := now)]
  }

  function Purged(cells: Cells, now: int): Cells {
    map key | key in cells && !Expired(cells[key], now) :: cells[key]
  }

  // Removing count entries, none of them newer than an entry that stays
  ghost predicate EvictsOldest(cells: Cells, removed: set<string>, count: nat) {
    removed <= cells.Keys && |removed| == (if count <= |cells| then count else |cells|) &&
    forall r, s :: r in removed && s in cells && s !in removed ==> cells[r].stamp <= cells[s].stamp
  }

  ghost predicate Evicts(grown: Cells, evicted: set<string>) {
    if |grown| > MAX_ENTRIES then EvictsOldest(grown, evicted, EVICT_BATCH) else evicted == {}
  }

  // After a store, the cache is cut down when it has grown too big.
  ghost predicate Stores(cells: Cells, key: string, items: seq<string>, now: int, evicted: set<string>) {
    Evicts(cells[key := S.Cell(items, now)], evicted)
  }

  function Stored(cells: Cells, key: string, items: seq<string>, now: int, evicted: set<string>): Cells {
    cells[key := S.Cell(items, now)] - evicted
  }

  ghost predicate StoresAs(cells: Cells, key: string, items: seq<string>, now: int, evicted: set<string>, r: Cells) {
    Stores(cells, key, items, now, evicted) && r == Stored(cells, key, items, now, evicted)
  }

  lemma StoredIs(cells: Cells, key: string, items: seq<string>, now: int, grown: Cells, evicted: set<string>, r: Cells)
    requires grown == cells[key := S.Cell(items, now)] && Evicts(grown, evicted) && r == grown - evicted
    ensures StoresAs(cells, key, items, now, evicted, r)
  {
  }

  // ---------- sorting by age ----------

  datatype Candidate = Candidate(key: string, stamp: int)

  function KeysOf(candidates: seq<Candidate>): set<string> {
    set c | c in candidates :: c.key
  }

  // Every entry once
  ghost predicate Lists(candidates: seq<Candidate>, cells: Cells) {
    DistinctKeys(candidates) && KeysOf(candidates) == cells.Keys &&
    forall c :: c in candidates ==> c.key in cells && c.stamp == cells[c.key].stamp
  }

  predicate DistinctKeys(candidates: seq<Candidate>) {
    forall i, j :: 0 <= i < j < |candidates| ==> candidates[i].key != candidates[j].key
  }

  predicate Older(a: Candidate, b: Candidate) {
    a.stamp < b.stamp
  }

  // A sort by timestamp; where timestamps are equal any order will do.
  function SortByStamp(candidates: seq<Candidate>): seq<Candidate> {
    Sort(Older, candidates)
  }

  lemma SortLists(candidates: seq<Candidate>, cells: Cells)
    requires Lists(candidates, cells)
    ensures Lists(SortByStamp(candidates), cells) && Sorted(Older, SortByStamp(candidates))
  {
    var key := (c: Candidate) => c.key;
    assert DistinctBy(key, candidates);
    SortDistinct(Older, key, candidates);
    SortMembers(Older, candidates);
    SortSorts(Older, candidates);
    assert forall i :: 0 <= i < |candidates| ==> key(SortByStamp(candidates)[i]) == SortByStamp(candidates)[i].key;
  }

  lemma ListsMore(candidates: seq<Candidate>, cells: Cells, keys: set<string>, key: string)
    requires Lists(candidates, cells - keys) && key in keys && key in cells
    ensures Lists(candidates + [Candidate(key, cells[key].stamp)], cells - (keys - {key}))
  {
    var more := candidates + [Candidate(key, cells[key].stamp)];
    assert KeysOf(more) == KeysOf(candidates) + {key};
    assert forall c :: c in candidates ==> c.key in KeysOf(candidates);
  }

  lemma {:induction false} KeysCount(candidates: seq<Candidate>)
    requires DistinctKeys(candidates)
    ensures |KeysOf(candidates)| == |candidates|
  {
    if candidates != [] {
      var init, last := candidates[..|candidates| - 1], candidates[|candidates| - 1];
      assert candidates == init + [last];
      KeysCount(init);
      assert last.key !in KeysOf(init);
      assert KeysOf(candidates) == KeysOf(init) + {last.key};
    }
  }

  lemma FirstAreCounted(sorted: seq<Candidate>, cells: Cells, n: nat)
    requires Lists(sorted, cells) && n <= |sorted|
    ensures KeysOf(sorted[..n]) <= cells.Keys && |KeysOf(sorted[..n])| == n && |cells| == |sorted|
  {
    KeysCount(sorted);
    KeysCount(sorted[..n]);
    assert |cells.Keys| == |sorted|;
    forall r | r in KeysOf(sorted[..n]) ensures r in KeysOf(sorted) {
      var i :| 0 <= i < n && sorted[..n][i].key == r;
      assert sorted[i] in sorted;
    }
  }

  lemma KeyAmongFirst(sorted: seq<Candidate>, n: nat, j: nat)
    requires n <= |sorted| && j < |sorted|
    ensures j < n ==> sorted[j].key in KeysOf(sorted[..n])
  {
    if j < n {
      assert sorted[..n][j] in sorted[..n];
    }
  }

  lemma FirstAreOlder(sorted: seq<Candidate>, cells: Cells, n: nat, r: string, s: string)
    requires Lists(sorted, cells) && Sorted(Older, sorted) && n <= |sorted|
    requires r in KeysOf(sorted[..n]) && s in cells && s !in KeysOf(sorted[..n])
    ensures r in cells && cells[r].stamp <= cells[s].stamp
  {
    var i :| 0 <= i < n && sorted[i].key == r;
    assert s in KeysOf(sorted);
    var j :| 0 <= j < |sorted| && sorted[j].key == s;
    KeyAmongFirst(sorted, n, j);
    assert sorted[i] in sorted && sorted[j] in sorted;
  }

  // The first entries of the sorted list are the oldest ones.
  lemma FirstAreOldest(sorted: seq<Candidate>, cells: Cells, count: nat)
    requires Lists(sorted, cells) && Sorted(Older, sorted)
    ensures EvictsOldest(cells, KeysOf(sorted[..if count > |sorted| then |sorted| else count]), count)
  {
    var n := if count > |sorted| then |sorted| else count;
    FirstAreCounted(sorted, cells, n);
    forall r, s | r in KeysOf(sorted[..n]) && s in cells && s !in KeysOf(sorted[..n]) ensures cells[r].stamp <= cells[s].stamp {
      FirstAreOlder(sorted, cells, n, r, s);
    }
  }

  // ---------- the cache ----------

  // Buffers are arrays; a cached buffer is never handed out.
  datatype Entry = Entry(items: seq<array<char>>, stamp: int)

  class Cache {
    // How an item is normalised, if it can be.
    const normalize: string -> Option<string>
    var entries: map<string, Entry>

    constructor (normalize: string -> Option<string>)
      ensures entries == map[] && this.normalize == normalize && Contents() == map[]
    {
      this.normalize, entries := normalize, map[];
    }

    ghost function Buffers(): set<array<char>>
      reads this
    {
      set key, a | key in entries && a in entries[key].items :: a
    }

    ghost function Contents(): Cells
      reads this, Buffers()
    {
      map key | key in entries ::
        assert forall a :: a in entries[key].items ==> a in Buffers();
        CellOf(entries[key])
    }

    ghost function CellOf(e: Entry): Cell
      reads e.items
    {
      S.Cell(Texts(e.items), e.stamp)
    }

    ghost function Texts(items: seq<array<char>>): seq<string>
      reads items
    {
      seq(|items|, i requires 0 <= i < |items| reads items => items[i][..])
    }

    // The items that normalise, each in a buffer of its own
    method NormalizeItems(items: seq<array<char>>) returns (normalized: seq<array<char>>)
      ensures forall a :: a in normalized ==> fresh(a)
      ensures Texts(normalized) == Normalized(normalize, old(Texts(items)))
    {
      normalized := [];
      for i := 0 to |items|
        invariant forall a :: a in normalized ==> fresh(a)
        invariant Texts(normalized) == Normalized(normalize, old(Texts(items))[..i])
      {
        assert old(Texts(items))[..i + 1][..i] == old(Texts(items))[..i];
        var text := normalize(items[i][..]);
        if text.Some? {
          var buffer := Buffer(text.value);
          normalized := normalized + [buffer];
        }
      }
      assert old(Texts(items))[..|items|] == old(Texts(items));
    }

    static method Buffer(text: string) returns (a: array<char>)
      ensures fresh(a) && a[..] == text
    {
      a := new char[|text|](i requires 0 <= i < |text| => text[i]);
    }

    // cloneCodexReasoningReplayItems
    method Clone(items: seq<array<char>>) returns (cloned: seq<array<char>>)
      ensures forall a :: a in cloned ==> fresh(a)
      ensures Texts(cloned) == Texts(items)
    {
      cloned := [];
      for i := 0 to |items|
        invariant forall a :: a in cloned ==> fresh(a)
        invariant Texts(cloned) == Texts(items)[..i]
      {
        var buffer := Buffer(items[i][..]);
        cloned := cloned + [buffer];
      }
    }

    // A lookup refreshes what it finds, drops what has expired, and hands out copies.
    method Get(key: string, now: int) returns (items: seq<array<char>>, ok: bool)
      modifies this
      ensures ok == Found(old(Contents()), key, now).Some?
      ensures ok ==> Texts(items) == Found(old(Contents()), key, now).value
      ensures Contents() == Touched(old(Contents()), key, now)
      ensures forall a :: a in items ==> fresh(a)
      ensures Buffers() <= old(Buffers())
    {
      if key !in entries {
        return [], false;
      }
      var entry := entries[key];
      if now - entry.stamp > TTL {
        entries := entries - {key};
        return [], false;
      }
      entries := entries[key := entry.(stamp := now)];
      items := Clone(entry.items);
      ok := true;
    }

    // CacheCodexReasoningReplayItemsBestEffort, without a home
    method Set(key: string, items: seq<array<char>>, now: int) returns (ok: bool, ghost evicted: set<string>)
      modifies this
      ensures ok == (key != "" && Normalized(normalize, old(Texts(items))) != [])
      ensures !ok ==> entries == old(entries)
      ensures ok ==> StoresAs(old(Contents()), key, Normalized(normalize, old(Texts(items))), now, evicted, Contents())
      ensures forall a :: a in Buffers() ==> a in old(Buffers()) || fresh(a)
    {
      if key == "" {
        return false, {};
      }
      var normalized := NormalizeItems(items);
      if |normalized| == 0 {
        return false, {};
      }
      evicted := Put(key, normalized, now);
      ok := true;
    }

    method Put(key: string, items: seq<array<char>>, now: int) returns (ghost evicted: set<string>)
      modifies this
      ensures StoresAs(old(Contents()), key, Texts(items), now, evicted, Contents())
      ensures Buffers() <= old(Buffers()) + set a | a in items
    {
      ghost var cells, texts := Contents(), Texts(items);
      Insert(key, items, now);
      ghost var grown := Contents();
      evicted := EvictGrown();
      StoredIs(cells, key, texts, now, grown, evicted, Contents());
    }

    method EvictGrown() returns (ghost evicted: set<string>)
      requires |entries| == |Contents()|
      modifies this
      ensures Evicts(old(Contents()), evicted)
      ensures Contents() == old(Contents()) - evicted && Buffers() <= old(Buffers())
    {
      evicted := {};
      assert Contents() - {} == Contents();
      if |entries| > MAX_ENTRIES {
        evicted := EvictOldest(EVICT_BATCH);
      }
    }

    method Insert(key: string, items: seq<array<char>>, now: int)
      modifies this
      ensures Contents() == old(Contents())[key := S.Cell(Texts(items), now)]
      ensures |entries| == |Contents()|
      ensures Buffers() <= old(Buffers()) + set a | a in items
    {
      entries := entries[key := Entry(items, now)];
      assert Contents().Keys == entries.Keys;
      assert |Contents()| == |Contents().Keys| == |entries.Keys|;
    }

    method EvictOldest(count: nat) returns (ghost removed: set<string>)
      modifies this
      ensures EvictsOldest(old(Contents()), removed, count)
      ensures Contents() == old(Contents()) - removed && Buffers() <= old(Buffers())
    {
      var candidates := Candidates();
      var sorted := SortByStamp(candidates);
      SortLists(candidates, Contents());
      FirstAreOldest(sorted, Contents(), count);
      var n := if count > |sorted| then |sorted| else count;
      removed := KeysOf(sorted[..n]);
      DeleteAll(sorted[..n]);
    }

    method DeleteAll(candidates: seq<Candidate>)
      modifies this
      ensures Contents() == old(Contents()) - KeysOf(candidates) && Buffers() <= old(Buffers())
    {
      assert entries - KeysOf(candidates[..0]) == entries;
      for i := 0 to |candidates|
        invariant entries == old(entries) - KeysOf(candidates[..i])
      {
        assert candidates[..i + 1] == candidates[..i] + [candidates[i]];
        assert KeysOf(candidates[..i + 1]) == KeysOf(candidates[..i]) + {candidates[i].key};
        entries := entries - {candidates[i].key};
      }
      assert candidates[..|candidates|] == candidates;
    }

    // The entries, in the map's own order
    method Candidates() returns (candidates: seq<Candidate>)
      ensures Lists(candidates, Contents())
    {
      candidates := [];
      var keys := entries.Keys;
      ghost var cells := Contents();
      assert cells.Keys == entries.Keys;
      while keys != {}
        invariant keys <= entries.Keys && Lists(candidates, cells - keys)
      {
        var key :| key in keys;
        ListsMore(candidates, cells, keys, key);
        candidates := candidates + [Candidate(key, entries[key].stamp)];
        keys := keys - {key};
      }
      assert cells - {} == cells;
    }

    method Purge(now: int)
      modifies this
      ensures Contents() == Purged(old(Contents()), now) && Buffers() <= old(Buffers())
    {
      var keys := entries.Keys;
      while keys != {}
        invariant keys <= old(entries).Keys
        invariant entries == map key | key in old(entries) && (key in keys || now - old(entries)[key].stamp <= TTL) :: old(entries)[key]
      {
        var key :| key in keys;
        if now - entries[key].stamp > TTL {
          entries := entries - {key};
        }
        keys := keys - {key};
      }
    }

    method Delete(key: string)
      modifies this
      ensures Contents() == old(Contents()) - {key} && Buffers() <= old(Buffers())
    {
      entries := entries - {key};
    }

    method Clear()
      modifies this
      ensures Contents() == map[] && Buffers() == {}
    {
      entries := map[];
    }
  }

  function Normalized(normalize: string -> Option<string>, items: seq<string>): seq<string> {
    if items == [] then []
    else
      var before, last := Normalized(normalize, items[..|items| - 1]), normalize(items[|items| - 1]);
      if last.Some? then before + [last.value] else before
  }

  // An item counts if it normalises, and then as its normal form; and items count one by one, in their order.
  lemma {:induction false} NormalizedAdds(normalize: string -> Option<string>, a: seq<string>, b: seq<string>, item: string)
    ensures Normalized(normalize, [item]) == if normalize(item).Some? then [normalize(item).value] else []
    ensures Normalized(normalize, a + b) == Normalized(normalize, a) + Normalized(normalize, b)
    decreases |b|
  {
    assert [item][..0] == [];
    if b == [] {
      assert a + b == a;
    } else {
      assert (a + b)[..|a + b| - 1] == a + b[..|b| - 1];
      NormalizedAdds(normalize, a, b[..|b| - 1], item);
    }
  }
}
