// Over any run of a replay cache, with a clock that does not go back: what a lookup finds is what was stored
// last, unless that was deleted, evicted, or left unused for longer than the TTL.
module ReplayHistory {
  import opened Text
  import opened ReplayCache
  import S = SlidingCell

  datatype Op =
    | Store(key: string, items: seq<string>, at: nat, evicted: set<string>)
    | Lookup(key: string, at: nat)
    | Remove(key: string, at: nat)
    | ClearAll(at: nat)
    | PurgeAll(at: nat)

  function Step(cells: Cells, op: Op): Cells {
    match op
    case Store(key, items, at, evicted) => Stored(cells, key, items, at, evicted)
    case Lookup(key, at) => Touched(cells, key, at)
    case Remove(key, _) => cells - {key}
    case ClearAll(_) => map[]
    case PurgeAll(at) => Purged(cells, at)
  }

  function After(ops: seq<Op>): Cells {
    if ops == [] then map[] else Step(After(ops[..|ops| - 1]), ops[|ops| - 1])
  }

  function Clock(ops: seq<Op>): nat {
    if ops == [] then 0 else ops[|ops| - 1].at
  }

  // The clock does not go back, and each store evicts what the cache evicts.
  ghost predicate Legal(ops: seq<Op>) {
    ops == [] ||
    (var before, op := ops[..|ops| - 1], ops[|ops| - 1];
     Legal(before) && op.at >= Clock(before) &&
     (op.Store? ==> Stores(After(before), op.key, op.items, op.at, op.evicted)))
  }

  // ---------- one key ----------

  // What concerns one key: it was stored, looked up, or dropped by deletion, clearing or eviction. Purges and
  // other keys are none of its concern.
  type Use = S.Use<seq<string>>

  function UsesBy(op: Op, key: string): seq<Use> {
    match op
    case Store(k, items, at, evicted) =>
      if key in evicted then [S.Drop] else if k == key then [S.Put(items, at)] else []
    case Lookup(k, at) => if k == key then [S.Look(at)] else []
    case Remove(k, _) => if k == key then [S.Drop] else []
    case ClearAll(_) => [S.Drop]
    case PurgeAll(_) => []
  }

  function UsesOf(ops: seq<Op>, key: string): seq<Use> {
    if ops == [] then [] else UsesOf(ops[..|ops| - 1], key) + UsesBy(ops[|ops| - 1], key)
  }

  // ---------- refinement ----------

  function CellAt(cells: Cells, key: string): Option<Cell> {
    if key in cells then Some(cells[key]) else None
  }

  lemma StepAgrees(cells: Cells, op: Op, key: string, ideal: Option<Cell>, clock: int)
    requires S.Agrees(TTL, CellAt(cells, key), ideal, clock) && op.at >= clock
    ensures var uses := UsesBy(op, key);
      S.Agrees(TTL, CellAt(Step(cells, op), key), if uses == [] then ideal else S.Next(TTL, ideal, uses[0]), op.at)
  {
  }

  lemma {:induction false} RunAgrees(ops: seq<Op>, key: string)
    requires Legal(ops)
    ensures S.Agrees(TTL, CellAt(After(ops), key), S.Ideal(TTL, UsesOf(ops, key)), Clock(ops))
    decreases |ops|
  {
    if ops != [] {
      var before, op := ops[..|ops| - 1], ops[|ops| - 1];
      RunAgrees(before, key);
      StepAgrees(After(before), op, key, S.Ideal(TTL, UsesOf(before, key)), Clock(before));
      var uses, more := UsesOf(before, key), UsesBy(op, key);
      if more == [] {
        assert uses + more == uses;
      } else {
        assert more == [more[0]];
        S.IdealMore(TTL, uses, more[0]);
      }
    }
  }

  // A lookup finds the items of the latest store of its key, if and only if the key was not dropped since and was
  // never left unused for longer than the TTL.
  lemma LookupFindsLatest(ops: seq<Op>, key: string, now: nat, items: seq<string>)
    requires Legal(ops) && now >= Clock(ops)
    ensures Found(After(ops), key, now) == Some(items) <==> S.Findable(3600, UsesOf(ops, key), now, items)
  {
    RunAgrees(ops, key);
    S.IdealIsLatest(TTL, UsesOf(ops, key), now, items);
  }

  // ---------- bounds, purges and eviction ----------

  lemma {:induction false} SizeLess(a: set<string>, b: set<string>)
    requires a <= b
    ensures |a| <= |b| && |b - a| == |b| - |a|
  {
    assert b == a + (b - a);
  }

  lemma EvictsEnough(grown: Cells, evicted: set<string>)
    requires |grown| <= MAX_ENTRIES + 1 && Evicts(grown, evicted)
    ensures |grown - evicted| <= MAX_ENTRIES
  {
    assert (grown - evicted).Keys == grown.Keys - evicted;
    if |grown| > MAX_ENTRIES {
      SizeLess(evicted, grown.Keys);
    } else {
      assert grown - evicted == grown;
    }
  }

  lemma GrownByOne(cells: Cells, key: string, cell: Cell)
    ensures |cells[key := cell]| <= |cells| + 1
  {
    assert cells[key := cell].Keys == cells.Keys + {key};
  }

  lemma StoreBounded(cells: Cells, key: string, items: seq<string>, now: int, evicted: set<string>)
    requires |cells| <= MAX_ENTRIES && Stores(cells, key, items, now, evicted)
    ensures |Stored(cells, key, items, now, evicted)| <= MAX_ENTRIES
  {
    GrownByOne(cells, key, S.Cell(items, now));
    EvictsEnough(cells[key := S.Cell(items, now)], evicted);
  }

  lemma StepShrinks(cells: Cells, op: Op)
    requires !op.Store?
    ensures |Step(cells, op)| <= |cells|
  {
    var r := Step(cells, op);
    assert r.Keys <= cells.Keys;
    SizeLess(r.Keys, cells.Keys);
    assert |r| == |r.Keys| && |cells| == |cells.Keys|;
  }

  // Between operations the cache never holds more than its maximum.
  lemma {:induction false} Bounded(ops: seq<Op>)
    requires Legal(ops)
    ensures |After(ops)| <= 10240
    decreases |ops|
  {
    if ops != [] {
      var before, op := ops[..|ops| - 1], ops[|ops| - 1];
      Bounded(before);
      if op.Store? {
        StoreBounded(After(before), op.key, op.items, op.at, op.evicted);
      } else {
        StepShrinks(After(before), op);
      }
    }
  }

  // A purge changes no lookup made at its time or later, nor what the lookup leaves of that key.
  lemma PurgeUnseen(cells: Cells, purgedAt: int, key: string, now: int)
    requires now >= purgedAt
    ensures Found(Purged(cells, purgedAt), key, now) == Found(cells, key, now)
    ensures var a, b := Touched(Purged(cells, purgedAt), key, now), Touched(cells, key, now);
      (key in a <==> key in b) && (key in a ==> a[key] == b[key])
  {
  }

  // What a lookup finds after one operation, in terms of what it found before: within an hour of a store the items
  // stored, and of a lookup that found some those same ones again; nothing after a deletion or an eviction. Other keys
  // are not touched, and a purge makes no difference to a later lookup.
  lemma StepFinds(cells: Cells, op: Op, key: string, now: int)
    requires op.PurgeAll? ==> op.at <= now
    ensures var found := Found(Step(cells, op), key, now);
      match op
      case Store(k, items, at, evicted) =>
        found == if key in evicted then None
                 else if k != key then Found(cells, key, now)
                 else if now - at <= 3600 then Some(items) else None
      case Lookup(k, at) =>
        found == if k != key then Found(cells, key, now) else if now - at <= 3600 then Found(cells, key, at) else None
      case Remove(k, _) => found == if k != key then Found(cells, key, now) else None
      case ClearAll(_) => found == None
      case PurgeAll(_) => found == Found(cells, key, now)
  {
  }

  // A store evicts nothing unless the cache grows past 10240 entries, and then 128 of them.
  lemma EvictionSize(cells: Cells, key: string, items: seq<string>, now: int, evicted: set<string>)
    requires Stores(cells, key, items, now, evicted)
    ensures |evicted| == if |cells[key := S.Cell(items, now)]| > 10240 then 128 else 0
  {
  }

  // An eviction takes away no entry newer than one that stays, and leaves those that stay unchanged.
  lemma EvictionSparesTheNewer(cells: Cells, key: string, items: seq<string>, now: int, evicted: set<string>, k: string)
    requires Stores(cells, key, items, now, evicted) && k in cells && k != key
    ensures var r := Stored(cells, key, items, now, evicted);
      if k in evicted then k !in r && forall s :: s in r ==> cells[k].stamp <= r[s].stamp
      else k in r && r[k] == cells[k]
  {
  }
}
