// One cell of a cache with sliding expiry, on its own: what was stored in it last can be found until it is dropped
// or left unused for longer than the time to live (ttl).
module SlidingCell {
  import opened Text

  // A value, and when it was last stored or found
  datatype Cell<T> = Cell(value: T, stamp: int)

  predicate Expired<T>(ttl: int, c: Cell<T>, now: int) {
    now - c.stamp > ttl
  }

  // What happens to a cell: a value is put in, it is looked at, or it is dropped
  datatype Use<T> = Put(value: T, at: int) | Look(at: int) | Drop

  function Next<T>(ttl: int, before: Option<Cell<T>>, use: Use<T>): Option<Cell<T>> {
    match use
    case Put(value, at) => Some(Cell(value, at))
    case Look(at) => if before.Some? && !Expired(ttl, before.value, at) then Some(before.value.(stamp := at)) else None
    case Drop => None
  }

  function Ideal<T>(ttl: int, uses: seq<Use<T>>): Option<Cell<T>> {
    if uses == [] then None else Next(ttl, Ideal(ttl, uses[..|uses| - 1]), uses[|uses| - 1])
  }

  function Found<T>(ttl: int, c: Option<Cell<T>>, now: int): Option<T> {
    if c.Some? && !Expired(ttl, c.value, now) then Some(c.value.value) else None
  }

  // A cell of a cache agrees with the ideal one when it is the same, or has been purged after it expired.
  predicate Agrees<T(==)>(ttl: int, actual: Option<Cell<T>>, ideal: Option<Cell<T>>, clock: int) {
    if actual.Some? then ideal == actual else ideal.None? || Expired(ttl, ideal.value, clock)
  }

  lemma IdealMore<T>(ttl: int, uses: seq<Use<T>>, use: Use<T>)
    ensures Ideal(ttl, uses + [use]) == Next(ttl, Ideal(ttl, uses), use)
  {
    assert (uses + [use])[..|uses|] == uses;
  }

  // ---------- what an ideal cell finds ----------

  // The i-th use is the latest value put in, and nothing has dropped it since.
  predicate LatestPut<T>(uses: seq<Use<T>>, i: nat) {
    i < |uses| && uses[i].Put? && forall j :: i < j < |uses| ==> uses[j].Look?
  }

  function TimeOf<T>(use: Use<T>): int
    requires !use.Drop?
  {
    use.at
  }

  // From its latest value on, the cell was never left unused for longer than its time to live.
  predicate KeptInUse<T>(ttl: int, uses: seq<Use<T>>, i: nat, now: int)
    requires LatestPut(uses, i)
  {
    (forall j :: i <= j < |uses| - 1 ==> TimeOf(uses[j + 1]) - TimeOf(uses[j]) <= ttl) &&
    now - TimeOf(uses[|uses| - 1]) <= ttl
  }

  ghost predicate Findable<T>(ttl: int, uses: seq<Use<T>>, now: int, value: T) {
    exists i: nat :: LatestPut(uses, i) && uses[i].value == value && KeptInUse(ttl, uses, i, now)
  }

  // An ideal cell finds the latest value, if and only if nothing has dropped it since and it was never left unused
  // for longer than the time to live.
  lemma {:induction false} IdealIsLatest<T>(ttl: int, uses: seq<Use<T>>, now: int, value: T)
    ensures Found(ttl, Ideal(ttl, uses), now) == Some(value) <==> Findable(ttl, uses, now, value)
    decreases |uses|
  {
    if uses != [] {
      var before, last := uses[..|uses| - 1], uses[|uses| - 1];
      match last
      case Put(_, _) => assert LatestPut(uses, |uses| - 1);
      case Drop =>
      case Look(at) =>
        IdealIsLatest(ttl, before, at, value);
        forall i: nat ensures LatestPut(uses, i) <==> LatestPut(before, i) {
        }
        forall i: nat | LatestPut(uses, i)
          ensures KeptInUse(ttl, uses, i, now) <==> KeptInUse(ttl, before, i, at) && now - at <= ttl
        {
        }
    }
  }
}
