// The cache of thinking signatures: a bucket of entries for each model group, with sliding expiry. Expired entries
// are purged, and a bucket is removed when it is empty; cell by cell, it is a map without buckets.
module SignatureCache {
  import opened Text
  import S = SlidingCell

  // Seconds
  const TTL := 10800

  const MIN_VALID_LENGTH := 50
  const SKIP := "skip_thought_signature_validator"

  type Cell = S.Cell<string>
  type Bucket = map<string, Cell>
  type Groups = map<string, Bucket>

  // strings.Contains
  predicate Contains(s: string, part: string) {
    part <= s || (s != "" && Contains(s[1..], part))
  }

  function ModelGroup(name: string): string {
    if Contains(name, "gpt") then "gpt"
    else if Contains(name, "claude") then "claude"
    else if Contains(name, "gemini") then "gemini"
    else name
  }

  // ---------- which names share their signatures ----------

  // The part stands at i in s.
  predicate StandsAt(s: string, part: string, i: nat) {
    i + |part| <= |s| && s[i..i + |part|] == part
  }

  lemma {:induction false} ContainsIff(s: string, part: string)
    ensures Contains(s, part) <==> exists i: nat :: StandsAt(s, part, i)
    decreases |s|
  {
    if part <= s {
      assert StandsAt(s, part, 0);
    } else if s != [] {
      ContainsIff(s[1..], part);
      if i: nat :| StandsAt(s, part, i) {
        assert StandsAt(s[1..], part, i - 1);
      }
      if i: nat :| StandsAt(s[1..], part, i) {
        assert StandsAt(s, part, i + 1);
      }
    }
  }

  // The first of three words that the name holds
  ghost predicate Of(name: string, word: string) {
    (exists i: nat :: StandsAt(name, word, i)) &&
    (word != "gpt" ==> !exists i: nat :: StandsAt(name, "gpt", i)) &&
    (word == "gemini" ==> !exists i: nat :: StandsAt(name, "claude", i))
  }

  lemma GroupOf(name: string)
    ensures Of(name, "gpt") ==> ModelGroup(name) == "gpt"
    ensures Of(name, "claude") ==> ModelGroup(name) == "claude"
    ensures Of(name, "gemini") ==> ModelGroup(name) == "gemini"
    ensures !Of(name, "gpt") && !Of(name, "claude") && !Of(name, "gemini") ==>
      ModelGroup(name) == name && name !in {"gpt", "claude", "gemini"}
  {
    ContainsIff(name, "gpt");
    ContainsIff(name, "claude");
    ContainsIff(name, "gemini");
    if name in {"gpt", "claude", "gemini"} {
      assert StandsAt(name, name, 0);
    }
  }

  // Two names share their signatures if and only if they hold the same first word of gpt, claude and gemini, or hold
  // none of them and are the same name.
  lemma SharedIff(a: string, b: string)
    ensures ModelGroup(a) == ModelGroup(b) <==>
      (Of(a, "gpt") && Of(b, "gpt")) || (Of(a, "claude") && Of(b, "claude")) || (Of(a, "gemini") && Of(b, "gemini")) || a == b
  {
    GroupOf(a);
    GroupOf(b);
  }

  // ---------- one cell of the two levels ----------

  function At(groups: Groups, group: string, hash: string): Option<Cell> {
    if group in groups && hash in groups[group] then Some(groups[group][hash]) else None
  }

  datatype Op =
    | Store(group: string, hash: string, signature: string, at: nat)
    | Lookup(group: string, hash: string, at: nat)
    | Delete(group: string, hash: string, at: nat)
    | ClearGroup(group: string, at: nat)
    | ClearAll(at: nat)
    | PurgeAll(at: nat)

  // What an operation does to a cell, by itself.
  function UsesBy(op: Op, group: string, hash: string): seq<S.Use<string>> {
    match op
    case Store(g, h, signature, at) => if g == group && h == hash then [S.Put(signature, at)] else []
    case Lookup(g, h, at) => if g == group && h == hash then [S.Look(at)] else []
    case Delete(g, h, _) => if g == group && h == hash then [S.Drop] else []
    case ClearGroup(g, _) => if g == group then [S.Drop] else []
    case ClearAll(_) => [S.Drop]
    case PurgeAll(_) => []
  }

  // What the cache holds in a cell after an operation: a purge takes away what has expired.
  function CellAfter(cell: Option<Cell>, op: Op, group: string, hash: string): Option<Cell> {
    var uses := UsesBy(op, group, hash);
    if uses != [] then S.Next(TTL, cell, uses[0])
    else if op.PurgeAll? && cell.Some? && S.Expired(TTL, cell.value, op.at) then None
    else cell
  }

  // The buckets after an operation, cell by cell
  ghost predicate Does(before: Groups, op: Op, after: Groups) {
    forall g: string, h: string :: At(after, g, h) == CellAfter(At(before, g, h), op, g, h)
  }

  // A bucket put back, or removed when it is empty
  function WithBucket(groups: Groups, group: string, bucket: Bucket): Groups {
    if bucket == map[] then groups - {group} else groups[group := bucket]
  }

  function InBucket(bucket: Bucket, hash: string): Option<Cell> {
    if hash in bucket then Some(bucket[hash]) else None
  }

  lemma WithBucketAt(groups: Groups, group: string, bucket: Bucket)
    ensures forall g: string, h: string ::
      At(WithBucket(groups, group, bucket), g, h) == if g == group then InBucket(bucket, h) else At(groups, g, h)
  {
  }

  // The buckets of the groups that are not left to do have been purged.
  ghost predicate PurgedBut(before: Groups, left: set<string>, now: nat, after: Groups) {
    forall g: string, h: string :: g !in left ==> At(after, g, h) == CellAfter(At(before, g, h), PurgeAll(now), g, h)
  }

  // ---------- the cache ----------

  class Cache {
    // hashText
    const hash: string -> string
    var groups: Groups

    constructor (hash: string -> string)
      ensures groups == map[] && this.hash == hash
    {
      this.hash, groups := hash, map[];
    }

    method Put(model: string, text: string, signature: string, now: nat) returns (ok: bool)
      modifies this
      ensures ok == (text != "" && |signature| >= 50)
      ensures if ok then Does(old(groups), Store(ModelGroup(model), hash(text), signature, now), groups)
        else groups == old(groups)
    {
      if text == "" || signature == "" {
        return false;
      }
      if |signature| < MIN_VALID_LENGTH {
        return false;
      }
      var group := ModelGroup(model);
      if group !in groups {
        groups := groups[group := map[]];
      }
      groups := groups[group := groups[group][hash(text) := S.Cell(signature, now)]];
      ok := true;
    }

    // What a lookup answers when it finds nothing
    function Missing(model: string): string {
      if ModelGroup(model) == "gemini" then SKIP else ""
    }

    method Get(model: string, text: string, now: nat) returns (signature: string)
      modifies this
      ensures text == "" ==>
        signature == (if Of(model, "gemini") then "skip_thought_signature_validator" else "") && groups == old(groups)
      ensures text != "" ==>
        var found := S.Found(TTL, At(old(groups), ModelGroup(model), hash(text)), now);
        signature == (if found.Some? then found.value
                      else if Of(model, "gemini") then "skip_thought_signature_validator" else "") &&
        Does(old(groups), Lookup(ModelGroup(model), hash(text), now), groups)
    {
      GroupOf(model);
      var group := ModelGroup(model);
      if text == "" || group !in groups {
        return Missing(model);
      }
      var bucket := groups[group];
      if hash(text) !in bucket {
        return Missing(model);
      }
      var entry := bucket[hash(text)];
      if now - entry.stamp > TTL {
        groups := groups[group := bucket - {hash(text)}];
        return Missing(model);
      }
      groups := groups[group := bucket[hash(text) := entry.(stamp := now)]];
      signature := entry.value;
    }

    method DeleteSignature(model: string, text: string, now: nat)
      modifies this
      ensures if text == "" then groups == old(groups)
        else Does(old(groups), Delete(ModelGroup(model), hash(text), now), groups)
    {
      var group := ModelGroup(model);
      if text == "" || group !in groups {
        return;
      }
      var bucket := groups[group] - {hash(text)};
      WithBucketAt(groups, group, bucket);
      PutBack(group, bucket);
    }

    method PutBack(group: string, bucket: Bucket)
      modifies this
      ensures groups == WithBucket(old(groups), group, bucket)
    {
      groups := groups[group := bucket];
      if |bucket| == 0 {
        groups := groups - {group};
      }
    }

    // An empty name clears all groups.
    method Clear(model: string, now: nat)
      modifies this
      ensures Does(old(groups), if model == "" then ClearAll(now) else ClearGroup(ModelGroup(model), now), groups)
    {
      if model == "" {
        groups := map[];
      } else {
        groups := groups - {ModelGroup(model)};
      }
    }

    method Purge(now: nat)
      modifies this
      ensures Does(old(groups), PurgeAll(now), groups)
      ensures forall g :: g in groups ==> g in old(groups) && groups[g] != map[]
    {
      var left := groups.Keys;
      while left != {}
        invariant left <= groups.Keys
        invariant forall g :: g in left ==> g in old(groups) && groups[g] == old(groups)[g]
        invariant PurgedBut(old(groups), left, now, groups)
        invariant forall g :: g in groups && g !in left ==> g in old(groups) && groups[g] != map[]
      {
        var g :| g in left;
        var bucket := PurgeBucket(groups[g], now);
        WithBucketAt(groups, g, bucket);
        PutBack(g, bucket);
        left := left - {g};
      }
    }

    static method PurgeBucket(bucket: Bucket, now: nat) returns (r: Bucket)
      ensures r == map h | h in bucket && !S.Expired(TTL, bucket[h], now) :: bucket[h]
    {
      r := bucket;
      var left := bucket.Keys;
      while left != {}
        invariant left <= bucket.Keys
        invariant r == map h | h in bucket && (h in left || !S.Expired(TTL, bucket[h], now)) :: bucket[h]
      {
        var h :| h in left;
        if now - bucket[h].stamp > TTL {
          r := r - {h};
        }
        left := left - {h};
      }
    }
  }

  // ---------- runs ----------

  function UsesOf(ops: seq<Op>, group: string, hash: string): seq<S.Use<string>> {
    if ops == [] then [] else UsesOf(ops[..|ops| - 1], group, hash) + UsesBy(ops[|ops| - 1], group, hash)
  }

  // The states of a run: one more than operations, starting with an empty cache
  ghost predicate Runs(states: seq<Groups>, ops: seq<Op>) {
    |states| == |ops| + 1 && states[0] == map[] &&
    (forall i: nat :: i < |ops| ==> Does(states[i], ops[i], states[i + 1])) &&
    (forall i: nat :: i + 1 < |ops| ==> ops[i].at <= ops[i + 1].at)
  }

  // The time of the last of the first n operations
  function Clock(ops: seq<Op>, n: nat): nat
    requires n <= |ops|
  {
    if n == 0 then 0 else ops[n - 1].at
  }

  lemma StepAgrees(before: Groups, op: Op, after: Groups, group: string, hash: string, ideal: Option<Cell>, clock: nat)
    requires Does(before, op, after) && op.at >= clock && S.Agrees(TTL, At(before, group, hash), ideal, clock)
    ensures var uses := UsesBy(op, group, hash);
      S.Agrees(TTL, At(after, group, hash), if uses == [] then ideal else S.Next(TTL, ideal, uses[0]), op.at)
  {
  }

  lemma UsesMore(ops: seq<Op>, n: nat, group: string, hash: string)
    requires n < |ops|
    ensures var uses := UsesBy(ops[n], group, hash);
      S.Ideal(TTL, UsesOf(ops[..n + 1], group, hash)) ==
      if uses == [] then S.Ideal(TTL, UsesOf(ops[..n], group, hash))
      else S.Next(TTL, S.Ideal(TTL, UsesOf(ops[..n], group, hash)), uses[0])
  {
    assert ops[..n + 1][..n] == ops[..n];
    var before, uses := UsesOf(ops[..n], group, hash), UsesBy(ops[n], group, hash);
    if uses == [] {
      assert before + uses == before;
    } else {
      assert uses == [uses[0]];
      S.IdealMore(TTL, before, uses[0]);
    }
  }

  lemma {:induction false} RunAgrees(states: seq<Groups>, ops: seq<Op>, n: nat, group: string, hash: string)
    requires Runs(states, ops) && n <= |ops|
    ensures S.Agrees(TTL, At(states[n], group, hash), S.Ideal(TTL, UsesOf(ops[..n], group, hash)), Clock(ops, n))
    decreases n
  {
    if n > 0 {
      RunAgrees(states, ops, n - 1, group, hash);
      UsesMore(ops, n - 1, group, hash);
      StepAgrees(states[n - 1], ops[n - 1], states[n], group, hash,
                 S.Ideal(TTL, UsesOf(ops[..n - 1], group, hash)), Clock(ops, n - 1));
    }
  }

  // A lookup finds the latest signature stored for its group and hash, if and only if that was not deleted or cleared
  // since and was never left unused for longer than the TTL; purges and empty buckets make no difference.
  lemma LookupFindsLatest(states: seq<Groups>, ops: seq<Op>, group: string, hash: string, now: nat, signature: string)
    requires Runs(states, ops) && now >= Clock(ops, |ops|)
    ensures S.Found(10800, At(states[|ops|], group, hash), now) == Some(signature) <==>
      S.Findable(10800, UsesOf(ops, group, hash), now, signature)
  {
    assert ops[..|ops|] == ops;
    RunAgrees(states, ops, |ops|, group, hash);
    S.IdealIsLatest(TTL, UsesOf(ops, group, hash), now, signature);
  }

  // What a lookup finds after one operation, in terms of what it found before: within three hours of a store the
  // signature stored, and of a lookup that found one that same one again; nothing after a deletion or a clearing.
  // Other groups and other texts are not touched, and a purge makes no difference to a later lookup.
  lemma StepFinds(before: Groups, op: Op, after: Groups, group: string, hash: string, now: nat)
    requires Does(before, op, after) && (op.PurgeAll? ==> op.at <= now)
    ensures var found := S.Found(10800, At(after, group, hash), now);
      match op
      case Store(g, h, signature, at) =>
        found == if g != group || h != hash then S.Found(10800, At(before, group, hash), now)
                 else if now - at <= 10800 then Some(signature) else None
      case Lookup(g, h, at) =>
        found == if g != group || h != hash then S.Found(10800, At(before, group, hash), now)
                 else if now - at <= 10800 then S.Found(10800, At(before, group, hash), at) else None
      case Delete(g, h, _) => found == if g != group || h != hash then S.Found(10800, At(before, group, hash), now) else None
      case ClearGroup(g, _) => found == if g != group then S.Found(10800, At(before, group, hash), now) else None
      case ClearAll(_) => found == None
      case PurgeAll(_) => found == S.Found(10800, At(before, group, hash), now)
  {
    assert At(after, group, hash) == CellAfter(At(before, group, hash), op, group, hash);
  }
}
