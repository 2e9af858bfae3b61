// The cache of signatures under any number of threads. Each operation on the map of buckets, and each block under
// the lock of a bucket, is one step. A bucket found empty is unlinked after its lock was given up, so that what was
// written into it meanwhile is lost; here is when that happens, and that the cache is one map as long as it does not.
module SignatureThreads {
  import opened Text
  import S = SlidingCell
  import SignatureCache

  type Cell = S.Cell<string>
  type Bucket = map<string, Cell>
  type Thread = nat

  // Where a thread is, between its steps. The group is that of the bucket it holds.
  datatype Job =
    | Idle
    | Finding(group: string, hash: string, signature: string)         // a store that looks for its bucket
    | Making(group: string, hash: string, signature: string)          // it found none
    | Writing(group: string, bucket: nat, hash: string, signature: string)
    | Looking(group: string, bucket: nat, hash: string)               // a lookup that found its bucket
    | Reading(group: string, bucket: nat, hash: string, now: int)     // it has looked at the clock
    | Deleting(group: string, bucket: nat, hash: string)
    | Purging(now: int)                                               // a purge between two buckets
    | Sweeping(group: string, bucket: nat, now: int)
    | Unlinking(group: string, purge: Option<int>)                    // it found the bucket empty; a purge goes on after it

  // links is the map of the groups; a bucket that is not linked may still be held. clock is the time.
  datatype World = World(links: map<string, nat>, buckets: map<nat, Bucket>, next: nat, clock: int, jobs: map<Thread, Job>)

  const START := World(map[], map[], 0, 0, map[])

  function JobOf(w: World, k: Thread): Job {
    if k in w.jobs then w.jobs[k] else Idle
  }

  function Goes(w: World, k: Thread, job: Job): World {
    w.(jobs := w.jobs[k := job])
  }

  datatype Action =
    | Tick(to: int)
    | Store(group: string, hash: string, signature: string)
    | Find
    | Make
    | Write
    | Look(group: string, hash: string)
    | Sample
    | Read
    | Delete(group: string, hash: string)
    | Erase
    | Clear(group: string)
    | Purge
    | Visit(group: string)
    | Sweep
    | EndPurge
    | Unlink

  // ---------- the steps ----------

  // getOrCreateGroupCache: Load, and LoadOrStore if that found nothing
  function FindStep(w: World, k: Thread, j: Job): World
    requires j.Finding?
  {
    Goes(w, k, if j.group in w.links then Writing(j.group, w.links[j.group], j.hash, j.signature) else Making(j.group, j.hash, j.signature))
  }

  function MakeStep(w: World, k: Thread, j: Job): World
    requires j.Making?
  {
    if j.group in w.links then Goes(w, k, Writing(j.group, w.links[j.group], j.hash, j.signature))
    else
      Goes(WithNew(w, j.group), k, Writing(j.group, w.next, j.hash, j.signature))
  }

  function WithNew(w: World, group: string): World {
    w.(links := w.links[group := w.next], buckets := w.buckets[w.next := map[]], next := w.next + 1)
  }

  function EntriesOf(w: World, b: nat): Bucket {
    if b in w.buckets then w.buckets[b] else map[]
  }

  function WithEntries(w: World, b: nat, entries: Bucket): World {
    w.(buckets := w.buckets[b := entries])
  }

  function ReadStep(w: World, k: Thread, j: Job): World
    requires j.Reading?
  {
    var entries := EntriesOf(w, j.bucket);
    Goes(if j.hash !in entries then w
         else if S.Expired(SignatureCache.TTL, entries[j.hash], j.now) then WithEntries(w, j.bucket, entries - {j.hash})
         else WithEntries(w, j.bucket, entries[j.hash := entries[j.hash].(stamp := j.now)]), k, Idle)
  }

  function EraseStep(w: World, k: Thread, j: Job): World
    requires j.Deleting?
  {
    var left := EntriesOf(w, j.bucket) - {j.hash};
    Goes(WithEntries(w, j.bucket, left), k, if left == map[] then Unlinking(j.group, None) else Idle)
  }

  function Unexpired(entries: Bucket, now: int): Bucket {
    map h | h in entries && !S.Expired(SignatureCache.TTL, entries[h], now) :: entries[h]
  }

  function SweepStep(w: World, k: Thread, j: Job): World
    requires j.Sweeping?
  {
    var left := Unexpired(EntriesOf(w, j.bucket), j.now);
    Goes(WithEntries(w, j.bucket, left), k, if left == map[] then Unlinking(j.group, Some(j.now)) else Purging(j.now))
  }

  function Step(w: World, k: Thread, a: Action): Option<World> {
    var j := JobOf(w, k);
    match a
    case Tick(to) => if to >= w.clock then Some(w.(clock := to)) else None
    case Store(group, hash, signature) => if j.Idle? then Some(Goes(w, k, Finding(group, hash, signature))) else None
    case Find => if j.Finding? then Some(FindStep(w, k, j)) else None
    case Make => if j.Making? then Some(MakeStep(w, k, j)) else None
    case Write =>
      if j.Writing? then
        Some(Goes(WithEntries(w, j.bucket, EntriesOf(w, j.bucket)[j.hash := S.Cell(j.signature, w.clock)]), k, Idle))
      else None
    case Look(group, hash) =>
      if j.Idle? then Some(if group in w.links then Goes(w, k, Looking(group, w.links[group], hash)) else w) else None
    case Sample => if j.Looking? then Some(Goes(w, k, Reading(j.group, j.bucket, j.hash, w.clock))) else None
    case Read => if j.Reading? then Some(ReadStep(w, k, j)) else None
    case Delete(group, hash) =>
      if j.Idle? then Some(if group in w.links then Goes(w, k, Deleting(group, w.links[group], hash)) else w) else None
    case Erase => if j.Deleting? then Some(EraseStep(w, k, j)) else None
    case Clear(group) => if j.Idle? then Some(w.(links := w.links - {group})) else None
    case Purge => if j.Idle? then Some(Goes(w, k, Purging(w.clock))) else None
    case Visit(group) =>
      if j.Purging? && group in w.links then Some(Goes(w, k, Sweeping(group, w.links[group], j.now))) else None
    case Sweep => if j.Sweeping? then Some(SweepStep(w, k, j)) else None
    case EndPurge => if j.Purging? then Some(Goes(w, k, Idle)) else None
    case Unlink =>
      if j.Unlinking? then
        Some(Goes(w.(links := w.links - {j.group}), k, if j.purge.Some? then Purging(j.purge.value) else Idle))
      else None
  }

  datatype Act = Act(thread: Thread, action: Action)

  function Run(w: World, acts: seq<Act>): Option<World> {
    if acts == [] then Some(w)
    else
      match Run(w, acts[..|acts| - 1])
      case None => None
      case Some(v) => Step(v, acts[|acts| - 1].thread, acts[|acts| - 1].action)
  }

  lemma RunOne(w: World, act: Act)
    ensures Run(w, [act]) == Step(w, act.thread, act.action)
  {
    assert [act][..0] == [];
  }

  lemma RunMore(w: World, acts: seq<Act>, act: Act)
    ensures Run(w, acts + [act]) == if Run(w, acts).Some? then Step(Run(w, acts).value, act.thread, act.action) else None
  {
    assert (acts + [act])[..|acts|] == acts;
  }

  // ---------- what every run keeps ----------

  predicate Holds(j: Job) {
    j.Writing? || j.Looking? || j.Reading? || j.Deleting? || j.Sweeping?
  }

  // Linked buckets exist, two groups share none, and a new bucket is not one that was used before.
  ghost predicate Inv(w: World) {
    (forall b :: b in w.buckets ==> b < w.next) &&
    (forall g :: g in w.links ==> w.links[g] in w.buckets) &&
    (forall g, h :: g in w.links && h in w.links && w.links[g] == w.links[h] ==> g == h) &&
    (forall k: Thread :: Holds(JobOf(w, k)) ==> JobOf(w, k).bucket in w.buckets)
  }

  // The bucket a thread holds is linked to no other group than the one it looked it up for.
  ghost predicate Own(w: World) {
    forall k: Thread, g: string :: Holds(JobOf(w, k)) && g in w.links && w.links[g] == JobOf(w, k).bucket ==> g == JobOf(w, k).group
  }

  ghost predicate Sound(w: World) {
    Inv(w) && Own(w)
  }

  lemma GoesSound(w: World, k: Thread, job: Job)
    requires Sound(w)
    requires Holds(job) ==> job.bucket in w.buckets && forall g :: g in w.links && w.links[g] == job.bucket ==> g == job.group
    ensures Sound(Goes(w, k, job))
  {
    var r := Goes(w, k, job);
    forall t: Thread ensures JobOf(r, t) == if t == k then job else JobOf(w, t) {
    }
  }

  lemma EntriesSound(w: World, b: nat, entries: Bucket)
    requires Sound(w) && b in w.buckets
    ensures Sound(WithEntries(w, b, entries))
  {
    forall t: Thread ensures JobOf(WithEntries(w, b, entries), t) == JobOf(w, t) {
    }
  }

  lemma NewSound(w: World, group: string)
    requires Sound(w) && group !in w.links
    ensures Sound(WithNew(w, group))
  {
    forall t: Thread ensures JobOf(WithNew(w, group), t) == JobOf(w, t) {
    }
  }

  lemma UnlinkedSound(w: World, group: string)
    requires Sound(w)
    ensures Sound(w.(links := w.links - {group}))
  {
    forall t: Thread ensures JobOf(w.(links := w.links - {group}), t) == JobOf(w, t) {
    }
  }

  lemma TickSound(w: World, to: int)
    requires Sound(w)
    ensures Sound(w.(clock := to))
  {
    forall t: Thread ensures JobOf(w.(clock := to), t) == JobOf(w, t) {
    }
  }

  lemma MakeSound(w: World, k: Thread)
    requires Sound(w) && JobOf(w, k).Making?
    ensures Sound(MakeStep(w, k, JobOf(w, k)))
  {
    var j := JobOf(w, k);
    if j.group in w.links {
      GoesSound(w, k, Writing(j.group, w.links[j.group], j.hash, j.signature));
    } else {
      NewSound(w, j.group);
      GoesSound(WithNew(w, j.group), k, Writing(j.group, w.next, j.hash, j.signature));
    }
  }

  // A locked block: the entries of the bucket held are changed, and the thread goes on.
  lemma LockedSound(w: World, k: Thread, entries: Bucket, job: Job)
    requires Sound(w) && Holds(JobOf(w, k)) && !Holds(job)
    ensures Sound(Goes(WithEntries(w, JobOf(w, k).bucket, entries), k, job))
  {
    EntriesSound(w, JobOf(w, k).bucket, entries);
    GoesSound(WithEntries(w, JobOf(w, k).bucket, entries), k, job);
  }

  lemma ReadSound(w: World, k: Thread)
    requires Sound(w) && JobOf(w, k).Reading?
    ensures Sound(ReadStep(w, k, JobOf(w, k)))
  {
    var j := JobOf(w, k);
    var entries := EntriesOf(w, j.bucket);
    GoesSound(w, k, Idle);
    if j.hash in entries {
      LockedSound(w, k, entries - {j.hash}, Idle);
      LockedSound(w, k, entries[j.hash := entries[j.hash].(stamp := j.now)], Idle);
    }
  }

  lemma StepSound(w: World, k: Thread, a: Action)
    requires Sound(w) && Step(w, k, a).Some?
    ensures Sound(Step(w, k, a).value)
  {
    var j := JobOf(w, k);
    match a
    case Tick(to) => TickSound(w, to);
    case Make => MakeSound(w, k);
    case Write => LockedSound(w, k, EntriesOf(w, j.bucket)[j.hash := S.Cell(j.signature, w.clock)], Idle);
    case Read => ReadSound(w, k);
    case Erase =>
      var left := EntriesOf(w, j.bucket) - {j.hash};
      LockedSound(w, k, left, if left == map[] then Unlinking(j.group, None) else Idle);
    case Sweep =>
      var left := Unexpired(EntriesOf(w, j.bucket), j.now);
      LockedSound(w, k, left, if left == map[] then Unlinking(j.group, Some(j.now)) else Purging(j.now));
    case Clear(group) => UnlinkedSound(w, group);
    case Unlink =>
      UnlinkedSound(w, j.group);
      GoesSound(w.(links := w.links - {j.group}), k, if j.purge.Some? then Purging(j.purge.value) else Idle);
    case _ => GoesSound(w, k, JobOf(Step(w, k, a).value, k));
  }

  lemma {:induction false} RunSound(w: World, acts: seq<Act>)
    requires Sound(w) && Run(w, acts).Some?
    ensures Sound(Run(w, acts).value)
    decreases |acts|
  {
    if acts != [] {
      var init, last := acts[..|acts| - 1], acts[|acts| - 1];
      RunSound(w, init);
      StepSound(Run(w, init).value, last.thread, last.action);
    }
  }

  // ---------- which buckets stay linked ----------

  predicate Linked(w: World, g: string, b: nat) {
    g in w.links && w.links[g] == b
  }

  // The step unlinks the group: a clear, or the end of a purge or deletion that found the bucket empty.
  predicate Unlinks(w: World, act: Act, g: string) {
    (act.action.Clear? && act.action.group == g) ||
    (act.action.Unlink? && JobOf(w, act.thread).Unlinking? && JobOf(w, act.thread).group == g)
  }

  lemma LinkedNext(w: World, act: Act, g: string, b: nat)
    requires Sound(w) && b in w.buckets && Step(w, act.thread, act.action).Some?
    ensures var r := Step(w, act.thread, act.action).value;
      b in r.buckets && (Linked(r, g, b) <==> Linked(w, g, b) && !Unlinks(w, act, g))
  {
    LinksNext(w, act);
  }

  // Only three steps change which buckets are linked.
  lemma LinksNext(w: World, act: Act)
    requires Sound(w) && Step(w, act.thread, act.action).Some?
    ensures var r, j := Step(w, act.thread, act.action).value, JobOf(w, act.thread);
      w.buckets.Keys <= r.buckets.Keys &&
      r.links == match act.action
        case Clear(group) => w.links - {group}
        case Unlink => w.links - {j.group}
        case Make => if j.group in w.links then w.links else w.links[j.group := w.next]
        case _ => w.links
  {
  }

  ghost predicate UnlinkedIn(w: World, acts: seq<Act>, g: string) {
    exists i: nat :: i < |acts| && UnlinkedAt(w, acts, g, i)
  }

  predicate UnlinkedAt(w: World, acts: seq<Act>, g: string, i: nat)
    requires i < |acts|
  {
    Run(w, acts[..i]).Some? && Unlinks(Run(w, acts[..i]).value, acts[i], g)
  }

  lemma UnlinkedInMore(w: World, acts: seq<Act>, g: string)
    requires acts != [] && Run(w, acts[..|acts| - 1]).Some?
    ensures UnlinkedIn(w, acts, g) <==>
      UnlinkedIn(w, acts[..|acts| - 1], g) || Unlinks(Run(w, acts[..|acts| - 1]).value, acts[|acts| - 1], g)
  {
    var init := acts[..|acts| - 1];
    forall i: nat | i < |init| ensures UnlinkedAt(w, acts, g, i) <==> UnlinkedAt(w, init, g, i) {
      assert acts[..i] == init[..i];
    }
    assert UnlinkedAt(w, acts, g, |init|) <==> Unlinks(Run(w, init).value, acts[|init|], g);
  }

  // A bucket, and all that is written in it, is reachable after a run if and only if it was linked before, and no
  // thread that had found a bucket of the group empty, and no clear, unlinked the group on the way: what is written
  // into a bucket no longer linked is never found.
  lemma {:induction false} ReachableIff(w: World, acts: seq<Act>, g: string, b: nat)
    requires Sound(w) && b in w.buckets && Run(w, acts).Some?
    ensures var r := Run(w, acts).value; b in r.buckets && (Linked(r, g, b) <==> Linked(w, g, b) && !UnlinkedIn(w, acts, g))
    decreases |acts|
  {
    if acts != [] {
      var init := acts[..|acts| - 1];
      ReachableIff(w, init, g, b);
      RunSound(w, init);
      UnlinkedInMore(w, acts, g);
      LinkedNext(Run(w, init).value, acts[|acts| - 1], g, b);
    }
  }

  // ---------- when an entry is safe ----------

  // No thread has still to unlink the group, and none may yet find a bucket of it empty that is no longer linked.
  ghost predicate Secure(w: World, g: string) {
    (forall k: Thread :: JobOf(w, k).Unlinking? ==> JobOf(w, k).group != g) &&
    (forall k: Thread :: JobOf(w, k).Deleting? || JobOf(w, k).Sweeping? ==>
      JobOf(w, k).group != g || Linked(w, g, JobOf(w, k).bucket))
  }

  // The thread of that job is no danger to bucket b of the group.
  predicate Harmless(j: Job, g: string, b: nat) {
    (j.Unlinking? ==> j.group != g) && (j.Deleting? || j.Sweeping? ==> j.group != g || j.bucket == b)
  }

  lemma OthersStay(w: World, act: Act, t: Thread)
    requires Step(w, act.thread, act.action).Some? && t != act.thread
    ensures JobOf(Step(w, act.thread, act.action).value, t) == JobOf(w, t)
  {
  }

  // No step turns a harmless thread into a danger for a bucket that holds an entry.
  lemma StaysHarmless(w: World, act: Act, g: string, b: nat, h: string)
    requires Linked(w, g, b) && Harmless(JobOf(w, act.thread), g, b) && Step(w, act.thread, act.action).Some?
    requires h in EntriesOf(Step(w, act.thread, act.action).value, b)
    ensures Harmless(JobOf(Step(w, act.thread, act.action).value, act.thread), g, b)
  {
  }

  // While the entry is there, and nobody clears the group, nothing unlinks its bucket.
  lemma SecureNext(w: World, act: Act, g: string, b: nat, h: string)
    requires Sound(w) && Linked(w, g, b) && Secure(w, g) && Step(w, act.thread, act.action).Some?
    requires h in EntriesOf(Step(w, act.thread, act.action).value, b) && !(act.action.Clear? && act.action.group == g)
    ensures var r := Step(w, act.thread, act.action).value; Linked(r, g, b) && Secure(r, g)
  {
    var r := Step(w, act.thread, act.action).value;
    assert Harmless(JobOf(w, act.thread), g, b);
    LinkedNext(w, act, g, b);
    forall t: Thread ensures Harmless(JobOf(r, t), g, b) {
      if t == act.thread {
        StaysHarmless(w, act, g, b, h);
      } else {
        OthersStay(w, act, t);
      }
    }
  }

  // The entry is in the bucket after each of the steps, and none of them clears the group.
  ghost predicate Keeps(w: World, acts: seq<Act>, g: string, b: nat, h: string) {
    (forall i: nat :: i <= |acts| ==> KeptAt(w, acts, b, h, i)) && forall i :: 0 <= i < |acts| ==> acts[i].action != Clear(g)
  }

  predicate KeptAt(w: World, acts: seq<Act>, b: nat, h: string, i: nat)
    requires i <= |acts|
  {
    Run(w, acts[..i]).Some? && h in EntriesOf(Run(w, acts[..i]).value, b)
  }

  lemma KeepsBefore(w: World, acts: seq<Act>, g: string, b: nat, h: string)
    requires acts != [] && Keeps(w, acts, g, b, h)
    ensures Keeps(w, acts[..|acts| - 1], g, b, h)
    ensures Run(w, acts).Some? && h in EntriesOf(Run(w, acts).value, b) && acts[|acts| - 1].action != Clear(g)
  {
    var init := acts[..|acts| - 1];
    forall i: nat | i <= |init| ensures KeptAt(w, init, b, h, i) {
      assert acts[..i] == init[..i] && KeptAt(w, acts, b, h, i);
    }
    assert acts[..|acts|] == acts && KeptAt(w, acts, b, h, |acts|);
  }

  // A signature in a linked bucket, of a group that is secure, is reachable for as long as it is not deleted,
  // expired, or cleared, whatever the threads do.
  lemma {:induction false} StaysReachable(w: World, acts: seq<Act>, g: string, b: nat, h: string)
    requires Sound(w) && Linked(w, g, b) && Secure(w, g) && Keeps(w, acts, g, b, h)
    ensures Run(w, acts).Some? && Linked(Run(w, acts).value, g, b) && Secure(Run(w, acts).value, g)
    decreases |acts|
  {
    if acts != [] {
      var init := acts[..|acts| - 1];
      KeepsBefore(w, acts, g, b, h);
      StaysReachable(w, init, g, b, h);
      RunSound(w, init);
      SecureNext(Run(w, init).value, acts[|acts| - 1], g, b, h);
    }
  }

  // A thread that has still to unlink the group takes the bucket away, with all that is in it.
  lemma UnlinkerLoses(w: World, k: Thread, g: string, b: nat)
    requires JobOf(w, k).Unlinking? && JobOf(w, k).group == g
    ensures var r := Step(w, k, Unlink); r.Some? && !Linked(r.value, g, b) && EntriesOf(r.value, b) == EntriesOf(w, b)
  {
  }

  // So does one that deletes from, or sweeps, a bucket no longer linked and leaves it empty.
  lemma StaleHolderLoses(w: World, k: Thread, g: string, b: nat)
    requires var j := JobOf(w, k);
      (j.Deleting? && EntriesOf(w, j.bucket) - {j.hash} == map[]) || (j.Sweeping? && Unexpired(EntriesOf(w, j.bucket), j.now) == map[])
    requires JobOf(w, k).group == g && JobOf(w, k).bucket != b
    ensures var a := if JobOf(w, k).Deleting? then Erase else Sweep;
      var r := Run(w, [Act(k, a), Act(k, Unlink)]);
      r.Some? && !Linked(r.value, g, b) && EntriesOf(r.value, b) == EntriesOf(w, b)
  {
    var a := if JobOf(w, k).Deleting? then Erase else Sweep;
    RunOne(w, Act(k, a));
    RunMore(w, [Act(k, a)], Act(k, Unlink));
    assert [Act(k, a)] + [Act(k, Unlink)] == [Act(k, a), Act(k, Unlink)];
    UnlinkerLoses(Step(w, k, a).value, k, g, b);
  }

  // ---------- the cache as one map ----------

  function At(w: World, g: string, h: string): Option<Cell> {
    if g in w.links && h in EntriesOf(w, w.links[g]) then Some(EntriesOf(w, w.links[g])[h]) else None
  }

  // What a step does to the cell of a group and a hash: a store counts wherever it writes; a lookup, a deletion or
  // a sweep counts in the linked bucket.
  function UsesBy(w: World, act: Act, g: string, h: string): seq<S.Use<string>> {
    var j := JobOf(w, act.thread);
    match act.action
    case Write => if j.Writing? && j.group == g && j.hash == h then [S.Put(j.signature, w.clock)] else []
    case Read => if j.Reading? && j.hash == h && Linked(w, g, j.bucket) then [S.Look(j.now)] else []
    case Erase => if j.Deleting? && j.hash == h && Linked(w, g, j.bucket) then [S.Drop] else []
    case Sweep =>
      if j.Sweeping? && Linked(w, g, j.bucket) && At(w, g, h).Some? && S.Expired(SignatureCache.TTL, At(w, g, h).value, j.now)
      then [S.Drop] else []
    case Clear(group) => if group == g then [S.Drop] else []
    case _ => []
  }

  // The step loses nothing of the cell: a store writes into the linked bucket, or what is there already, and a bucket
  // unlinked does not have it.
  predicate Careful(w: World, act: Act, g: string, h: string) {
    var j := JobOf(w, act.thread);
    (act.action.Write? && j.Writing? && j.group == g && j.hash == h ==>
      Linked(w, g, j.bucket) || At(w, g, h) == Some(S.Cell(j.signature, w.clock))) &&
    (act.action.Unlink? && j.Unlinking? && j.group == g ==> At(w, g, h) == None)
  }

  function Used(cell: Option<Cell>, uses: seq<S.Use<string>>): Option<Cell> {
    if uses == [] then cell else S.Next(SignatureCache.TTL, cell, uses[0])
  }

  predicate InBucket(a: Action) {
    a.Write? || a.Read? || a.Erase? || a.Sweep?
  }

  lemma LockedNext(w: World, act: Act, g: string, h: string)
    requires Sound(w) && Step(w, act.thread, act.action).Some? && InBucket(act.action)
    ensures At(Step(w, act.thread, act.action).value, g, h) == Used(At(w, g, h), UsesBy(w, act, g, h)) <==> Careful(w, act, g, h)
  {
  }

  lemma UnlockedNext(w: World, act: Act, g: string, h: string)
    requires Sound(w) && Step(w, act.thread, act.action).Some? && !InBucket(act.action)
    ensures At(Step(w, act.thread, act.action).value, g, h) == Used(At(w, g, h), UsesBy(w, act, g, h)) <==> Careful(w, act, g, h)
  {
  }

  function UsesOf(w: World, acts: seq<Act>, g: string, h: string): seq<S.Use<string>>
    requires Run(w, acts).Some?
  {
    if acts == [] then []
    else
      var init := acts[..|acts| - 1];
      UsesOf(w, init, g, h) + UsesBy(Run(w, init).value, acts[|acts| - 1], g, h)
  }

  lemma UsedIsIdeal(before: seq<S.Use<string>>, uses: seq<S.Use<string>>)
    requires |uses| <= 1
    ensures S.Ideal(SignatureCache.TTL, before + uses) == Used(S.Ideal(SignatureCache.TTL, before), uses)
  {
    if uses == [] {
      assert before + uses == before;
    } else {
      assert uses == [uses[0]];
      S.IdealMore(SignatureCache.TTL, before, uses[0]);
    }
  }

  // After the first n steps the cell is that of one map.
  predicate AgreesAt(acts: seq<Act>, g: string, h: string, n: nat)
    requires n <= |acts|
  {
    Run(START, acts[..n]).Some? &&
    At(Run(START, acts[..n]).value, g, h) == S.Ideal(SignatureCache.TTL, UsesOf(START, acts[..n], g, h))
  }

  // The step number n loses nothing of the cell.
  predicate CarefulAt(acts: seq<Act>, g: string, h: string, n: nat)
    requires n < |acts|
  {
    Run(START, acts[..n]).Some? && Careful(Run(START, acts[..n]).value, acts[n], g, h)
  }

  lemma NextAgrees(acts: seq<Act>, g: string, h: string, n: nat, next: nat)
    requires n < |acts| && next == n + 1 && Run(START, acts[..next]).Some? && AgreesAt(acts, g, h, n)
    ensures AgreesAt(acts, g, h, next) <==> CarefulAt(acts, g, h, n)
  {
    assert acts[..next][..n] == acts[..n];
    var w := Run(START, acts[..n]).value;
    RunSound(START, acts[..n]);
    if InBucket(acts[n].action) {
      LockedNext(w, acts[n], g, h);
    } else {
      UnlockedNext(w, acts[n], g, h);
    }
    UsedIsIdeal(UsesOf(START, acts[..n], g, h), UsesBy(w, acts[n], g, h));
  }

  lemma {:induction false} RunBefore(w: World, acts: seq<Act>, n: nat)
    requires Run(w, acts).Some? && n <= |acts|
    ensures Run(w, acts[..n]).Some?
    decreases |acts|
  {
    if n < |acts| {
      RunBefore(w, acts[..|acts| - 1], n);
      assert acts[..|acts| - 1][..n] == acts[..n];
    } else {
      assert acts[..n] == acts;
    }
  }

  lemma {:induction false} CarefulAgrees(acts: seq<Act>, g: string, h: string, n: nat)
    requires Run(START, acts).Some? && n <= |acts| && forall i: nat :: i < n ==> CarefulAt(acts, g, h, i)
    ensures AgreesAt(acts, g, h, n)
    decreases n
  {
    RunBefore(START, acts, n);
    if n > 0 {
      CarefulAgrees(acts, g, h, n - 1);
      NextAgrees(acts, g, h, n - 1, n);
    }
  }

  // Under any number of threads, a cell is at each point of a run that of one map, if and only if no step loses
  // anything of it.
  lemma RunAgreesIff(acts: seq<Act>, g: string, h: string)
    requires Run(START, acts).Some?
    ensures (forall n: nat :: n <= |acts| ==> AgreesAt(acts, g, h, n)) <==> forall i: nat :: i < |acts| ==> CarefulAt(acts, g, h, i)
  {
    if forall i: nat :: i < |acts| ==> CarefulAt(acts, g, h, i) {
      forall n: nat | n <= |acts| ensures AgreesAt(acts, g, h, n) {
        CarefulAgrees(acts, g, h, n);
      }
    }
    if forall n: nat :: n <= |acts| ==> AgreesAt(acts, g, h, n) {
      forall i: nat | i < |acts| ensures CarefulAt(acts, g, h, i) {
        var next := i + 1;
        assert AgreesAt(acts, g, h, i) && AgreesAt(acts, g, h, next);
        NextAgrees(acts, g, h, i, next);
      }
    }
  }

  // ---------- when a run is careful ----------

  // A store writes while its bucket is linked and its group secure.
  ghost predicate Guarded(w: World, act: Act, g: string) {
    var j := JobOf(w, act.thread);
    act.action.Write? && j.Writing? && j.group == g ==> Linked(w, g, j.bucket) && Secure(w, g)
  }

  // A bucket with entries is in no danger.
  ghost predicate Calm(w: World, g: string) {
    g in w.links && EntriesOf(w, w.links[g]) != map[] ==> Secure(w, g)
  }

  // Where the bucket of the group has entries after a step, it was linked before, and had entries unless they are
  // those of a store.
  lemma EntriesBefore(w: World, act: Act, g: string)
    requires Sound(w) && Step(w, act.thread, act.action).Some?
    ensures var r, j := Step(w, act.thread, act.action).value, JobOf(w, act.thread);
      g in r.links && EntriesOf(r, r.links[g]) != map[] ==>
        Linked(w, g, r.links[g]) && (EntriesOf(w, r.links[g]) != map[] || (act.action.Write? && j.group == g))
  {
  }

  lemma CalmNext(w: World, act: Act, g: string)
    requires Sound(w) && Calm(w, g) && Guarded(w, act, g) && Step(w, act.thread, act.action).Some?
    ensures Calm(Step(w, act.thread, act.action).value, g) && forall h :: Careful(w, act, g, h)
  {
    var r := Step(w, act.thread, act.action).value;
    EntriesBefore(w, act, g);
    if g in r.links && EntriesOf(r, r.links[g]) != map[] {
      var h :| h in EntriesOf(r, r.links[g]);
      if !(act.action.Clear? && act.action.group == g) {
        SecureNext(w, act, g, r.links[g], h);
      }
    }
  }

  ghost predicate GuardedAt(w: World, acts: seq<Act>, g: string, i: nat)
    requires i < |acts|
  {
    Run(w, acts[..i]).Some? && Guarded(Run(w, acts[..i]).value, acts[i], g)
  }

  ghost predicate GuardedRun(w: World, acts: seq<Act>, g: string) {
    forall i: nat :: i < |acts| ==> GuardedAt(w, acts, g, i)
  }

  lemma GuardedBefore(w: World, acts: seq<Act>, g: string)
    requires acts != [] && GuardedRun(w, acts, g)
    ensures var init := acts[..|acts| - 1];
      GuardedRun(w, init, g) && Run(w, init).Some? && Guarded(Run(w, init).value, acts[|acts| - 1], g)
  {
    var init := acts[..|acts| - 1];
    forall i: nat | i < |init| ensures GuardedAt(w, init, g, i) {
      assert acts[..i] == init[..i] && GuardedAt(w, acts, g, i);
    }
    assert GuardedAt(w, acts, g, |init|);
  }

  // If every store into a group finds its bucket linked and the group secure, nothing of the group is ever lost.
  lemma {:induction false} GuardedIsCareful(acts: seq<Act>, g: string, h: string)
    requires Run(START, acts).Some? && GuardedRun(START, acts, g)
    ensures Calm(Run(START, acts).value, g) && forall i: nat :: i < |acts| ==> CarefulAt(acts, g, h, i)
    decreases |acts|
  {
    if acts != [] {
      var init := acts[..|acts| - 1];
      GuardedBefore(START, acts, g);
      GuardedIsCareful(init, g, h);
      RunSound(START, init);
      CalmNext(Run(START, init).value, acts[|acts| - 1], g);
      forall i: nat | i < |acts| ensures CarefulAt(acts, g, h, i) {
        if i < |init| {
          assert acts[..i] == init[..i] && CarefulAt(init, g, h, i);
        }
      }
    }
  }

  // What a lookup that has its bucket and its time finds there
  function Answer(w: World, j: Job): Option<string>
    requires j.Reading?
  {
    var entries := EntriesOf(w, j.bucket);
    S.Found(SignatureCache.TTL, if j.hash in entries then Some(entries[j.hash]) else None, j.now)
  }

  // Under any number of threads: if every store into the group finds its bucket linked and the group secure, a lookup
  // in the linked bucket finds the latest signature stored, if and only if that was not deleted, cleared or swept
  // after its expiry since, and was never left unused for longer than the TTL.
  lemma LookupFindsLatest(acts: seq<Act>, k: Thread, signature: string)
    requires Run(START, acts).Some? && JobOf(Run(START, acts).value, k).Reading?
    requires var w := Run(START, acts).value; var j := JobOf(w, k); Linked(w, j.group, j.bucket) && GuardedRun(START, acts, j.group)
    ensures var w := Run(START, acts).value; var j := JobOf(w, k);
      Answer(w, j) == Some(signature) <==> S.Findable(10800, UsesOf(START, acts, j.group, j.hash), j.now, signature)
  {
    var j := JobOf(Run(START, acts).value, k);
    GuardedIsCareful(acts, j.group, j.hash);
    CarefulAgrees(acts, j.group, j.hash, |acts|);
    assert acts[..|acts|] == acts;
    S.IdealIsLatest(SignatureCache.TTL, UsesOf(START, acts, j.group, j.hash), j.now, signature);
  }

  // ---------- a store that is lost ----------

  const STORE: Thread := 0
  const PURGE: Thread := 1

  // One more step of a run that leads to w
  lemma OneMoreStep(acts: seq<Act>, w: World, k: Thread, a: Action, g: string, h: string) returns (more: seq<Act>, r: World)
    requires Run(START, acts) == Some(w) && Step(w, k, a).Some?
    ensures more == acts + [Act(k, a)] && Run(START, more) == Some(r) && Step(w, k, a) == Some(r)
    ensures UsesOf(START, more, g, h) == UsesOf(START, acts, g, h) + UsesBy(w, Act(k, a), g, h)
  {
    more, r := acts + [Act(k, a)], Step(w, k, a).value;
    assert more[..|acts|] == acts;
  }

  // A run so far has used nothing of the cell.
  predicate Unused(acts: seq<Act>, w: World, g: string, h: string) {
    Run(START, acts) == Some(w) && UsesOf(START, acts, g, h) == []
  }

  lemma UnusedStep(acts: seq<Act>, w: World, k: Thread, a: Action, g: string, h: string) returns (more: seq<Act>, r: World)
    requires Unused(acts, w, g, h) && Step(w, k, a).Some? && UsesBy(w, Act(k, a), g, h) == []
    ensures more == acts + [Act(k, a)] && Unused(more, r, g, h) && Step(w, k, a) == Some(r)
  {
    more, r := OneMoreStep(acts, w, k, a, g, h);
  }

  // The store is about to write into the bucket of the group, which is empty.
  predicate AboutToWrite(w: World, g: string, h: string, signature: string, purge: Job) {
    JobOf(w, STORE) == Writing(g, 0, h, signature) && JobOf(w, PURGE) == purge && Linked(w, g, 0) && EntriesOf(w, 0) == map[] && w.clock == 0
  }

  lemma StoreMakes(g: string, h: string, signature: string) returns (acts: seq<Act>, w: World)
    ensures Unused(acts, w, g, h) && AboutToWrite(w, g, h, signature, Idle)
  {
    acts, w := UnusedStep([], START, STORE, Store(g, h, signature), g, h);
    acts, w := UnusedStep(acts, w, STORE, Find, g, h);
    acts, w := UnusedStep(acts, w, STORE, Make, g, h);
  }

  lemma PurgeVisits(g: string, h: string, signature: string) returns (acts: seq<Act>, w: World)
    ensures Unused(acts, w, g, h) && AboutToWrite(w, g, h, signature, Sweeping(g, 0, 0))
  {
    acts, w := StoreMakes(g, h, signature);
    acts, w := UnusedStep(acts, w, PURGE, Purge, g, h);
    acts, w := UnusedStep(acts, w, PURGE, Visit(g), g, h);
  }

  lemma PurgeSweeps(g: string, h: string, signature: string) returns (acts: seq<Act>, w: World)
    ensures Unused(acts, w, g, h) && AboutToWrite(w, g, h, signature, Unlinking(g, Some(0)))
  {
    acts, w := PurgeVisits(g, h, signature);
    assert Unexpired(map[], 0) == map[];
    acts, w := UnusedStep(acts, w, PURGE, Sweep, g, h);
  }

  // A store makes its bucket; before it writes, a purge finds the bucket empty, and unlinks it once the store, which
  // succeeds, has written. Nothing else happens to the cell, and the signature is lost.
  lemma StoreIsLost(g: string, h: string, signature: string) returns (acts: seq<Act>)
    ensures Run(START, acts).Some? && At(Run(START, acts).value, g, h) == None
    ensures UsesOf(START, acts, g, h) == [S.Put(signature, 0)]
    ensures S.Ideal(SignatureCache.TTL, UsesOf(START, acts, g, h)) == Some(S.Cell(signature, 0))
  {
    var w;
    acts, w := PurgeSweeps(g, h, signature);
    acts, w := OneMoreStep(acts, w, STORE, Write, g, h);
    acts, w := OneMoreStep(acts, w, PURGE, Unlink, g, h);
    S.IdealMore(SignatureCache.TTL, [], S.Put(signature, 0));
  }
}
