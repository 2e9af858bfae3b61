// The guard around a plugin client: calls are counted in and out, and a shutdown waits until the last one is out.
// Any number of threads share one guard. Every block under the guard's mutex is one step; waiting on the
// condition variable leaves the mutex, and a broadcast wakes every waiter to try again.
module ClientGuard {
  import opened Text

  // The fields behind the mutex; hasInner tells whether the inner client is still held.
  datatype Guard = Guard(hasInner: bool, calls: int, closed: bool)

  // What a thread does after a block of Shutdown: return, wait (as the closing thread or not), or shut the
  // client it has taken down.
  datatype Outcome = Return | Wait(owner: bool) | Stop

  class GuardedPluginClient {
    var hasInner: bool
    var calls: int
    var closed: bool

    constructor (hasInner: bool)
      ensures State() == Guard(hasInner, 0, false)
    {
      this.hasInner, calls, closed := hasInner, 0, false;
    }

    ghost function State(): Guard
      reads this
    {
      Guard(hasInner, calls, closed)
    }

    method Acquire() returns (ok: bool)
      modifies this
      ensures State() == Acquired(old(State())) && ok == CanAcquire(old(State()))
      ensures ok <==> !old(closed) && old(hasInner)
    {
      if closed || !hasInner {
        return false;
      }
      calls := calls + 1;
      return true;
    }

    method Release() returns (broadcast: bool)
      modifies this
      ensures State() == Released(old(State())) && broadcast == (State().calls == 0)
    {
      calls := calls - 1;
      broadcast := calls == 0;
    }

    // Shutdown up to its first wait
    method BeginShutdown() returns (outcome: Outcome)
      modifies this
      ensures State() == Closing(old(State())) && outcome == FirstOutcome(old(State()))
    {
      if closed {
        return if calls > 0 then Wait(false) else Return;
      }
      closed := true;
      outcome := AfterWait(true);
    }

    // Shutdown from a wakeup to its next wait, or to its end
    method AfterWait(owner: bool) returns (outcome: Outcome)
      modifies this
      ensures State() == Resumed(old(State()), owner) && outcome == NextOutcome(old(State()), owner)
    {
      if calls > 0 {
        return Wait(owner);
      }
      if !owner {
        return Return;
      }
      outcome := if hasInner then Stop else Return;
      hasInner := false;
    }
  }

  predicate CanAcquire(g: Guard) {
    !g.closed && g.hasInner
  }

  function Acquired(g: Guard): Guard {
    if CanAcquire(g) then g.(calls := g.calls + 1) else g
  }

  function Released(g: Guard): Guard {
    g.(calls := g.calls - 1)
  }

  function NextOutcome(g: Guard, owner: bool): Outcome {
    if g.calls > 0 then Wait(owner) else if owner && g.hasInner then Stop else Return
  }

  function Resumed(g: Guard, owner: bool): Guard {
    if g.calls <= 0 && owner then g.(hasInner := false) else g
  }

  function FirstOutcome(g: Guard): Outcome {
    NextOutcome(g, !g.closed)
  }

  function Closing(g: Guard): Guard {
    Resumed(g.(closed := true), !g.closed)
  }

  // ---------- threads ----------

  type Thread = nat

  // Where a thread is: outside, inside the inner client, waiting, woken up, or shutting the inner client down. A
  // thread that is blocked waits in a shutdown it began from inside its own call, for good.
  datatype Place = Outside | Inside | Asleep(owner: bool) | Awake(owner: bool) | Stopping | Blocked

  // `stops` counts how often a shutdown of the inner client was begun.
  datatype State = State(guard: Guard, threads: map<Thread, Place>, stops: nat)

  datatype Action = Enter | Leave | Shutdown | Resume | Stopped

  function PlaceOf(s: State, t: Thread): Place {
    if t in s.threads then s.threads[t] else Outside
  }

  function Move(s: State, t: Thread, p: Place): State {
    s.(threads := s.threads[t := p])
  }

  // A broadcast comes when the last call has left, so that no thread is blocked then.
  function WakeAll(threads: map<Thread, Place>): map<Thread, Place> {
    map t | t in threads :: if threads[t].Asleep? then Awake(threads[t].owner) else threads[t]
  }

  function Proceed(s: State, t: Thread, outcome: Outcome): State {
    match outcome
    case Return => Move(s, t, Outside)
    case Wait(owner) => Move(s, t, Asleep(owner))
    case Stop => Move(s, t, Stopping).(stops := s.stops + 1)
  }

  // One step of thread t, if it can take it.
  function Step(s: State, t: Thread, a: Action): Option<State> {
    match (PlaceOf(s, t), a)
    case (Outside, Enter) =>
      Some(if CanAcquire(s.guard) then Move(s.(guard := Acquired(s.guard)), t, Inside) else s)
    case (Inside, Leave) =>
      var g := Released(s.guard);
      var left := Move(s.(guard := g), t, Outside);
      Some(if g.calls == 0 then left.(threads := WakeAll(left.threads)) else left)
    case (Inside, Shutdown) =>
      match FirstOutcome(s.guard) {
        case Wait(_) => Some(Move(s.(guard := Closing(s.guard)), t, Blocked))
        case _ => None // its own call is counted
      }
    case (Outside, Shutdown) => Some(Proceed(s.(guard := Closing(s.guard)), t, FirstOutcome(s.guard)))
    case (Awake(owner), Resume) => Some(Proceed(s.(guard := Resumed(s.guard, owner)), t, NextOutcome(s.guard, owner)))
    case (Stopping, Stopped) => Some(Move(s, t, Outside))
    case _ => None
  }

  datatype Event = Event(thread: Thread, action: Action)

  function Run(s: State, events: seq<Event>): Option<State>
    decreases |events|
  {
    if events == [] then Some(s)
    else match Step(s, events[0].thread, events[0].action)
      case None => None
      case Some(next) => Run(next, events[1..])
  }

  function Start(hasInner: bool): State {
    State(Guard(hasInner, 0, false), map[], 0)
  }

  // ---------- how many threads are where ----------

  function At(s: State, p: Place): set<Thread> {
    set t | t in s.threads && s.threads[t] == p
  }

  // How many threads are at each place but outside.
  datatype Census = Census(inside: nat, asleepOwner: nat, asleep: nat, awakeOwner: nat, awake: nat, stopping: nat,
                           blocked: nat)

  function CensusOf(s: State): Census {
    Census(|At(s, Inside)|, |At(s, Asleep(true))|, |At(s, Asleep(false))|,
           |At(s, Awake(true))|, |At(s, Awake(false))|, |At(s, Stopping)|, |At(s, Blocked)|)
  }

  function CountAt(c: Census, p: Place): nat {
    match p
    case Outside => 0
    case Inside => c.inside
    case Asleep(owner) => if owner then c.asleepOwner else c.asleep
    case Awake(owner) => if owner then c.awakeOwner else c.awake
    case Stopping => c.stopping
    case Blocked => c.blocked
  }

  lemma SizeMoved(s: State, t: Thread, q: Place, at: Place)
    requires at != Outside
    ensures |At(Move(s, t, q), at)| ==
      |At(s, at)| + (if q == at then 1 else 0) - (if PlaceOf(s, t) == at then 1 else 0)
    ensures PlaceOf(s, t) == at ==> |At(s, at)| > 0
  {
    assert At(Move(s, t, q), at) == if q == at then At(s, at) + {t} else At(s, at) - {t};
    assert PlaceOf(s, t) == at ==> t in At(s, at);
  }

  lemma SomebodyThere(s: State, t: Thread)
    requires PlaceOf(s, t) != Outside
    ensures CountAt(CensusOf(s), PlaceOf(s, t)) > 0
  {
    SizeMoved(s, t, Outside, PlaceOf(s, t));
  }

  lemma CountMoved(s: State, t: Thread, q: Place, at: Place)
    requires at != Outside
    ensures CountAt(CensusOf(Move(s, t, q)), at) ==
      CountAt(CensusOf(s), at) + (if q == at then 1 else 0) - (if PlaceOf(s, t) == at then 1 else 0)
  {
    SizeMoved(s, t, q, at);
  }

  lemma ByPlace(c: Census)
    ensures c == Census(CountAt(c, Inside), CountAt(c, Asleep(true)), CountAt(c, Asleep(false)),
                        CountAt(c, Awake(true)), CountAt(c, Awake(false)), CountAt(c, Stopping),
                        CountAt(c, Blocked))
  {
  }

  lemma SameCensus(s: State, r: State)
    requires s.threads == r.threads
    ensures CensusOf(s) == CensusOf(r)
  {
    forall p ensures At(s, p) == At(r, p) {
    }
  }

  function Less(c: Census, p: Place): Census
    requires p == Outside || CountAt(c, p) > 0
  {
    match p
    case Outside => c
    case Inside => c.(inside := c.inside - 1)
    case Asleep(owner) => if owner then c.(asleepOwner := c.asleepOwner - 1) else c.(asleep := c.asleep - 1)
    case Awake(owner) => if owner then c.(awakeOwner := c.awakeOwner - 1) else c.(awake := c.awake - 1)
    case Stopping => c.(stopping := c.stopping - 1)
    case Blocked => c.(blocked := c.blocked - 1)
  }

  function More(c: Census, p: Place): Census {
    match p
    case Outside => c
    case Inside => c.(inside := c.inside + 1)
    case Asleep(owner) => if owner then c.(asleepOwner := c.asleepOwner + 1) else c.(asleep := c.asleep + 1)
    case Awake(owner) => if owner then c.(awakeOwner := c.awakeOwner + 1) else c.(awake := c.awake + 1)
    case Stopping => c.(stopping := c.stopping + 1)
    case Blocked => c.(blocked := c.blocked + 1)
  }

  lemma CountLess(c: Census, p: Place, at: Place)
    requires at != Outside && (p == Outside || CountAt(c, p) > 0)
    ensures CountAt(Less(c, p), at) == CountAt(c, at) - (if p == at then 1 else 0)
  {
  }

  lemma CountMore(c: Census, q: Place, at: Place)
    requires at != Outside
    ensures CountAt(More(c, q), at) == CountAt(c, at) + (if q == at then 1 else 0)
  {
  }

  lemma SameCounts(c: Census, d: Census)
    requires forall at :: at != Outside ==> CountAt(c, at) == CountAt(d, at)
    ensures c == d
  {
    ByPlace(c);
    ByPlace(d);
  }

  // A thread that moves is counted at one place less and at another place more; what else changes does not matter.
  lemma MoveShifts(s: State, t: Thread, q: Place, r: State)
    requires r.threads == Move(s, t, q).threads
    ensures PlaceOf(s, t) == Outside || CountAt(CensusOf(s), PlaceOf(s, t)) > 0
    ensures CensusOf(r) == More(Less(CensusOf(s), PlaceOf(s, t)), q)
  {
    if PlaceOf(s, t) != Outside {
      SomebodyThere(s, t);
    }
    SameCensus(r, Move(s, t, q));
    forall at | at != Outside ensures CountAt(CensusOf(r), at) == CountAt(More(Less(CensusOf(s), PlaceOf(s, t)), q), at) {
      CountMoved(s, t, q, at);
      CountLess(CensusOf(s), PlaceOf(s, t), at);
      CountMore(Less(CensusOf(s), PlaceOf(s, t)), q, at);
    }
    SameCounts(CensusOf(r), More(Less(CensusOf(s), PlaceOf(s, t)), q));
  }

  lemma Woken(s: State, owner: bool)
    ensures var w := s.(threads := WakeAll(s.threads));
      At(w, Asleep(owner)) == {} && |At(w, Awake(owner))| == |At(s, Awake(owner))| + |At(s, Asleep(owner))|
  {
    var w := s.(threads := WakeAll(s.threads));
    assert At(w, Awake(owner)) == At(s, Awake(owner)) + At(s, Asleep(owner));
  }

  lemma CensusWoken(s: State)
    ensures var c := CensusOf(s);
      CensusOf(s.(threads := WakeAll(s.threads))) ==
      Census(c.inside, 0, 0, c.awakeOwner + c.asleepOwner, c.awake + c.asleep, c.stopping, c.blocked)
  {
    var w := s.(threads := WakeAll(s.threads));
    Woken(s, true);
    Woken(s, false);
    assert At(w, Inside) == At(s, Inside);
    assert At(w, Stopping) == At(s, Stopping);
    assert At(w, Blocked) == At(s, Blocked);
  }

  // ---------- the invariant ----------

  ghost predicate Inv(s: State) {
    Sound(s.guard, s.stops, CensusOf(s))
  }

  ghost predicate Sound(g: Guard, stops: nat, c: Census) {
    // calls counts the threads inside
    g.calls == c.inside + c.blocked &&
    // nobody sleeps unless a call is still to leave, so no wakeup is lost; nobody is woken before
    (c.asleepOwner + c.asleep > 0 ==> g.calls > 0) && (c.awakeOwner + c.awake > 0 ==> g.calls == 0) &&
    // waiting and stopping are for closed guards, and one thread at most is to stop the client
    (c.asleepOwner + c.asleep + c.awakeOwner + c.awake + c.stopping + c.blocked > 0 ==> g.closed) &&
    c.asleepOwner + c.awakeOwner + c.stopping <= 1 &&
    (g.closed && g.hasInner ==> c.asleepOwner + c.awakeOwner == 1 || c.blocked > 0) &&
    c.stopping <= stops &&
    // the client is stopped at most once, after the last call has left
    stops <= 1 &&
    (stops == 1 ==> g.closed && !g.hasInner && g.calls == 0 && c.asleepOwner + c.awakeOwner == 0)
  }

  // Where a block of Shutdown leaves its thread.
  function Goal(outcome: Outcome): Place {
    match outcome
    case Return => Outside
    case Wait(owner) => Asleep(owner)
    case Stop => Stopping
  }

  // The guard and the counts after a block of Shutdown, by its outcome
  lemma SoundAfter(g: Guard, stops: nat, c: Census, p: Place, owner: bool)
    requires Sound(g, stops, c) && (p == Awake(owner) || (p == Outside && owner == !g.closed)) && (p == Outside || CountAt(c, p) > 0)
    ensures var closed := g.(closed := true); var outcome := NextOutcome(closed, owner);
      Sound(Resumed(closed, owner), if outcome.Stop? then stops + 1 else stops, More(Less(c, p), Goal(outcome)))
  {
  }

  lemma ProceedIs(s: State, t: Thread, outcome: Outcome, r: State)
    requires r == Proceed(s, t, outcome)
    ensures r.guard == s.guard && r.threads == Move(s, t, Goal(outcome)).threads
    ensures r.stops == if outcome.Stop? then s.stops + 1 else s.stops
  {
  }

  lemma ProceedSound(s: State, t: Thread, owner: bool, g: Guard, outcome: Outcome, r: State)
    requires Inv(s) && (PlaceOf(s, t) == Awake(owner) || (PlaceOf(s, t) == Outside && owner == !s.guard.closed))
    requires g == s.guard.(closed := true) && outcome == NextOutcome(g, owner)
    requires r == Proceed(s.(guard := Resumed(g, owner)), t, outcome)
    ensures Inv(r)
  {
    ProceedIs(s.(guard := Resumed(g, owner)), t, outcome, r);
    MoveShifts(s, t, Goal(outcome), r);
    SoundAfter(s.guard, s.stops, CensusOf(s), PlaceOf(s, t), owner);
  }

  lemma ProceedKeepsInv(s: State, t: Thread, owner: bool)
    requires Inv(s)
    requires PlaceOf(s, t) == Awake(owner) || (PlaceOf(s, t) == Outside && owner == !s.guard.closed)
    ensures var g := s.guard.(closed := true); Inv(Proceed(s.(guard := Resumed(g, owner)), t, NextOutcome(g, owner)))
  {
    var g := s.guard.(closed := true);
    ProceedSound(s, t, owner, g, NextOutcome(g, owner), Proceed(s.(guard := Resumed(g, owner)), t, NextOutcome(g, owner)));
  }

  lemma LeaveCensus(s: State, t: Thread)
    requires PlaceOf(s, t) == Inside
    ensures var left := Move(s.(guard := Released(s.guard)), t, Outside);
      CensusOf(s).inside > 0 && CensusOf(left) == CensusOf(s).(inside := CensusOf(s).inside - 1)
  {
    MoveShifts(s, t, Outside, Move(s.(guard := Released(s.guard)), t, Outside));
  }

  lemma LeaveKeepsInv(s: State, t: Thread)
    requires Inv(s) && PlaceOf(s, t) == Inside
    ensures Inv(Step(s, t, Leave).value)
  {
    LeaveCensus(s, t);
    CensusWoken(Move(s.(guard := Released(s.guard)), t, Outside));
  }

  lemma EnterKeepsInv(s: State, t: Thread)
    requires Inv(s) && PlaceOf(s, t) == Outside && CanAcquire(s.guard)
    ensures Inv(Step(s, t, Enter).value)
  {
    MoveShifts(s, t, Inside, Step(s, t, Enter).value);
  }

  predicate Tally(s: State, t: Thread) {
    s.stops <= 1 && (s.stops == 1 ==> !s.guard.hasInner) && (PlaceOf(s, t).Inside? ==> s.guard.calls > 0)
  }

  lemma InvTally(s: State, t: Thread)
    requires Inv(s)
    ensures Tally(s, t)
  {
    MoveShifts(s, t, Outside, Move(s, t, Outside));
  }

  // A thread inside counts as a call, so its shutdown waits.
  lemma BlockKeepsInv(s: State, t: Thread)
    requires Inv(s) && PlaceOf(s, t) == Inside
    ensures Step(s, t, Shutdown).Some? && Inv(Step(s, t, Shutdown).value) && PlaceOf(Step(s, t, Shutdown).value, t).Blocked?
  {
    InvTally(s, t);
    assert FirstOutcome(s.guard) == Wait(!s.guard.closed);
    MoveShifts(s, t, Blocked, Step(s, t, Shutdown).value);
  }

  lemma StoppedKeepsInv(s: State, t: Thread)
    requires Inv(s) && PlaceOf(s, t) == Stopping
    ensures Inv(Move(s, t, Outside))
  {
    MoveShifts(s, t, Outside, Move(s, t, Outside));
  }

  // Every step of every thread keeps the invariant.
  lemma StepKeepsInv(s: State, t: Thread, a: Action)
    requires Inv(s) && Step(s, t, a).Some?
    ensures Inv(Step(s, t, a).value)
  {
    match (PlaceOf(s, t), a)
    case (Outside, Enter) =>
      if CanAcquire(s.guard) {
        EnterKeepsInv(s, t);
      }
    case (Inside, Leave) => LeaveKeepsInv(s, t);
    case (Inside, Shutdown) => BlockKeepsInv(s, t);
    case (Outside, Shutdown) => ProceedKeepsInv(s, t, !s.guard.closed);
    case (Awake(owner), Resume) =>
      AwakeIsClosed(s, t);
      ProceedKeepsInv(s, t, owner);
    case (Stopping, Stopped) => StoppedKeepsInv(s, t);
  }

  lemma AwakeIsClosed(s: State, t: Thread)
    requires Inv(s) && PlaceOf(s, t).Awake?
    ensures s.guard.(closed := true) == s.guard
  {
    MoveShifts(s, t, Outside, Move(s, t, Outside));
  }

  lemma {:induction false} RunKeepsInv(s: State, events: seq<Event>)
    requires Inv(s) && Run(s, events).Some?
    ensures Inv(Run(s, events).value)
    decreases |events|
  {
    if events != [] {
      StepKeepsInv(s, events[0].thread, events[0].action);
      RunKeepsInv(Step(s, events[0].thread, events[0].action).value, events[1..]);
    }
  }

  // The threads with a call in the inner client
  function Calling(s: State): set<Thread> {
    At(s, Inside) + At(s, Blocked)
  }

  // On every run of any number of threads the counter is the number of threads inside, the inner client is
  // stopped at most once, and from the moment it is stopped nobody is inside and nobody can get in.
  lemma Safety(hasInner: bool, events: seq<Event>)
    requires Run(Start(hasInner), events).Some?
    ensures var s := Run(Start(hasInner), events).value;
      Inv(s) && s.guard.calls == |Calling(s)| && s.stops <= 1 &&
      (s.stops == 1 ==> Calling(s) == {} && !CanAcquire(s.guard))
  {
    assert CensusOf(Start(hasInner)) == Census(0, 0, 0, 0, 0, 0, 0);
    RunKeepsInv(Start(hasInner), events);
    CallingCount(Run(Start(hasInner), events).value);
  }

  lemma CallingCount(s: State)
    ensures |Calling(s)| == |At(s, Inside)| + |At(s, Blocked)|
  {
    assert At(s, Inside) !! At(s, Blocked);
  }

  // A block of Shutdown that gives up the inner client stops it.
  lemma ProceedLosesNot(s: State, t: Thread, g: Guard, owner: bool)
    requires s.guard.hasInner == g.hasInner && (g.hasInner || s.stops == 1) && (s.stops == 1 ==> !g.hasInner) && s.stops <= 1
    ensures var r := Proceed(s.(guard := Resumed(g, owner)), t, NextOutcome(g, owner)); r.guard.hasInner || r.stops == 1
  {
  }

  // The client is held, or has been stopped.
  predicate Accounted(s: State) {
    s.guard.hasInner || s.stops == 1
  }

  lemma StepLosesNot(s: State, t: Thread, a: Action)
    requires Tally(s, t) && Accounted(s) && Step(s, t, a).Some?
    ensures Accounted(Step(s, t, a).value)
  {
    match (PlaceOf(s, t), a)
    case (Outside, Shutdown) => ProceedLosesNot(s, t, s.guard.(closed := true), !s.guard.closed);
    case (Awake(owner), Resume) => ProceedLosesNot(s, t, s.guard, owner);
    case _ =>
  }

  // The inner client that a guard was given is still held or has been stopped: it is never lost.
  lemma {:induction false} NeverLost(s: State, events: seq<Event>)
    requires Inv(s) && Accounted(s) && Run(s, events).Some?
    ensures var r := Run(s, events).value; r.guard.hasInner != (r.stops == 1)
    decreases |events|
  {
    if events != [] {
      StepKeepsInv(s, events[0].thread, events[0].action);
      InvTally(s, events[0].thread);
      StepLosesNot(s, events[0].thread, events[0].action);
      NeverLost(Step(s, events[0].thread, events[0].action).value, events[1..]);
    }
  }

  // ---------- once closed ----------

  // A closed guard stays closed, lets nobody in, and its counter never rises.
  lemma {:induction false} ClosedOnlyDrains(s: State, events: seq<Event>)
    requires s.guard.closed && Run(s, events).Some?
    ensures var r := Run(s, events).value;
      r.guard.closed && r.guard.calls <= s.guard.calls && Calling(r) <= Calling(s)
    decreases |events|
  {
    if events != [] {
      var t, a := events[0].thread, events[0].action;
      var next := Step(s, t, a).value;
      assert next.guard.closed && next.guard.calls <= s.guard.calls;
      assert Calling(next) <= Calling(s);
      ClosedOnlyDrains(next, events[1..]);
    }
  }

  // How many blocks the threads under way have still to go through, at most: a waiting thread is woken once,
  // when the last call leaves. A blocked thread has none.
  function Work(s: State): nat {
    var c := CensusOf(s);
    c.inside + c.stopping + 3 * (c.asleepOwner + c.asleep) + 2 * (c.awakeOwner + c.awake)
  }

  predicate Finishing(a: Action) {
    a in {Leave, Resume, Stopped}
  }

  lemma LeaveWorks(s: State, t: Thread)
    requires Inv(s) && PlaceOf(s, t) == Inside
    ensures Work(Step(s, t, Leave).value) < Work(s)
  {
    LeaveCensus(s, t);
    CensusWoken(Move(s.(guard := Released(s.guard)), t, Outside));
  }

  lemma ResumeWorks(s: State, t: Thread)
    requires Inv(s) && PlaceOf(s, t).Awake?
    ensures Work(Step(s, t, Resume).value) < Work(s)
  {
    MoveShifts(s, t, Goal(NextOutcome(s.guard, PlaceOf(s, t).owner)), Step(s, t, Resume).value);
  }

  // Each step of a thread towards leaving takes work away.
  lemma FinishingWorks(s: State, t: Thread, a: Action)
    requires Inv(s) && Finishing(a) && Step(s, t, a).Some?
    ensures Work(Step(s, t, a).value) < Work(s)
  {
    match a
    case Leave => LeaveWorks(s, t);
    case Resume => ResumeWorks(s, t);
    case Stopped => MoveShifts(s, t, Outside, Move(s, t, Outside));
  }

  predicate AllOutside(s: State) {
    forall t :: t in s.threads ==> s.threads[t] == Outside
  }

  // Some thread is under way, and none can go on.
  ghost predicate Stuck(s: State) {
    !AllOutside(s) && forall t: Thread, a: Action :: Finishing(a) ==> Step(s, t, a) == None
  }

  lemma CanGoOn(s: State, t: Thread)
    requires PlaceOf(s, t) in {Inside, Awake(true), Awake(false), Stopping}
    ensures exists a :: Finishing(a) && Step(s, t, a).Some?
  {
    var a := if PlaceOf(s, t).Inside? then Leave else if PlaceOf(s, t).Awake? then Resume else Stopped;
    assert Step(s, t, a).Some?;
  }

  lemma OnlyWaiting(s: State, t: Thread)
    requires Inv(s) && s.guard.calls > 0 && At(s, Inside) == {}
    ensures PlaceOf(s, t).Outside? || PlaceOf(s, t).Asleep? || PlaceOf(s, t).Blocked?
  {
    MoveShifts(s, t, Outside, Move(s, t, Outside));
    assert PlaceOf(s, t) == Inside ==> t in At(s, Inside);
  }

  lemma BlockedCannot(s: State)
    requires Inv(s) && s.guard.calls > 0 && At(s, Inside) == {}
    ensures Stuck(s)
  {
    CallingCount(s);
    var some :| some in Calling(s);
    forall t: Thread, a: Action | Finishing(a) ensures Step(s, t, a) == None {
      OnlyWaiting(s, t);
    }
  }

  // Threads are stuck if and only if calls are left and each of them waits in a shutdown of its own: no wakeup is
  // missed, and there is no other deadlock.
  lemma StuckIff(s: State)
    requires Inv(s)
    ensures Stuck(s) <==> s.guard.calls > 0 && At(s, Inside) == {}
  {
    if s.guard.calls > 0 && At(s, Inside) == {} {
      BlockedCannot(s);
    }
    if Stuck(s) {
      NobodyCanGoOn(s);
    }
  }

  lemma NobodyCanGoOn(s: State)
    requires Inv(s) && Stuck(s)
    ensures s.guard.calls > 0 && At(s, Inside) == {}
  {
    forall t: Thread ensures PlaceOf(s, t) !in {Inside, Awake(true), Awake(false), Stopping} {
      if PlaceOf(s, t) in {Inside, Awake(true), Awake(false), Stopping} {
        CanGoOn(s, t);
      }
    }
    assert forall t :: t in At(s, Inside) ==> PlaceOf(s, t) == Inside;
    var t :| t in s.threads && s.threads[t] != Outside;
    MoveShifts(s, t, Outside, Move(s, t, Outside));
  }

  // While a thread is not outside, some thread can go on, unless all calls left wait in a shutdown of their own.
  lemma Progress(s: State)
    requires Inv(s) && !AllOutside(s) && !(s.guard.calls > 0 && At(s, Inside) == {})
    ensures exists t: Thread, a: Action :: Finishing(a) && Step(s, t, a).Some?
  {
    StuckIff(s);
  }

  lemma BlockedCounts(s: State, t: Thread)
    requires Inv(s) && PlaceOf(s, t).Blocked?
    ensures s.guard.calls > 0 && s.stops == 0
  {
    MoveShifts(s, t, Outside, Move(s, t, Outside));
  }

  lemma BlockedStays(s: State, t: Thread, u: Thread, a: Action)
    requires PlaceOf(s, t).Blocked? && Step(s, u, a).Some?
    ensures PlaceOf(Step(s, u, a).value, t) == PlaceOf(s, t)
  {
  }

  // A thread that shuts its client down from inside a call stays blocked for good, and the client is never stopped.
  lemma {:induction false} BlockedForGood(s: State, events: seq<Event>, t: Thread)
    requires Inv(s) && PlaceOf(s, t).Blocked? && Run(s, events).Some?
    ensures var r := Run(s, events).value; PlaceOf(r, t) == PlaceOf(s, t) && r.guard.calls > 0 && r.stops == 0
    decreases |events|
  {
    BlockedCounts(s, t);
    if events != [] {
      StepKeepsInv(s, events[0].thread, events[0].action);
      BlockedStays(s, t, events[0].thread, events[0].action);
      BlockedForGood(Step(s, events[0].thread, events[0].action).value, events[1..], t);
    }
  }

  lemma FinishingUnblocks(s: State, t: Thread, a: Action)
    requires Finishing(a) && Step(s, t, a).Some?
    ensures At(Step(s, t, a).value, Blocked) == At(s, Blocked)
  {
    assert forall u :: u in At(Step(s, t, a).value, Blocked) <==> u in At(s, Blocked);
  }

  lemma ClosedAtRest(s: State)
    requires Inv(s) && s.guard.closed && AllOutside(s)
    ensures !s.guard.hasInner && NoneBlocked(s)
  {
    assert At(s, Asleep(true)) == {} && At(s, Awake(true)) == {} && At(s, Blocked) == {};
  }

  predicate NoneBlocked(s: State) {
    At(s, Blocked) == {}
  }

  lemma CallsBlocked(s: State)
    requires Inv(s)
    ensures At(s, Inside) == {} ==> (s.guard.calls > 0 <==> !NoneBlocked(s))
  {
    CallingCount(s);
    if !NoneBlocked(s) && At(s, Inside) == {} {
      var t :| t in At(s, Blocked);
      assert t in Calling(s);
    }
  }

  // Once a shutdown has begun it ends: the threads under way take at most Work(s) more steps, and when none of
  // them can go on, everybody is outside and the guard holds no inner client any more, if and only if no thread has
  // shut the client down from inside a call.
  lemma {:induction false} ShutdownEnds(s: State, events: seq<Event>)
    requires Inv(s) && s.guard.closed
    requires Run(s, events).Some? && forall i | 0 <= i < |events| :: Finishing(events[i].action)
    ensures |events| <= Work(s)
    ensures var r := Run(s, events).value;
      (forall t: Thread, a: Action :: Finishing(a) ==> Step(r, t, a) == None) ==>
        (AllOutside(r) && !r.guard.hasInner <==> NoneBlocked(s))
    decreases |events|
  {
    if events == [] {
      CallsBlocked(s);
      if AllOutside(s) {
        ClosedAtRest(s);
      } else {
        StuckIff(s);
      }
    } else {
      StepKeepsInv(s, events[0].thread, events[0].action);
      FinishingWorks(s, events[0].thread, events[0].action);
      FinishingUnblocks(s, events[0].thread, events[0].action);
      ShutdownEnds(Step(s, events[0].thread, events[0].action).value, events[1..]);
    }
  }

  // ---------- who is let in, and what the first shutdown does ----------

  predicate ShutdownIn(events: seq<Event>) {
    exists e :: e in events && e.action == Shutdown
  }

  lemma StepCloses(s: State, t: Thread, a: Action)
    requires Step(s, t, a).Some?
    ensures var r := Step(s, t, a).value;
      (r.guard.closed <==> s.guard.closed || a == Shutdown) && (!r.guard.closed && Inv(s) ==> r.guard.hasInner == s.guard.hasInner)
  {
    if PlaceOf(s, t).Awake? && Inv(s) {
      AwakeIsClosed(s, t);
    }
  }

  lemma {:induction false} ClosedIff(s: State, events: seq<Event>)
    requires Inv(s) && Run(s, events).Some?
    ensures var r := Run(s, events).value;
      (r.guard.closed <==> s.guard.closed || ShutdownIn(events)) && (!r.guard.closed ==> r.guard.hasInner == s.guard.hasInner)
    decreases |events|
  {
    if events != [] {
      var e := events[0];
      assert events == [e] + events[1..];
      StepCloses(s, e.thread, e.action);
      StepKeepsInv(s, e.thread, e.action);
      ClosedIff(Step(s, e.thread, e.action).value, events[1..]);
    }
  }

  lemma StartInv(hasInner: bool)
    ensures Inv(Start(hasInner))
  {
    assert forall p :: At(Start(hasInner), p) == {};
  }

  // What a run has done to the guard: it is closed if a shutdown has begun, and untouched otherwise.
  lemma ClosedByShutdown(hasInner: bool, events: seq<Event>, s: State)
    requires Run(Start(hasInner), events) == Some(s)
    ensures s.guard.closed <==> ShutdownIn(events)
    ensures !ShutdownIn(events) ==> s.guard.hasInner == hasInner && s.stops == 0
  {
    StartInv(hasInner);
    ClosedIff(Start(hasInner), events);
    RunKeepsInv(Start(hasInner), events);
    if !ShutdownIn(events) {
      OpenNotStopped(s);
    }
  }

  lemma EnterIs(s: State, t: Thread)
    requires PlaceOf(s, t) == Outside
    ensures var r := Step(s, t, Enter);
      r.Some? && (PlaceOf(r.value, t) == Inside <==> s.guard.hasInner && !s.guard.closed) &&
      r.value.guard == if PlaceOf(r.value, t) == Inside then s.guard.(calls := s.guard.calls + 1) else s.guard
  {
  }

  // After any run a call is let in if and only if there is a client and no shutdown has begun; it is then counted.
  lemma AdmittedIff(hasInner: bool, events: seq<Event>, s: State, t: Thread)
    requires Run(Start(hasInner), events) == Some(s) && PlaceOf(s, t) == Outside
    ensures var r := Step(s, t, Enter);
      r.Some? && (PlaceOf(r.value, t) == Inside <==> hasInner && !ShutdownIn(events)) &&
      r.value.guard == if PlaceOf(r.value, t) == Inside then s.guard.(calls := s.guard.calls + 1) else s.guard
  {
    ClosedByShutdown(hasInner, events, s);
    EnterIs(s, t);
  }

  lemma ShutdownIs(s: State, t: Thread)
    requires PlaceOf(s, t) == Outside && !s.guard.closed
    ensures var r := Step(s, t, Shutdown);
      r.Some? && r.value.guard == Guard(s.guard.hasInner && s.guard.calls > 0, s.guard.calls, true) &&
      PlaceOf(r.value, t) == (if s.guard.calls > 0 then Asleep(true) else if s.guard.hasInner then Stopping else Outside) &&
      r.value.stops == s.stops + if s.guard.hasInner && s.guard.calls <= 0 then 1 else 0
  {
  }

  // The first shutdown, from outside, closes the guard. It waits while calls are left, and otherwise stops the client,
  // if there is one.
  lemma FirstShutdown(hasInner: bool, events: seq<Event>, s: State, t: Thread)
    requires Run(Start(hasInner), events) == Some(s) && PlaceOf(s, t) == Outside && !ShutdownIn(events)
    ensures var r, busy := Step(s, t, Shutdown), s.guard.calls > 0;
      r.Some? && r.value.guard == Guard(hasInner && busy, s.guard.calls, true) &&
      PlaceOf(r.value, t) == (if busy then Asleep(true) else if hasInner then Stopping else Outside) &&
      r.value.stops == if hasInner && !busy then 1 else 0
  {
    ClosedByShutdown(hasInner, events, s);
    ShutdownIs(s, t);
  }

  lemma OpenNotStopped(s: State)
    requires Inv(s) && !s.guard.closed
    ensures s.stops == 0
  {
  }
}
