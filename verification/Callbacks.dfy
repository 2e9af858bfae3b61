// Callback contexts and the model streams they own. A plugin opens a callback context, hands cleanups over to
// it, and closes it once; a model stream opened under a context leaves a cleanup there that closes the stream.
// Any number of threads take steps; each block under a mutex, and each call of a cancel function, is one step.
module Callbacks {
  import opened Text

  // Ids are the numbers the counters print. A plugin may name any id: none, a number, or other text.
  datatype Id = Empty | Number(n: nat) | Other(text: string)

  type Thread = nat

  // A cleanup function is known by its ticket; cleanups[ticket] says which stream it closes, if any.
  type Ticket = nat

  // ---------- the two registries ----------

  class CallbackContextRegistry {
    var next: nat
    var contexts: map<nat, seq<Ticket>>

    constructor ()
      ensures next == 0 && contexts == map[]
    {
      next, contexts := 0, map[];
    }

    method NextId() returns (n: nat)
      modifies this
      ensures n == next == old(next) + 1 && contexts == old(contexts)
    {
      next := next + 1;
      n := next;
    }

    method Insert(n: nat)
      modifies this
      ensures contexts == old(contexts)[n := []] && next == old(next)
    {
      contexts := contexts[n := []];
    }

    // The locked block of the closing function
    method Take(n: nat) returns (cleanup: seq<Ticket>)
      modifies this
      ensures contexts == old(contexts) - {n} && next == old(next)
      ensures cleanup == Listed(old(contexts), Number(n))
    {
      cleanup := if n in contexts then contexts[n] else [];
      contexts := contexts - {n};
    }

    // The locked block of addCleanup: ok tells the caller that it need not run the cleanup itself
    method Append(id: Id, t: Ticket) returns (ok: bool)
      modifies this
      ensures ok == Live(old(contexts), id) && next == old(next)
      ensures contexts == Appended(old(contexts), id, t)
      ensures ok <==> id.Number? && id.n in old(contexts)
      ensures contexts == if ok then old(contexts)[id.n := old(contexts)[id.n] + [t]] else old(contexts)
    {
      ok := id.Number? && id.n in contexts;
      if ok {
        contexts := contexts[id.n := contexts[id.n] + [t]];
      }
    }
  }

  predicate Live(contexts: map<nat, seq<Ticket>>, id: Id) {
    id.Number? && id.n in contexts
  }

  function Listed(contexts: map<nat, seq<Ticket>>, id: Id): seq<Ticket> {
    if Live(contexts, id) then contexts[id.n] else []
  }

  function Appended(contexts: map<nat, seq<Ticket>>, id: Id, t: Ticket): map<nat, seq<Ticket>> {
    if Live(contexts, id) then contexts[id.n := contexts[id.n] + [t]] else contexts
  }

  class ModelStreamBridge {
    var next: nat
    var streams: map<nat, Id>

    constructor ()
      ensures next == 0 && streams == map[]
    {
      next, streams := 0, map[];
    }

    method NextId() returns (n: nat)
      modifies this
      ensures n == next == old(next) + 1 && streams == old(streams)
    {
      next := next + 1;
      n := next;
    }

    method Insert(n: nat, owner: Id)
      modifies this
      ensures streams == old(streams)[n := owner] && next == old(next)
    {
      streams := streams[n := owner];
    }

    // The locked block of close: the stream is to be cancelled if it was found
    method Take(id: Id) returns (found: bool)
      modifies this
      ensures found == (id.Number? && id.n in old(streams)) && next == old(next)
      ensures streams == if found then old(streams) - {id.n} else old(streams)
    {
      found := id.Number? && id.n in streams;
      if found {
        streams := streams - {id.n};
      }
    }
  }

  // ---------- threads ----------

  // What a thread is in the middle of.
  datatype Job =
    | Idle
    | Entering(context: nat)                                // open of a context: the id is taken, not yet entered
    | Opening(stream: nat, owner: Id)                       // open of a stream: the id is taken, not yet entered
    | Registering(stream: nat, owner: Id)                   // the stream is entered, its cleanup not handed over
    | Running(closing: Option<nat>, rest: seq<Ticket>)      // the cleanups of a context being closed, or its own

  // cancelling is the stream just taken out of the bridge whose cancel function is called next.
  datatype ThreadState = ThreadState(job: Job, cancelling: Option<nat>)

  datatype Phase = LivePhase | ClosingPhase | ClosedPhase

  // Where a cleanup is: in a context, in the list a thread is running, or run.
  datatype Holder = InContext(n: nat) | Held(k: Thread) | Done

  // Where a stream is: being entered, in the bridge, being cancelled, or cancelled.
  datatype Stage = EnteredBy(k: Thread) | Open | CancelledBy(k: Thread) | Over

  // Who is to close a stream with an owner: the thread registering it, or a cleanup.
  datatype Closer = Registrar(k: Thread) | Cleanup(t: Ticket)

  // The program's state, and then the history of it. Steps never read the history.
  datatype World = World(
    contexts: map<nat, seq<Ticket>>,
    nextContext: nat,
    streams: map<nat, Id>,
    nextStream: nat,
    cleanups: map<Ticket, Option<nat>>,
    nextTicket: nat,
    threads: map<Thread, ThreadState>,
    once: map<nat, Phase>,               // the state of each context's close-once
    history: History)

  datatype History = History(
    ran: multiset<Ticket>,               // how often each cleanup was run
    cancels: multiset<nat>,              // how often each stream was cancelled
    given: map<Ticket, Id>,              // the id each cleanup was handed over with
    holder: map<Ticket, Holder>,
    stage: map<nat, Stage>,
    closer: map<nat, Closer>)

  datatype Action =
    | IssueContext | EnterContext | BeginClose(n: nat) | RunNext | Finish
    | IssueStream(owner: Id) | EnterStream | Register | AddCleanup(id: Id)
    | CloseStream(id: Id) | Cancel

  function Of(threads: map<Thread, ThreadState>, k: Thread): ThreadState {
    if k in threads then threads[k] else ThreadState(Idle, None)
  }

  function At(w: World, k: Thread): ThreadState {
    Of(w.threads, k)
  }

  function Set(w: World, k: Thread, job: Job): World {
    w.(threads := w.threads[k := At(w, k).(job := job)])
  }

  // Taking stream id out of the bridge, to be cancelled next.
  function TakeStream(w: World, k: Thread, id: Id): World {
    if id.Number? && id.n in w.streams then
      w.(streams := w.streams - {id.n},
         threads := w.threads[k := At(w, k).(cancelling := Some(id.n))],
         history := w.history.(stage := w.history.stage[id.n := CancelledBy(k)]))
    else w
  }

  // addCleanup with a new cleanup function that closes the given stream, if any.
  function HandOver(w: World, k: Thread, id: Id, closes: Option<nat>): World {
    var t := w.nextTicket;
    var live := Live(w.contexts, id);
    var h := w.history;
    Set(w, k, if live then Idle else Running(None, [t])).(
      contexts := Appended(w.contexts, id, t),
      cleanups := w.cleanups[t := closes],
      nextTicket := t + 1,
      history := h.(given := h.given[t := id],
                    holder := h.holder[t := if live then InContext(id.n) else Held(k)],
                    closer := if closes.Some? then h.closer[closes.value := Cleanup(t)] else h.closer))
  }

  function Issue(w: World, k: Thread, owner: Id): World {
    var sid := w.nextStream + 1;
    Set(w, k, Opening(sid, owner)).(
      nextStream := sid,
      history := w.history.(stage := w.history.stage[sid := EnteredBy(k)]))
  }

  function Enter(w: World, k: Thread, sid: nat, owner: Id): World {
    var h := w.history;
    Set(w, k, if owner.Empty? then Idle else Registering(sid, owner)).(
      streams := w.streams[sid := owner],
      history := h.(stage := h.stage[sid := Open], closer := h.closer[sid := Registrar(k)]))
  }

  function Begin(w: World, k: Thread, n: nat): World {
    var list := Listed(w.contexts, Number(n));
    Set(w, k, Running(Some(n), list)).(
      contexts := w.contexts - {n},
      once := w.once[n := ClosingPhase],
      history := w.history.(holder := Handed(w.history.holder, list, k)))
  }

  function Handed(holder: map<Ticket, Holder>, list: seq<Ticket>, k: Thread): map<Ticket, Holder> {
    map t: Ticket | t in holder :: if t in list then Held(k) else holder[t]
  }

  // Running a cleanup, up to the closing of the stream it closes
  function Unlisted(w: World, k: Thread, closing: Option<nat>, rest: seq<Ticket>): World
    requires rest != []
  {
    var h := w.history;
    Set(w, k, Running(closing, rest[1..])).(
      history := h.(ran := h.ran + multiset{rest[0]}, holder := h.holder[rest[0] := Done]))
  }

  function RunOne(w: World, k: Thread, closing: Option<nat>, rest: seq<Ticket>): World
    requires rest != []
  {
    var t, unlisted := rest[0], Unlisted(w, k, closing, rest);
    if t in w.cleanups && w.cleanups[t].Some? then TakeStream(unlisted, k, Number(w.cleanups[t].value)) else unlisted
  }

  function Closed(w: World, k: Thread, closing: Option<nat>): World {
    Set(w, k, Idle).(once := if closing.Some? then w.once[closing.value := ClosedPhase] else w.once)
  }

  function Step(w: World, k: Thread, a: Action): Option<World> {
    var here := At(w, k);
    if here.cancelling.Some? then
      if a.Cancel? then
        var sid, h := here.cancelling.value, w.history;
        Some(w.(threads := w.threads[k := here.(cancelling := None)],
                history := h.(cancels := h.cancels + multiset{sid}, stage := h.stage[sid := Over])))
      else None
    else
      match (here.job, a)
      case (Idle, IssueContext) =>
        Some(Set(w, k, Entering(w.nextContext + 1)).(nextContext := w.nextContext + 1))
      case (Entering(n), EnterContext) =>
        Some(Set(w, k, Idle).(contexts := w.contexts[n := []], once := w.once[n := LivePhase]))
      case (Idle, BeginClose(n)) =>
        if n in w.once && w.once[n] == LivePhase then Some(Begin(w, k, n)) else None
      case (Running(closing, rest), RunNext) =>
        if rest != [] then Some(RunOne(w, k, closing, rest)) else None
      case (Running(closing, rest), Finish) =>
        if rest != [] then None
        else Some(Closed(w, k, closing))
      case (Idle, IssueStream(owner)) => Some(Issue(w, k, owner))
      case (Opening(sid, owner), EnterStream) => Some(Enter(w, k, sid, owner))
      case (Registering(sid, owner), Register) => Some(HandOver(w, k, owner, Some(sid)))
      case (Idle, AddCleanup(id)) => if id.Empty? then Some(w) else Some(HandOver(w, k, id, None))
      case (Idle, CloseStream(id)) => Some(TakeStream(w, k, id))
      case _ => None
  }

  datatype Event = Event(thread: Thread, action: Action)

  function Run(w: World, events: seq<Event>): Option<World>
    decreases |events|
  {
    if events == [] then Some(w)
    else match Step(w, events[0].thread, events[0].action)
      case None => None
      case Some(next) => Run(next, events[1..])
  }

  function Start(): World {
    World(map[], 0, map[], 0, map[], 0, map[], map[], History(multiset{}, multiset{}, map[], map[], map[], map[]))
  }

  // ---------- the invariant ----------

  // A stream is at one stage at a time, and cancelled once exactly when it is over.
  ghost predicate StreamsInv(threads: map<Thread, ThreadState>, streams: map<nat, Id>, next: nat,
                             stage: map<nat, Stage>, cancels: multiset<nat>)
  {
    (forall sid: nat :: sid in stage <==> 1 <= sid <= next) &&
    (forall sid: nat, k: Thread :: sid in stage && stage[sid] == EnteredBy(k) <==>
      Of(threads, k).job.Opening? && Of(threads, k).job.stream == sid) &&
    (forall sid: nat :: sid in streams <==> sid in stage && stage[sid] == Open) &&
    (forall sid: nat, k: Thread :: sid in stage && stage[sid] == CancelledBy(k) <==> Of(threads, k).cancelling == Some(sid)) &&
    (forall sid: nat :: cancels[sid] == if sid in stage && stage[sid] == Over then 1 else 0)
  }

  ghost predicate StreamsOf(w: World) {
    StreamsInv(w.threads, w.streams, w.nextStream, w.history.stage, w.history.cancels)
  }

  predicate Distinct(s: seq<Ticket>) {
    forall i, j :: 0 <= i < j < |s| ==> s[i] != s[j]
  }

  predicate Holds(s: ThreadState, t: Ticket) {
    s.job.Running? && t in s.job.rest
  }

  predicate Is(holder: map<Ticket, Holder>, t: Ticket, h: Holder) {
    t in holder && holder[t] == h
  }

  // A cleanup is in one place at a time, and run once exactly when it is done.
  ghost predicate CleanupsInv(threads: map<Thread, ThreadState>, contexts: map<nat, seq<Ticket>>, next: nat,
                              holder: map<Ticket, Holder>, ran: multiset<Ticket>)
  {
    (forall t: Ticket :: t in holder <==> t < next) &&
    (forall t: Ticket, n: nat :: Is(holder, t, InContext(n)) <==> n in contexts && t in contexts[n]) &&
    (forall t: Ticket, k: Thread :: Is(holder, t, Held(k)) <==> Holds(Of(threads, k), t)) &&
    (forall t: Ticket :: ran[t] == if Is(holder, t, Done) then 1 else 0) &&
    (forall n: nat :: n in contexts ==> Distinct(contexts[n])) &&
    (forall k: Thread :: Of(threads, k).job.Running? ==> Distinct(Of(threads, k).job.rest))
  }

  ghost predicate CleanupsOf(w: World) {
    CleanupsInv(w.threads, w.contexts, w.nextTicket, w.history.holder, w.history.ran)
  }

  // A context is in the registry exactly while it is live, and one thread at a time closes it.
  ghost predicate ContextsInv(threads: map<Thread, ThreadState>, contexts: set<nat>, next: nat, once: map<nat, Phase>)
  {
    (forall n: nat :: n in once ==> 1 <= n <= next) &&
    (forall n: nat :: n in contexts <==> n in once && once[n] == LivePhase) &&
    (forall k: Thread :: Of(threads, k).job.Entering? ==>
      1 <= Of(threads, k).job.context <= next && Of(threads, k).job.context !in once) &&
    (forall k: Thread, j: Thread :: Of(threads, k).job.Entering? && Of(threads, k).job == Of(threads, j).job ==> k == j) &&
    (forall k: Thread :: Closes(Of(threads, k)).Some? ==>
      Closes(Of(threads, k)).value in once && once[Closes(Of(threads, k)).value] == ClosingPhase) &&
    (forall k: Thread, j: Thread :: Closes(Of(threads, k)).Some? && Closes(Of(threads, k)) == Closes(Of(threads, j)) ==> k == j)
  }

  // The context whose cleanups a thread is running.
  function Closes(s: ThreadState): Option<nat> {
    if s.job.Running? then s.job.closing else None
  }

  ghost predicate ContextsOf(w: World) {
    ContextsInv(w.threads, w.contexts.Keys, w.nextContext, w.once)
  }

  // A cleanup is held where it was handed over, or by the thread that handed it over and found no such context.
  ghost predicate GivenInv(threads: map<Thread, ThreadState>, contexts: map<nat, seq<Ticket>>, given: map<Ticket, Id>)
  {
    (forall n: nat, t: Ticket :: n in contexts && t in contexts[n] ==> t in given && given[t] == Number(n)) &&
    (forall k: Thread, t: Ticket :: Holds(Of(threads, k), t) ==>
      t in given && (Closes(Of(threads, k)).Some? ==> given[t] == Number(Closes(Of(threads, k)).value)))
  }

  ghost predicate GivenOf(w: World) {
    GivenInv(w.threads, w.contexts, w.history.given) &&
    (forall t: Ticket :: t in w.history.given <==> t < w.nextTicket) &&
    (forall t: Ticket :: t in w.cleanups <==> t < w.nextTicket)
  }

  // An open stream with an owner has a closer still to act, under that owner's id.
  ghost predicate ClosersOf(w: World) {
    (forall k: Thread :: At(w, k).job.Registering? ==> RegistersWell(w, k)) &&
    (forall sid: nat :: sid in w.streams && !w.streams[sid].Empty? ==> Attended(w, sid))
  }

  predicate Entered(h: History, sid: nat) {
    sid in h.stage && !h.stage[sid].EnteredBy?
  }

  ghost predicate RegistersWell(w: World, k: Thread)
    requires At(w, k).job.Registering?
  {
    var Registering(sid, owner) := At(w, k).job;
    Entered(w.history, sid) && !owner.Empty? &&
    sid in w.history.closer && w.history.closer[sid] == Registrar(k) &&
    (sid in w.streams ==> w.streams[sid] == owner)
  }

  ghost predicate Attended(w: World, sid: nat)
    requires sid in w.streams
  {
    var h := w.history;
    sid in h.closer &&
    match h.closer[sid]
    case Registrar(k) => At(w, k).job == Registering(sid, w.streams[sid])
    case Cleanup(t) => Awaited(w.cleanups, h, sid, w.streams[sid], t)
  }

  // Cleanup t, handed over for the owner, is to close stream sid and has not run.
  ghost predicate Awaited(cleanups: map<Ticket, Option<nat>>, h: History, sid: nat, owner: Id, t: Ticket) {
    t in cleanups && cleanups[t] == Some(sid) &&
    t in h.given && h.given[t] == owner &&
    t in h.holder && h.holder[t] != Done
  }

  ghost predicate Inv(w: World) {
    StreamsOf(w) && CleanupsOf(w) && ContextsOf(w) && GivenOf(w) && ClosersOf(w)
  }

  // ---------- streams ----------

  lemma StreamsSame(threads: map<Thread, ThreadState>, streams: map<nat, Id>, next: nat, stage: map<nat, Stage>,
                    cancels: multiset<nat>, k: Thread, job: Job)
    requires StreamsInv(threads, streams, next, stage, cancels)
    requires !Of(threads, k).job.Opening? && !job.Opening?
    ensures StreamsInv(threads[k := Of(threads, k).(job := job)], streams, next, stage, cancels)
  {
    var r := threads[k := Of(threads, k).(job := job)];
    forall j: Thread ensures Of(r, j) == if j == k then Of(threads, k).(job := job) else Of(threads, j) {
    }
  }

  lemma StreamsIssue(threads: map<Thread, ThreadState>, streams: map<nat, Id>, next: nat, stage: map<nat, Stage>,
                     cancels: multiset<nat>, k: Thread, owner: Id)
    requires StreamsInv(threads, streams, next, stage, cancels)
    requires Of(threads, k).job.Idle?
    ensures StreamsInv(threads[k := Of(threads, k).(job := Opening(next + 1, owner))], streams, next + 1,
                       stage[next + 1 := EnteredBy(k)], cancels)
  {
    var s := Of(threads, k).(job := Opening(next + 1, owner));
    var r, entering := threads[k := s], stage[next + 1 := EnteredBy(k)];
    forall j: Thread ensures Of(r, j) == if j == k then s else Of(threads, j) {
    }
    assert next + 1 !in stage;
    forall sid: nat, j: Thread
      ensures sid in entering && entering[sid] == EnteredBy(j) <==> Of(r, j).job.Opening? && Of(r, j).job.stream == sid
    {
      assert sid in stage && stage[sid] == EnteredBy(j) <==>
        Of(threads, j).job.Opening? && Of(threads, j).job.stream == sid;
    }
  }

  lemma StreamsEnter(threads: map<Thread, ThreadState>, streams: map<nat, Id>, next: nat, stage: map<nat, Stage>,
                     cancels: multiset<nat>, k: Thread, sid: nat, owner: Id, job: Job)
    requires StreamsInv(threads, streams, next, stage, cancels)
    requires Of(threads, k).job == Opening(sid, owner) && !job.Opening?
    ensures StreamsInv(threads[k := Of(threads, k).(job := job)], streams[sid := owner], next,
                       stage[sid := Open], cancels)
  {
    var r := threads[k := Of(threads, k).(job := job)];
    forall j: Thread ensures Of(r, j) == if j == k then Of(threads, k).(job := job) else Of(threads, j) {
    }
    assert sid in stage && stage[sid] == EnteredBy(k);
  }

  lemma StreamsTake(threads: map<Thread, ThreadState>, streams: map<nat, Id>, next: nat, stage: map<nat, Stage>,
                    cancels: multiset<nat>, k: Thread, sid: nat)
    requires StreamsInv(threads, streams, next, stage, cancels)
    requires sid in streams && Of(threads, k).cancelling == None
    ensures StreamsInv(threads[k := Of(threads, k).(cancelling := Some(sid))], streams - {sid}, next,
                       stage[sid := CancelledBy(k)], cancels)
  {
    var r := threads[k := Of(threads, k).(cancelling := Some(sid))];
    forall j: Thread ensures Of(r, j) == if j == k then Of(threads, k).(cancelling := Some(sid)) else Of(threads, j) {
    }
  }

  lemma StreamsCancel(threads: map<Thread, ThreadState>, streams: map<nat, Id>, next: nat, stage: map<nat, Stage>,
                      cancels: multiset<nat>, k: Thread, sid: nat)
    requires StreamsInv(threads, streams, next, stage, cancels)
    requires Of(threads, k).cancelling == Some(sid)
    ensures StreamsInv(threads[k := Of(threads, k).(cancelling := None)], streams, next,
                       stage[sid := Over], cancels + multiset{sid})
  {
    var r := threads[k := Of(threads, k).(cancelling := None)];
    forall j: Thread ensures Of(r, j) == if j == k then Of(threads, k).(cancelling := None) else Of(threads, j) {
    }
    assert sid in stage && stage[sid] == CancelledBy(k);
  }

  // ---------- cleanups ----------

  lemma CleanupsSame(threads: map<Thread, ThreadState>, contexts: map<nat, seq<Ticket>>, next: nat,
                     holder: map<Ticket, Holder>, ran: multiset<Ticket>, k: Thread, s: ThreadState)
    requires CleanupsInv(threads, contexts, next, holder, ran)
    requires s.job == Of(threads, k).job || (HoldsNone(s.job) && HoldsNone(Of(threads, k).job))
    ensures CleanupsInv(threads[k := s], contexts, next, holder, ran)
  {
    var now := threads[k := s];
    forall j: Thread ensures Of(now, j) == if j == k then s else Of(threads, j) {
    }
    assert forall t: Ticket :: Holds(s, t) <==> Holds(Of(threads, k), t);
  }

  predicate HoldsNone(job: Job) {
    job.Running? ==> job.rest == []
  }

  lemma CleanupsEnter(threads: map<Thread, ThreadState>, contexts: map<nat, seq<Ticket>>, next: nat,
                      holder: map<Ticket, Holder>, ran: multiset<Ticket>, n: nat)
    requires CleanupsInv(threads, contexts, next, holder, ran) && n !in contexts
    ensures CleanupsInv(threads, contexts[n := []], next, holder, ran)
  {
    assert forall t: Ticket :: !Is(holder, t, InContext(n));
  }

  lemma CleanupsBegin(threads: map<Thread, ThreadState>, contexts: map<nat, seq<Ticket>>, next: nat,
                      holder: map<Ticket, Holder>, ran: multiset<Ticket>, k: Thread, n: nat, s: ThreadState)
    requires CleanupsInv(threads, contexts, next, holder, ran)
    requires n in contexts && HoldsNone(Of(threads, k).job)
    requires s.job == Running(Some(n), contexts[n])
    ensures CleanupsInv(threads[k := s], contexts - {n}, next, Handed(holder, contexts[n], k), ran)
  {
    var list, r := contexts[n], Handed(holder, contexts[n], k);
    var now := threads[k := s];
    forall j: Thread ensures Of(now, j) == if j == k then s else Of(threads, j) {
    }
    forall t: Ticket | t in list ensures Is(holder, t, InContext(n)) {
    }
    assert forall t: Ticket :: !Holds(Of(threads, k), t);
    assert forall t: Ticket :: Holds(s, t) <==> t in list;
    forall t: Ticket, x: Holder ensures Is(r, t, x) <==> if t in list then x == Held(k) else Is(holder, t, x) {
    }
    forall t: Ticket, m: nat ensures Is(r, t, InContext(m)) <==> m in contexts - {n} && t in contexts[m] {
      assert Is(holder, t, InContext(m)) <==> m in contexts && t in contexts[m];
    }
    forall t: Ticket, j: Thread ensures Is(r, t, Held(j)) <==> Holds(Of(now, j), t) {
      assert Is(holder, t, Held(j)) <==> Holds(Of(threads, j), t);
    }
    forall t: Ticket ensures t in r <==> t in holder {
    }
  }

  lemma CleanupsRun(threads: map<Thread, ThreadState>, contexts: map<nat, seq<Ticket>>, next: nat,
                    holder: map<Ticket, Holder>, ran: multiset<Ticket>, k: Thread, s: ThreadState)
    requires CleanupsInv(threads, contexts, next, holder, ran)
    requires Of(threads, k).job.Running? && Of(threads, k).job.rest != []
    requires s.job == Running(Of(threads, k).job.closing, Of(threads, k).job.rest[1..])
    ensures var t := Of(threads, k).job.rest[0];
      CleanupsInv(threads[k := s], contexts, next, holder[t := Done], ran + multiset{t})
  {
    var rest := Of(threads, k).job.rest;
    var t := rest[0];
    var now := threads[k := s];
    forall j: Thread ensures Of(now, j) == if j == k then s else Of(threads, j) {
    }
    assert Holds(Of(threads, k), t);
    assert forall u: Ticket :: Holds(s, u) <==> Holds(Of(threads, k), u) && u != t by {
      assert rest == [t] + rest[1..];
      assert t !in rest[1..];
    }
    var books := holder[t := Done];
    forall u: Ticket, x: Holder ensures Is(books, u, x) <==> if u == t then x == Done else Is(holder, u, x) {
    }
  }

  lemma CleanupsAppend(threads: map<Thread, ThreadState>, contexts: map<nat, seq<Ticket>>, next: nat,
                       holder: map<Ticket, Holder>, ran: multiset<Ticket>, n: nat)
    requires CleanupsInv(threads, contexts, next, holder, ran) && n in contexts
    ensures CleanupsInv(threads, contexts[n := contexts[n] + [next]], next + 1, holder[next := InContext(n)], ran)
  {
    var now := contexts[n := contexts[n] + [next]];
    assert next !in holder;
    forall m: nat | m in contexts ensures next !in contexts[m] {
      assert !Is(holder, next, InContext(m));
    }
    assert forall j: Thread :: !Holds(Of(threads, j), next);
    assert forall m: nat, t: Ticket :: m in now ==> (t in now[m] <==> t in contexts[m] || (m == n && t == next));
    var books := holder[next := InContext(n)];
    forall t: Ticket, x: Holder ensures Is(books, t, x) <==> if t == next then x == InContext(n) else Is(holder, t, x) {
    }
  }

  lemma CleanupsHeld(threads: map<Thread, ThreadState>, contexts: map<nat, seq<Ticket>>, next: nat,
                     holder: map<Ticket, Holder>, ran: multiset<Ticket>, k: Thread, s: ThreadState)
    requires CleanupsInv(threads, contexts, next, holder, ran) && HoldsNone(Of(threads, k).job)
    requires s.job == Running(None, [next])
    ensures CleanupsInv(threads[k := s], contexts, next + 1, holder[next := Held(k)], ran)
  {
    var now := threads[k := s];
    forall j: Thread ensures Of(now, j) == if j == k then s else Of(threads, j) {
    }
    assert next !in holder;
    assert forall t: Ticket :: !Holds(Of(threads, k), t);
    assert forall t: Ticket :: Holds(s, t) <==> t == next;
    forall m: nat | m in contexts ensures next !in contexts[m] {
      assert !Is(holder, next, InContext(m));
    }
    assert forall j: Thread :: !Holds(Of(threads, j), next);
    var books := holder[next := Held(k)];
    forall t: Ticket, x: Holder ensures Is(books, t, x) <==> if t == next then x == Held(k) else Is(holder, t, x) {
    }
  }

  // ---------- contexts ----------

  lemma ContextsSame(threads: map<Thread, ThreadState>, contexts: set<nat>, next: nat, once: map<nat, Phase>,
                     k: Thread, s: ThreadState)
    requires ContextsInv(threads, contexts, next, once)
    requires s.job == Of(threads, k).job || (!s.job.Entering? && Closes(s) in {None, Closes(Of(threads, k))})
    ensures ContextsInv(threads[k := s], contexts, next, once)
  {
    var now := threads[k := s];
    forall j: Thread ensures Of(now, j) == if j == k then s else Of(threads, j) {
    }
  }

  lemma ContextsIssue(threads: map<Thread, ThreadState>, contexts: set<nat>, next: nat, once: map<nat, Phase>,
                      k: Thread, s: ThreadState)
    requires ContextsInv(threads, contexts, next, once)
    requires s.job == Entering(next + 1)
    ensures ContextsInv(threads[k := s], contexts, next + 1, once)
  {
    var now := threads[k := s];
    forall j: Thread ensures Of(now, j) == if j == k then s else Of(threads, j) {
    }
  }

  lemma ContextsEnter(threads: map<Thread, ThreadState>, contexts: set<nat>, next: nat, once: map<nat, Phase>,
                      k: Thread, n: nat, s: ThreadState)
    requires ContextsInv(threads, contexts, next, once)
    requires Of(threads, k).job == Entering(n) && s.job == Idle
    ensures ContextsInv(threads[k := s], contexts + {n}, next, once[n := LivePhase])
  {
    var now := threads[k := s];
    forall j: Thread ensures Of(now, j) == if j == k then s else Of(threads, j) {
    }
  }

  lemma ContextsBegin(threads: map<Thread, ThreadState>, contexts: set<nat>, next: nat, once: map<nat, Phase>,
                      k: Thread, n: nat, s: ThreadState)
    requires ContextsInv(threads, contexts, next, once)
    requires n in contexts && Closes(s) == Some(n)
    ensures ContextsInv(threads[k := s], contexts - {n}, next, once[n := ClosingPhase])
  {
    var now := threads[k := s];
    forall j: Thread ensures Of(now, j) == if j == k then s else Of(threads, j) {
    }
  }

  lemma ContextsFinish(threads: map<Thread, ThreadState>, contexts: set<nat>, next: nat, once: map<nat, Phase>,
                       k: Thread, n: nat, s: ThreadState)
    requires ContextsInv(threads, contexts, next, once)
    requires Closes(Of(threads, k)) == Some(n) && s.job == Idle
    ensures ContextsInv(threads[k := s], contexts, next, once[n := ClosedPhase])
  {
    var now := threads[k := s];
    forall j: Thread ensures Of(now, j) == if j == k then s else Of(threads, j) {
    }
  }

  // ---------- ids ----------

  lemma GivenSame(threads: map<Thread, ThreadState>, contexts: map<nat, seq<Ticket>>, given: map<Ticket, Id>,
                  k: Thread, s: ThreadState)
    requires GivenInv(threads, contexts, given)
    requires forall t: Ticket :: Holds(s, t) ==> Holds(Of(threads, k), t) && Closes(s) == Closes(Of(threads, k))
    ensures GivenInv(threads[k := s], contexts, given)
  {
    var now := threads[k := s];
    forall j: Thread ensures Of(now, j) == if j == k then s else Of(threads, j) {
    }
  }

  lemma GivenBegin(threads: map<Thread, ThreadState>, contexts: map<nat, seq<Ticket>>, given: map<Ticket, Id>,
                   k: Thread, n: nat, s: ThreadState)
    requires GivenInv(threads, contexts, given)
    requires n in contexts && s.job == Running(Some(n), contexts[n])
    ensures GivenInv(threads[k := s], contexts - {n}, given)
  {
    var now := threads[k := s];
    forall j: Thread ensures Of(now, j) == if j == k then s else Of(threads, j) {
    }
    assert forall t: Ticket :: Holds(s, t) ==> t in contexts[n];
  }

  lemma GivenHandOver(threads: map<Thread, ThreadState>, contexts: map<nat, seq<Ticket>>, given: map<Ticket, Id>,
                      k: Thread, id: Id, t: Ticket, s: ThreadState)
    requires GivenInv(threads, contexts, given)
    requires t !in given && s.job == if Live(contexts, id) then Idle else Running(None, [t])
    ensures GivenInv(threads[k := s], Appended(contexts, id, t), given[t := id])
  {
    var now := threads[k := s];
    forall j: Thread ensures Of(now, j) == if j == k then s else Of(threads, j) {
    }
    assert forall u: Ticket :: Holds(s, u) ==> u == t;
  }

  // ---------- closers ----------

  lemma ClosersSame(w: World, r: World)
    requires ClosersOf(w)
    requires forall j: Thread :: At(w, j).job.Registering? || At(r, j).job.Registering? ==> At(r, j).job == At(w, j).job
    requires forall sid: nat :: sid in r.streams ==> sid in w.streams && r.streams[sid] == w.streams[sid]
    requires forall sid: nat :: Entered(w.history, sid) ==> Entered(r.history, sid)
    requires r.history.closer == w.history.closer
    requires forall sid: nat, owner: Id, t: Ticket :: sid in r.streams && Awaited(w.cleanups, w.history, sid, owner, t) ==>
      Awaited(r.cleanups, r.history, sid, owner, t)
    ensures ClosersOf(r)
  {
    forall k: Thread | At(r, k).job.Registering? ensures RegistersWell(r, k) {
      assert RegistersWell(w, k);
    }
    forall sid: nat | sid in r.streams && !r.streams[sid].Empty? ensures Attended(r, sid) {
      assert Attended(w, sid);
    }
  }

  lemma ClosersEnter(w: World, k: Thread, sid: nat, owner: Id)
    requires StreamsOf(w) && ClosersOf(w) && At(w, k) == ThreadState(Opening(sid, owner), None)
    ensures ClosersOf(Enter(w, k, sid, owner))
  {
    var r := Enter(w, k, sid, owner);
    forall j: Thread ensures At(r, j).job == if j == k then At(r, k).job else At(w, j).job {
    }
    assert sid in w.history.stage && w.history.stage[sid] == EnteredBy(k);
    forall j: Thread | At(r, j).job.Registering? ensures RegistersWell(r, j) {
      assert j != k ==> RegistersWell(w, j);
    }
    forall s: nat | s in r.streams && !r.streams[s].Empty? ensures Attended(r, s) {
      assert s != sid ==> s in w.streams && Attended(w, s);
    }
  }

  lemma ClosersRegister(w: World, k: Thread, sid: nat, owner: Id)
    requires GivenOf(w) && ClosersOf(w) && At(w, k) == ThreadState(Registering(sid, owner), None)
    requires forall t: Ticket :: t in w.history.holder <==> t < w.nextTicket
    ensures ClosersOf(HandOver(w, k, owner, Some(sid)))
  {
    var r := HandOver(w, k, owner, Some(sid));
    forall j: Thread ensures At(r, j).job == if j == k then At(r, k).job else At(w, j).job {
    }
    assert RegistersWell(w, k);
    forall j: Thread | At(r, j).job.Registering? ensures RegistersWell(r, j) {
      assert j != k && RegistersWell(w, j);
    }
    forall s: nat | s in r.streams && !r.streams[s].Empty? ensures Attended(r, s) {
      assert Attended(w, s);
    }
  }

  // ---------- every step keeps the invariant ----------

  ghost predicate InvButClosers(w: World) {
    StreamsOf(w) && CleanupsOf(w) && ContextsOf(w) && GivenOf(w)
  }

  lemma TakeStreamParts(w: World, k: Thread, id: Id)
    requires InvButClosers(w) && At(w, k).cancelling == None
    ensures InvButClosers(TakeStream(w, k, id))
  {
    if id.Number? && id.n in w.streams {
      StreamsTake(w.threads, w.streams, w.nextStream, w.history.stage, w.history.cancels, k, id.n);
      Unchanged(w, k, At(TakeStream(w, k, id), k));
    }
  }

  lemma TakeStreamInv(w: World, k: Thread, id: Id)
    requires Inv(w) && At(w, k).cancelling == None
    ensures Inv(TakeStream(w, k, id))
  {
    TakeStreamParts(w, k, id);
    ClosersSame(w, TakeStream(w, k, id));
  }

  // What thread k's new state leaves as it was, when its list and its context stay the same.
  lemma Unchanged(w: World, k: Thread, s: ThreadState)
    requires InvButClosers(w)
    requires s.job == At(w, k).job || (Quiet(s.job) && Quiet(At(w, k).job))
    ensures CleanupsInv(w.threads[k := s], w.contexts, w.nextTicket, w.history.holder, w.history.ran)
    ensures ContextsInv(w.threads[k := s], w.contexts.Keys, w.nextContext, w.once)
    ensures GivenInv(w.threads[k := s], w.contexts, w.history.given)
    ensures forall j: Thread :: Of(w.threads[k := s], j) == if j == k then s else At(w, j)
  {
    CleanupsSame(w.threads, w.contexts, w.nextTicket, w.history.holder, w.history.ran, k, s);
    ContextsSame(w.threads, w.contexts.Keys, w.nextContext, w.once, k, s);
    GivenSame(w.threads, w.contexts, w.history.given, k, s);
  }

  predicate Quiet(job: Job) {
    job.Idle? || job.Opening? || job.Registering?
  }

  lemma CancelInv(w: World, k: Thread)
    requires Inv(w) && At(w, k).cancelling.Some?
    ensures Inv(Step(w, k, Cancel).value)
  {
    var r, here := Step(w, k, Cancel).value, At(w, k);
    StreamsCancel(w.threads, w.streams, w.nextStream, w.history.stage, w.history.cancels, k, here.cancelling.value);
    Unchanged(w, k, here.(cancelling := None));
    ClosersSame(w, r);
  }

  lemma IssueStreamInv(w: World, k: Thread, owner: Id)
    requires Inv(w) && At(w, k) == ThreadState(Idle, None)
    ensures Inv(Issue(w, k, owner))
  {
    IssueStreamParts(w, k, owner);
    ClosersSame(w, Issue(w, k, owner));
  }

  lemma IssueStreamParts(w: World, k: Thread, owner: Id)
    requires Inv(w) && At(w, k) == ThreadState(Idle, None)
    ensures InvButClosers(Issue(w, k, owner))
  {
    var here := At(w, k).(job := Opening(w.nextStream + 1, owner));
    StreamsIssue(w.threads, w.streams, w.nextStream, w.history.stage, w.history.cancels, k, owner);
    Unchanged(w, k, here);
    IssuedParts(w, Issue(w, k, owner), k, here);
  }

  // A step on the streams and on one thread leaves the other parts of the invariant to that thread.
  lemma IssuedParts(w: World, r: World, k: Thread, s: ThreadState)
    requires InvButClosers(w) && StreamsOf(r)
    requires r == w.(threads := w.threads[k := s], nextStream := r.nextStream, history := w.history.(stage := r.history.stage))
    requires CleanupsInv(r.threads, w.contexts, w.nextTicket, w.history.holder, w.history.ran)
    requires ContextsInv(r.threads, w.contexts.Keys, w.nextContext, w.once) && GivenInv(r.threads, w.contexts, w.history.given)
    ensures InvButClosers(r)
  {
  }

  lemma EnterStreamInv(w: World, k: Thread, sid: nat, owner: Id)
    requires Inv(w) && At(w, k) == ThreadState(Opening(sid, owner), None)
    ensures Inv(Enter(w, k, sid, owner))
  {
    var r := Enter(w, k, sid, owner);
    StreamsEnter(w.threads, w.streams, w.nextStream, w.history.stage, w.history.cancels, k, sid, owner, At(r, k).job);
    Unchanged(w, k, At(r, k));
    ClosersEnter(w, k, sid, owner);
  }

  lemma IssueContextInv(w: World, k: Thread)
    requires Inv(w) && At(w, k) == ThreadState(Idle, None)
    ensures Inv(Step(w, k, IssueContext).value)
  {
    var r, h := Step(w, k, IssueContext).value, w.history;
    StreamsSame(w.threads, w.streams, w.nextStream, h.stage, h.cancels, k, At(r, k).job);
    CleanupsSame(w.threads, w.contexts, w.nextTicket, h.holder, h.ran, k, At(r, k));
    ContextsIssue(w.threads, w.contexts.Keys, w.nextContext, w.once, k, At(r, k));
    GivenSame(w.threads, w.contexts, h.given, k, At(r, k));
    ClosersSame(w, r);
  }

  lemma EnterContextInv(w: World, k: Thread, n: nat)
    requires Inv(w) && At(w, k) == ThreadState(Entering(n), None)
    ensures Inv(Step(w, k, EnterContext).value)
  {
    var r, h := Step(w, k, EnterContext).value, w.history;
    StreamsSame(w.threads, w.streams, w.nextStream, h.stage, h.cancels, k, Idle);
    assert n !in w.contexts;
    CleanupsSame(w.threads, w.contexts, w.nextTicket, h.holder, h.ran, k, At(r, k));
    CleanupsEnter(r.threads, w.contexts, w.nextTicket, h.holder, h.ran, n);
    ContextsEnter(w.threads, w.contexts.Keys, w.nextContext, w.once, k, n, At(r, k));
    assert r.contexts.Keys == w.contexts.Keys + {n};
    GivenSame(w.threads, w.contexts, h.given, k, At(r, k));
    ClosersSame(w, r);
  }

  lemma BeginInv(w: World, k: Thread, n: nat)
    requires Inv(w) && At(w, k) == ThreadState(Idle, None)
    requires n in w.once && w.once[n] == LivePhase
    ensures Inv(Begin(w, k, n))
  {
    var r, h := Begin(w, k, n), w.history;
    StreamsSame(w.threads, w.streams, w.nextStream, h.stage, h.cancels, k, At(r, k).job);
    assert n in w.contexts.Keys;
    CleanupsBegin(w.threads, w.contexts, w.nextTicket, h.holder, h.ran, k, n, At(r, k));
    ContextsBegin(w.threads, w.contexts.Keys, w.nextContext, w.once, k, n, At(r, k));
    assert r.contexts.Keys == w.contexts.Keys - {n};
    GivenBegin(w.threads, w.contexts, h.given, k, n, At(r, k));
    ClosersSame(w, r);
  }

  lemma FinishInv(w: World, k: Thread, closing: Option<nat>)
    requires Inv(w) && At(w, k) == ThreadState(Running(closing, []), None)
    ensures Inv(Closed(w, k, closing))
  {
    FinishParts(w, k, closing);
    ClosersSame(w, Closed(w, k, closing));
  }

  lemma FinishParts(w: World, k: Thread, closing: Option<nat>)
    requires Inv(w) && At(w, k) == ThreadState(Running(closing, []), None)
    ensures InvButClosers(Closed(w, k, closing))
  {
    var s, h := ThreadState(Idle, None), w.history;
    StreamsSame(w.threads, w.streams, w.nextStream, h.stage, h.cancels, k, Idle);
    CleanupsSame(w.threads, w.contexts, w.nextTicket, h.holder, h.ran, k, s);
    if closing.Some? {
      ContextsFinish(w.threads, w.contexts.Keys, w.nextContext, w.once, k, closing.value, s);
    } else {
      ContextsSame(w.threads, w.contexts.Keys, w.nextContext, w.once, k, s);
    }
    GivenSame(w.threads, w.contexts, h.given, k, s);
  }

  lemma HandOverParts(w: World, k: Thread, id: Id, closes: Option<nat>)
    requires InvButClosers(w) && Quiet(At(w, k).job) && !At(w, k).job.Opening?
    ensures InvButClosers(HandOver(w, k, id, closes))
  {
    var r, h, t := HandOver(w, k, id, closes), w.history, w.nextTicket;
    StreamsSame(w.threads, w.streams, w.nextStream, h.stage, h.cancels, k, At(r, k).job);
    HandOverCleanups(w, k, id, closes);
    ContextsSame(w.threads, w.contexts.Keys, w.nextContext, w.once, k, At(r, k));
    assert r.contexts.Keys == w.contexts.Keys;
    GivenHandOver(w.threads, w.contexts, h.given, k, id, t, At(r, k));
  }

  lemma RegisterInv(w: World, k: Thread, sid: nat, owner: Id)
    requires Inv(w) && At(w, k) == ThreadState(Registering(sid, owner), None)
    ensures Inv(HandOver(w, k, owner, Some(sid)))
  {
    HandOverParts(w, k, owner, Some(sid));
    ClosersRegister(w, k, sid, owner);
  }

  lemma AddCleanupInv(w: World, k: Thread, id: Id)
    requires Inv(w) && At(w, k) == ThreadState(Idle, None)
    ensures Inv(HandOver(w, k, id, None))
  {
    HandOverParts(w, k, id, None);
    ClosersSame(w, HandOver(w, k, id, None));
  }

  lemma HandOverCleanups(w: World, k: Thread, id: Id, closes: Option<nat>)
    requires CleanupsOf(w) && HoldsNone(At(w, k).job)
    ensures CleanupsOf(HandOver(w, k, id, closes))
  {
    var r, h, t := HandOver(w, k, id, closes), w.history, w.nextTicket;
    if Live(w.contexts, id) {
      CleanupsSame(w.threads, w.contexts, t, h.holder, h.ran, k, At(r, k));
      CleanupsAppend(r.threads, w.contexts, t, h.holder, h.ran, id.n);
    } else {
      CleanupsHeld(w.threads, w.contexts, t, h.holder, h.ran, k, At(r, k));
    }
  }

  lemma UnlistedParts(w: World, k: Thread, closing: Option<nat>, rest: seq<Ticket>)
    requires Inv(w) && At(w, k) == ThreadState(Running(closing, rest), None) && rest != []
    ensures InvButClosers(Unlisted(w, k, closing, rest))
  {
    var r, h := Unlisted(w, k, closing, rest), w.history;
    StreamsSame(w.threads, w.streams, w.nextStream, h.stage, h.cancels, k, At(r, k).job);
    CleanupsRun(w.threads, w.contexts, w.nextTicket, h.holder, h.ran, k, At(r, k));
    ContextsSame(w.threads, w.contexts.Keys, w.nextContext, w.once, k, At(r, k));
    GivenSame(w.threads, w.contexts, h.given, k, At(r, k));
  }

  lemma RunOneClosers(w: World, k: Thread, closing: Option<nat>, rest: seq<Ticket>)
    requires ClosersOf(w) && At(w, k) == ThreadState(Running(closing, rest), None) && rest != []
    ensures ClosersOf(RunOne(w, k, closing, rest))
  {
    var r := RunOne(w, k, closing, rest);
    forall sid: nat, owner: Id, t: Ticket | sid in r.streams && Awaited(w.cleanups, w.history, sid, owner, t)
      ensures Awaited(r.cleanups, r.history, sid, owner, t)
    {
      assert t != rest[0];
    }
    ClosersSame(w, r);
  }

  lemma RunOneInv(w: World, k: Thread, closing: Option<nat>, rest: seq<Ticket>)
    requires Inv(w) && At(w, k) == ThreadState(Running(closing, rest), None) && rest != []
    ensures Inv(RunOne(w, k, closing, rest))
  {
    var u := Unlisted(w, k, closing, rest);
    UnlistedParts(w, k, closing, rest);
    if rest[0] in w.cleanups && w.cleanups[rest[0]].Some? {
      TakeStreamParts(u, k, Number(w.cleanups[rest[0]].value));
    }
    RunOneClosers(w, k, closing, rest);
  }

  lemma RunningKeepsInv(w: World, k: Thread, a: Action)
    requires Inv(w) && Step(w, k, a).Some? && At(w, k).cancelling.None? && At(w, k).job.Running?
    ensures Inv(Step(w, k, a).value)
  {
    match (At(w, k).job, a)
    case (Running(closing, rest), RunNext) => RunOneInv(w, k, closing, rest);
    case (Running(closing, rest), Finish) => FinishInv(w, k, closing);
  }

  lemma IdleKeepsInv(w: World, k: Thread, a: Action)
    requires Inv(w) && Step(w, k, a).Some? && At(w, k).cancelling.None? && At(w, k).job.Idle?
    ensures Inv(Step(w, k, a).value)
  {
    match a
    case IssueContext => IssueContextInv(w, k);
    case BeginClose(n) => BeginInv(w, k, n);
    case IssueStream(owner) => IssueStreamInv(w, k, owner);
    case AddCleanup(id) => AddCleanupInv(w, k, id);
    case CloseStream(id) => TakeStreamInv(w, k, id);
  }

  // Every step of every thread keeps the invariant.
  lemma StepKeepsInv(w: World, k: Thread, a: Action)
    requires Inv(w) && Step(w, k, a).Some?
    ensures Inv(Step(w, k, a).value)
  {
    if At(w, k).cancelling.Some? {
      CancelInv(w, k);
    } else {
      match At(w, k).job
      case Idle => IdleKeepsInv(w, k, a);
      case Running(_, _) => RunningKeepsInv(w, k, a);
      case Entering(n) => EnterContextInv(w, k, n);
      case Opening(sid, owner) => EnterStreamInv(w, k, sid, owner);
      case Registering(sid, owner) => RegisterInv(w, k, sid, owner);
    }
  }

  lemma {:induction false} RunKeepsInv(w: World, events: seq<Event>)
    requires Inv(w) && Run(w, events).Some?
    ensures Inv(Run(w, events).value)
    decreases |events|
  {
    if events != [] {
      StepKeepsInv(w, events[0].thread, events[0].action);
      RunKeepsInv(Step(w, events[0].thread, events[0].action).value, events[1..]);
    }
  }

  lemma NothingYet(w: World)
    requires w.contexts == map[] && w.streams == map[] && w.cleanups == map[] && w.threads == map[] && w.once == map[]
    requires w.nextStream == w.nextTicket == 0
    requires w.history.ran == multiset{} && w.history.cancels == multiset{}
    requires w.history.given == map[] && w.history.holder == map[] && w.history.stage == map[]
    ensures Inv(w)
  {
    assert forall t, h :: !Is(w.history.holder, t, h);
    assert forall n: nat :: n !in w.contexts;
  }

  lemma StartInv()
    ensures Inv(Start())
  {
    NothingYet(Start());
  }

  lemma Reached(events: seq<Event>)
    requires Run(Start(), events).Some?
    ensures Inv(Run(Start(), events).value)
  {
    StartInv();
    RunKeepsInv(Start(), events);
  }

  // ---------- what holds in every reachable state ----------

  ghost predicate BeingRegistered(w: World, sid: nat) {
    exists k: Thread :: At(w, k).job == Registering(sid, if sid in w.streams then w.streams[sid] else Empty)
  }

  // Some thread is running a list, for the given context or none, that holds a cleanup closing the stream.
  ghost predicate BeingRemoved(w: World, sid: nat, closing: Option<nat>) {
    exists k: Thread, t: Ticket :: Holds(At(w, k), t) && Closes(At(w, k)) == closing && t in w.cleanups && w.cleanups[t] == Some(sid)
  }

  ghost predicate LeftTo(w: World, sid: nat, owner: Id) {
    Live(w.contexts, owner) && exists t: Ticket :: t in w.contexts[owner.n] && t in w.cleanups && w.cleanups[t] == Some(sid)
  }

  // Model streams do not leak: an open stream with an owner is between its opening and the hand-over of its
  // cleanup, or its owner is live and holds a cleanup for it, or its removal is pending in a list being run.
  lemma OpenStreamsAreAccountedFor(events: seq<Event>, sid: nat)
    requires Run(Start(), events).Some?
    requires var w := Run(Start(), events).value; sid in w.streams && !w.streams[sid].Empty?
    ensures var w := Run(Start(), events).value; var owner := w.streams[sid];
      BeingRegistered(w, sid) || LeftTo(w, sid, owner) || BeingRemoved(w, sid, None) ||
      (owner.Number? && BeingRemoved(w, sid, Some(owner.n)))
  {
    Reached(events);
    Accounted(Run(Start(), events).value, sid);
  }

  lemma Accounted(w: World, sid: nat)
    requires Inv(w) && sid in w.streams && !w.streams[sid].Empty?
    ensures var owner := w.streams[sid];
      BeingRegistered(w, sid) || LeftTo(w, sid, owner) || BeingRemoved(w, sid, None) ||
      (owner.Number? && BeingRemoved(w, sid, Some(owner.n)))
  {
    assert Attended(w, sid);
    match w.history.closer[sid]
    case Registrar(k) => assert At(w, k).job == Registering(sid, w.streams[sid]);
    case Cleanup(t) =>
      match w.history.holder[t] {
        case InContext(n) =>
          assert Is(w.history.holder, t, InContext(n));
          assert t in w.contexts[n];
        case Held(k) =>
          assert Is(w.history.holder, t, Held(k));
          assert Holds(At(w, k), t);
          assert Closes(At(w, k)).Some? ==> BeingRemoved(w, sid, Some(w.streams[sid].n));
          assert Closes(At(w, k)).None? ==> BeingRemoved(w, sid, None);
      }
  }

  // Once the closing of a context has finished, a stream it owns is open only while the call that opened the
  // stream has still to return: that call is about to hand its cleanup over, or is running it itself.
  lemma ClosedContextOwnsNoStream(events: seq<Event>, sid: nat)
    requires Run(Start(), events).Some?
    requires var w := Run(Start(), events).value;
      sid in w.streams && w.streams[sid].Number? &&
      w.streams[sid].n in w.once && w.once[w.streams[sid].n] == ClosedPhase
    ensures var w := Run(Start(), events).value; BeingRegistered(w, sid) || BeingRemoved(w, sid, None)
  {
    Reached(events);
    var w := Run(Start(), events).value;
    var n := w.streams[sid].n;
    Accounted(w, sid);
    assert n !in w.contexts.Keys;
    forall k: Thread ensures Closes(At(w, k)) != Some(n) {
    }
  }

  // The id that a cleanup was handed over with
  function GivenId(w: World, t: Ticket): Id {
    if t in w.history.given then w.history.given[t] else Empty
  }

  // Every cleanup handed over is run once, or is still listed once, with no run so far.
  lemma CleanupsRunOnce(events: seq<Event>, t: Ticket)
    requires Run(Start(), events).Some?
    requires t < Run(Start(), events).value.nextTicket
    ensures var w := Run(Start(), events).value;
      var id := GivenId(w, t);
      (w.history.ran[t] == 1 && !ListedSomewhere(w, t)) ||
      (w.history.ran[t] == 0 && Live(w.contexts, id) && t in w.contexts[id.n]) ||
      (w.history.ran[t] == 0 && exists k: Thread :: Holds(At(w, k), t) && forall j: Thread :: Holds(At(w, j), t) ==> j == k)
  {
    Reached(events);
    var w := Run(Start(), events).value;
    var h := w.history.holder;
    match h[t]
    case Done =>
      assert Is(h, t, Done);
      assert w.history.ran[t] == 1;
      forall n: nat | n in w.contexts ensures t !in w.contexts[n] {
        assert !Is(h, t, InContext(n));
      }
      forall k: Thread ensures !Holds(At(w, k), t) {
        assert !Is(h, t, Held(k));
      }
    case InContext(n) =>
      assert Is(h, t, InContext(n)) && !Is(h, t, Done);
      assert n in w.contexts && t in w.contexts[n];
      assert GivenId(w, t) == Number(n);
      assert w.history.ran[t] == 0;
    case Held(k) =>
      assert Is(h, t, Held(k)) && !Is(h, t, Done);
      forall j: Thread | Holds(At(w, j), t) ensures j == k {
        assert Is(h, t, Held(j));
      }
      assert w.history.ran[t] == 0;
      assert Holds(At(w, k), t);
  }

  // A cleanup is listed by a context or by a thread.
  ghost predicate ListedSomewhere(w: World, t: Ticket) {
    (exists n: nat :: n in w.contexts && t in w.contexts[n]) || (exists k: Thread :: Holds(At(w, k), t))
  }

  // Once the closing of a context has finished, every cleanup handed over with its id has run, or the call that
  // hands it over too late is running it itself.
  lemma ClosedContextRanItsCleanups(events: seq<Event>, n: nat, t: Ticket)
    requires Run(Start(), events).Some?
    requires var w := Run(Start(), events).value;
      n in w.once && w.once[n] == ClosedPhase && t < w.nextTicket && GivenId(w, t) == Number(n)
    ensures var w := Run(Start(), events).value;
      w.history.ran[t] == 1 || exists k: Thread :: Holds(At(w, k), t) && Closes(At(w, k)) == None
  {
    CleanupsRunOnce(events, t);
    Reached(events);
    var w := Run(Start(), events).value;
    assert n !in w.contexts.Keys;
    if w.history.ran[t] == 0 {
      forall k: Thread ensures Closes(At(w, k)) != Some(n) {
      }
    }
  }

  // A stream entered into the bridge is open and not cancelled, or is being cancelled by one thread, or has been
  // cancelled exactly once.
  lemma StreamsCancelledOnce(events: seq<Event>, sid: nat)
    requires Run(Start(), events).Some?
    requires Entered(Run(Start(), events).value.history, sid)
    ensures var w := Run(Start(), events).value;
      var taken := exists k: Thread :: At(w, k).cancelling == Some(sid);
      (forall k: Thread, j: Thread :: At(w, k).cancelling == Some(sid) && At(w, j).cancelling == Some(sid) ==> k == j) &&
      !(sid in w.streams && taken) &&
      w.history.cancels[sid] == if sid in w.streams || taken then 0 else 1
  {
    Reached(events);
    var w := Run(Start(), events).value;
    match w.history.stage[sid]
    case CancelledBy(k) => assert At(w, k).cancelling == Some(sid);
    case _ =>
  }

  // ---------- a closing comes to its end ----------

  // How many more steps a thread needs to finish the list it is running.
  function StepsLeft(s: ThreadState): nat {
    (if s.job.Running? then 2 * |s.job.rest| + 1 else 0) + if s.cancelling.Some? then 1 else 0
  }

  // A thread running cleanups can always go on, and each of its steps brings the end nearer.
  lemma ClosingsEnd(w: World, k: Thread)
    requires At(w, k).job.Running?
    ensures exists a: Action :: Step(w, k, a).Some?
    ensures forall a: Action :: Step(w, k, a).Some? ==> StepsLeft(At(Step(w, k, a).value, k)) < StepsLeft(At(w, k))
  {
    var a := if At(w, k).cancelling.Some? then Cancel else if At(w, k).job.rest != [] then RunNext else Finish;
    assert Step(w, k, a).Some?;
  }

  // No step of another thread changes what a thread has left to do.
  lemma OthersDoNotDelay(w: World, k: Thread, j: Thread, a: Action)
    requires j != k && Step(w, j, a).Some?
    ensures At(Step(w, j, a).value, k) == At(w, k)
  {
  }

  // ---------- in which order cleanups run ----------

  // A cleanup handed over to a context that is open comes last among those of the context; otherwise the caller is to
  // run it, and nothing else, next.
  lemma HandedLast(w: World, k: Thread, id: Id)
    requires At(w, k) == ThreadState(Idle, None) && !id.Empty?
    ensures var r := Step(w, k, AddCleanup(id));
      r.Some? && r.value.cleanups == w.cleanups[w.nextTicket := None] && r.value.nextTicket == w.nextTicket + 1 &&
      if id.Number? && id.n in w.contexts then
        r.value.contexts == w.contexts[id.n := w.contexts[id.n] + [w.nextTicket]] && At(r.value, k).job == Idle
      else r.value.contexts == w.contexts && At(r.value, k).job == Running(None, [w.nextTicket])
  {
  }

  // The same for the cleanup that closes a stream just opened.
  lemma RegisteredLast(w: World, k: Thread, sid: nat, id: Id)
    requires At(w, k) == ThreadState(Registering(sid, id), None)
    ensures var r := Step(w, k, Register);
      r.Some? && r.value.cleanups == w.cleanups[w.nextTicket := Some(sid)] && r.value.nextTicket == w.nextTicket + 1 &&
      if id.Number? && id.n in w.contexts then
        r.value.contexts == w.contexts[id.n := w.contexts[id.n] + [w.nextTicket]] && At(r.value, k).job == Idle
      else r.value.contexts == w.contexts && At(r.value, k).job == Running(None, [w.nextTicket])
  {
  }

  // A thread that closes a context, which is possible once, takes all its cleanups in their order.
  lemma TakesAll(w: World, k: Thread, n: nat)
    requires At(w, k) == ThreadState(Idle, None)
    ensures var r := Step(w, k, BeginClose(n));
      (r.Some? <==> n in w.once && w.once[n] == LivePhase) &&
      (r.Some? ==>
        r.value.contexts == w.contexts - {n} && r.value.once == w.once[n := ClosingPhase] &&
        At(r.value, k).job == Running(Some(n), if n in w.contexts then w.contexts[n] else []))
  {
  }

  // It runs the first of them, once; if that closes a stream that is open, it is to cancel the stream before it runs
  // the next one.
  lemma RunsFirst(w: World, k: Thread, closing: Option<nat>, t: Ticket, rest: seq<Ticket>)
    requires At(w, k) == ThreadState(Running(closing, [t] + rest), None)
    ensures var r := Step(w, k, RunNext);
      var open := t in w.cleanups && w.cleanups[t].Some? && w.cleanups[t].value in w.streams;
      r.Some? && At(r.value, k).job == Running(closing, rest) && r.value.history.ran == w.history.ran + multiset{t} &&
      At(r.value, k).cancelling == (if open then w.cleanups[t] else None) &&
      r.value.streams == if open then w.streams - {w.cleanups[t].value} else w.streams
  {
    assert ([t] + rest)[1..] == rest;
  }

  // What a thread has run, in order, from a list that it began with
  ghost predicate RanInOrder(list: seq<Ticket>, w: World, k: Thread, closing: Option<nat>, done: nat) {
    done <= |list| && At(w, k).job == Running(closing, list[done..])
  }

  // Through all steps of all threads, a thread goes through its list from the first to the last cleanup.
  lemma {:induction false} RunsInOrder(w: World, events: seq<Event>, k: Thread, closing: Option<nat>, list: seq<Ticket>, done: nat)
    returns (now: nat)
    requires Run(w, events).Some? && RanInOrder(list, w, k, closing, done)
    requires Event(k, Finish) !in events
    ensures done <= now && RanInOrder(list, Run(w, events).value, k, closing, now)
    decreases |events|
  {
    now := done;
    if events != [] {
      var e := events[0];
      var next := OneInOrder(w, e, k, closing, list, done);
      now := RunsInOrder(Step(w, e.thread, e.action).value, events[1..], k, closing, list, next);
    }
  }

  lemma OneInOrder(w: World, e: Event, k: Thread, closing: Option<nat>, list: seq<Ticket>, done: nat) returns (now: nat)
    requires Step(w, e.thread, e.action).Some? && RanInOrder(list, w, k, closing, done) && e != Event(k, Finish)
    ensures done <= now <= done + 1 && RanInOrder(list, Step(w, e.thread, e.action).value, k, closing, now)
  {
    now := if e == Event(k, RunNext) then done + 1 else done;
    if e == Event(k, RunNext) {
      assert list[done..] == [list[done]] + list[done + 1..];
      assert list[done..][1..] == list[done + 1..];
    } else if e.thread != k {
      OthersDoNotDelay(w, k, e.thread, e.action);
    }
  }
}
