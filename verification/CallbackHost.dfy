// The two registries at work: every step of a thread, done on the fields that the source updates, is the step of the
// state machine whose runs are studied in Callbacks.
module CallbackHost {
  import opened Text
  import opened Callbacks

  class Host {
    const registry: CallbackContextRegistry
    const bridge: ModelStreamBridge
    // what each cleanup function closes, and how many there are
    var cleanups: map<Ticket, Option<nat>>
    var nextTicket: nat
    // what each thread is in the middle of, and the close-once of each context
    var threads: map<Thread, ThreadState>
    var once: map<nat, Phase>
    ghost var history: History

    constructor ()
      ensures State() == Start() && fresh(registry) && fresh(bridge)
    {
      registry := new CallbackContextRegistry();
      bridge := new ModelStreamBridge();
      cleanups, nextTicket, threads, once := map[], 0, map[], map[];
      history := Start().history;
    }

    ghost function State(): World
      reads this, registry, bridge
    {
      World(registry.contexts, registry.next, bridge.streams, bridge.next, cleanups, nextTicket, threads, once, history)
    }

    // The thread can take the step, and has taken it.
    twostate predicate Did(k: Thread, a: Action)
      reads this, registry, bridge
    {
      Step(old(State()), k, a) == Some(State())
    }

    method Go(k: Thread, job: Job)
      modifies `threads
      ensures threads == old(threads)[k := Of(old(threads), k).(job := job)]
    {
      threads := threads[k := Of(threads, k).(job := job)];
    }

    // open of a context: the id first, and then the entry
    method IssueContext(k: Thread)
      requires Of(threads, k) == ThreadState(Idle, None)
      modifies this, registry, bridge
      ensures Did(k, Action.IssueContext)
    {
      var n := registry.NextId();
      Go(k, Entering(n));
    }

    method EnterContext(k: Thread)
      requires Of(threads, k).job.Entering? && Of(threads, k).cancelling.None?
      modifies this, registry, bridge
      ensures Did(k, Action.EnterContext)
    {
      var n := Of(threads, k).job.context;
      registry.Insert(n);
      once := once[n := LivePhase];
      Go(k, Idle);
    }

    // The close of a context, which runs once: its cleanups are taken, and then run one by one.
    method BeginClose(k: Thread, n: nat)
      requires Of(threads, k) == ThreadState(Idle, None) && n in once && once[n] == LivePhase
      modifies this, registry, bridge
      ensures Did(k, Action.BeginClose(n))
    {
      var cleanup := registry.Take(n);
      history := history.(holder := Handed(history.holder, cleanup, k));
      once := once[n := ClosingPhase];
      Go(k, Running(Some(n), cleanup));
    }

    // One cleanup, up to the cancelling of the stream it closes
    method RunNext(k: Thread)
      requires Of(threads, k).cancelling.None? && Of(threads, k).job.Running? && Of(threads, k).job.rest != []
      modifies this, registry, bridge
      ensures Did(k, Action.RunNext)
    {
      var closing, rest := Of(threads, k).job.closing, Of(threads, k).job.rest;
      var t := rest[0];
      history := history.(ran := history.ran + multiset{t}, holder := history.holder[t := Done]);
      Go(k, Running(closing, rest[1..]));
      if t in cleanups && cleanups[t].Some? {
        TakeOut(k, Number(cleanups[t].value));
      }
    }

    method Finish(k: Thread)
      requires Of(threads, k).cancelling.None? && Of(threads, k).job.Running? && Of(threads, k).job.rest == []
      modifies this, registry, bridge
      ensures Did(k, Action.Finish)
    {
      var closing := Of(threads, k).job.closing;
      if closing.Some? {
        once := once[closing.value := ClosedPhase];
      }
      Go(k, Idle);
    }

    // The locked block of the bridge's close
    method TakeOut(k: Thread, id: Id)
      modifies `threads, `history, bridge
      ensures State() == TakeStream(old(State()), k, id)
    {
      var found := bridge.Take(id);
      if found {
        history := history.(stage := history.stage[id.n := CancelledBy(k)]);
        threads := threads[k := Of(threads, k).(cancelling := Some(id.n))];
      }
    }

    method CloseStream(k: Thread, id: Id)
      requires Of(threads, k) == ThreadState(Idle, None)
      modifies this, registry, bridge
      ensures Did(k, Action.CloseStream(id))
    {
      TakeOut(k, id);
    }

    // The cancel function of the stream taken out is called.
    method Cancel(k: Thread)
      requires Of(threads, k).cancelling.Some?
      modifies this, registry, bridge
      ensures Did(k, Action.Cancel)
    {
      var sid := Of(threads, k).cancelling.value;
      history := history.(cancels := history.cancels + multiset{sid}, stage := history.stage[sid := Over]);
      threads := threads[k := Of(threads, k).(cancelling := None)];
    }

    // callHostModelExecuteStream: the id, the entry into the bridge, and the cleanup handed over to the owner
    method IssueStream(k: Thread, owner: Id)
      requires Of(threads, k) == ThreadState(Idle, None)
      modifies this, registry, bridge
      ensures Did(k, Action.IssueStream(owner))
    {
      var sid := bridge.NextId();
      history := history.(stage := history.stage[sid := EnteredBy(k)]);
      Go(k, Opening(sid, owner));
    }

    method EnterStream(k: Thread)
      requires Of(threads, k).job.Opening? && Of(threads, k).cancelling.None?
      modifies this, registry, bridge
      ensures Did(k, Action.EnterStream)
    {
      var sid, owner := Of(threads, k).job.stream, Of(threads, k).job.owner;
      bridge.Insert(sid, owner);
      history := history.(stage := history.stage[sid := Open], closer := history.closer[sid := Registrar(k)]);
      Go(k, if owner.Empty? then Idle else Registering(sid, owner));
    }

    // addCleanup: a context that is gone leaves the cleanup to the caller.
    method Hand(k: Thread, id: Id, closes: Option<nat>)
      modifies this, registry
      ensures State() == HandOver(old(State()), k, id, closes)
    {
      var t := nextTicket;
      nextTicket := t + 1;
      cleanups := cleanups[t := closes];
      var live := registry.Append(id, t);
      history := history.(given := history.given[t := id], holder := history.holder[t := if live then InContext(id.n) else Held(k)],
                          closer := if closes.Some? then history.closer[closes.value := Cleanup(t)] else history.closer);
      Go(k, if live then Idle else Running(None, [t]));
    }

    method Register(k: Thread)
      requires Of(threads, k).job.Registering? && Of(threads, k).cancelling.None?
      modifies this, registry, bridge
      ensures Did(k, Action.Register)
    {
      Hand(k, Of(threads, k).job.owner, Some(Of(threads, k).job.stream));
    }

    method AddCleanup(k: Thread, id: Id)
      requires Of(threads, k) == ThreadState(Idle, None)
      modifies this, registry, bridge
      ensures Did(k, Action.AddCleanup(id))
    {
      if !id.Empty? {
        Hand(k, id, None);
      }
    }
  }
}
