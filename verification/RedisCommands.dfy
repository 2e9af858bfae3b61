// What each command of a Redis connection causes, told by the command, what came before it, and what the server answers.
module RedisCommands {
  import opened Text
  import opened Resp
  import opened RespRoundTrip
  import opened RedisSession
  import opened RedisSessionSafety

  // ---------- commands ----------

  predicate Names(args: seq<string>, name: string) {
    args != [] && ToUpper(TrimSpace(args[0])) == name
  }

  // AUTH with a key, which is the last argument, that the management of a managed server allows
  predicate PresentsKey(server: Server, a: Answer, args: seq<string>) {
    Names(args, "AUTH") && (|args| == 2 || |args| == 3) && server.managed && a.verdict(args[|args| - 1]).allowed
  }

  predicate PopsUsage(args: seq<string>, count: int) {
    (Names(args, "LPOP") || Names(args, "RPOP")) && (|args| == 2 || |args| == 3) && ToLower(TrimSpace(args[1])) == "usage" &&
    count > 0 && if |args| == 2 then count == 1 else Atoi(TrimSpace(args[2])) == Some(count)
  }

  predicate SubscribesTo(args: seq<string>, channel: string) {
    Names(args, "SUBSCRIBE") && |args| == 2 && channel == TrimSpace(args[1]) && ToLower(channel) in {"usage", "errors"}
  }

  // What follows a command in the log: a key accepted, a pop, a subscription, or nothing but an error.
  ghost predicate Causes(server: Server, a: Answer, authed: bool, args: seq<string>, next: Event) {
    (next == AuthAccepted <==> PresentsKey(server, a, args)) &&
    (forall count: int :: next == Popped(count) <==> authed && PopsUsage(args, count)) &&
    (forall channel: string :: next == Event.Subscribed(channel) <==> authed && SubscribesTo(args, channel)) &&
    (!IsEffect(next) ==> next.Reply? && next.bytes != [] && next.bytes[0] == '-')
  }

  predicate IsEffect(e: Event) {
    e.AuthAccepted? || e.Popped? || e.Subscribed?
  }

  // How what a command caused is answered
  predicate Confirms(a: Answer, args: seq<string>, effect: Event, reply: Event) {
    match effect
    case AuthAccepted => reply == Reply("+OK\r\n")
    case Popped(_) =>
      reply == Reply(if |args| == 3 then ArrayOfBulks(a.items) else if a.items == [] then Bulk(None) else Bulk(a.items[0]))
    case Subscribed(channel) => reply == Reply(Resp.Subscribed(channel, 1))
    case _ => true
  }

  lemma AuthCauses(server: Server, authed: bool, args: seq<string>, a: Answer)
    requires Names(args, "AUTH")
    ensures var r := RespondAuth(server, authed, args, a);
      Causes(server, a, authed, args, FirstOf(r)) && (r.effects != [] ==> Confirms(a, args, r.effects[0], Reply(r.reply)))
  {
  }

  function FirstOf(r: Response): Event {
    if r.effects == [] then Reply(r.reply) else r.effects[0]
  }

  lemma SubscribeCauses(server: Server, args: seq<string>, a: Answer)
    requires Names(args, "SUBSCRIBE")
    ensures var r := RespondSubscribe(args);
      Causes(server, a, true, args, FirstOf(r)) && (r.effects != [] ==> Confirms(a, args, r.effects[0], Reply(r.reply)))
  {
    if |args| == 2 {
      TrimTwice(args[1]);
    }
  }

  lemma PopCauses(server: Server, cmd: string, args: seq<string>, a: Answer)
    requires (cmd == "LPOP" || cmd == "RPOP") && Names(args, cmd)
    ensures var r := RespondPop(cmd, args, a);
      Causes(server, a, true, args, FirstOf(r)) && (r.effects != [] ==> Confirms(a, args, r.effects[0], Reply(r.reply)))
  {
  }

  // A response logs one effect at most.
  lemma Answers(server: Server, authed: bool, args: seq<string>, a: Answer)
    ensures var r := Respond(server, authed, args, a);
      |r.effects| <= 1 && Causes(server, a, authed, args, FirstOf(r)) &&
      (r.effects != [] ==> IsEffect(r.effects[0]) && Confirms(a, args, r.effects[0], Reply(r.reply)))
  {
    Effects(server, authed, args, a);
    if Names(args, "AUTH") {
      AuthCauses(server, authed, args, a);
    } else if authed && Names(args, "SUBSCRIBE") {
      SubscribeCauses(server, args, a);
    } else if authed && (Names(args, "LPOP") || Names(args, "RPOP")) {
      PopCauses(server, ToUpper(TrimSpace(args[0])), args, a);
    }
  }

  // ---------- positions in a log ----------

  // The turn in which the event at p is logged: that of the last command before it
  function TurnAt(log: seq<Event>, p: nat): nat
    requires p <= |log|
  {
    |CommandsOf(log[..p])|
  }

  predicate AcceptedBy(log: seq<Event>, p: nat, authed: bool)
    requires p <= |log|
  {
    authed || AuthAccepted in log[..p]
  }

  // At p: an effect directly follows a command; and what directly follows a command is what it causes, and is answered.
  ghost predicate LawAt(server: Server, world: nat -> Answer, first: nat, authed: bool, log: seq<Event>, p: nat)
    requires p < |log|
  {
    (IsEffect(log[p]) ==> p > 0 && log[p - 1].Command?) &&
    (log[p].Command? ==>
      p + 1 < |log| &&
      Causes(server, world(first + TurnAt(log, p)), AcceptedBy(log, p, authed), log[p].args, log[p + 1]) &&
      (IsEffect(log[p + 1]) ==>
        p + 2 < |log| && Confirms(world(first + TurnAt(log, p)), log[p].args, log[p + 1], log[p + 2])))
  }

  ghost predicate Law(server: Server, world: nat -> Answer, first: nat, authed: bool, log: seq<Event>) {
    forall p: nat | p < |log| :: LawAt(server, world, first, authed, log, p)
  }

  lemma ShiftedEvents(events: seq<Event>, more: seq<Event>, p: nat)
    requires p < |more|
    ensures (events + more)[|events| + p] == more[p] && (p > 0 ==> (events + more)[|events| + p - 1] == more[p - 1])
    ensures p + 1 < |more| ==> (events + more)[|events| + p + 1] == more[p + 1]
    ensures p + 2 < |more| ==> (events + more)[|events| + p + 2] == more[p + 2]
  {
  }

  lemma ShiftedTurn(events: seq<Event>, more: seq<Event>, p: nat, authed: bool)
    requires p <= |more|
    ensures TurnAt(events + more, |events| + p) == |CommandsOf(events)| + TurnAt(more, p)
    ensures AcceptedBy(events + more, |events| + p, authed) == AcceptedBy(more, p, authed || AuthAccepted in events)
  {
    assert (events + more)[..|events| + p] == events + more[..p];
    CommandsAdd(events, more[..p]);
  }

  // The law at a position depends on what stands there and around it, on the turn, and on whether a key was accepted.
  lemma SameAt(server: Server, world: nat -> Answer, first: nat, authed: bool, next: nat, now: bool,
               log: seq<Event>, q: nat, more: seq<Event>, p: nat)
    requires p < |more| && q < |log| && |log| - q == |more| - p && p <= q && LawAt(server, world, next, now, more, p)
    requires log[q] == more[p] && (p > 0 ==> log[q - 1] == more[p - 1])
    requires p + 1 < |more| ==> log[q + 1] == more[p + 1]
    requires p + 2 < |more| ==> log[q + 2] == more[p + 2]
    requires first + TurnAt(log, q) == next + TurnAt(more, p) && AcceptedBy(log, q, authed) == AcceptedBy(more, p, now)
    ensures LawAt(server, world, first, authed, log, q)
  {
  }

  lemma LaterAt(server: Server, world: nat -> Answer, first: nat, authed: bool, next: nat, now: bool,
                events: seq<Event>, more: seq<Event>, p: nat)
    requires p < |more| && LawAt(server, world, next, now, more, p)
    requires next == first + |CommandsOf(events)| && now == (authed || AuthAccepted in events)
    ensures LawAt(server, world, first, authed, events + more, |events| + p)
  {
    ShiftedEvents(events, more, p);
    ShiftedTurn(events, more, p, authed);
    SameAt(server, world, first, authed, next, now, events + more, |events| + p, more, p);
  }

  lemma LawMore(server: Server, world: nat -> Answer, first: nat, authed: bool, next: nat, now: bool,
                events: seq<Event>, more: seq<Event>)
    requires forall p: nat | p < |events| :: LawAt(server, world, first, authed, events + more, p)
    requires Law(server, world, next, now, more)
    requires next == first + |CommandsOf(events)| && now == (authed || AuthAccepted in events)
    ensures Law(server, world, first, authed, events + more)
  {
    forall p: nat | p < |events + more| ensures LawAt(server, world, first, authed, events + more, p) {
      if p >= |events| {
        LaterAt(server, world, first, authed, next, now, events, more, p - |events|);
      }
    }
  }

  lemma {:induction false} LawQuiet(server: Server, world: nat -> Answer, first: nat, authed: bool, log: seq<Event>)
    requires forall e :: e in log ==> !IsEffect(e) && !e.Command?
    ensures Law(server, world, first, authed, log)
  {
  }

  // The events of a turn that answers a command, whatever follows them
  lemma LawOfTurn(server: Server, world: nat -> Answer, first: nat, authed: bool, args: seq<string>,
                  more: seq<Event>, p: nat)
    requires var r := Respond(server, authed, args, world(first)); p < |Exchange(args, r) + Parting(world(first).sent, r)|
    ensures var r := Respond(server, authed, args, world(first));
      LawAt(server, world, first, authed, (Exchange(args, r) + Parting(world(first).sent, r)) + more, p)
  {
    var a := world(first);
    var r := Respond(server, authed, args, a);
    var log := (Exchange(args, r) + Parting(a.sent, r)) + more;
    Answers(server, authed, args, a);
    assert log[0] == Command(args) && log[1] == FirstOf(r);
    assert r.effects != [] ==> log[2] == Reply(r.reply);
    assert log[..0] == [];
  }

  // ---------- the whole connection ----------

  lemma {:induction false} ListeningQuiet(channel: string, rest: string, env: Env, picks: seq<Pick>)
    ensures forall e :: e in Listening(channel, rest, env, picks) ==> !IsEffect(e) && !e.Command?
    decreases |picks|
  {
    if picks != [] {
      var one := SelectOne(channel, rest, env, picks[0]);
      if one.open {
        ListeningQuiet(channel, one.left, env, picks[1..]);
      }
    }
  }

  // What a turn that answers a command leaves for the next one
  lemma TurnPasses(server: Server, args: seq<string>, a: Answer, authed: bool)
    ensures var r := Respond(server, authed, args, a); var events := Exchange(args, r) + Parting(a.sent, r);
      |CommandsOf(events)| == 1 &&
      (NextAfter(a.sent, r).Again? ==> NextAfter(a.sent, r).authed == (authed || AuthAccepted in events))
  {
    var r := Respond(server, authed, args, a);
    Effects(server, authed, args, a);
    AnsweredForwards(authed, a.sent, args, r);
    if r.effects == [AuthAccepted] {
      assert Exchange(args, r)[1] == AuthAccepted;
    }
  }

  // A turn that answers a command, followed by a log that keeps the law
  lemma AnsweredLaw(server: Server, world: nat -> Answer, i: nat, next: nat, authed: bool, args: seq<string>,
                    more: seq<Event>)
    requires next == i + 1
    requires var r := Respond(server, authed, args, world(i));
      Law(server, world, next, authed || AuthAccepted in Exchange(args, r) + Parting(world(i).sent, r), more)
    ensures var r := Respond(server, authed, args, world(i));
      Law(server, world, i, authed, (Exchange(args, r) + Parting(world(i).sent, r)) + more)
  {
    var r := Respond(server, authed, args, world(i));
    var events := Exchange(args, r) + Parting(world(i).sent, r);
    TurnPasses(server, args, world(i), authed);
    forall p: nat | p < |events| ensures LawAt(server, world, i, authed, events + more, p) {
      LawOfTurn(server, world, i, authed, args, more, p);
    }
    LawMore(server, world, i, authed, next, authed || AuthAccepted in events, events, more);
  }

  lemma LastLaw(server: Server, rest: string, env: Env, world: nat -> Answer, i: nat, authed: bool)
    requires !(world(i).enabled && ParseArray(rest, env).Ok?)
    ensures var t := TurnOnce(server, rest, env, world(i), authed);
      t.next.Stop? && Law(server, world, i, authed, t.events + [])
  {
    var events := TurnOnce(server, rest, env, world(i), authed).events;
    assert events + [] == events;
    LawQuiet(server, world, i, authed, events);
  }

  lemma {:induction false} SessionLaw(server: Server, rest: string, env: Env, world: nat -> Answer, i: nat,
                                      authed: bool, picks: seq<Pick>)
    ensures Law(server, world, i, authed, Session(server, rest, env, world, i, authed, picks))
    decreases |rest|
  {
    var t := TurnOnce(server, rest, env, world(i), authed);
    if world(i).enabled && ParseArray(rest, env).Ok? {
      var args := ParseArray(rest, env).value;
      var more := Onward(server, t.left, env, world, i + 1, t.next, picks);
      var now := authed || AuthAccepted in t.events;
      TurnPasses(server, args, world(i), authed);
      match t.next {
        case Again(_) => SessionLaw(server, t.left, env, world, i + 1, now, picks);
        case Listen(channel) =>
          ListeningQuiet(channel, t.left, env, picks);
          LawQuiet(server, world, i + 1, now, more);
        case Stop => LawQuiet(server, world, i + 1, now, more);
      }
      AnsweredLaw(server, world, i, i + 1, authed, args, more);
    } else {
      LastLaw(server, rest, env, world, i, authed);
    }
  }

  // On every run a key is accepted exactly when AUTH presents one that the management allows in that turn; queue items
  // are popped, and a channel is subscribed to, exactly by such commands after an accepted key; and every command that
  // causes none of these is answered by an error.
  lemma ConnectionLaw(server: Server, input: string, env: Env, world: nat -> Answer, picks: seq<Pick>)
    ensures Law(server, world, 0, false, Connection(server, input, env, world, picks))
  {
    if server.homeMode {
      LawQuiet(server, world, 0, false, Connection(server, input, env, world, picks));
    } else {
      SessionLaw(server, input, env, world, 0, false, picks);
    }
  }

  // Nothing is popped, and nothing subscribed to, unless in an earlier turn AUTH presented a key that the management
  // of a managed server allowed.
  lemma GuardedByKey(server: Server, input: string, env: Env, world: nat -> Answer, picks: seq<Pick>,
                     i: nat) returns (p: nat)
    requires var log := Connection(server, input, env, world, picks); i < |log| && (log[i].Popped? || log[i].Subscribed?)
    ensures var log := Connection(server, input, env, world, picks);
      p < i && log[p].Command? && server.managed &&
      var args := log[p].args;
      args != [] && ToUpper(TrimSpace(args[0])) == "AUTH" && (|args| == 2 || |args| == 3) &&
      world(|CommandsOf(log[..p])|).verdict(args[|args| - 1]).allowed
  {
    var log := Connection(server, input, env, world, picks);
    GuardedByAuth(server, input, env, world, picks, i);
    ConnectionLaw(server, input, env, world, picks);
    var q: nat :| q < i && log[q] == AuthAccepted;
    assert LawAt(server, world, 0, false, log, q);
    p := q - 1;
    assert LawAt(server, world, 0, false, log, p);
  }

  // The management's message on a refused request is that the address is banned.
  predicate Bans(v: Verdict) {
    v.forbidden && "IP banned due to too many failed attempts" <= v.message
  }

  // Before a key was accepted, every other command is answered by the same error, or by the message of a ban; and a key
  // that is refused by the message of the refusal.
  lemma RefusalsSay(server: Server, args: seq<string>, a: Answer)
    requires args != []
    ensures var reply := Respond(server, false, args, a).reply;
      (ToUpper(TrimSpace(args[0])) != "AUTH" ==>
        reply == ErrorReply(if server.managed && Bans(a.verdict("")) then "ERR " + a.verdict("").message
                            else "NOAUTH Authentication required.")) &&
      (ToUpper(TrimSpace(args[0])) == "AUTH" && (|args| == 2 || |args| == 3) &&
       server.managed && !a.verdict(args[|args| - 1]).allowed ==>
        reply == ErrorReply("ERR " + a.verdict(args[|args| - 1]).message))
  {
  }

  // ---------- how long a connection is served ----------

  // The server was enabled in every turn whose command was answered, and could send all replies but the last one.
  ghost predicate ServedSoFar(world: nat -> Answer, i: nat, log: seq<Event>) {
    forall turn: nat | i <= turn < i + |CommandsOf(log)| ::
      world(turn).enabled && (turn < i + |CommandsOf(log)| - 1 ==> world(turn).sent)
  }

  // After n commands, the last reply could not be sent, or the server is not enabled any more, or no further command
  // can be read.
  predicate Stops(world: nat -> Answer, i: nat, n: nat, readable: bool) {
    (n > 0 && !world(i + n - 1).sent) || !world(i + n).enabled || !readable
  }

  lemma StopsLater(world: nat -> Answer, i: nat, next: nat, n: nat, readable: bool)
    requires next == i + 1 && Stops(world, next, n, readable)
    ensures Stops(world, i, n + 1, readable)
  {
    assert i + (n + 1) == next + n;
  }

  // Whether a further command can be read once n were, if they were
  function Readable(rest: string, env: Env, n: nat): Option<bool> {
    match ParseAll(rest, env, n)
    case Ok(_, left) => Some(ParseArray(left, env).Ok?)
    case _ => None
  }

  lemma ReadableNext(rest: string, env: Env, args: seq<string>, left: string, n: nat)
    requires ParseArray(rest, env) == Ok(args, left)
    ensures Readable(rest, env, n + 1) == Readable(left, env, n)
  {
  }

  ghost predicate EndsAfter(rest: string, env: Env, world: nat -> Answer, i: nat, n: nat) {
    Readable(rest, env, n).Some? && Stops(world, i, n, Readable(rest, env, n).value)
  }

  ghost predicate EndsFor(rest: string, env: Env, world: nat -> Answer, i: nat, log: seq<Event>) {
    EndsAfter(rest, env, world, i, |CommandsOf(log)|)
  }

  predicate Subscribing(log: seq<Event>) {
    exists e :: e in log && e.Subscribed?
  }

  lemma ServedMore(world: nat -> Answer, i: nat, next: nat, events: seq<Event>, args: seq<string>, more: seq<Event>)
    requires next == i + 1 && CommandsOf(events) == [args] && world(i).enabled
    requires ServedSoFar(world, next, more) && (CommandsOf(more) != [] ==> world(i).sent)
    ensures ServedSoFar(world, i, events + more)
  {
    CommandsAdd(events, more);
  }

  lemma EndsLater(rest: string, env: Env, world: nat -> Answer, i: nat, next: nat, args: seq<string>, left: string,
                  n: nat)
    requires next == i + 1 && ParseArray(rest, env) == Ok(args, left) && EndsAfter(left, env, world, next, n)
    ensures EndsAfter(rest, env, world, i, n + 1)
  {
    ReadableNext(rest, env, args, left, n);
    StopsLater(world, i, next, n, Readable(left, env, n).value);
  }

  lemma EndsMore(rest: string, env: Env, world: nat -> Answer, i: nat, next: nat, events: seq<Event>,
                 args: seq<string>, left: string, more: seq<Event>)
    requires next == i + 1 && CommandsOf(events) == [args] && ParseArray(rest, env) == Ok(args, left)
    requires EndsFor(left, env, world, next, more)
    ensures EndsFor(rest, env, world, i, events + more)
  {
    CommandsAdd(events, more);
    EndsLater(rest, env, world, i, next, args, left, |CommandsOf(more)|);
  }

  lemma EndsHere(rest: string, env: Env, world: nat -> Answer, i: nat, events: seq<Event>, args: seq<string>)
    requires CommandsOf(events) == [args] && ParseArray(rest, env).Ok? && !world(i).sent
    ensures EndsFor(rest, env, world, i, events)
  {
    assert ParseAll(ParseArray(rest, env).rest, env, 0).Ok?;
  }

  lemma SubscribingExchange(server: Server, args: seq<string>, a: Answer, authed: bool)
    ensures var r := Respond(server, authed, args, a);
      r.channel.Some? ==> Subscribing(Exchange(args, r) + Parting(a.sent, r))
  {
    NoListener(server, authed, args, a);
  }

  ghost predicate Served(rest: string, env: Env, world: nat -> Answer, i: nat, log: seq<Event>) {
    ServedSoFar(world, i, log) && (!Subscribing(log) ==> EndsFor(rest, env, world, i, log))
  }

  // A turn after which the next one follows
  lemma ServedOn(rest: string, env: Env, world: nat -> Answer, i: nat, next: nat, events: seq<Event>, args: seq<string>,
                 left: string, more: seq<Event>)
    requires next == i + 1 && CommandsOf(events) == [args] && world(i).enabled && world(i).sent
    requires ParseArray(rest, env) == Ok(args, left) && Served(left, env, world, next, more)
    ensures Served(rest, env, world, i, events + more)
  {
    ServedMore(world, i, next, events, args, more);
    if !Subscribing(events + more) {
      assert forall e :: e in more ==> e in events + more;
      EndsMore(rest, env, world, i, next, events, args, left, more);
    }
  }

  lemma SubscribingMore(events: seq<Event>, more: seq<Event>)
    requires Subscribing(events)
    ensures Subscribing(events + more)
  {
    var e :| e in events && e.Subscribed?;
    assert e in events + more;
  }

  lemma OneServed(world: nat -> Answer, i: nat, log: seq<Event>, args: seq<string>)
    requires CommandsOf(log) == [args] && world(i).enabled
    ensures ServedSoFar(world, i, log)
  {
  }

  // The last turn, or one after which a subscription takes over
  lemma ServedLast(rest: string, env: Env, world: nat -> Answer, i: nat, events: seq<Event>, args: seq<string>,
                   more: seq<Event>)
    requires CommandsOf(events) == [args] && CommandsOf(more) == [] && world(i).enabled && ParseArray(rest, env).Ok?
    requires Subscribing(events) || !world(i).sent
    ensures Served(rest, env, world, i, events + more)
  {
    CommandsAdd(events, more);
    assert [args] + [] == [args];
    OneServed(world, i, events + more, args);
    if Subscribing(events) {
      SubscribingMore(events, more);
    } else {
      EndsHere(rest, env, world, i, events + more, args);
    }
  }

  lemma NotServed(server: Server, rest: string, env: Env, world: nat -> Answer, i: nat, authed: bool)
    requires !(world(i).enabled && ParseArray(rest, env).Ok?)
    ensures var t := TurnOnce(server, rest, env, world(i), authed);
      t.next.Stop? && Served(rest, env, world, i, t.events + [])
  {
    var events := TurnOnce(server, rest, env, world(i), authed).events;
    TurnForwardsNothing(server, rest, env, world(i), authed);
    assert events + [] == events;
    assert ParseAll(rest, env, 0) == Ok([], rest);
  }

  lemma {:induction false} SessionServed(server: Server, rest: string, env: Env, world: nat -> Answer, i: nat,
                                         authed: bool, picks: seq<Pick>)
    ensures Served(rest, env, world, i, Session(server, rest, env, world, i, authed, picks))
    decreases |rest|
  {
    var t := TurnOnce(server, rest, env, world(i), authed);
    if world(i).enabled && ParseArray(rest, env).Ok? {
      var args := ParseArray(rest, env).value;
      var more := Onward(server, t.left, env, world, i + 1, t.next, picks);
      TurnForwardsNothing(server, rest, env, world(i), authed);
      SubscribingExchange(server, args, world(i), authed);
      if t.next.Again? {
        SessionServed(server, t.left, env, world, i + 1, t.next.authed, picks);
        ServedOn(rest, env, world, i, i + 1, t.events, args, t.left, more);
      } else {
        if t.next.Listen? {
          ListeningForwards(t.next.channel, t.left, env, picks);
        }
        ServedLast(rest, env, world, i, t.events, args, more);
      }
    } else {
      NotServed(server, rest, env, world, i, authed);
    }
  }

  // On every run commands are answered in turn as long as the server is enabled, replies can be sent and commands can
  // be read, and no longer.
  lemma ConnectionServed(server: Server, input: string, env: Env, world: nat -> Answer, picks: seq<Pick>)
    requires !server.homeMode
    ensures var log := Connection(server, input, env, world, picks);
      ServedSoFar(world, 0, log) && (!Subscribing(log) ==> EndsFor(input, env, world, 0, log))
  {
    SessionServed(server, input, env, world, 0, false, picks);
  }

  // ---------- during a subscription ----------

  predicate EndsSubscription(args: seq<string>) {
    Names(args, "UNSUBSCRIBE") || Names(args, "QUIT")
  }

  // PING is answered by what it brought, UNSUBSCRIBE by the end of the subscription, QUIT by OK, all else by an error.
  predicate ListenedTo(channel: string, args: seq<string>, bytes: string) {
    if Names(args, "PING") then bytes == Pong(if |args| > 1 then Some(args[1]) else None)
    else if Names(args, "UNSUBSCRIBE") then bytes == Resp.Unsubscribed(channel, 0)
    else if Names(args, "QUIT") then bytes == "+OK\r\n"
    else bytes != [] && bytes[0] == '-'
  }

  // A turn of a subscription forwards the message that arrived, or answers the command read; and the subscription lasts
  // until its messages end, nothing can be sent or read any more, or UNSUBSCRIBE or QUIT ends it.
  lemma SelectLaw(channel: string, rest: string, env: Env, pick: Pick)
    ensures var one := SelectOne(channel, rest, env, pick);
      (one.open <==> match pick
        case Arrived(_, sent) => sent
        case MessagesClosed => false
        case CommandReady(sent) => sent && ParseArray(rest, env).Ok? && !EndsSubscription(ParseArray(rest, env).value)) &&
      (pick.Arrived? ==> one.events != [] && one.events[0] == Forwarded(channel, pick.payload)) &&
      (pick.CommandReady? && ParseArray(rest, env).Ok? ==>
        |one.events| >= 2 && one.events[0] == Listened(ParseArray(rest, env).value) && one.events[1].Answered? &&
        ListenedTo(channel, ParseArray(rest, env).value, one.events[1].bytes))
  {
    if pick.CommandReady? && ParseArray(rest, env).Ok? {
      ListeningAnswers(channel, ParseArray(rest, env).value);
    }
  }

  lemma ListeningAnswers(channel: string, args: seq<string>)
    ensures RespondListening(channel, args).1 <==> !EndsSubscription(args)
    ensures ListenedTo(channel, args, RespondListening(channel, args).0)
  {
  }
}
