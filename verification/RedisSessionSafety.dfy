// What holds on every run of a Redis connection, whatever is read, answered, and lost on the way.
module RedisSessionSafety {
  import opened Text
  import opened Resp
  import opened RespRoundTrip
  import opened RedisSession

  // ---------- the protocol ----------

  datatype Subscription = NotYet | Active(channel: string) | Given

  // Open, closed in order, or gone with the process
  datatype Life = Open | Shut | Dead

  // Where a connection is: a command read and not answered, authenticated, subscribed, closed
  datatype Stage = Stage(waiting: bool, authed: bool, subscription: Subscription, life: Life)

  const BEGIN := Stage(false, false, NotYet, Open)

  // What may happen next, and where it leads; everything else breaks the protocol.
  function After(s: Stage, e: Event): Option<Stage> {
    if !s.life.Open? then None
    else
      match e
      case Command(_) => if s.waiting || !s.subscription.NotYet? then None else Some(s.(waiting := true))
      case Reply(_) => if s.waiting then Some(s.(waiting := false)) else None
      case Refusal(_) => if s.waiting || !s.subscription.NotYet? then None else Some(s)
      case AuthAccepted => if s.waiting then Some(s.(authed := true)) else None
      case Popped(_) => if s.waiting && s.authed then Some(s) else None
      case Subscribed(channel) =>
        if s.waiting && s.authed && s.subscription.NotYet? then Some(s.(subscription := Active(channel))) else None
      case Forwarded(channel, _) => if !s.waiting && s.subscription == Active(channel) then Some(s) else None
      case Listened(_) => if !s.waiting && s.subscription.Active? then Some(s) else None
      case Answered(_) => if !s.waiting && s.subscription.Active? then Some(s) else None
      case Unsubscribed => if !s.waiting && s.subscription.Active? then Some(s.(subscription := Given)) else None
      case Closed => if s.waiting || s.subscription.Active? then None else Some(s.(life := Shut))
      case Crashed => if s.waiting || s.subscription.Given? then None else Some(s.(life := Dead))
  }

  function Watch(s: Stage, log: seq<Event>): Option<Stage>
    decreases |log|
  {
    if log == [] then Some(s)
    else
      match After(s, log[0])
      case None => None
      case Some(next) => Watch(next, log[1..])
  }

  lemma Concatenated(a: seq<Event>, b: seq<Event>)
    ensures a == [] ==> a + b == b
    ensures a != [] ==> (a + b)[0] == a[0] && (a + b)[1..] == a[1..] + b
  {
  }

  lemma {:induction false} WatchMore(s: Stage, a: seq<Event>, b: seq<Event>)
    requires Watch(s, a).Some?
    ensures Watch(s, a + b) == Watch(Watch(s, a).value, b)
    decreases |a|
  {
    Concatenated(a, b);
    if a != [] {
      WatchMore(After(s, a[0]).value, a[1..], b);
    }
  }

  lemma WatchOne(s: Stage, a: Event)
    ensures Watch(s, [a]) == After(s, a)
  {
    assert [a][1..] == [];
  }

  lemma WatchTwo(s: Stage, a: Event, b: Event)
    requires After(s, a).Some?
    ensures Watch(s, [a, b]) == After(After(s, a).value, b)
  {
    assert [a, b][1..] == [b];
    WatchOne(After(s, a).value, b);
  }

  lemma WatchThree(s: Stage, a: Event, b: Event, c: Event)
    requires After(s, a).Some? && After(After(s, a).value, b).Some?
    ensures Watch(s, [a, b, c]) == After(After(After(s, a).value, b).value, c)
  {
    assert [a, b, c][1..] == [b, c];
    WatchTwo(After(s, a).value, b, c);
  }

  // A response logs an accepted key, a pop, a subscription, or nothing; the last two only when authenticated.
  predicate Lawful(authed: bool, r: Response) {
    (r.effects == [] && r.authed == authed && r.channel.None?) ||
    (r.effects == [AuthAccepted] && r.authed && r.channel.None?) ||
    (|r.effects| == 1 && r.effects[0].Popped? && authed && r.authed && r.channel.None?) ||
    (r.channel.Some? && r.effects == [Event.Subscribed(r.channel.value)] && authed && r.authed)
  }

  lemma PopIsLawful(cmd: string, args: seq<string>, a: Answer)
    ensures Lawful(true, RespondPop(cmd, args, a))
  {
  }

  lemma AuthIsLawful(server: Server, authed: bool, args: seq<string>, a: Answer)
    ensures Lawful(authed, RespondAuth(server, authed, args, a))
  {
  }

  lemma SubscribeIsLawful(args: seq<string>)
    ensures Lawful(true, RespondSubscribe(args))
  {
  }

  lemma Effects(server: Server, authed: bool, args: seq<string>, a: Answer)
    ensures Lawful(authed, Respond(server, authed, args, a))
  {
    AuthIsLawful(server, authed, args, a);
    SubscribeIsLawful(args);
    if args != [] {
      PopIsLawful(ToUpper(TrimSpace(args[0])), args, a);
    }
  }

  function Idle(authed: bool): Stage {
    Stage(false, authed, NotYet, Open)
  }

  lemma WatchExchange(authed: bool, args: seq<string>, r: Response)
    requires Lawful(authed, r)
    ensures Watch(Idle(authed), Exchange(args, r)) ==
      Some(Stage(false, r.authed, if r.channel.Some? then Active(r.channel.value) else NotYet, Open))
  {
    if r.effects == [] {
      assert Exchange(args, r) == [Command(args), Reply(r.reply)];
      WatchTwo(Idle(authed), Command(args), Reply(r.reply));
    } else {
      assert Exchange(args, r) == [Command(args), r.effects[0], Reply(r.reply)];
      WatchThree(Idle(authed), Command(args), r.effects[0], Reply(r.reply));
    }
  }

  lemma WatchLeave(authed: bool, channel: string)
    ensures Watch(Stage(false, authed, Active(channel), Open), LEAVE) == Some(Stage(false, authed, Given, Shut))
  {
    WatchTwo(Stage(false, authed, Active(channel), Open), Unsubscribed, Closed);
  }

  lemma WatchThenLeave(authed: bool, channel: string, events: seq<Event>)
    requires var s := Stage(false, authed, Active(channel), Open); Watch(s, events) == Some(s)
    ensures Watch(Stage(false, authed, Active(channel), Open), events + LEAVE) == Some(Stage(false, authed, Given, Shut))
  {
    WatchLeave(authed, channel);
    WatchMore(Stage(false, authed, Active(channel), Open), events, LEAVE);
  }

  lemma WatchListened(authed: bool, channel: string, args: seq<string>, reply: string)
    ensures var s := Stage(false, authed, Active(channel), Open);
      Watch(s, [Listened(args), Answered(reply)]) == Some(s) &&
      Watch(s, [Listened(args), Answered(reply)] + LEAVE) == Some(Stage(false, authed, Given, Shut))
  {
    WatchTwo(Stage(false, authed, Active(channel), Open), Listened(args), Answered(reply));
    WatchThenLeave(authed, channel, [Listened(args), Answered(reply)]);
  }

  lemma WatchAnswered(authed: bool, channel: string, e: Event)
    requires e.Answered? || (e.Forwarded? && e.channel == channel)
    ensures var s := Stage(false, authed, Active(channel), Open);
      Watch(s, [e]) == Some(s) && Watch(s, [e] + LEAVE) == Some(Stage(false, authed, Given, Shut))
  {
    WatchOne(Stage(false, authed, Active(channel), Open), e);
    WatchThenLeave(authed, channel, [e]);
  }

  // The stages a turn of a subscription leads to when it does not go on: closed in order, or gone with the process
  ghost predicate Over(authed: bool, channel: string, w: Option<Stage>) {
    w == Some(Stage(false, authed, Given, Shut)) || w == Some(Stage(false, authed, Active(channel), Dead))
  }

  lemma WatchSelect(authed: bool, channel: string, rest: string, env: Env, pick: Pick)
    ensures var one := SelectOne(channel, rest, env, pick); var s := Stage(false, authed, Active(channel), Open);
      if one.open then Watch(s, one.events) == Some(s) else Over(authed, channel, Watch(s, one.events))
  {
    WatchLeave(authed, channel);
    WatchOne(Stage(false, authed, Active(channel), Open), Crashed);
    match pick
    case MessagesClosed =>
    case Arrived(payload, _) => WatchAnswered(authed, channel, Forwarded(channel, payload));
    case CommandReady(_) =>
      match ParseArray(rest, env) {
        case Fail(error, _) => WatchAnswered(authed, channel, Answered(ErrorReply("ERR " + ErrorText(error))));
        case Ok(args, _) => WatchListened(authed, channel, args, RespondListening(channel, args).0);
        case Panic(_) =>
      }
  }

  lemma {:induction false} WatchListening(authed: bool, channel: string, rest: string, env: Env, picks: seq<Pick>)
    ensures var s := Stage(false, authed, Active(channel), Open); var w := Watch(s, Listening(channel, rest, env, picks));
      w == Some(s) || Over(authed, channel, w)
    decreases |picks|
  {
    if picks != [] {
      var one := SelectOne(channel, rest, env, picks[0]);
      var more := if one.open then Listening(channel, one.left, env, picks[1..]) else [];
      WatchSelect(authed, channel, rest, env, picks[0]);
      WatchMore(Stage(false, authed, Active(channel), Open), one.events, more);
      if one.open {
        WatchListening(authed, channel, one.left, env, picks[1..]);
      }
    }
  }

  // A stage in which a run may be left: waiting for messages, closed without a subscription held, or gone
  predicate Resting(s: Stage) {
    !s.waiting && (s.life.Open? ==> s.subscription.Active?) && (s.life.Shut? ==> !s.subscription.Active?) &&
    (s.life.Dead? ==> !s.subscription.Given?)
  }

  // What a turn of the loop leaves behind
  predicate Leaves(next: Next, w: Option<Stage>) {
    w.Some? &&
    match next
    case Again(now) => w.value == Idle(now)
    case Listen(channel) => w.value == Stage(false, w.value.authed, Active(channel), Open)
    case Stop => Resting(w.value) && !w.value.life.Open?
  }

  lemma WatchTurn(server: Server, rest: string, env: Env, a: Answer, authed: bool)
    ensures var t := TurnOnce(server, rest, env, a, authed); Leaves(t.next, Watch(Idle(authed), t.events))
  {
    if a.enabled && ParseArray(rest, env).Ok? {
      var args := ParseArray(rest, env).value;
      Effects(server, authed, args, a);
      WatchAnsweredTurn(authed, args, Respond(server, authed, args, a), a.sent);
    } else {
      WatchLastTurn(authed, TurnOnce(server, rest, env, a, authed).events);
    }
  }

  // A turn without a command: the connection ends.
  predicate LastEvents(events: seq<Event>) {
    events == [Closed] || events == [Crashed] || (|events| == 2 && events[0].Refusal? && events[1] == Closed)
  }

  lemma WatchLastTurn(authed: bool, events: seq<Event>)
    requires LastEvents(events)
    ensures Leaves(Stop, Watch(Idle(authed), events))
  {
    WatchOne(Idle(authed), events[0]);
    if |events| == 2 {
      WatchTwo(Idle(authed), events[0], Closed);
      assert events == [events[0], Closed];
    }
  }

  lemma WatchAnsweredTurn(authed: bool, args: seq<string>, r: Response, sent: bool)
    requires Lawful(authed, r)
    ensures Leaves(NextAfter(sent, r), Watch(Idle(authed), Exchange(args, r) + Parting(sent, r)))
  {
    WatchExchange(authed, args, r);
    WatchMore(Idle(authed), Exchange(args, r), Parting(sent, r));
    if r.channel.Some? {
      WatchLeave(r.authed, r.channel.value);
    } else {
      WatchOne(Idle(r.authed), Closed);
    }
  }

  lemma {:induction false} WatchSession(server: Server, rest: string, env: Env, world: nat -> Answer, i: nat,
                                        authed: bool, picks: seq<Pick>)
    ensures var w := Watch(Idle(authed), Session(server, rest, env, world, i, authed, picks)); w.Some? && Resting(w.value)
    decreases |rest|
  {
    var t := TurnOnce(server, rest, env, world(i), authed);
    var w := Watch(Idle(authed), t.events);
    WatchTurn(server, rest, env, world(i), authed);
    WatchMore(Idle(authed), t.events, Onward(server, t.left, env, world, i + 1, t.next, picks));
    match t.next
    case Again(nowAuthed) => WatchSession(server, t.left, env, world, i + 1, nowAuthed, picks);
    case Listen(channel) => WatchListening(w.value.authed, channel, t.left, env, picks);
    case Stop =>
  }

  // Every run keeps the protocol: one reply for each command and before the next one; pops and subscriptions only
  // after an accepted key; the subscription given back before the connection is closed, and nothing after that. Only
  // the end of the process leaves a subscription behind.
  lemma ConnectionKeepsProtocol(server: Server, input: string, env: Env, world: nat -> Answer, picks: seq<Pick>)
    ensures var log := Connection(server, input, env, world, picks); var w := Watch(BEGIN, log);
      w.Some? && Resting(w.value) && (w.value.life.Dead? <==> Crashed in log) && (w.value.life.Shut? <==> Closed in log)
  {
    var log := Connection(server, input, env, world, picks);
    if server.homeMode {
      WatchTwo(BEGIN, log[0], Closed);
    } else {
      WatchSession(server, input, env, world, 0, false, picks);
    }
    WatchedCloses(BEGIN, log);
  }

  // ---------- what the protocol says, event by event ----------

  function CommandsOf(log: seq<Event>): seq<seq<string>> {
    if log == [] then [] else (if log[0].Command? then [log[0].args] else []) + CommandsOf(log[1..])
  }

  function RepliesOf(log: seq<Event>): seq<string> {
    if log == [] then [] else (if log[0].Reply? then [log[0].bytes] else []) + RepliesOf(log[1..])
  }

  function Subscribes(log: seq<Event>): nat {
    if log == [] then 0 else (if log[0].Subscribed? then 1 else 0) + Subscribes(log[1..])
  }

  function Unsubscribes(log: seq<Event>): nat {
    if log == [] then 0 else (if log[0].Unsubscribed? then 1 else 0) + Unsubscribes(log[1..])
  }

  function One(b: bool): nat {
    if b then 1 else 0
  }

  lemma {:induction false} WatchedCounts(s: Stage, log: seq<Event>)
    requires Watch(s, log).Some?
    ensures var r := Watch(s, log).value;
      |CommandsOf(log)| + One(s.waiting) == |RepliesOf(log)| + One(r.waiting) &&
      Subscribes(log) + One(!s.subscription.NotYet?) == One(!r.subscription.NotYet?) &&
      Unsubscribes(log) + One(s.subscription.Given?) == One(r.subscription.Given?)
    decreases |log|
  {
    if log != [] {
      WatchedCounts(After(s, log[0]).value, log[1..]);
    }
  }

  // How a run ends is seen in its log.
  lemma {:induction false} WatchedCloses(s: Stage, log: seq<Event>)
    requires Watch(s, log).Some?
    ensures var r := Watch(s, log).value;
      (r.life.Shut? <==> s.life.Shut? || Closed in log) && (r.life.Dead? <==> s.life.Dead? || Crashed in log)
    decreases |log|
  {
    if log != [] {
      WatchedCloses(After(s, log[0]).value, log[1..]);
    }
  }

  lemma Balanced(log: seq<Event>)
    requires var w := Watch(BEGIN, log); w.Some? && Resting(w.value) && (w.value.life.Shut? <==> Closed in log)
    requires Watch(BEGIN, log).value.life.Dead? <==> Crashed in log
    ensures |RepliesOf(log)| == |CommandsOf(log)| && Subscribes(log) <= 1
    ensures Closed in log ==> Unsubscribes(log) == Subscribes(log) && Crashed !in log
    ensures Closed !in log && Crashed !in log ==> Unsubscribes(log) == 0 && Subscribes(log) == 1
    ensures Crashed in log ==> Unsubscribes(log) == 0
  {
    WatchedCounts(BEGIN, log);
  }

  // On every run there are as many replies as commands; there is one subscription at most, and a run that was closed
  // has given back what it obtained, once. A run that waits or ended with the process has given nothing back.
  lemma ConnectionBalances(server: Server, input: string, env: Env, world: nat -> Answer, picks: seq<Pick>)
    ensures var log := Connection(server, input, env, world, picks);
      |RepliesOf(log)| == |CommandsOf(log)| && Subscribes(log) <= 1 && !(Closed in log && Crashed in log) &&
      Unsubscribes(log) == if Closed in log then Subscribes(log) else 0
  {
    ConnectionKeepsProtocol(server, input, env, world, picks);
    Balanced(Connection(server, input, env, world, picks));
  }

  lemma {:induction false} AcceptedBefore(s: Stage, log: seq<Event>, i: nat)
    requires Watch(s, log).Some? && i < |log| && (log[i].Popped? || log[i].Subscribed?)
    ensures s.authed || AuthAccepted in log[..i]
    decreases |log|
  {
    if i > 0 {
      AcceptedBefore(After(s, log[0]).value, log[1..], i - 1);
      assert log[..i] == [log[0]] + log[1..][..i - 1];
    }
  }

  // Nothing is popped from the queue, and nothing subscribed to, before a management key was accepted.
  lemma GuardedByAuth(server: Server, input: string, env: Env, world: nat -> Answer, picks: seq<Pick>, i: nat)
    requires var log := Connection(server, input, env, world, picks);
      i < |log| && (log[i].Popped? || log[i].Subscribed?)
    ensures AuthAccepted in Connection(server, input, env, world, picks)[..i]
  {
    ConnectionKeepsProtocol(server, input, env, world, picks);
    AcceptedBefore(BEGIN, Connection(server, input, env, world, picks), i);
  }

  // ---------- messages ----------

  function ForwardedOf(log: seq<Event>): seq<Option<string>> {
    if log == [] then [] else (if log[0].Forwarded? then [log[0].payload] else []) + ForwardedOf(log[1..])
  }

  function ArrivalsOf(picks: seq<Pick>): seq<Option<string>> {
    if picks == [] then [] else (if picks[0].Arrived? then [picks[0].payload] else []) + ArrivalsOf(picks[1..])
  }

  lemma {:induction false} ForwardedAdd(a: seq<Event>, b: seq<Event>)
    ensures ForwardedOf(a + b) == ForwardedOf(a) + ForwardedOf(b)
    decreases |a|
  {
    Concatenated(a, b);
    if a != [] {
      ForwardedAdd(a[1..], b);
    }
  }

  lemma {:induction false} CommandsAdd(a: seq<Event>, b: seq<Event>)
    ensures CommandsOf(a + b) == CommandsOf(a) + CommandsOf(b)
    decreases |a|
  {
    Concatenated(a, b);
    if a != [] {
      CommandsAdd(a[1..], b);
    }
  }

  lemma ForwardedMore(a: seq<Event>, b: seq<Event>)
    ensures ForwardedOf(a + b) == ForwardedOf(a) + ForwardedOf(b)
    ensures CommandsOf(a + b) == CommandsOf(a) + CommandsOf(b)
  {
    ForwardedAdd(a, b);
    CommandsAdd(a, b);
  }

  lemma {:induction false} NoneOf(log: seq<Event>)
    requires forall e :: e in log ==> !e.Forwarded?
    ensures ForwardedOf(log) == []
    decreases |log|
  {
    if log != [] {
      NoneOf(log[1..]);
    }
  }

  lemma {:induction false} NoCommandIn(log: seq<Event>)
    requires forall e :: e in log ==> !e.Command?
    ensures CommandsOf(log) == []
    decreases |log|
  {
    if log != [] {
      NoCommandIn(log[1..]);
    }
  }

  lemma MessageForwards(channel: string, rest: string, env: Env, payload: Option<string>, sent: bool)
    ensures var one := SelectOne(channel, rest, env, Arrived(payload, sent));
      ForwardedOf(one.events) == [payload] && CommandsOf(one.events) == []
  {
    var one := SelectOne(channel, rest, env, Arrived(payload, sent));
    assert one.events == [one.events[0]] + one.events[1..];
    NoneOf(one.events[1..]);
    NoCommandIn(one.events);
  }

  lemma SelectForwards(channel: string, rest: string, env: Env, pick: Pick)
    ensures var one := SelectOne(channel, rest, env, pick);
      ForwardedOf(one.events) == (if pick.Arrived? then [pick.payload] else []) && CommandsOf(one.events) == []
  {
    if pick.Arrived? {
      MessageForwards(channel, rest, env, pick.payload, pick.sent);
    } else {
      OtherEvents(channel, rest, env, pick);
      NoneOf(SelectOne(channel, rest, env, pick).events);
      NoCommandIn(SelectOne(channel, rest, env, pick).events);
    }
  }

  lemma OtherEvents(channel: string, rest: string, env: Env, pick: Pick)
    requires !pick.Arrived?
    ensures forall e :: e in SelectOne(channel, rest, env, pick).events ==> !e.Forwarded? && !e.Command?
  {
  }

  lemma SelectCloses(channel: string, rest: string, env: Env, pick: Pick)
    ensures var one := SelectOne(channel, rest, env, pick); one.open <==> !Ended(one.events)
  {
  }

  predicate Ended(log: seq<Event>) {
    Closed in log || Crashed in log
  }

  lemma ForwardsOn(events: seq<Event>, head: seq<Option<string>>, more: seq<Event>, tail: seq<Option<string>>)
    requires ForwardedOf(events) == head && CommandsOf(events) == [] && (Ended(events) ==> more == [])
    requires ForwardedOf(more) <= tail && CommandsOf(more) == [] && (!Ended(events + more) ==> ForwardedOf(more) == tail)
    ensures ForwardedOf(events + more) <= head + tail && CommandsOf(events + more) == []
    ensures !Ended(events + more) ==> ForwardedOf(events + more) == head + tail
  {
    ForwardedMore(events, more);
  }

  // Messages are forwarded in the order of their arrival, all of them while the subscription lasts.
  lemma {:induction false} ListeningForwards(channel: string, rest: string, env: Env, picks: seq<Pick>)
    ensures var log := Listening(channel, rest, env, picks);
      ForwardedOf(log) <= ArrivalsOf(picks) && CommandsOf(log) == [] &&
      (!Ended(log) ==> ForwardedOf(log) == ArrivalsOf(picks))
    decreases |picks|
  {
    if picks != [] {
      var one := SelectOne(channel, rest, env, picks[0]);
      var more := if one.open then Listening(channel, one.left, env, picks[1..]) else [];
      SelectForwards(channel, rest, env, picks[0]);
      SelectCloses(channel, rest, env, picks[0]);
      if one.open {
        ListeningForwards(channel, one.left, env, picks[1..]);
      }
      ForwardsOn(one.events, ForwardedOf(one.events), more, ArrivalsOf(picks[1..]));
    }
  }

  lemma ExchangeForwards(args: seq<string>, r: Response)
    requires forall e :: e in r.effects ==> !e.Forwarded? && !e.Command?
    ensures ForwardedOf(Exchange(args, r)) == [] && CommandsOf(Exchange(args, r)) == [args]
  {
    var after := r.effects + [Reply(r.reply)];
    Grouped([Command(args)], r.effects, [Reply(r.reply)]);
    NoneOf(after);
    NoCommandIn(after);
    ForwardedMore([Command(args)], after);
  }

  lemma PartingForwards(sent: bool, r: Response)
    ensures ForwardedOf(Parting(sent, r)) == [] && CommandsOf(Parting(sent, r)) == []
  {
    NoneOf(Parting(sent, r));
    NoCommandIn(Parting(sent, r));
  }

  lemma AnsweredForwards(authed: bool, sent: bool, args: seq<string>, r: Response)
    requires Lawful(authed, r)
    ensures ForwardedOf(Exchange(args, r) + Parting(sent, r)) == []
    ensures CommandsOf(Exchange(args, r) + Parting(sent, r)) == [args]
  {
    ExchangeForwards(args, r);
    PartingForwards(sent, r);
    ForwardedMore(Exchange(args, r), Parting(sent, r));
  }

  lemma TurnForwardsNothing(server: Server, rest: string, env: Env, a: Answer, authed: bool)
    ensures var t := TurnOnce(server, rest, env, a, authed);
      ForwardedOf(t.events) == [] &&
      CommandsOf(t.events) == if a.enabled && ParseArray(rest, env).Ok? then [ParseArray(rest, env).value] else []
  {
    if a.enabled && ParseArray(rest, env).Ok? {
      var args := ParseArray(rest, env).value;
      Effects(server, authed, args, a);
      AnsweredForwards(authed, a.sent, args, Respond(server, authed, args, a));
    } else {
      NoneOf(TurnOnce(server, rest, env, a, authed).events);
      NoCommandIn(TurnOnce(server, rest, env, a, authed).events);
    }
  }

  lemma {:induction false} SessionForwards(server: Server, rest: string, env: Env, world: nat -> Answer, i: nat,
                                           authed: bool, picks: seq<Pick>)
    ensures ForwardedOf(Session(server, rest, env, world, i, authed, picks)) <= ArrivalsOf(picks)
    decreases |rest|
  {
    var t := TurnOnce(server, rest, env, world(i), authed);
    TurnForwardsNothing(server, rest, env, world(i), authed);
    ForwardedMore(t.events, Onward(server, t.left, env, world, i + 1, t.next, picks));
    match t.next
    case Again(nowAuthed) => SessionForwards(server, t.left, env, world, i + 1, nowAuthed, picks);
    case Listen(channel) => ListeningForwards(channel, t.left, env, picks);
    case Stop =>
  }

  // ---------- from the bytes sent to the commands executed ----------

  // The commands executed from turn i on are the first ones of a list.
  predicate ExecutesFirst(server: Server, rest: string, env: Env, world: nat -> Answer, i: nat, authed: bool,
                          picks: seq<Pick>, commands: seq<seq<string>>)
  {
    CommandsOf(Session(server, rest, env, world, i, authed, picks)) <= commands
  }

  lemma SessionCommands(server: Server, rest: string, env: Env, world: nat -> Answer, i: nat, authed: bool,
                        picks: seq<Pick>)
    ensures var t := TurnOnce(server, rest, env, world(i), authed);
      CommandsOf(Session(server, rest, env, world, i, authed, picks)) ==
      (if world(i).enabled && ParseArray(rest, env).Ok? then [ParseArray(rest, env).value] else []) +
      (if t.next.Again? then CommandsOf(Session(server, t.left, env, world, i + 1, t.next.authed, picks)) else [])
  {
    var t := TurnOnce(server, rest, env, world(i), authed);
    TurnForwardsNothing(server, rest, env, world(i), authed);
    ForwardedMore(t.events, Onward(server, t.left, env, world, i + 1, t.next, picks));
    if t.next.Listen? {
      ListeningForwards(t.next.channel, t.left, env, picks);
    }
  }

  lemma FirstExecuted(server: Server, rest: string, env: Env, command: seq<string>, left: string,
                      more: seq<seq<string>>, world: nat -> Answer, i: nat, next: nat, authed: bool, picks: seq<Pick>)
    requires ParseArray(rest, env) == Ok(command, left) && next == i + 1
    requires forall now :: ExecutesFirst(server, left, env, world, next, now, picks, more)
    ensures ExecutesFirst(server, rest, env, world, i, authed, picks, [command] + more)
  {
    var t := TurnOnce(server, rest, env, world(i), authed);
    SessionCommands(server, rest, env, world, i, authed, picks);
    if t.next.Again? {
      assert t.left == left;
      assert ExecutesFirst(server, left, env, world, next, t.next.authed, picks, more);
    }
  }

  // Where no command can be read none is executed.
  lemma UnreadExecutes(server: Server, rest: string, env: Env, world: nat -> Answer, i: nat, authed: bool,
                       picks: seq<Pick>,
                       commands: seq<seq<string>>)
    requires !ParseArray(rest, env).Ok?
    ensures ExecutesFirst(server, rest, env, world, i, authed, picks, commands)
  {
    SessionCommands(server, rest, env, world, i, authed, picks);
  }

  lemma EncodedFirst(commands: seq<seq<string>>, env: Env)
    requires commands != [] && Realistic(env) && Sized(Plain(commands[0]))
    ensures var r := ParseArray(Concat(EncodedEach(commands)), env);
      if Fits(Plain(commands[0]), env) then r == Ok(commands[0], Concat(EncodedEach(commands[1..]))) else r.Panic?
  {
    assert EncodedEach(commands)[1..] == EncodedEach(commands[1..]);
    ConcatFirst(EncodedEach(commands));
    if Fits(Plain(commands[0]), env) {
      CommandRead(commands[0], env);
    } else {
      ArrayTooLarge(Plain(commands[0]), Concat(EncodedEach(commands[1..])), env);
    }
  }

  // Of the commands a client sends, a connection executes the first ones, in their order and as they were sent.
  lemma {:induction false} SentIsExecuted(server: Server, commands: seq<seq<string>>, env: Env, world: nat -> Answer,
                                          i: nat, authed: bool, picks: seq<Pick>)
    requires Realistic(env) && forall k :: 0 <= k < |commands| ==> Sized(Plain(commands[k]))
    ensures ExecutesFirst(server, Concat(EncodedEach(commands)), env, world, i, authed, picks, commands)
    decreases |commands|
  {
    if commands == [] {
      UnreadExecutes(server, "", env, world, i, authed, picks, []);
    } else {
      var first, more := commands[0], commands[1..];
      assert commands == [first] + more;
      EncodedFirst(commands, env);
      if Fits(Plain(first), env) {
        var next, left := i + 1, Concat(EncodedEach(more));
        forall now ensures ExecutesFirst(server, left, env, world, next, now, picks, more) {
          SentIsExecuted(server, more, env, world, next, now, picks);
        }
        FirstExecuted(server, Concat(EncodedEach(commands)), env, first, left, more, world, i, next, authed, picks);
      } else {
        UnreadExecutes(server, Concat(EncodedEach(commands)), env, world, i, authed, picks, commands);
      }
    }
  }

  // ---------- when the process ends ----------

  function ReadsOf(log: seq<Event>): seq<seq<string>> {
    if log == [] then [] else (if log[0].Command? || log[0].Listened? then [log[0].args] else []) + ReadsOf(log[1..])
  }

  lemma {:induction false} ReadsAdd(a: seq<Event>, b: seq<Event>)
    ensures ReadsOf(a + b) == ReadsOf(a) + ReadsOf(b)
    decreases |a|
  {
    Concatenated(a, b);
    if a != [] {
      ReadsAdd(a[1..], b);
      Grouped(if a[0].Command? || a[0].Listened? then [a[0].args] else [], ReadsOf(a[1..]), ReadsOf(b));
    }
  }

  lemma {:induction false} NothingRead(log: seq<Event>)
    requires forall e :: e in log ==> !e.Command? && !e.Listened?
    ensures ReadsOf(log) == []
    decreases |log|
  {
    if log != [] {
      NothingRead(log[1..]);
    }
  }

  // The commands of the log are the first ones of the input; if the process ended, reading the next one ended it.
  ghost predicate Explained(rest: string, env: Env, log: seq<Event>) {
    var r := ParseAll(rest, env, |ReadsOf(log)|);
    r.Ok? && r.value == ReadsOf(log) && (Crashed in log ==> ParseArray(r.rest, env).Panic?)
  }

  // Events in which nothing was read, and the rest of the log
  lemma ExplainedUnread(rest: string, env: Env, events: seq<Event>, more: seq<Event>)
    requires ReadsOf(events) == [] && Crashed !in events && Explained(rest, env, more)
    ensures Explained(rest, env, events + more)
  {
    ReadsAdd(events, more);
  }

  // Events in which one command was read, and the rest of the log
  lemma ExplainedRead(rest: string, env: Env, args: seq<string>, left: string, events: seq<Event>, more: seq<Event>)
    requires ParseArray(rest, env) == Ok(args, left) && ReadsOf(events) == [args] && Crashed !in events
    requires Explained(left, env, more)
    ensures Explained(rest, env, events + more)
  {
    ReadsAdd(events, more);
    assert |ReadsOf(events + more)| - 1 == |ReadsOf(more)|;
  }

  lemma ExplainedLast(rest: string, env: Env, events: seq<Event>)
    requires ReadsOf(events) == [] && (Crashed in events ==> ParseArray(rest, env).Panic?)
    ensures Explained(rest, env, events)
  {
  }

  // What one turn of a subscription reads
  lemma SelectReads(channel: string, rest: string, env: Env, pick: Pick)
    ensures var one := SelectOne(channel, rest, env, pick);
      (Crashed in one.events <==> pick.CommandReady? && ParseArray(rest, env).Panic?) &&
      if pick.CommandReady? && ParseArray(rest, env).Ok? then
        ReadsOf(one.events) == [ParseArray(rest, env).value] && one.left == ParseArray(rest, env).rest
      else ReadsOf(one.events) == [] && (one.open ==> one.left == rest)
  {
    if pick.CommandReady? && ParseArray(rest, env).Ok? {
      ListenedReads(channel, ParseArray(rest, env).value);
    } else {
      NothingRead(SelectOne(channel, rest, env, pick).events);
    }
  }

  lemma ListenedReads(channel: string, args: seq<string>)
    ensures var events := [Listened(args), Answered(RespondListening(channel, args).0)];
      ReadsOf(events) == [args] && ReadsOf(events + LEAVE) == [args]
  {
    var events := [Listened(args), Answered(RespondListening(channel, args).0)];
    NothingRead(events[1..]);
    NothingRead(LEAVE);
    ReadsAdd(events, LEAVE);
  }

  lemma {:induction false} ListeningExplained(channel: string, rest: string, env: Env, picks: seq<Pick>)
    ensures Explained(rest, env, Listening(channel, rest, env, picks))
    decreases |picks|
  {
    if picks == [] {
      ExplainedLast(rest, env, []);
    } else {
      var one := SelectOne(channel, rest, env, picks[0]);
      var more := if one.open then Listening(channel, one.left, env, picks[1..]) else [];
      SelectReads(channel, rest, env, picks[0]);
      if one.open {
        ListeningExplained(channel, one.left, env, picks[1..]);
      } else {
        ExplainedLast(one.left, env, []);
      }
      ListenedExplained(channel, rest, env, picks[0], more);
    }
  }

  lemma ListenedExplained(channel: string, rest: string, env: Env, pick: Pick, more: seq<Event>)
    requires var one := SelectOne(channel, rest, env, pick); Explained(one.left, env, more) && (!one.open ==> more == [])
    ensures Explained(rest, env, SelectOne(channel, rest, env, pick).events + more)
  {
    var one := SelectOne(channel, rest, env, pick);
    SelectReads(channel, rest, env, pick);
    if pick.CommandReady? && ParseArray(rest, env).Ok? {
      ExplainedRead(rest, env, ParseArray(rest, env).value, one.left, one.events, more);
    } else if one.open {
      ExplainedUnread(rest, env, one.events, more);
    } else {
      assert one.events + more == one.events;
      ExplainedLast(rest, env, one.events);
    }
  }

  lemma AnsweredReads(authed: bool, args: seq<string>, r: Response, sent: bool)
    requires Lawful(authed, r)
    ensures var events := Exchange(args, r) + Parting(sent, r); ReadsOf(events) == [args] && Crashed !in events
  {
    var events := Exchange(args, r) + Parting(sent, r);
    NothingRead(events[1..]);
  }

  // A turn ends the process if and only if it reads a command that is too large.
  lemma TurnCrashesIff(server: Server, rest: string, env: Env, a: Answer, authed: bool)
    ensures var t := TurnOnce(server, rest, env, a, authed);
      (Crashed in t.events <==> a.enabled && ParseArray(rest, env).Panic?) &&
      ReadsOf(t.events) == if a.enabled && ParseArray(rest, env).Ok? then [ParseArray(rest, env).value] else []
  {
    if a.enabled && ParseArray(rest, env).Ok? {
      var args := ParseArray(rest, env).value;
      Effects(server, authed, args, a);
      AnsweredReads(authed, args, Respond(server, authed, args, a), a.sent);
    } else {
      NothingRead(TurnOnce(server, rest, env, a, authed).events);
    }
  }

  lemma {:induction false} SessionExplained(server: Server, rest: string, env: Env, world: nat -> Answer, i: nat,
                                            authed: bool, picks: seq<Pick>)
    ensures Explained(rest, env, Session(server, rest, env, world, i, authed, picks))
    decreases |rest|
  {
    var t := TurnOnce(server, rest, env, world(i), authed);
    var more := Onward(server, t.left, env, world, i + 1, t.next, picks);
    match t.next {
      case Again(now) => SessionExplained(server, t.left, env, world, i + 1, now, picks);
      case Listen(channel) => ListeningExplained(channel, t.left, env, picks);
      case Stop => ExplainedLast(t.left, env, []);
    }
    TurnExplained(server, rest, env, world(i), authed, more);
  }

  lemma TurnExplained(server: Server, rest: string, env: Env, a: Answer, authed: bool, more: seq<Event>)
    requires var t := TurnOnce(server, rest, env, a, authed); Explained(t.left, env, more) && (t.next.Stop? ==> more == [])
    ensures Explained(rest, env, TurnOnce(server, rest, env, a, authed).events + more)
  {
    var t := TurnOnce(server, rest, env, a, authed);
    TurnCrashesIff(server, rest, env, a, authed);
    if a.enabled && ParseArray(rest, env).Ok? {
      ExplainedRead(rest, env, ParseArray(rest, env).value, t.left, t.events, more);
    } else {
      assert t.events + more == t.events;
      ExplainedLast(rest, env, t.events);
    }
  }

  // On every run the commands read are the first ones of the input, and the process ends only if reading the next
  // one asks for a slice that cannot be made.
  lemma ConnectionExplained(server: Server, input: string, env: Env, world: nat -> Answer, picks: seq<Pick>)
    ensures Explained(input, env, Connection(server, input, env, world, picks))
  {
    if server.homeMode {
      NothingRead(Connection(server, input, env, world, picks));
      ExplainedLast(input, env, Connection(server, input, env, world, picks));
    } else {
      SessionExplained(server, input, env, world, 0, false, picks);
    }
  }

  // A server that stays enabled and can always send
  ghost predicate Willing(world: nat -> Answer) {
    forall i: nat :: world(i).enabled && world(i).sent
  }

  // Such a server, while nobody subscribes, answers command after command until one cannot be read.
  ghost predicate ReadsOut(rest: string, env: Env, log: seq<Event>) {
    var r := ParseAll(rest, env, |ReadsOf(log)|);
    r.Ok? && !ParseArray(r.rest, env).Ok? && (Crashed in log <==> ParseArray(r.rest, env).Panic?)
  }

  lemma ReadsOutFirst(rest: string, env: Env, args: seq<string>, left: string, events: seq<Event>, more: seq<Event>)
    requires ParseArray(rest, env) == Ok(args, left) && ReadsOf(events) == [args] && Crashed !in events && ReadsOut(left, env, more)
    ensures ReadsOut(rest, env, events + more)
  {
    ReadsAdd(events, more);
    assert |ReadsOf(events + more)| - 1 == |ReadsOf(more)|;
  }

  ghost predicate NoneSubscribed(log: seq<Event>) {
    forall e :: e in log ==> !e.Subscribed?
  }

  lemma NoneIn(events: seq<Event>, more: seq<Event>)
    requires NoneSubscribed(events + more)
    ensures NoneSubscribed(events) && NoneSubscribed(more)
  {
    assert forall e :: e in events || e in more ==> e in events + more;
  }

  // A turn that answers a command and subscribes to nothing leads to the next one.
  lemma GoesOn(server: Server, rest: string, env: Env, a: Answer, authed: bool)
    requires a.enabled && a.sent && ParseArray(rest, env).Ok?
    requires NoneSubscribed(TurnOnce(server, rest, env, a, authed).events)
    ensures var t := TurnOnce(server, rest, env, a, authed); t.next.Again? && t.left == ParseArray(rest, env).rest
  {
    var args := ParseArray(rest, env).value;
    NoListener(server, authed, args, a);
    var t, r := TurnOnce(server, rest, env, a, authed), Respond(server, authed, args, a);
    assert forall e :: e in Exchange(args, r) ==> e in t.events;
  }

  lemma ReadsOutTurn(server: Server, rest: string, env: Env, a: Answer, authed: bool, more: seq<Event>)
    requires a.enabled && ParseArray(rest, env).Ok? && ReadsOut(TurnOnce(server, rest, env, a, authed).left, env, more)
    ensures ReadsOut(rest, env, TurnOnce(server, rest, env, a, authed).events + more)
  {
    var t := TurnOnce(server, rest, env, a, authed);
    TurnCrashesIff(server, rest, env, a, authed);
    ReadsOutFirst(rest, env, ParseArray(rest, env).value, t.left, t.events, more);
  }

  lemma ReadsOutEnd(server: Server, rest: string, env: Env, a: Answer, authed: bool)
    requires a.enabled && !ParseArray(rest, env).Ok?
    ensures var t := TurnOnce(server, rest, env, a, authed); t.next.Stop? && ReadsOut(rest, env, t.events + [])
  {
    TurnCrashesIff(server, rest, env, a, authed);
    ReadsOutLast(rest, env, TurnOnce(server, rest, env, a, authed).events, []);
  }

  lemma SessionIs(server: Server, rest: string, env: Env, world: nat -> Answer, i: nat, authed: bool, picks: seq<Pick>)
    ensures var t := TurnOnce(server, rest, env, world(i), authed);
      Session(server, rest, env, world, i, authed, picks) == t.events + Onward(server, t.left, env, world, i + 1, t.next, picks)
  {
  }

  lemma {:induction false} SessionReadsOut(server: Server, rest: string, env: Env, world: nat -> Answer, i: nat,
                                           authed: bool, picks: seq<Pick>, log: seq<Event>)
    requires Willing(world) && log == Session(server, rest, env, world, i, authed, picks) && NoneSubscribed(log)
    ensures ReadsOut(rest, env, log)
    decreases |rest|
  {
    var t := TurnOnce(server, rest, env, world(i), authed);
    var more := Onward(server, t.left, env, world, i + 1, t.next, picks);
    SessionIs(server, rest, env, world, i, authed, picks);
    NoneIn(t.events, more);
    if ParseArray(rest, env).Ok? {
      GoesOn(server, rest, env, world(i), authed);
      SessionReadsOut(server, t.left, env, world, i + 1, t.next.authed, picks, more);
      ReadsOutTurn(server, rest, env, world(i), authed, more);
    } else {
      ReadsOutEnd(server, rest, env, world(i), authed);
    }
  }

  lemma ReadsOutLast(rest: string, env: Env, events: seq<Event>, more: seq<Event>)
    requires ReadsOf(events) == [] && more == [] && !ParseArray(rest, env).Ok?
    requires Crashed in events <==> ParseArray(rest, env).Panic?
    ensures ReadsOut(rest, env, events + more)
  {
    assert events + more == events;
    assert ParseAll(rest, env, 0) == Ok([], rest);
  }

  lemma NoListener(server: Server, authed: bool, args: seq<string>, a: Answer)
    ensures var r := Respond(server, authed, args, a);
      r.channel.Some? ==> exists e :: e in Exchange(args, r) && e.Subscribed?
  {
    Effects(server, authed, args, a);
    var r := Respond(server, authed, args, a);
    if r.channel.Some? {
      assert Exchange(args, r)[1] == r.effects[0];
    }
  }

  // There the process ends if and only if, after the commands read, the next one is too large.
  lemma CrashesIff(server: Server, input: string, env: Env, world: nat -> Answer, picks: seq<Pick>)
    requires !server.homeMode && Willing(world)
    requires NoneSubscribed(Connection(server, input, env, world, picks))
    ensures ReadsOut(input, env, Connection(server, input, env, world, picks))
  {
    SessionReadsOut(server, input, env, world, 0, false, picks, Connection(server, input, env, world, picks));
  }

  lemma CrashesAtOnce(server: Server, input: string, env: Env, world: nat -> Answer, picks: seq<Pick>)
    requires !server.homeMode && world(0).enabled && ParseArray(input, env).Panic?
    ensures Connection(server, input, env, world, picks) == [Crashed]
  {
  }

  // The largest count, or the largest length, ends it whoever sends it and whatever would be answered.
  lemma LargestNumberCrashes(server: Server, tail: string, env: Env, world: nat -> Answer, picks: seq<Pick>)
    requires !server.homeMode && world(0).enabled && Realistic(env) && 1 <= env.maxStrings < MAX_INT
    ensures Connection(server, ArrayHeader(MAX_INT) + tail, env, world, picks) == [Crashed]
    ensures Connection(server, ArrayHeader(1) + (BulkHeader(MAX_INT) + tail), env, world, picks) == [Crashed]
  {
    LargestNumberPanics(tail, env);
    CrashesAtOnce(server, ArrayHeader(MAX_INT) + tail, env, world, picks);
    CrashesAtOnce(server, ArrayHeader(1) + (BulkHeader(MAX_INT) + tail), env, world, picks);
  }
}
