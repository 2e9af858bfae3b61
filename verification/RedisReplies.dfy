// What a client makes of the bytes a connection writes: one reply for each thing written, unless a reply quotes a
// line end.
module RedisReplies {
  import opened Text
  import opened Resp
  import opened RespRoundTrip
  import opened RespReplies
  import opened RedisSession
  import opened RedisSessionSafety

  // ---------- what a reply quotes ----------

  // The text from outside that the answer to a command repeats in an error: the message of the management, the
  // channel, or the name of the command.
  function Quoted(server: Server, authed: bool, args: seq<string>, a: Answer): string {
    if args == [] then ""
    else
      var cmd := ToUpper(TrimSpace(args[0]));
      if cmd == "AUTH" then QuotedAuth(server, args, a)
      else if !authed then if server.managed && Banned(a.verdict("")) then a.verdict("").message else ""
      else if cmd == "SUBSCRIBE" then if |args| == 2 && !IsChannel(TrimSpace(args[1])) then TrimSpace(args[1]) else ""
      else if cmd == "LPOP" || cmd == "RPOP" then QuotedPop(args)
      else TrimSpace(args[0])
  }

  function QuotedAuth(server: Server, args: seq<string>, a: Answer): string {
    if !server.managed then ""
    else
      match AuthPassword(args)
      case None => if Banned(a.verdict("")) then a.verdict("").message else ""
      case Some(key) => if a.verdict(key).allowed then "" else a.verdict(key).message
  }

  function QuotedPop(args: seq<string>): string {
    if PopCount(args).Some? && PopCount(args).value > 0 && !IsUsage(args[1]) then TrimSpace(args[1]) else ""
  }

  // The name of a command that is unknown during a subscription
  function QuotedListening(args: seq<string>): string {
    if args == [] || ToUpper(TrimSpace(args[0])) in {"PING", "UNSUBSCRIBE", "QUIT"} then "" else TrimSpace(args[0])
  }

  // The bytes are one reply for the client if the quoted text holds no line end, and otherwise they are not.
  ghost predicate Fair(bytes: string, quoted: string) {
    if '\n' in quoted then NotOneReply(bytes) else OneReply(bytes)
  }

  lemma ErrorFair(message: string, quoted: string)
    requires '\n' in message <==> '\n' in quoted
    ensures Fair(ErrorReply(message), quoted)
  {
    ErrorIsOneIff(message);
    if '\n' !in message {
      ReadsAsIsOne(ErrorReply(message), Failure(message));
    }
  }

  lemma FixedFair(message: string)
    requires '\n' !in message
    ensures Fair(ErrorReply(message), "")
  {
    ErrorFair(message, "");
  }

  lemma CaseKeepsLineEnds(s: string)
    ensures '\n' in ToLower(ToUpper(s)) <==> '\n' in s
  {
    var t := ToLower(ToUpper(s));
    forall i | 0 <= i < |s| ensures t[i] == '\n' <==> s[i] == '\n' {
    }
    if '\n' in s {
      var i :| 0 <= i < |s| && s[i] == '\n';
      assert t[i] == '\n';
    }
    if '\n' in t {
      var i :| 0 <= i < |t| && t[i] == '\n';
      assert s[i] == '\n';
    }
  }

  lemma QuoteKeepsLineEnds(before: string, quoted: string, after: string)
    requires '\n' !in before && '\n' !in after
    ensures '\n' in before + quoted + after <==> '\n' in quoted
  {
  }

  lemma UnknownFair(name: string)
    ensures Fair(ErrorReply("ERR unknown command '" + ToLower(ToUpper(name)) + "'"), name)
  {
    CaseKeepsLineEnds(name);
    QuoteKeepsLineEnds("ERR unknown command '", ToLower(ToUpper(name)), "'");
    ErrorFair("ERR unknown command '" + ToLower(ToUpper(name)) + "'", name);
  }

  lemma ChannelFair(channel: string)
    ensures Fair(ErrorReply("ERR unsupported channel '" + channel + "'"), channel)
  {
    QuoteKeepsLineEnds("ERR unsupported channel '", channel, "'");
    ErrorFair("ERR unsupported channel '" + channel + "'", channel);
  }

  lemma MessageFair(message: string)
    ensures Fair(ErrorReply("ERR " + message), message)
  {
    QuoteKeepsLineEnds("ERR ", message, "");
    assert "ERR " + message + "" == "ERR " + message;
    ErrorFair("ERR " + message, message);
  }

  lemma WrongFair(command: string)
    requires '\n' !in command
    ensures Fair(ErrorReply(WrongArguments(command)), "")
  {
    QuoteKeepsLineEnds("ERR wrong number of arguments for '", command, "' command");
    FixedFair(WrongArguments(command));
  }

  lemma OkFair()
    ensures Fair(SimpleString("OK"), "")
  {
    SimpleRead("OK");
    ReadsAsIsOne(SimpleString("OK"), Simple("OK"));
  }

  lemma AuthFair(server: Server, authed: bool, args: seq<string>, a: Answer)
    ensures Fair(RespondAuth(server, authed, args, a).reply, QuotedAuth(server, args, a))
  {
    MessageFair(a.verdict("").message);
    if AuthPassword(args).Some? {
      MessageFair(a.verdict(AuthPassword(args).value).message);
    }
    OkFair();
    WrongFair("auth");
    FixedFair("ERR remote management disabled");
  }

  lemma SubscribeFair(args: seq<string>)
    ensures Fair(RespondSubscribe(args).reply, if |args| == 2 && !IsChannel(TrimSpace(args[1])) then TrimSpace(args[1]) else "")
  {
    WrongFair("subscribe");
    if |args| == 2 {
      var channel := TrimSpace(args[1]);
      ChannelFair(channel);
      PubSubRead(channel, 1, None);
      ReadsAsIsOne(Resp.Subscribed(channel, 1), List([Blob(Some("subscribe")), Blob(Some(channel)), Number(1)]));
    }
  }

  lemma PopUncountedFair(cmd: string, args: seq<string>, a: Answer)
    requires PopCount(args).None? && '\n' !in ToLower(cmd)
    ensures Fair(RespondPop(cmd, args, a).reply, "")
  {
    WrongFair(ToLower(cmd));
  }

  lemma PopRefusedFair(cmd: string, args: seq<string>, a: Answer)
    requires PopCount(args).Some? && PopCount(args).value <= 0
    ensures Fair(RespondPop(cmd, args, a).reply, "")
  {
    FixedFair("ERR value is not an integer or out of range");
  }

  lemma LowerPop(cmd: string)
    requires cmd in {"LPOP", "RPOP"}
    ensures '\n' !in ToLower(cmd)
  {
    assert forall i | 0 <= i < |cmd| :: ToLower(cmd)[i] == LowerChar(cmd[i]);
  }

  lemma PopServedFair(cmd: string, args: seq<string>, a: Answer)
    requires PopCount(args).Some? && PopCount(args).value > 0
    ensures Fair(RespondPop(cmd, args, a).reply, if IsUsage(args[1]) then "" else TrimSpace(args[1]))
  {
    if IsUsage(args[1]) {
      ItemsFair(a.items);
    } else {
      ChannelFair(TrimSpace(args[1]));
    }
  }

  lemma PopFair(cmd: string, args: seq<string>, a: Answer)
    requires cmd in {"LPOP", "RPOP"}
    ensures Fair(RespondPop(cmd, args, a).reply, QuotedPop(args))
  {
    if PopCount(args).Some? && PopCount(args).value > 0 {
      PopServedFair(cmd, args, a);
    } else if PopCount(args).Some? {
      PopRefusedFair(cmd, args, a);
    } else {
      LowerPop(cmd);
      PopUncountedFair(cmd, args, a);
    }
  }

  lemma ItemsFair(items: seq<Option<string>>)
    ensures Fair(ArrayOfBulks(items), "") && Fair(Bulk(None), "") && (items != [] ==> Fair(Bulk(items[0]), ""))
  {
    ItemsRead(items);
    ReadsAsIsOne(ArrayOfBulks(items), List(Blobs(items)));
    BlobRead(None);
    ReadsAsIsOne(Bulk(None), Blob(None));
    if items != [] {
      BlobRead(items[0]);
      ReadsAsIsOne(Bulk(items[0]), Blob(items[0]));
    }
  }

  // For each command, a client reads exactly one reply, and leaves what follows, if and only if the text quoted holds
  // no line end.
  lemma RespondFair(server: Server, authed: bool, args: seq<string>, a: Answer)
    ensures Fair(Respond(server, authed, args, a).reply, Quoted(server, authed, args, a))
  {
    if args == [] {
      FixedFair("ERR empty command");
      return;
    }
    var cmd := ToUpper(TrimSpace(args[0]));
    if cmd == "AUTH" {
      AuthFair(server, authed, args, a);
    } else if !authed {
      MessageFair(a.verdict("").message);
      FixedFair("NOAUTH Authentication required.");
    } else if cmd == "SUBSCRIBE" {
      SubscribeFair(args);
    } else if cmd == "LPOP" || cmd == "RPOP" {
      PopFair(cmd, args, a);
    } else {
      UnknownFair(TrimSpace(args[0]));
    }
  }

  lemma ListeningFair(channel: string, args: seq<string>)
    ensures Fair(RespondListening(channel, args).0, QuotedListening(args))
  {
    if args == [] {
      FixedFair("ERR empty command");
      return;
    }
    OkFair();
    UnknownFair(TrimSpace(args[0]));
    PubSubRead(channel, 0, None);
    ReadsAsIsOne(Resp.Unsubscribed(channel, 0), List([Blob(Some("unsubscribe")), Blob(Some(channel)), Number(0)]));
    var payload := if |args| > 1 then Some(args[1]) else None;
    PongRead(payload);
    ReadsAsIsOne(Pong(payload), List([Blob(Some("pong")), Blob(payload)]));
  }

  lemma ForwardedFair(channel: string, payload: Option<string>)
    ensures Fair(Message(channel, payload), "")
  {
    PubSubRead(channel, 0, payload);
    ReadsAsIsOne(Message(channel, payload), List([Blob(Some("message")), Blob(Some(channel)), Blob(payload)]));
  }

  lemma ErrorTextFair(e: Error)
    ensures Fair(ErrorReply("ERR " + ErrorText(e)), "")
  {
    FixedFair("ERR " + ErrorText(e));
  }

  // An error whose text holds a line end: the client reads the part before it, and goes on with the part behind it.
  lemma BrokenError(before: string, after: string, tail: string)
    requires '\n' !in before
    ensures ParseReply(ErrorReply(before + CRLF + after) + tail) == Ok(Failure(before), after + CRLF + tail)
  {
    var s := ErrorReply(before + CRLF + after) + tail;
    ErrorLine(before + CRLF + after, tail);
    assert s[1..] == before + CRLF + (after + CRLF + tail);
    LineWhole(before, after + CRLF + tail);
  }

  // The command x\r\n+ok is answered by one error, which a client reads as an error and a status.
  lemma TwoRepliesForOne(server: Server, a: Answer, tail: string)
    ensures var reply := Respond(server, true, ["x\r\n+ok"], a).reply;
      ParseReply(reply + tail) == Ok(Failure("ERR unknown command 'x"), SimpleString("ok'") + tail) &&
      ParseReply(SimpleString("ok'") + tail) == Ok(Simple("ok'"), tail)
  {
    UnknownName(server, a);
    BrokenError("ERR unknown command 'x", "+ok'", tail);
    StatusLine(tail);
    SimpleRead("ok'");
  }

  lemma UnknownName(server: Server, a: Answer)
    ensures Respond(server, true, ["x\r\n+ok"], a).reply == ErrorReply("ERR unknown command 'x" + CRLF + "+ok'")
  {
    NameInCase();
    assert "ERR unknown command '" + "x\r\n+ok" + "'" == "ERR unknown command 'x" + CRLF + "+ok'";
  }

  lemma StatusLine(tail: string)
    ensures "+ok'" + CRLF + tail == SimpleString("ok'") + tail
  {
  }

  lemma NameInCase()
    ensures TrimSpace("x\r\n+ok") == "x\r\n+ok"
    ensures ToUpper("x\r\n+ok") == "X\r\n+OK" && ToLower("X\r\n+OK") == "x\r\n+ok"
  {
    var s := "x\r\n+ok";
    assert TrimLeft(s) == s && TrimRight(s) == s;
  }

  // ---------- all a connection writes ----------

  predicate Writes(e: Event) {
    e.Reply? || e.Refusal? || e.Answered? || e.Forwarded?
  }

  // The things written, in order
  function Written(log: seq<Event>): seq<string> {
    if log == [] then [] else (if Writes(log[0]) then [Bytes(log[0])] else []) + Written(log[1..])
  }

  lemma {:induction false} WrittenAdd(a: seq<Event>, b: seq<Event>)
    ensures Written(a + b) == Written(a) + Written(b)
    decreases |a|
  {
    Concatenated(a, b);
    if a != [] {
      WrittenAdd(a[1..], b);
      Grouped(if Writes(a[0]) then [Bytes(a[0])] else [], Written(a[1..]), Written(b));
    }
  }

  lemma WrittenOne(e: Event)
    ensures Written([e]) == if Writes(e) then [Bytes(e)] else []
  {
    assert [e][1..] == [];
  }

  // The output is what is written, piece after piece.
  lemma {:induction false} OutputIsWritten(log: seq<Event>)
    ensures Output(log) == Concat(Written(log))
    decreases |log|
  {
    if log != [] {
      var init, e := log[..|log| - 1], log[|log| - 1];
      OutputIsWritten(init);
      assert log == init + [e];
      WrittenAdd(init, [e]);
      WrittenOne(e);
      if Writes(e) {
        ConcatMore(Written(init), Bytes(e));
      } else {
        assert Written(init) + [] == Written(init);
        assert Output(init) + "" == Output(init);
      }
    }
  }

  // Each piece written is one reply or is none, and all are one reply each if and only if clean holds.
  ghost predicate Told(pieces: seq<string>, clean: bool) {
    (forall i :: 0 <= i < |pieces| ==> OneReply(pieces[i]) || NotOneReply(pieces[i])) &&
    (clean <==> forall i :: 0 <= i < |pieces| ==> OneReply(pieces[i]))
  }

  lemma ToldOne(bytes: string, quoted: string)
    requires Fair(bytes, quoted)
    ensures Told([bytes], '\n' !in quoted)
  {
    assert NotOneReply(bytes) ==> !Separate(bytes, "");
    assert OneReply(bytes) ==> Separate(bytes, "");
    assert [bytes][0] == bytes;
  }

  lemma ToldMore(a: seq<string>, x: bool, b: seq<string>, y: bool)
    requires Told(a, x) && Told(b, y)
    ensures Told(a + b, x && y)
  {
    if x && y {
      assert forall i :: 0 <= i < |a + b| ==> OneReply((a + b)[i]);
    } else if !x {
      var i :| 0 <= i < |a| && !OneReply(a[i]);
      assert (a + b)[i] == a[i];
    } else {
      var i :| 0 <= i < |b| && !OneReply(b[i]);
      assert (a + b)[|a| + i] == b[i];
    }
  }

  ghost predicate ToldBy(log: seq<Event>, clean: bool) {
    Told(Written(log), clean)
  }

  lemma ToldByMore(a: seq<Event>, x: bool, b: seq<Event>, y: bool)
    requires ToldBy(a, x) && ToldBy(b, y)
    ensures ToldBy(a + b, x && y)
  {
    WrittenAdd(a, b);
    ToldMore(Written(a), x, Written(b), y);
  }

  lemma {:induction false} ToldBySilent(log: seq<Event>)
    requires forall e :: e in log ==> !Writes(e)
    ensures Written(log) == [] && ToldBy(log, true)
    decreases |log|
  {
    if log != [] {
      ToldBySilent(log[1..]);
    }
  }

  lemma ToldByOne(e: Event, quoted: string)
    requires Writes(e) && Fair(Bytes(e), quoted)
    ensures ToldBy([e], '\n' !in quoted)
  {
    WrittenOne(e);
    ToldOne(Bytes(e), quoted);
  }

  // ---------- turns ----------

  predicate CleanTurn(server: Server, rest: string, env: Env, a: Answer, authed: bool) {
    a.enabled && ParseArray(rest, env).Ok? ==> '\n' !in Quoted(server, authed, ParseArray(rest, env).value, a)
  }

  predicate CleanPick(rest: string, env: Env, pick: Pick) {
    pick.CommandReady? && ParseArray(rest, env).Ok? ==> '\n' !in QuotedListening(ParseArray(rest, env).value)
  }

  predicate CleanListening(channel: string, rest: string, env: Env, picks: seq<Pick>)
    decreases |picks|
  {
    picks != [] ==>
      var one := SelectOne(channel, rest, env, picks[0]);
      CleanPick(rest, env, picks[0]) && (one.open ==> CleanListening(channel, one.left, env, picks[1..]))
  }

  // In no turn of the connection does a reply quote a line end.
  predicate CleanSession(server: Server, rest: string, env: Env, world: nat -> Answer, i: nat, authed: bool, picks: seq<Pick>)
    decreases |rest|
  {
    var t := TurnOnce(server, rest, env, world(i), authed);
    CleanTurn(server, rest, env, world(i), authed) &&
    match t.next
    case Again(now) => CleanSession(server, t.left, env, world, i + 1, now, picks)
    case Listen(channel) => CleanListening(channel, t.left, env, picks)
    case Stop => true
  }

  lemma ToldExchange(authed: bool, args: seq<string>, r: Response, quoted: string)
    requires Lawful(authed, r) && Fair(r.reply, quoted)
    ensures ToldBy(Exchange(args, r), '\n' !in quoted) && Written(Exchange(args, r)) == [r.reply]
  {
    var silent := [Command(args)] + r.effects;
    ToldBySilent(silent);
    ToldByOne(Reply(r.reply), quoted);
    ToldByMore(silent, true, [Reply(r.reply)], '\n' !in quoted);
    WrittenAdd(silent, [Reply(r.reply)]);
    WrittenOne(Reply(r.reply));
  }

  lemma ToldAnswered(authed: bool, args: seq<string>, r: Response, sent: bool, quoted: string)
    requires Lawful(authed, r) && Fair(r.reply, quoted)
    ensures ToldBy(Exchange(args, r) + Parting(sent, r), '\n' !in quoted)
    ensures Written(Exchange(args, r) + Parting(sent, r)) == [r.reply]
  {
    ToldExchange(authed, args, r, quoted);
    ToldBySilent(Parting(sent, r));
    ToldByMore(Exchange(args, r), '\n' !in quoted, Parting(sent, r), true);
    WrittenAdd(Exchange(args, r), Parting(sent, r));
  }

  lemma ToldRefusal(e: Event, more: seq<Event>)
    requires (e.Refusal? || e.Answered?) && Fair(Bytes(e), "") && (more == [Closed] || more == LEAVE)
    ensures ToldBy([e] + more, true)
  {
    ToldByOne(e, "");
    ToldBySilent(more);
    ToldByMore([e], true, more, true);
  }

  lemma ToldTurn(server: Server, rest: string, env: Env, a: Answer, authed: bool)
    ensures ToldBy(TurnOnce(server, rest, env, a, authed).events, CleanTurn(server, rest, env, a, authed))
  {
    if !a.enabled {
      ToldBySilent([Closed]);
      return;
    }
    match ParseArray(rest, env)
    case Fail(error, _) =>
      ErrorTextFair(error);
      ToldBySilent([Closed]);
      ToldRefusal(Refusal(ErrorReply("ERR " + ErrorText(error))), [Closed]);
      assert [Refusal(ErrorReply("ERR " + ErrorText(error)))] + [Closed] == [Refusal(ErrorReply("ERR " + ErrorText(error))), Closed];
    case Panic(_) => ToldBySilent([Crashed]);
    case Ok(args, _) =>
      Effects(server, authed, args, a);
      RespondFair(server, authed, args, a);
      ToldAnswered(authed, args, Respond(server, authed, args, a), a.sent, Quoted(server, authed, args, a));
  }

  lemma ToldMessage(channel: string, payload: Option<string>)
    ensures ToldBy([Forwarded(channel, payload)], true) && ToldBy([Forwarded(channel, payload)] + LEAVE, true)
  {
    ForwardedFair(channel, payload);
    ToldByOne(Forwarded(channel, payload), "");
    ToldBySilent(LEAVE);
    ToldByMore([Forwarded(channel, payload)], true, LEAVE, true);
  }

  lemma ToldListened(channel: string, args: seq<string>)
    ensures var events := [Listened(args), Answered(RespondListening(channel, args).0)];
      ToldBy(events, '\n' !in QuotedListening(args)) && ToldBy(events + LEAVE, '\n' !in QuotedListening(args))
  {
    var reply := Answered(RespondListening(channel, args).0);
    ListeningFair(channel, args);
    ToldBySilent([Listened(args)]);
    ToldByOne(reply, QuotedListening(args));
    ToldByMore([Listened(args)], true, [reply], '\n' !in QuotedListening(args));
    assert [Listened(args)] + [reply] == [Listened(args), reply];
    ToldBySilent(LEAVE);
    ToldByMore([Listened(args), reply], '\n' !in QuotedListening(args), LEAVE, true);
  }

  lemma ToldSelect(channel: string, rest: string, env: Env, pick: Pick)
    ensures ToldBy(SelectOne(channel, rest, env, pick).events, CleanPick(rest, env, pick))
  {
    ToldBySilent(LEAVE);
    match pick
    case MessagesClosed =>
    case Arrived(payload, _) => ToldMessage(channel, payload);
    case CommandReady(_) =>
      match ParseArray(rest, env) {
        case Fail(error, _) =>
          ErrorTextFair(error);
          ToldRefusal(Answered(ErrorReply("ERR " + ErrorText(error))), LEAVE);
        case Panic(_) => ToldBySilent([Crashed]);
        case Ok(args, _) => ToldListened(channel, args);
      }
  }

  lemma {:induction false} ToldListening(channel: string, rest: string, env: Env, picks: seq<Pick>)
    ensures ToldBy(Listening(channel, rest, env, picks), CleanListening(channel, rest, env, picks))
    decreases |picks|
  {
    ToldBySilent([]);
    if picks != [] {
      var one := SelectOne(channel, rest, env, picks[0]);
      ToldSelect(channel, rest, env, picks[0]);
      if one.open {
        ToldListening(channel, one.left, env, picks[1..]);
        ToldByMore(one.events, CleanPick(rest, env, picks[0]), Listening(channel, one.left, env, picks[1..]),
                   CleanListening(channel, one.left, env, picks[1..]));
      } else {
        ToldByMore(one.events, CleanPick(rest, env, picks[0]), [], true);
      }
    }
  }

  lemma {:induction false} ToldSession(server: Server, rest: string, env: Env, world: nat -> Answer, i: nat, authed: bool,
                                       picks: seq<Pick>)
    ensures ToldBy(Session(server, rest, env, world, i, authed, picks), CleanSession(server, rest, env, world, i, authed, picks))
    decreases |rest|
  {
    var t, clean := TurnOnce(server, rest, env, world(i), authed), CleanTurn(server, rest, env, world(i), authed);
    ToldTurn(server, rest, env, world(i), authed);
    match t.next
    case Again(now) =>
      ToldSession(server, t.left, env, world, i + 1, now, picks);
      ToldByMore(t.events, clean, Session(server, t.left, env, world, i + 1, now, picks),
                 CleanSession(server, t.left, env, world, i + 1, now, picks));
    case Listen(channel) =>
      ToldListening(channel, t.left, env, picks);
      ToldByMore(t.events, clean, Listening(channel, t.left, env, picks), CleanListening(channel, t.left, env, picks));
    case Stop =>
      ToldBySilent([]);
      ToldByMore(t.events, clean, [], true);
  }

  lemma ToldConnection(server: Server, input: string, env: Env, world: nat -> Answer, picks: seq<Pick>)
    ensures ToldBy(Connection(server, input, env, world, picks),
                   server.homeMode || CleanSession(server, input, env, world, 0, false, picks))
  {
    if server.homeMode {
      var refusal := Refusal(ErrorReply("ERR redis usage output disabled in home mode"));
      FixedFair("ERR redis usage output disabled in home mode");
      ToldRefusal(refusal, [Closed]);
      assert [refusal] + [Closed] == [refusal, Closed];
    } else {
      ToldSession(server, input, env, world, 0, false, picks);
    }
  }

  lemma ToldInStep(log: seq<Event>, clean: bool)
    requires ToldBy(log, clean)
    ensures InStep(Written(log)) <==> clean
  {
    InStepIff(Written(log));
  }

  // On every run a client that reads the output reply by reply takes each thing written for exactly one reply, in
  // order, if and only if no reply quotes a line end.
  lemma OutputInStepIff(server: Server, input: string, env: Env, world: nat -> Answer, picks: seq<Pick>)
    ensures var log := Connection(server, input, env, world, picks);
      Output(log) == Concat(Written(log)) &&
      (InStep(Written(log)) <==> server.homeMode || CleanSession(server, input, env, world, 0, false, picks))
  {
    var log := Connection(server, input, env, world, picks);
    OutputIsWritten(log);
    ToldConnection(server, input, env, world, picks);
    ToldInStep(log, server.homeMode || CleanSession(server, input, env, world, 0, false, picks));
  }

  // ---------- the replies to the commands come first ----------

  lemma {:induction false} RepliesAdd(a: seq<Event>, b: seq<Event>)
    ensures RepliesOf(a + b) == RepliesOf(a) + RepliesOf(b)
    decreases |a|
  {
    Concatenated(a, b);
    if a != [] {
      RepliesAdd(a[1..], b);
      Grouped(if a[0].Reply? then [a[0].bytes] else [], RepliesOf(a[1..]), RepliesOf(b));
    }
  }

  lemma {:induction false} NoReplies(log: seq<Event>)
    requires forall e :: e in log ==> !e.Reply?
    ensures RepliesOf(log) == []
    decreases |log|
  {
    if log != [] {
      NoReplies(log[1..]);
    }
  }

  lemma {:induction false} ListeningRepliesNot(channel: string, rest: string, env: Env, picks: seq<Pick>)
    ensures forall e :: e in Listening(channel, rest, env, picks) ==> !e.Reply?
    decreases |picks|
  {
    if picks != [] {
      var one := SelectOne(channel, rest, env, picks[0]);
      if one.open {
        ListeningRepliesNot(channel, one.left, env, picks[1..]);
      }
    }
  }

  lemma ExchangeReplies(authed: bool, args: seq<string>, r: Response, sent: bool)
    requires Lawful(authed, r)
    ensures RepliesOf(Exchange(args, r) + Parting(sent, r)) == [r.reply]
  {
    var silent := [Command(args)] + r.effects;
    NoReplies(silent);
    NoReplies(Parting(sent, r));
    RepliesAdd(silent, [Reply(r.reply)]);
    assert [Reply(r.reply)][1..] == [];
    RepliesAdd(Exchange(args, r), Parting(sent, r));
  }

  // A turn that answers a command writes its reply and nothing else; any other writes no reply and is the last one.
  lemma TurnReplies(server: Server, rest: string, env: Env, a: Answer, authed: bool)
    ensures var t := TurnOnce(server, rest, env, a, authed);
      if a.enabled && ParseArray(rest, env).Ok? then RepliesOf(t.events) == Written(t.events)
      else RepliesOf(t.events) == [] && t.next.Stop?
  {
    if a.enabled && ParseArray(rest, env).Ok? {
      var args := ParseArray(rest, env).value;
      var r := Respond(server, authed, args, a);
      Effects(server, authed, args, a);
      RespondFair(server, authed, args, a);
      ToldAnswered(authed, args, r, a.sent, Quoted(server, authed, args, a));
      ExchangeReplies(authed, args, r, a.sent);
    } else {
      NoReplies(TurnOnce(server, rest, env, a, authed).events);
    }
  }

  lemma {:induction false} SessionReplies(server: Server, rest: string, env: Env, world: nat -> Answer, i: nat, authed: bool,
                                          picks: seq<Pick>)
    ensures var log := Session(server, rest, env, world, i, authed, picks); RepliesOf(log) <= Written(log)
    decreases |rest|
  {
    var t := TurnOnce(server, rest, env, world(i), authed);
    var more := Onward(server, t.left, env, world, i + 1, t.next, picks);
    TurnReplies(server, rest, env, world(i), authed);
    RepliesAdd(t.events, more);
    WrittenAdd(t.events, more);
    match t.next
    case Again(now) => SessionReplies(server, t.left, env, world, i + 1, now, picks);
    case Listen(channel) =>
      ListeningRepliesNot(channel, t.left, env, picks);
      NoReplies(more);
    case Stop =>
  }

  // On every run the replies to the commands, one for each, are written before anything else.
  lemma RepliesComeFirst(server: Server, input: string, env: Env, world: nat -> Answer, picks: seq<Pick>)
    ensures var log := Connection(server, input, env, world, picks);
      |RepliesOf(log)| == |CommandsOf(log)| && RepliesOf(log) <= Written(log)
  {
    ConnectionBalances(server, input, env, world, picks);
    if server.homeMode {
      NoReplies(Connection(server, input, env, world, picks));
    } else {
      SessionReplies(server, input, env, world, 0, false, picks);
    }
  }

  // ---------- what a pop delivers ----------

  // A client reads the reply to a pop with a count as the items popped, in their order.
  lemma PopDelivers(server: Server, args: seq<string>, a: Answer)
    requires |args| == 3 && ToUpper(TrimSpace(args[0])) in {"LPOP", "RPOP"} && IsUsage(args[1]) && PopCount(args).value > 0
    ensures var r := Respond(server, true, args, a);
      r.effects == [Popped(PopCount(args).value)] && ReadsAs(r.reply, List(Blobs(a.items)))
  {
    ItemsRead(a.items);
  }

  // A pop without a count delivers the first item, or nil when there is none.
  lemma SinglePopDelivers(server: Server, args: seq<string>, a: Answer)
    requires |args| == 2 && ToUpper(TrimSpace(args[0])) in {"LPOP", "RPOP"} && IsUsage(args[1])
    ensures var r := Respond(server, true, args, a);
      r.effects == [Popped(1)] && ReadsAs(r.reply, Blob(if a.items == [] then None else a.items[0]))
  {
    BlobRead(if a.items == [] then None else a.items[0]);
  }
}
