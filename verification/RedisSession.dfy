// A Redis connection of the management server: commands are answered one by one until the connection is closed
// or a subscription takes it over. What the connection does is a log of events; the answers of the rest of the
// server, and the order in which messages and commands arrive, are given from outside.
module RedisSession {
  import opened Text
  import opened Resp

  // ---------- the outside ----------

  // The answer to a management key: the status is 403 Forbidden or another one
  datatype Verdict = Verdict(allowed: bool, forbidden: bool, message: string)

  // What the server answers during one turn of the loop: verdict is the answer to a key (the empty one when no key is
  // presented); sent tells that writing and flushing succeed.
  datatype Answer = Answer(enabled: bool, verdict: string -> Verdict, items: seq<Option<string>>, sent: bool)

  // What a turn of the subscription's select finds: a message, the closed message channel, or a command.
  datatype Pick = Arrived(payload: Option<string>, sent: bool) | MessagesClosed | CommandReady(sent: bool)

  // homeMode: the server runs for a home; managed: it has remote management
  datatype Server = Server(homeMode: bool, managed: bool)

  datatype Event =
    | Command(args: seq<string>)             // a command read before a subscription
    | AuthAccepted
    | Popped(count: int)
    | Subscribed(channel: string)
    | Reply(bytes: string)                   // the answer to a command
    | Refusal(bytes: string)                 // the answer to what is no command
    | Forwarded(channel: string, payload: Option<string>)
    | Listened(args: seq<string>)            // a command read during a subscription
    | Answered(bytes: string)
    | Unsubscribed
    | Closed
    | Crashed                                // the process ended, as reading asked for a slice that cannot be made

  const BANNED := "IP banned due to too many failed attempts"

  predicate Banned(v: Verdict) {
    v.forbidden && BANNED <= v.message
  }

  function ErrorText(e: Error): string {
    match e
    case EOF => "EOF"
    case UnexpectedEOF => "unexpected EOF"
    case Protocol => "protocol error"
    case _ => "read error"
  }

  // ---------- the commands ----------

  function AuthPassword(args: seq<string>): Option<string> {
    if |args| == 2 then Some(args[1]) else if |args| == 3 then Some(args[2]) else None
  }

  // parsePopCount: a count that is no number counts as zero
  function PopCount(args: seq<string>): Option<int> {
    if |args| == 2 then Some(1)
    else if |args| == 3 then
      match Atoi(TrimSpace(args[2]))
      case None => Some(0)
      case Some(n) => Some(n)
    else None
  }

  predicate IsUsage(channel: string) {
    ToLower(TrimSpace(channel)) == "usage"
  }

  predicate IsChannel(channel: string) {
    IsUsage(channel) || ToLower(TrimSpace(channel)) == "errors"
  }

  // How a command is answered: what it causes, the reply, whether the connection is authenticated afterwards,
  // and the channel if a subscription begins.
  datatype Response = Response(effects: seq<Event>, reply: string, authed: bool, channel: Option<string>)

  function Refuse(message: string, authed: bool): Response {
    Response([], ErrorReply(message), authed, None)
  }

  function WrongArguments(command: string): string {
    "ERR wrong number of arguments for '" + command + "' command"
  }

  function RespondAuth(server: Server, authed: bool, args: seq<string>, a: Answer): Response {
    match AuthPassword(args)
    case None =>
      if server.managed && Banned(a.verdict("")) then Refuse("ERR " + a.verdict("").message, authed)
      else Refuse(WrongArguments("auth"), authed)
    case Some(key) =>
      if !server.managed then Refuse("ERR remote management disabled", authed)
      else if !a.verdict(key).allowed then Refuse("ERR " + a.verdict(key).message, authed)
      else Response([AuthAccepted], SimpleString("OK"), true, None)
  }

  function RespondSubscribe(args: seq<string>): Response {
    if |args| != 2 then Refuse(WrongArguments("subscribe"), true)
    else
      var channel := TrimSpace(args[1]);
      if !IsChannel(channel) then Refuse("ERR unsupported channel '" + channel + "'", true)
      else Response([Subscribed(channel)], Resp.Subscribed(channel, 1), true, Some(channel))
  }

  function RespondPop(cmd: string, args: seq<string>, a: Answer): Response {
    match PopCount(args)
    case None => Refuse(WrongArguments(ToLower(cmd)), true)
    case Some(count) =>
      if count <= 0 then Refuse("ERR value is not an integer or out of range", true)
      else if !IsUsage(args[1]) then Refuse("ERR unsupported channel '" + TrimSpace(args[1]) + "'", true)
      else
        var reply := if |args| == 3 then ArrayOfBulks(a.items) else if a.items == [] then Bulk(None) else Bulk(a.items[0]);
        Response([Popped(count)], reply, true, None)
  }

  function Respond(server: Server, authed: bool, args: seq<string>, a: Answer): Response {
    if args == [] then Refuse("ERR empty command", authed)
    else
      var cmd := ToUpper(TrimSpace(args[0]));
      if cmd == "AUTH" then RespondAuth(server, authed, args, a)
      else if !authed then
        Refuse(if server.managed && Banned(a.verdict("")) then "ERR " + a.verdict("").message else "NOAUTH Authentication required.", authed)
      else if cmd == "SUBSCRIBE" then RespondSubscribe(args)
      else if cmd == "LPOP" || cmd == "RPOP" then RespondPop(cmd, args, a)
      else Refuse("ERR unknown command '" + ToLower(cmd) + "'", authed)
  }

  // During a subscription: the answer, and whether the subscription stays open
  function RespondListening(channel: string, args: seq<string>): (string, bool) {
    if args == [] then (ErrorReply("ERR empty command"), true)
    else
      var cmd := ToUpper(TrimSpace(args[0]));
      if cmd == "PING" then (Pong(if |args| > 1 then Some(args[1]) else None), true)
      else if cmd == "UNSUBSCRIBE" then (Resp.Unsubscribed(channel, 0), false)
      else if cmd == "QUIT" then (SimpleString("OK"), false)
      else (ErrorReply("ERR unknown command '" + ToLower(cmd) + "'"), true)
  }

  // ---------- the log of a connection ----------

  const LEAVE := [Unsubscribed, Closed]

  // One turn of a subscription: what it logs, what it leaves to read, and whether it goes on
  datatype Selected = Selected(events: seq<Event>, left: string, open: bool)

  function SelectOne(channel: string, rest: string, env: Env, pick: Pick): Selected {
    match pick
    case MessagesClosed => Selected(LEAVE, rest, false)
    case Arrived(payload, sent) =>
      Selected(if sent then [Forwarded(channel, payload)] else [Forwarded(channel, payload)] + LEAVE, rest, sent)
    case CommandReady(sent) =>
      match ParseArray(rest, env)
      case Fail(error, left) =>
        Selected(if error == EOF then LEAVE else [Answered(ErrorReply("ERR " + ErrorText(error)))] + LEAVE, left, false)
      case Panic(left) => Selected([Crashed], left, false)
      case Ok(args, left) =>
        var (reply, open) := RespondListening(channel, args);
        var events := [Listened(args), Answered(reply)];
        Selected(if sent && open then events else events + LEAVE, left, sent && open)
  }

  // The log of a subscription that takes up the given picks, one after the other; it ends without Closed when it
  // is left waiting for more.
  function Listening(channel: string, rest: string, env: Env, picks: seq<Pick>): seq<Event>
    decreases |picks|
  {
    if picks == [] then []
    else
      var one := SelectOne(channel, rest, env, picks[0]);
      one.events + if one.open then Listening(channel, one.left, env, picks[1..]) else []
  }

  lemma LineShrinks(s: string, env: Env)
    ensures ParseLine(s, env).Ok? ==> |ParseLine(s, env).rest| < |s|
  {
  }

  lemma BulkStringShrinks(s: string, env: Env)
    ensures ParseBulkString(s, env).Ok? ==> |ParseBulkString(s, env).rest| <= |s|
  {
    LineShrinks(s, env);
  }

  lemma StringShrinks(s: string, env: Env)
    ensures ParseString(s, env).Ok? ==> |ParseString(s, env).rest| <= |s|
  {
    if s != [] {
      LineShrinks(s[1..], env);
      BulkStringShrinks(s[1..], env);
    }
  }

  lemma {:induction false} StringsShrink(s: string, env: Env, n: nat)
    ensures ParseStrings(s, env, n).Ok? ==> |ParseStrings(s, env, n).rest| <= |s|
    decreases n
  {
    if n > 0 {
      StringsShrink(s, env, n - 1);
      StringShrinks(ParseStrings(s, env, n - 1).rest, env);
    }
  }

  lemma ArrayShrinks(s: string, env: Env)
    ensures ParseArray(s, env).Ok? ==> |ParseArray(s, env).rest| < |s|
  {
    forall rest: string, n: nat ensures ParseStrings(rest, env, n).Ok? ==> |ParseStrings(rest, env, n).rest| <= |rest| {
      StringsShrink(rest, env, n);
    }
  }

  // What a turn of the loop leads to: the next turn, a subscription, or the end
  datatype Next = Again(authed: bool) | Listen(channel: string) | Stop

  datatype Turned = Turned(events: seq<Event>, left: string, next: Next)

  function TurnOnce(server: Server, rest: string, env: Env, a: Answer, authed: bool): (r: Turned)
    ensures r.next.Again? ==> |r.left| < |rest|
  {
    if !a.enabled then Turned([Closed], rest, Stop)
    else
      ArrayShrinks(rest, env);
      match ParseArray(rest, env)
      case Fail(error, left) =>
        Turned(if error == EOF then [Closed] else [Refusal(ErrorReply("ERR " + ErrorText(error))), Closed], left, Stop)
      case Panic(left) => Turned([Crashed], left, Stop)
      case Ok(args, left) =>
        var r := Respond(server, authed, args, a);
        Turned(Exchange(args, r) + Parting(a.sent, r), left, NextAfter(a.sent, r))
  }

  // A command and its reply
  function Exchange(args: seq<string>, r: Response): seq<Event> {
    [Command(args)] + r.effects + [Reply(r.reply)]
  }

  // A reply that cannot be sent ends the connection, and a subscription just obtained with it.
  function Parting(sent: bool, r: Response): seq<Event> {
    if sent then [] else if r.channel.Some? then LEAVE else [Closed]
  }

  function NextAfter(sent: bool, r: Response): Next {
    if !sent then Stop else if r.channel.Some? then Listen(r.channel.value) else Again(r.authed)
  }

  // The log of a connection from turn i on, with what is left to read
  function Session(server: Server, rest: string, env: Env, world: nat -> Answer, i: nat, authed: bool,
                   picks: seq<Pick>): seq<Event>
    decreases |rest|
  {
    var t := TurnOnce(server, rest, env, world(i), authed);
    t.events +
    match t.next
    case Again(nowAuthed) => Session(server, t.left, env, world, i + 1, nowAuthed, picks)
    case Listen(channel) => Listening(channel, t.left, env, picks)
    case Stop => []
  }

  function Onward(server: Server, rest: string, env: Env, world: nat -> Answer, i: nat, next: Next,
                  picks: seq<Pick>): seq<Event>
  {
    match next
    case Again(authed) => Session(server, rest, env, world, i, authed, picks)
    case Listen(channel) => Listening(channel, rest, env, picks)
    case Stop => []
  }

  function Connection(server: Server, input: string, env: Env, world: nat -> Answer, picks: seq<Pick>): seq<Event> {
    if server.homeMode then [Refusal(ErrorReply("ERR redis usage output disabled in home mode")), Closed]
    else Session(server, input, env, world, 0, false, picks)
  }

  // ---------- what is written ----------

  function Bytes(e: Event): string {
    match e
    case Reply(bytes) => bytes
    case Refusal(bytes) => bytes
    case Answered(bytes) => bytes
    case Forwarded(channel, payload) => Message(channel, payload)
    case _ => ""
  }

  function Output(log: seq<Event>): string {
    if log == [] then "" else Output(log[..|log| - 1]) + Bytes(log[|log| - 1])
  }

  lemma OutputMore(log: seq<Event>, e: Event)
    ensures Output(log + [e]) == Output(log) + Bytes(e)
  {
    assert (log + [e])[..|log|] == log;
  }

  // The log kept along with the writer: what is logged as written has been written.
  class Recorder {
    const writer: Writer
    ghost const start: string
    ghost var log: seq<Event>

    constructor (writer: Writer)
      ensures this.writer == writer && log == [] && Valid()
    {
      this.writer, this.start, this.log := writer, writer.output, [];
    }

    ghost predicate Valid()
      reads this, writer
    {
      writer.output == start + Output(log)
    }

    // Logs an event that writes nothing.
    method Note(e: Event)
      requires Valid() && Bytes(e) == ""
      modifies this
      ensures Valid() && log == old(log) + [e]
    {
      OutputMore(log, e);
      assert Output(log) + "" == Output(log);
      log := log + [e];
    }

    // Logs an event whose bytes have just been written.
    ghost method Written(e: Event)
      requires writer.output == start + Output(log) + Bytes(e)
      modifies this
      ensures Valid() && log == old(log) + [e]
    {
      OutputMore(log, e);
      Grouped(start, Output(log), Bytes(e));
      log := log + [e];
    }

    method PutReply(bytes: string)
      requires Valid()
      modifies this, writer
      ensures Valid() && log == old(log) + [Reply(bytes)]
    {
      writer.Put(bytes);
      Written(Reply(bytes));
    }
  }

  // ---------- the loops ----------

  method PutRefusal(rec: Recorder, message: string, authed: bool) returns (r: Response)
    requires rec.Valid()
    modifies rec, rec.writer
    ensures rec.Valid() && r == Refuse(message, authed) && rec.log == old(rec.log) + r.effects + [Reply(r.reply)]
  {
    rec.PutReply(ErrorReply(message));
    r := Response([], ErrorReply(message), authed, None);
    assert old(rec.log) + [] == old(rec.log);
  }

  method Authenticate(rec: Recorder, server: Server, authed: bool, args: seq<string>, a: Answer) returns (r: Response)
    requires rec.Valid()
    modifies rec, rec.writer
    ensures rec.Valid() && r == RespondAuth(server, authed, args, a)
    ensures rec.log == old(rec.log) + r.effects + [Reply(r.reply)]
  {
    var password := AuthPassword(args);
    if password.None? {
      if server.managed && Banned(a.verdict("")) {
        r := PutRefusal(rec, "ERR " + a.verdict("").message, authed);
      } else {
        r := PutRefusal(rec, WrongArguments("auth"), authed);
      }
    } else if !server.managed {
      r := PutRefusal(rec, "ERR remote management disabled", authed);
    } else if !a.verdict(password.value).allowed {
      r := PutRefusal(rec, "ERR " + a.verdict(password.value).message, authed);
    } else {
      rec.Note(AuthAccepted);
      rec.PutReply(SimpleString("OK"));
      r := Response([AuthAccepted], SimpleString("OK"), true, None);
    }
  }

  method Subscribe(rec: Recorder, args: seq<string>) returns (r: Response)
    requires rec.Valid()
    modifies rec, rec.writer
    ensures rec.Valid() && r == RespondSubscribe(args)
    ensures rec.log == old(rec.log) + r.effects + [Reply(r.reply)]
  {
    if |args| != 2 {
      r := PutRefusal(rec, WrongArguments("subscribe"), true);
      return;
    }
    var channel := TrimSpace(args[1]);
    if !IsChannel(channel) {
      r := PutRefusal(rec, "ERR unsupported channel '" + channel + "'", true);
      return;
    }
    rec.Note(Event.Subscribed(channel));
    rec.writer.PutSubscribed(channel, 1);
    rec.Written(Reply(Resp.Subscribed(channel, 1)));
    r := Response([Event.Subscribed(channel)], Resp.Subscribed(channel, 1), true, Some(channel));
  }

  method Pop(rec: Recorder, cmd: string, args: seq<string>, a: Answer) returns (r: Response)
    requires rec.Valid()
    modifies rec, rec.writer
    ensures rec.Valid() && r == RespondPop(cmd, args, a)
    ensures rec.log == old(rec.log) + r.effects + [Reply(r.reply)]
  {
    var count := PopCount(args);
    if count.None? {
      r := PutRefusal(rec, WrongArguments(ToLower(cmd)), true);
      return;
    }
    if count.value <= 0 {
      r := PutRefusal(rec, "ERR value is not an integer or out of range", true);
      return;
    }
    if !IsUsage(args[1]) {
      r := PutRefusal(rec, "ERR unsupported channel '" + TrimSpace(args[1]) + "'", true);
      return;
    }
    rec.Note(Popped(count.value));
    var reply := PutItems(rec, |args| == 3, a.items);
    r := Response([Popped(count.value)], reply, true, None);
  }

  // The reply to a pop: an array when a count was given, otherwise the first item or nil
  method PutItems(rec: Recorder, hasCount: bool, items: seq<Option<string>>) returns (reply: string)
    requires rec.Valid()
    modifies rec, rec.writer
    ensures rec.Valid() && rec.log == old(rec.log) + [Reply(reply)]
    ensures reply == if hasCount then ArrayOfBulks(items) else if items == [] then Bulk(None) else Bulk(items[0])
  {
    if hasCount {
      reply := ArrayOfBulks(items);
      rec.writer.PutArrayOfBulks(items);
    } else if |items| == 0 {
      reply := Bulk(None);
      rec.writer.PutBulk(None);
    } else {
      reply := Bulk(items[0]);
      rec.writer.PutBulk(items[0]);
    }
    rec.Written(Reply(reply));
  }

  // The answer to one command
  method AnswerCommand(rec: Recorder, server: Server, authed: bool, args: seq<string>, a: Answer) returns (r: Response)
    requires rec.Valid()
    modifies rec, rec.writer
    ensures rec.Valid() && r == Respond(server, authed, args, a)
    ensures rec.log == old(rec.log) + r.effects + [Reply(r.reply)]
  {
    if |args| == 0 {
      r := PutRefusal(rec, "ERR empty command", authed);
      return;
    }
    var cmd := ToUpper(TrimSpace(args[0]));
    if cmd != "AUTH" && !authed {
      if server.managed && Banned(a.verdict("")) {
        r := PutRefusal(rec, "ERR " + a.verdict("").message, authed);
      } else {
        r := PutRefusal(rec, "NOAUTH Authentication required.", authed);
      }
    } else if cmd == "AUTH" {
      r := Authenticate(rec, server, authed, args, a);
    } else if cmd == "SUBSCRIBE" {
      r := Subscribe(rec, args);
    } else if cmd == "LPOP" || cmd == "RPOP" {
      r := Pop(rec, cmd, args, a);
    } else {
      r := PutRefusal(rec, "ERR unknown command '" + ToLower(cmd) + "'", authed);
    }
  }

  method Leave(rec: Recorder)
    requires rec.Valid()
    modifies rec
    ensures rec.Valid() && rec.log == old(rec.log) + LEAVE
  {
    rec.Note(Event.Unsubscribed);
    rec.Note(Closed);
  }

  // handleRedisSubscriptionCommand
  method AnswerListening(rec: Recorder, channel: string, args: seq<string>) returns (open: bool)
    requires rec.Valid()
    modifies rec, rec.writer
    ensures rec.Valid() && open == RespondListening(channel, args).1
    ensures rec.log == old(rec.log) + [Listened(args), Answered(RespondListening(channel, args).0)]
  {
    rec.Note(Listened(args));
    ghost var reply := RespondListening(channel, args).0;
    if |args| == 0 {
      rec.writer.Put(ErrorReply("ERR empty command"));
      open := true;
    } else {
      var cmd := ToUpper(TrimSpace(args[0]));
      if cmd == "PING" {
        rec.writer.PutPong(if |args| > 1 then Some(args[1]) else None);
        open := true;
      } else if cmd == "UNSUBSCRIBE" {
        rec.writer.PutUnsubscribed(channel, 0);
        open := false;
      } else if cmd == "QUIT" {
        rec.writer.Put(SimpleString("OK"));
        open := false;
      } else {
        rec.writer.Put(ErrorReply("ERR unknown command '" + ToLower(cmd) + "'"));
        open := true;
      }
    }
    rec.Written(Answered(reply));
  }

  // One turn of the select of streamRedisSubscription
  method Select(rec: Recorder, reader: Reader, channel: string, pick: Pick) returns (open: bool)
    requires rec.Valid()
    modifies rec, rec.writer, reader
    ensures rec.Valid()
    ensures var one := SelectOne(channel, old(reader.rest), reader.env, pick);
      rec.log == old(rec.log) + one.events && reader.rest == one.left && open == one.open
  {
    match pick
    case MessagesClosed =>
      Leave(rec);
      open := false;
    case Arrived(payload, sent) =>
      SelectMessage(rec, channel, payload, sent);
      open := sent;
    case CommandReady(sent) =>
      open := SelectCommand(rec, reader, channel, sent);
  }

  method SelectMessage(rec: Recorder, channel: string, payload: Option<string>, sent: bool)
    requires rec.Valid()
    modifies rec, rec.writer
    ensures rec.Valid()
    ensures rec.log == old(rec.log) + if sent then [Forwarded(channel, payload)] else [Forwarded(channel, payload)] + LEAVE
  {
    ghost var log := rec.log;
    rec.writer.PutMessage(channel, payload);
    rec.Written(Forwarded(channel, payload));
    if !sent {
      Grouped(log, [Forwarded(channel, payload)], LEAVE);
      Leave(rec);
    }
  }

  method SelectCommand(rec: Recorder, reader: Reader, channel: string, sent: bool) returns (open: bool)
    requires rec.Valid()
    modifies rec, rec.writer, reader
    ensures rec.Valid()
    ensures var one := SelectOne(channel, old(reader.rest), reader.env, CommandReady(sent));
      rec.log == old(rec.log) + one.events && reader.rest == one.left && open == one.open
  {
    var args := reader.ReadArray();
    match args
    case Err(error) =>
      LeaveAfter(rec, error);
      open := false;
    case Panicked =>
      rec.Note(Crashed);
      open := false;
    case Got(command) =>
      open := ListenTo(rec, channel, command, sent);
  }

  // What cannot be read as a command ends the subscription.
  method LeaveAfter(rec: Recorder, error: Error)
    requires rec.Valid()
    modifies rec, rec.writer
    ensures rec.Valid()
    ensures rec.log == old(rec.log) + if error == EOF then LEAVE else [Answered(ErrorReply("ERR " + ErrorText(error)))] + LEAVE
  {
    if error != EOF {
      var reply := ErrorReply("ERR " + ErrorText(error));
      rec.writer.Put(reply);
      rec.Written(Answered(reply));
      Grouped(old(rec.log), [Answered(reply)], LEAVE);
    }
    Leave(rec);
  }

  method ListenTo(rec: Recorder, channel: string, args: seq<string>, sent: bool) returns (open: bool)
    requires rec.Valid()
    modifies rec, rec.writer
    ensures rec.Valid() && open == (sent && RespondListening(channel, args).1)
    ensures var events := [Listened(args), Answered(RespondListening(channel, args).0)];
      rec.log == old(rec.log) + if open then events else events + LEAVE
  {
    var keepOpen := AnswerListening(rec, channel, args);
    open := sent && keepOpen;
    if !open {
      Grouped(old(rec.log), [Listened(args), Answered(RespondListening(channel, args).0)], LEAVE);
      Leave(rec);
    }
  }

  lemma ListeningOn(channel: string, rest: string, env: Env, picks: seq<Pick>, i: nat)
    requires i < |picks|
    ensures var one := SelectOne(channel, rest, env, picks[i]);
      Listening(channel, rest, env, picks[i..]) ==
      one.events + if one.open then Listening(channel, one.left, env, picks[i + 1..]) else []
  {
    assert picks[i..][1..] == picks[i + 1..];
  }

  method StreamSubscription(rec: Recorder, reader: Reader, channel: string, picks: seq<Pick>)
    requires rec.Valid()
    modifies rec, rec.writer, reader
    ensures rec.Valid() && rec.log == old(rec.log) + Listening(channel, old(reader.rest), reader.env, picks)
  {
    ghost var all := old(rec.log) + Listening(channel, old(reader.rest), reader.env, picks);
    assert picks[0..] == picks;
    var i, open := 0, true;
    while open && i < |picks|
      invariant i <= |picks| && rec.Valid()
      invariant all == rec.log + if open then Listening(channel, reader.rest, reader.env, picks[i..]) else []
    {
      ListeningOn(channel, reader.rest, reader.env, picks, i);
      ghost var log, one := rec.log, SelectOne(channel, reader.rest, reader.env, picks[i]);
      open := Select(rec, reader, channel, picks[i]);
      i := i + 1;
      Grouped(log, one.events, if open then Listening(channel, reader.rest, reader.env, picks[i..]) else []);
    }
  }

  // The end of a turn in which a command was answered
  method FinishTurn(rec: Recorder, sent: bool, r: Response) returns (next: Next)
    requires rec.Valid()
    modifies rec
    ensures rec.Valid() && next == NextAfter(sent, r) && rec.log == old(rec.log) + Parting(sent, r)
  {
    if sent {
      next := if r.channel.Some? then Listen(r.channel.value) else Again(r.authed);
      assert rec.log + [] == rec.log;
    } else {
      if r.channel.Some? {
        Leave(rec);
      } else {
        rec.Note(Closed);
      }
      next := Stop;
    }
  }

  // One turn of the loop of handleRedisConnection
  method Turn(rec: Recorder, server: Server, reader: Reader, a: Answer, authed: bool) returns (next: Next)
    requires rec.Valid()
    modifies rec, rec.writer, reader
    ensures rec.Valid()
    ensures var t := TurnOnce(server, old(reader.rest), reader.env, a, authed);
      rec.log == old(rec.log) + t.events && reader.rest == t.left && next == t.next
  {
    if !a.enabled {
      rec.Note(Closed);
      return Stop;
    }
    var args := reader.ReadArray();
    match args
    case Err(error) =>
      TurnAway(rec, error);
      next := Stop;
    case Panicked =>
      rec.Note(Crashed);
      next := Stop;
    case Got(command) =>
      next := TurnCommand(rec, server, command, a, authed);
  }

  // What cannot be read as a command ends the connection.
  method TurnAway(rec: Recorder, error: Error)
    requires rec.Valid()
    modifies rec, rec.writer
    ensures rec.Valid()
    ensures rec.log == old(rec.log) + if error == EOF then [Closed] else [Refusal(ErrorReply("ERR " + ErrorText(error))), Closed]
  {
    if error != EOF {
      var reply := ErrorReply("ERR " + ErrorText(error));
      rec.writer.Put(reply);
      rec.Written(Refusal(reply));
    }
    rec.Note(Closed);
  }

  method TurnCommand(rec: Recorder, server: Server, args: seq<string>, a: Answer, authed: bool) returns (next: Next)
    requires rec.Valid()
    modifies rec, rec.writer
    ensures var r := Respond(server, authed, args, a);
      rec.Valid() && next == NextAfter(a.sent, r) && rec.log == old(rec.log) + (Exchange(args, r) + Parting(a.sent, r))
  {
    rec.Note(Command(args));
    var r := AnswerCommand(rec, server, authed, args, a);
    Grouped(old(rec.log), [Command(args)], r.effects);
    Grouped(old(rec.log), [Command(args)] + r.effects, [Reply(r.reply)]);
    next := FinishTurn(rec, a.sent, r);
    Grouped(old(rec.log), Exchange(args, r), Parting(a.sent, r));
  }

  method HandleConnection(rec: Recorder, server: Server, reader: Reader, world: nat -> Answer, picks: seq<Pick>)
    requires rec.Valid() && rec.log == []
    modifies rec, rec.writer, reader
    ensures rec.Valid() && rec.log == Connection(server, old(reader.rest), reader.env, world, picks)
  {
    if server.homeMode {
      var reply := ErrorReply("ERR redis usage output disabled in home mode");
      rec.writer.Put(reply);
      rec.Written(Refusal(reply));
      rec.Note(Closed);
      return;
    }
    ghost var all := Session(server, reader.rest, reader.env, world, 0, false, picks);
    var next, i := Again(false), 0;
    while next.Again?
      invariant rec.Valid()
      invariant all == rec.log + Onward(server, reader.rest, reader.env, world, i, next, picks)
      decreases next.Again?, |reader.rest|
    {
      ghost var log, t := rec.log, TurnOnce(server, reader.rest, reader.env, world(i), next.authed);
      next := Turn(rec, server, reader, world(i), next.authed);
      i := i + 1;
      Grouped(log, t.events, Onward(server, reader.rest, reader.env, world, i, next, picks));
    }
    if next.Listen? {
      StreamSubscription(rec, reader, next.channel, picks);
    }
  }
}
