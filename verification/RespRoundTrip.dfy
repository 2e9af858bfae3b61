// What is printed is what is parsed, whatever bytes the arguments hold and whatever follows.
module RespRoundTrip {
  import opened Text
  import opened Resp

  // ---------- lines and bulk strings ----------

  lemma FoundAt(s: string, i: nat, c: char)
    requires i < |s| && s[i] == c && forall k :: 0 <= k < i ==> s[k] != c
    ensures Find(s, c) == Some(i)
  {
    assert c in s;
  }

  lemma LineAt(line: string, tail: string, env: Env)
    requires '\n' !in line && '\r' !in line
    ensures ParseLine(line + CRLF + tail, env) == Ok(line, tail)
  {
    var s := line + CRLF + tail;
    assert forall k | 0 <= k < |line| :: s[k] == line[k];
    assert s[|line|] == '\r' && s[|line| + 1] == '\n';
    FoundAt(s, |line| + 1, '\n');
    assert s[..|line| + 1] == line + ['\r'];
    assert s[|line| + 2..] == tail;
  }

  lemma LineRoundTrip(n: int, tail: string, env: Env)
    requires -MAX_INT - 1 <= n <= MAX_INT
    ensures ParseLine(Itoa(n) + CRLF + tail, env) == Ok(Itoa(n), tail)
  {
    AtoiItoa(n);
    LineAt(Itoa(n), tail, env);
  }

  // A payload is read as its text, a nil one as the empty string.
  function TextOf(payload: Option<string>): string {
    if payload.Some? then payload.value else ""
  }

  function Texts(items: seq<Option<string>>): seq<string> {
    seq(|items|, i requires 0 <= i < |items| => TextOf(items[i]))
  }

  // Slices of such lengths can be made where they are read.
  predicate Fits(items: seq<Option<string>>, env: Env) {
    Realistic(env) && |items| <= env.maxStrings && forall i :: 0 <= i < |items| ==> FitsOne(items[i], env)
  }

  // The length of a Go slice is an int.
  predicate Sized(items: seq<Option<string>>) {
    |items| <= MAX_INT && forall i :: 0 <= i < |items| ==> |TextOf(items[i])| <= MAX_INT
  }

  predicate FitsOne(payload: Option<string>, env: Env) {
    payload.Some? ==> |payload.value| + 2 <= env.maxBytes
  }

  lemma BulkRoundTrip(payload: Option<string>, tail: string, env: Env)
    requires Realistic(env) && FitsOne(payload, env)
    ensures ParseString(Bulk(payload) + tail, env) == Ok(TextOf(payload), tail)
  {
    var n, body := LengthOf(payload), if payload.Some? then payload.value + CRLF else "";
    var s := Bulk(payload) + tail;
    assert Itoa(-1) == "-1";
    assert s[1..] == Itoa(n) + CRLF + (body + tail);
    LineRoundTrip(n, body + tail, env);
    AtoiItoa(n);
    if payload.Some? {
      assert (body + tail)[..n] == payload.value;
      assert (body + tail)[n + 2..] == tail;
    } else {
      assert body + tail == tail;
    }
  }

  function LengthOf(payload: Option<string>): int {
    if payload.Some? then |payload.value| else -1
  }

  lemma SplitLast<T>(s: seq<T>)
    requires s != []
    ensures s == s[..|s| - 1] + [s[|s| - 1]]
  {
  }

  function Concat(pieces: seq<string>): string {
    if pieces == [] then [] else Concat(pieces[..|pieces| - 1]) + pieces[|pieces| - 1]
  }

  // A piece that is read as a text, whatever follows it
  ghost predicate ReadAs(piece: string, text: string, env: Env) {
    forall tail :: ParseString(piece + tail, env) == Ok(text, tail)
  }

  lemma OneMorePiece(head: string, piece: string, text: string, tail: string, env: Env, n: nat, texts: seq<string>)
    requires ParseStrings(head + (piece + tail), env, n) == Ok(texts, piece + tail)
    requires ReadAs(piece, text, env)
    ensures ParseStrings(head + piece + tail, env, n + 1) == Ok(texts + [text], tail)
  {
    Grouped(head, piece, tail);
  }

  lemma {:induction false} PiecesRead(pieces: seq<string>, texts: seq<string>, tail: string, env: Env)
    requires |pieces| == |texts| && forall i :: 0 <= i < |pieces| ==> ReadAs(pieces[i], texts[i], env)
    ensures ParseStrings(Concat(pieces) + tail, env, |pieces|) == Ok(texts, tail)
    decreases |pieces|
  {
    if pieces == [] {
      assert Concat(pieces) + tail == tail;
    } else {
      var n := |pieces| - 1;
      PiecesRead(pieces[..n], texts[..n], pieces[n] + tail, env);
      OneMorePiece(Concat(pieces[..n]), pieces[n], texts[n], tail, env, n, texts[..n]);
      SplitLast(texts);
    }
  }

  function Printed(items: seq<Option<string>>): seq<string> {
    seq(|items|, i requires 0 <= i < |items| => Bulk(items[i]))
  }

  lemma {:induction false} BulksConcat(items: seq<Option<string>>)
    ensures Bulks(items) == Concat(Printed(items))
    decreases |items|
  {
    if items != [] {
      assert Printed(items)[..|items| - 1] == Printed(items[..|items| - 1]);
      BulksConcat(items[..|items| - 1]);
    }
  }

  lemma StringsRoundTrip(items: seq<Option<string>>, tail: string, env: Env)
    requires Fits(items, env)
    ensures ParseStrings(Bulks(items) + tail, env, |items|) == Ok(Texts(items), tail)
  {
    BulksConcat(items);
    forall i | 0 <= i < |items| ensures ReadAs(Printed(items)[i], Texts(items)[i], env) {
      forall t ensures ParseString(Bulk(items[i]) + t, env) == Ok(TextOf(items[i]), t) {
        BulkRoundTrip(items[i], t, env);
      }
    }
    PiecesRead(Printed(items), Texts(items), tail, env);
  }

  lemma ArrayOfCount(n: nat, rest: string, env: Env)
    requires Realistic(env) && n <= env.maxStrings
    ensures ParseArray(ArrayHeader(n) + rest, env) == ParseStrings(rest, env, n)
  {
    var s := ArrayHeader(n) + rest;
    assert s[1..] == Itoa(n) + CRLF + rest;
    LineRoundTrip(n, rest, env);
    AtoiItoa(n);
  }

  // Parsing a printed array gives its texts and consumes exactly its bytes.
  lemma ArrayRoundTrip(items: seq<Option<string>>, tail: string, env: Env)
    requires Fits(items, env)
    ensures ParseArray(ArrayOfBulks(items) + tail, env) == Ok(Texts(items), tail)
  {
    Grouped(ArrayHeader(|items|), Bulks(items), tail);
    ArrayOfCount(|items|, Bulks(items) + tail, env);
    StringsRoundTrip(items, tail, env);
  }

  // ---------- pub/sub replies ----------

  lemma IntegerRead(n: int, env: Env)
    requires -MAX_INT - 1 <= n <= MAX_INT
    ensures ReadAs(Integer(n), Itoa(n), env)
  {
    forall tail ensures ParseString(Integer(n) + tail, env) == Ok(Itoa(n), tail) {
      assert (Integer(n) + tail)[1..] == Itoa(n) + CRLF + tail;
      LineRoundTrip(n, tail, env);
    }
  }

  lemma BulkRead(payload: Option<string>, env: Env)
    requires Realistic(env) && FitsOne(payload, env)
    ensures ReadAs(Bulk(payload), TextOf(payload), env)
  {
    forall tail ensures ParseString(Bulk(payload) + tail, env) == Ok(TextOf(payload), tail) {
      BulkRoundTrip(payload, tail, env);
    }
  }

  lemma ConcatThree(a: string, b: string, c: string)
    ensures Concat([a, b, c]) == a + b + c
  {
    ConcatMore([], a);
    ConcatMore([a], b);
    ConcatMore([a, b], c);
    assert [a] + [b] == [a, b] && [a, b] + [c] == [a, b, c];
  }

  lemma ConcatMore(pieces: seq<string>, last: string)
    ensures Concat(pieces + [last]) == Concat(pieces) + last
  {
    assert (pieces + [last])[..|pieces|] == pieces;
  }

  lemma ThreePieces(a: string, b: string, c: string, x: string, y: string, z: string, tail: string, env: Env)
    requires Realistic(env) && env.maxStrings >= 3 && ReadAs(a, x, env) && ReadAs(b, y, env) && ReadAs(c, z, env)
    ensures ParseArray(ArrayHeader(3) + a + b + c + tail, env) == Ok([x, y, z], tail)
  {
    ConcatThree(a, b, c);
    PiecesRead([a, b, c], [x, y, z], tail, env);
    ArrayOfCount(3, Concat([a, b, c]) + tail, env);
    Headed(ArrayHeader(3), a, b, c, tail);
  }

  lemma Headed(h: string, a: string, b: string, c: string, tail: string)
    ensures h + a + b + c + tail == h + (a + b + c + tail)
  {
  }

  // A client reads a message as the channel it subscribed to and the payload, and a confirmation as the channel and
  // the number of its subscriptions.
  lemma MessageRead(channel: string, payload: Option<string>, tail: string, env: Env)
    requires Realistic(env) && env.maxStrings >= 3 && FitsOne(Some("message"), env) && FitsOne(Some(channel), env) && FitsOne(payload, env)
    ensures ParseArray(Message(channel, payload) + tail, env) == Ok(["message", channel, TextOf(payload)], tail)
  {
    BulkRead(Some("message"), env);
    BulkRead(Some(channel), env);
    BulkRead(payload, env);
    ThreePieces(Bulk(Some("message")), Bulk(Some(channel)), Bulk(payload), "message", channel, TextOf(payload), tail, env);
  }

  lemma ConfirmationRead(channel: string, count: int, tail: string, env: Env)
    requires Realistic(env) && env.maxStrings >= 3 && FitsOne(Some("unsubscribe"), env) && FitsOne(Some(channel), env)
    requires -MAX_INT - 1 <= count <= MAX_INT
    ensures ParseArray(Subscribed(channel, count) + tail, env) == Ok(["subscribe", channel, Itoa(count)], tail)
    ensures ParseArray(Unsubscribed(channel, count) + tail, env) == Ok(["unsubscribe", channel, Itoa(count)], tail)
  {
    BulkRead(Some(channel), env);
    IntegerRead(count, env);
    BulkRead(Some("subscribe"), env);
    ThreePieces(Bulk(Some("subscribe")), Bulk(Some(channel)), Integer(count), "subscribe", channel, Itoa(count), tail, env);
    BulkRead(Some("unsubscribe"), env);
    ThreePieces(Bulk(Some("unsubscribe")), Bulk(Some(channel)), Integer(count), "unsubscribe", channel, Itoa(count), tail, env);
  }

  // ---------- commands ----------

  function Encoded(command: seq<string>): string {
    ArrayOfBulks(Plain(command))
  }

  function EncodedEach(commands: seq<seq<string>>): seq<string> {
    seq(|commands|, i requires 0 <= i < |commands| => Encoded(commands[i]))
  }

  // Reading n commands, one after the other
  function ParseAll(s: string, env: Env, n: nat): Parsed<seq<seq<string>>>
    decreases n
  {
    if n == 0 then Ok([], s)
    else
      match ParseArray(s, env)
      case Ok(command, left) => Preceded(command, ParseAll(left, env, n - 1))
      case Fail(error, left) => Fail(error, left)
      case Panic(left) => Panic(left)
  }

  function Preceded<T>(first: T, more: Parsed<seq<T>>): Parsed<seq<T>> {
    match more
    case Ok(values, rest) => Ok([first] + values, rest)
    case other => other
  }

  // A piece that is read as a command, whatever follows it
  ghost predicate ReadAsCommand(piece: string, command: seq<string>, env: Env) {
    forall tail :: ParseArray(piece + tail, env) == Ok(command, tail)
  }

  lemma CommandRead(command: seq<string>, env: Env)
    requires Fits(Plain(command), env)
    ensures ReadAsCommand(Encoded(command), command, env)
  {
    assert Texts(Plain(command)) == command;
    forall tail ensures ParseArray(Encoded(command) + tail, env) == Ok(command, tail) {
      ArrayRoundTrip(Plain(command), tail, env);
    }
  }

  lemma {:induction false} ConcatFirst(pieces: seq<string>)
    requires pieces != []
    ensures Concat(pieces) == pieces[0] + Concat(pieces[1..])
    decreases |pieces|
  {
    if |pieces| == 1 {
      assert Concat(pieces[..0]) == "" && Concat(pieces[1..]) == "";
    } else {
      var n := |pieces| - 1;
      assert pieces[..n][1..] == pieces[1..][..n - 1];
      ConcatFirst(pieces[..n]);
      Grouped(pieces[0], Concat(pieces[1..][..n - 1]), pieces[n]);
    }
  }

  ghost predicate ReadAsCommands(pieces: seq<string>, commands: seq<seq<string>>, env: Env) {
    |pieces| == |commands| && forall i :: 0 <= i < |pieces| ==> ReadAsCommand(pieces[i], commands[i], env)
  }

  lemma OneMoreCommand(piece: string, more: string, commands: seq<seq<string>>, tail: string, env: Env)
    requires commands != [] && ReadAsCommand(piece, commands[0], env)
    requires ParseAll(more, env, |commands| - 1) == Ok(commands[1..], tail)
    ensures ParseAll(piece + more, env, |commands|) == Ok(commands, tail)
  {
    assert commands == [commands[0]] + commands[1..];
  }

  lemma {:induction false} CommandPiecesRead(pieces: seq<string>, commands: seq<seq<string>>, tail: string, env: Env)
    requires ReadAsCommands(pieces, commands, env)
    ensures ParseAll(Concat(pieces) + tail, env, |pieces|) == Ok(commands, tail)
    decreases |pieces|
  {
    if pieces == [] {
      assert Concat(pieces) + tail == tail;
    } else {
      CommandPiecesRead(pieces[1..], commands[1..], tail, env);
      OneMoreCommand(pieces[0], Concat(pieces[1..]) + tail, commands, tail, env);
      ConcatFront(pieces, tail);
    }
  }

  lemma ConcatFront(pieces: seq<string>, tail: string)
    requires pieces != []
    ensures Concat(pieces) + tail == pieces[0] + (Concat(pieces[1..]) + tail)
  {
    ConcatFirst(pieces);
    Grouped(pieces[0], Concat(pieces[1..]), tail);
  }

  // A list of commands, with any bytes in their arguments, is read back in order, and nothing beyond it is read.
  lemma CommandsRoundTrip(commands: seq<seq<string>>, tail: string, env: Env)
    requires forall i :: 0 <= i < |commands| ==> Fits(Plain(commands[i]), env)
    ensures ParseAll(Concat(EncodedEach(commands)) + tail, env, |commands|) == Ok(commands, tail)
  {
    forall i | 0 <= i < |commands| ensures ReadAsCommand(EncodedEach(commands)[i], commands[i], env) {
      CommandRead(commands[i], env);
    }
    CommandPiecesRead(EncodedEach(commands), commands, tail, env);
  }

  // ---------- the home client's replies ----------

  lemma TrimRightMore(s: string, c: char)
    requires IsSpace(c)
    ensures TrimRight(s + [c]) == TrimRight(s)
  {
    assert (s + [c])[..|s|] == s;
  }

  lemma TrimEnd(line: string)
    requires line != "" && !IsSpace(line[0]) && !IsSpace(line[|line| - 1])
    ensures TrimSpace(line + CRLF) == line
  {
    assert line + CRLF == (line + ['\r']) + ['\n'];
    TrimRightMore(line + ['\r'], '\n');
    TrimRightMore(line, '\r');
    assert TrimLeft(line + CRLF) == line + CRLF;
  }

  lemma TrimLine(n: int)
    requires -MAX_INT - 1 <= n <= MAX_INT
    ensures TrimSpace(Itoa(n) + CRLF) == Itoa(n)
  {
    AtoiItoa(n);
    TrimEnd(Itoa(n));
  }

  lemma Regrouped(a: string, b: string, c: string, d: string, e: string, tail: string)
    ensures a + b + c + d + e + tail == a + (b + c + (d + e + tail))
  {
  }

  // A bulk reply gives its payload back; a nil one is an error.
  lemma BulkReplyRoundTrip(payload: string, tail: string, env: Env)
    requires Realistic(env) && FitsOne(Some(payload), env)
    ensures ParseBulkReply(Bulk(Some(payload)) + tail, env) == Ok(payload, tail)
  {
    var rest := payload + CRLF + tail;
    ReplyLength(|payload|, rest, env);
    Regrouped("$", Itoa(|payload|), CRLF, payload, CRLF, tail);
    assert rest[..|payload|] == payload && rest[|payload| + 2..] == tail;
  }

  lemma NilReplyFails(tail: string, env: Env)
    ensures ParseBulkReply(Bulk(None) + tail, env) == Fail(NilReply, tail)
  {
    ReplyLength(-1, tail, env);
    assert Itoa(-1) == "-1";
    assert Bulk(None) + tail == "$" + (Itoa(-1) + CRLF + tail);
  }

  lemma ReplyLength(n: int, rest: string, env: Env)
    requires -MAX_INT - 1 <= n <= MAX_INT
    ensures ParseBulkReply("$" + (Itoa(n) + CRLF + rest), env) ==
      if n < 0 then Fail(NilReply, rest)
      else if n + 2 > env.maxBytes then Panic(rest)
      else if |rest| < n + 2 then Fail(ReadFullError(rest, env.end), "")
      else Ok(rest[..n], rest[n + 2..])
  {
    AtoiItoa(n);
    TrimLine(n);
    var s := Itoa(n) + CRLF + rest;
    assert ("$" + s)[1..] == s;
    LineFound(Itoa(n), rest);
  }

  lemma LineFound(line: string, rest: string)
    requires '\n' !in line
    ensures var s := line + CRLF + rest;
      Find(s, '\n') == Some(|line| + 1) && s[..|line| + 2] == line + CRLF && s[|line| + 2..] == rest
  {
    var s := line + CRLF + rest;
    assert forall k | 0 <= k < |line| :: s[k] == line[k];
    assert s[|line|] == '\r' && s[|line| + 1] == '\n';
    FoundAt(s, |line| + 1, '\n');
  }

  // ---------- framing ----------

  // The outcome does not depend on bytes not looked at: it is a value, a protocol error, or the end of the process.
  predicate Decided<T>(r: Parsed<T>) {
    r.Fail? ==> r.error == Protocol
  }

  function Extended<T>(r: Parsed<T>, more: string): Parsed<T> {
    match r
    case Ok(value, rest) => Ok(value, rest + more)
    case Fail(error, rest) => Fail(error, rest + more)
    case Panic(rest) => Panic(rest + more)
  }

  lemma {:induction false} FindExtends(s: string, more: string, c: char)
    requires Find(s, c).Some?
    ensures Find(s + more, c) == Find(s, c)
  {
    FoundAt(s + more, Find(s, c).value, c);
  }

  lemma LineExtends(s: string, more: string, env: Env)
    requires ParseLine(s, env).Ok?
    ensures ParseLine(s + more, env) == Extended(ParseLine(s, env), more)
  {
    var i := Find(s, '\n').value;
    FindExtends(s, more, '\n');
    assert (s + more)[..i] == s[..i];
    assert (s + more)[i + 1..] == s[i + 1..] + more;
  }

  lemma StringExtends(s: string, more: string, env: Env)
    requires env.end != Protocol && Decided(ParseString(s, env))
    ensures ParseString(s + more, env) == Extended(ParseString(s, env), more)
  {
    assert (s + more)[1..] == s[1..] + more;
    if s[0] == '$' {
      BulkStringExtends(s[1..], more, env);
    } else if s[0] in {'+', ':'} {
      LineExtends(s[1..], more, env);
    }
  }

  lemma PayloadExtends(rest: string, more: string, env: Env, length: int)
    requires env.end != Protocol && Decided(ParsePayload(rest, env, length))
    ensures ParsePayload(rest + more, env, length) == Extended(ParsePayload(rest, env, length), more)
  {
    if 0 <= length && length + 2 <= env.maxBytes {
      assert (rest + more)[..length] == rest[..length];
      assert (rest + more)[length + 2..] == rest[length + 2..] + more;
    }
  }

  lemma BulkStringExtends(s: string, more: string, env: Env)
    requires env.end != Protocol && Decided(ParseBulkString(s, env))
    ensures ParseBulkString(s + more, env) == Extended(ParseBulkString(s, env), more)
  {
    LineExtends(s, more, env);
    var Ok(line, rest) := ParseLine(s, env);
    if Atoi(line).Some? {
      PayloadExtends(rest, more, env, Atoi(line).value);
    }
  }

  lemma {:induction false} StringsExtend(s: string, more: string, env: Env, n: nat)
    requires env.end != Protocol && Decided(ParseStrings(s, env, n))
    ensures ParseStrings(s + more, env, n) == Extended(ParseStrings(s, env, n), more)
    decreases n
  {
    if n > 0 {
      StringsExtend(s, more, env, n - 1);
      var before := ParseStrings(s, env, n - 1);
      if before.Ok? {
        StringExtends(before.rest, more, env);
      }
    }
  }

  // A parsed array stays what it is whatever arrives after it.
  lemma ArrayExtends(s: string, more: string, env: Env)
    requires env.end != Protocol && Decided(ParseArray(s, env))
    ensures ParseArray(s + more, env) == Extended(ParseArray(s, env), more)
  {
    assert (s + more)[1..] == s[1..] + more;
    if s[0] == '*' {
      LineExtends(s[1..], more, env);
      var Ok(line, rest) := ParseLine(s[1..], env);
      if Atoi(line).Some? && 0 <= Atoi(line).value <= env.maxStrings {
        StringsExtend(rest, more, env, Atoi(line).value);
      }
    }
  }

  lemma StringErrors(s: string, env: Env)
    requires env.end.EOF? || env.end.Broken?
    ensures ParseString(s, env).Fail? ==> ParseString(s, env).error in {env.end, UnexpectedEOF, Protocol}
  {
  }

  lemma {:induction false} OnlyThese(s: string, env: Env, n: nat)
    requires env.end.EOF? || env.end.Broken?
    ensures ParseStrings(s, env, n).Fail? ==> ParseStrings(s, env, n).error in {env.end, UnexpectedEOF, Protocol}
    decreases n
  {
    if n > 0 {
      OnlyThese(s, env, n - 1);
      StringErrors(ParseStrings(s, env, n - 1).rest, env);
    }
  }

  // An array cut short is never taken for another array, nor for a malformed one: the reader reports the end of
  // its input.
  lemma TruncatedArray(s: string, more: string, items: seq<Option<string>>, env: Env)
    requires env.end == EOF && Fits(items, env) && s + more == ArrayOfBulks(items) && more != ""
    ensures ParseArray(s, env).Fail? && ParseArray(s, env).error in {EOF, UnexpectedEOF}
  {
    ArrayRoundTrip(items, "", env);
    assert ArrayOfBulks(items) + "" == ArrayOfBulks(items);
    if Decided(ParseArray(s, env)) {
      ArrayExtends(s, more, env);
      assert false;
    }
    forall rest: string, n: nat ensures ParseStrings(rest, env, n).Fail? ==>
      ParseStrings(rest, env, n).error in {EOF, UnexpectedEOF, Protocol}
    {
      OnlyThese(rest, env, n);
    }
  }

  // ---------- slices that cannot be made ----------

  // The number a line announces, if there is a whole line and it holds a number
  function Announced(s: string, env: Env): Option<int> {
    match ParseLine(s, env)
    case Ok(line, _) => Atoi(line)
    case _ => None
  }

  // A bulk string comes next whose buffer cannot be made.
  predicate HugeBulk(s: string, env: Env) {
    s != [] && s[0] == '$' && Announced(s[1..], env).Some? && Announced(s[1..], env).value >= 0 &&
    Announced(s[1..], env).value + 2 > env.maxBytes
  }

  // k strings can be read, and then a bulk string comes whose buffer cannot be made.
  predicate HugeAfter(s: string, env: Env, k: nat) {
    ParseStrings(s, env, k).Ok? && HugeBulk(ParseStrings(s, env, k).rest, env)
  }

  lemma StringPanicsIff(s: string, env: Env)
    ensures ParseString(s, env).Panic? <==> HugeBulk(s, env)
  {
  }

  lemma NextPanicsIff(s: string, env: Env, n: nat)
    requires n > 0
    ensures ParseStrings(s, env, n).Panic? <==> ParseStrings(s, env, n - 1).Panic? || HugeAfter(s, env, n - 1)
  {
    if ParseStrings(s, env, n - 1).Ok? {
      StringPanicsIff(ParseStrings(s, env, n - 1).rest, env);
    }
  }

  ghost predicate HugeWithin(s: string, env: Env, n: nat) {
    exists k: nat :: k < n && HugeAfter(s, env, k)
  }

  lemma {:induction false} StringsPanicIff(s: string, env: Env, n: nat)
    ensures ParseStrings(s, env, n).Panic? <==> HugeWithin(s, env, n)
    decreases n
  {
    if n > 0 {
      StringsPanicIff(s, env, n - 1);
      NextPanicsIff(s, env, n);
      HugeNext(s, env, n);
    }
  }

  lemma HugeNext(s: string, env: Env, n: nat)
    requires n > 0
    ensures HugeWithin(s, env, n) <==> HugeWithin(s, env, n - 1) || HugeAfter(s, env, n - 1)
  {
  }

  // Reading a command ends the process if and only if its header announces more strings than can be made, or, after
  // some of the strings have been read, the next one announces more bytes than can be made.
  lemma ArrayPanicsIff(s: string, env: Env)
    ensures ParseArray(s, env).Panic? <==>
      s != [] && s[0] == '*' && Announced(s[1..], env).Some? && Announced(s[1..], env).value >= 0 &&
      var count, rest := Announced(s[1..], env).value, ParseLine(s[1..], env).rest;
      count > env.maxStrings || HugeWithin(rest, env, count)
  {
    if s != [] && Announced(s[1..], env).Some? && Announced(s[1..], env).value >= 0 {
      StringsPanicIff(ParseLine(s[1..], env).rest, env, Announced(s[1..], env).value);
    }
  }

  lemma NumberAnnounced(n: int, tail: string, env: Env)
    requires -MAX_INT - 1 <= n <= MAX_INT
    ensures Announced(Itoa(n) + CRLF + tail, env) == Some(n)
  {
    LineRoundTrip(n, tail, env);
    AtoiItoa(n);
  }

  // A count beyond what can be made ends the process, whatever follows.
  lemma CountPanics(n: nat, tail: string, env: Env)
    requires env.maxStrings < n <= MAX_INT
    ensures ParseArray(ArrayHeader(n) + tail, env).Panic?
  {
    assert (ArrayHeader(n) + tail)[1..] == Itoa(n) + CRLF + tail;
    NumberAnnounced(n, tail, env);
    ArrayPanicsIff(ArrayHeader(n) + tail, env);
  }

  function BulkHeader(n: nat): string {
    "$" + Itoa(n) + CRLF
  }

  lemma BulkIsHuge(n: nat, tail: string, env: Env)
    requires n <= MAX_INT && n + 2 > env.maxBytes
    ensures HugeBulk(BulkHeader(n) + tail, env)
  {
    assert (BulkHeader(n) + tail)[1..] == Itoa(n) + CRLF + tail;
    NumberAnnounced(n, tail, env);
  }

  // So does a length beyond it.
  lemma LengthPanics(n: nat, tail: string, env: Env)
    requires Realistic(env) && env.maxStrings >= 1 && n <= MAX_INT && n + 2 > env.maxBytes
    ensures ParseArray(ArrayHeader(1) + (BulkHeader(n) + tail), env).Panic?
  {
    BulkIsHuge(n, tail, env);
    ArrayOfCount(1, BulkHeader(n) + tail, env);
    NextPanicsIff(BulkHeader(n) + tail, env, 1);
    assert HugeAfter(BulkHeader(n) + tail, env, 0);
  }

  // The inputs *9223372036854775807 and *1 $9223372036854775807: as a count the largest number ends the process
  // wherever fewer strings can be made, as a length everywhere, since the buffer is two bytes longer.
  lemma LargestNumberPanics(tail: string, env: Env)
    requires Realistic(env) && 1 <= env.maxStrings < MAX_INT
    ensures ParseArray(ArrayHeader(MAX_INT) + tail, env).Panic?
    ensures ParseArray(ArrayHeader(1) + (BulkHeader(MAX_INT) + tail), env).Panic?
  {
    CountPanics(MAX_INT, tail, env);
    LengthPanics(MAX_INT, tail, env);
  }

  lemma HugeItem(payload: Option<string>, more: string, env: Env)
    requires |TextOf(payload)| <= MAX_INT && !FitsOne(payload, env)
    ensures HugeBulk(Bulk(payload) + more, env)
  {
    BulkIsHuge(|payload.value|, payload.value + CRLF + more, env);
    assert Bulk(payload) + more == BulkHeader(|payload.value|) + (payload.value + CRLF + more);
  }

  lemma BulksLast(items: seq<Option<string>>, tail: string)
    requires items != []
    ensures var n := |items| - 1; Bulks(items) + tail == Bulks(items[..n]) + (Bulk(items[n]) + tail)
  {
    Grouped(Bulks(items[..|items| - 1]), Bulk(items[|items| - 1]), tail);
  }

  lemma FitsLast(items: seq<Option<string>>, env: Env)
    requires Realistic(env) && 0 < |items| <= env.maxStrings && !Fits(items, env)
    ensures Fits(items[..|items| - 1], env) ==> !FitsOne(items[|items| - 1], env)
  {
  }

  // The last item is the one too large.
  lemma LastTooLarge(init: seq<Option<string>>, last: Option<string>, tail: string, env: Env)
    requires Fits(init, env) && |TextOf(last)| <= MAX_INT && !FitsOne(last, env)
    ensures HugeWithin(Bulks(init) + (Bulk(last) + tail), env, |init| + 1)
  {
    StringsRoundTrip(init, Bulk(last) + tail, env);
    HugeItem(last, tail, env);
    assert HugeAfter(Bulks(init) + (Bulk(last) + tail), env, |init|);
  }

  lemma {:induction false} BulksTooLarge(items: seq<Option<string>>, tail: string, env: Env)
    requires Realistic(env) && |items| <= env.maxStrings && Sized(items) && !Fits(items, env)
    ensures HugeWithin(Bulks(items) + tail, env, |items|)
    decreases |items|
  {
    var init, last := items[..|items| - 1], items[|items| - 1];
    BulksLast(items, tail);
    if Fits(init, env) {
      FitsLast(items, env);
      LastTooLarge(init, last, tail, env);
    } else {
      BulksTooLarge(init, Bulk(last) + tail, env);
      HugeNext(Bulks(items) + tail, env, |items|);
    }
  }

  // Reading a printed array ends the process if it does not fit: so it gives the texts back if and only if it fits.
  lemma ArrayTooLarge(items: seq<Option<string>>, tail: string, env: Env)
    requires Realistic(env) && Sized(items) && !Fits(items, env)
    ensures ParseArray(ArrayOfBulks(items) + tail, env).Panic?
  {
    Grouped(ArrayHeader(|items|), Bulks(items), tail);
    if |items| > env.maxStrings {
      CountPanics(|items|, Bulks(items) + tail, env);
    } else {
      BulksTooLarge(items, tail, env);
      StringsPanicIff(Bulks(items) + tail, env, |items|);
      ArrayOfCount(|items|, Bulks(items) + tail, env);
    }
  }

  // The home client's reader ends the process under the same condition on the size it trims.
  lemma BulkReplyPanicsIff(s: string, env: Env)
    ensures ParseBulkReply(s, env).Panic? <==>
      s != [] && s[0] == '$' && Find(s[1..], '\n').Some? &&
      var size := Atoi(TrimSpace(s[1..][..Find(s[1..], '\n').value + 1]));
      size.Some? && size.value >= 0 && size.value + 2 > env.maxBytes
  {
  }
}
