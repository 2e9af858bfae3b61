// How a client takes replies apart: one reply at a time, each of its own kind, arrays within arrays included.
module RespReplies {
  import opened Text
  import opened Resp
  import opened RespRoundTrip

  datatype ReplyValue = Simple(text: string) | Failure(text: string) | Number(n: int) | Blob(payload: Option<string>) | List(values: seq<ReplyValue>)

  // A client has whatever memory it takes.
  const CLIENT := Env(EOF, 0, 0)

  // A number of any size
  function NumberOf(line: string): Option<int> {
    var body := if line != [] && line[0] == '-' then line[1..] else line;
    if body == [] || !AllDigits(body) then None
    else
      var n: int := Value(body);
      Some(if line[0] == '-' then -n else n)
  }

  function ParseReply(s: string): (r: Parsed<ReplyValue>)
    ensures r.Ok? ==> |r.rest| < |s|
    decreases |s|, 0
  {
    if s == [] then Fail(EOF, "")
    else
      match ParseLine(s[1..], CLIENT)
      case Fail(error, rest) => Fail(error, rest)
      case Panic(rest) => Panic(rest)
      case Ok(line, rest) =>
        if s[0] == '+' then Ok(Simple(line), rest)
        else if s[0] == '-' then Ok(Failure(line), rest)
        else
          match NumberOf(line)
          case None => Fail(Protocol, rest)
          case Some(n) =>
            if s[0] == ':' then Ok(Number(n), rest)
            else if s[0] == '$' then ParseBlob(rest, n)
            else if s[0] == '*' && n >= 0 then Listed(ParseReplies(rest, n))
            else Fail(Protocol, rest)
  }

  function Listed(r: Parsed<seq<ReplyValue>>): Parsed<ReplyValue> {
    match r
    case Ok(values, left) => Ok(List(values), left)
    case Fail(error, left) => Fail(error, left)
    case Panic(left) => Panic(left)
  }

  function ParseBlob(rest: string, n: int): (r: Parsed<ReplyValue>)
    ensures r.Ok? ==> |r.rest| <= |rest|
  {
    if n == -1 then Ok(Blob(None), rest)
    else if n < 0 then Fail(Protocol, rest)
    else if |rest| < n + 2 then Fail(EOF, "")
    else if rest[n] != '\r' || rest[n + 1] != '\n' then Fail(Protocol, rest[n + 2..])
    else Ok(Blob(Some(rest[..n])), rest[n + 2..])
  }

  function ParseReplies(s: string, n: nat): (r: Parsed<seq<ReplyValue>>)
    ensures r.Ok? ==> |r.rest| <= |s|
    decreases |s|, n
  {
    if n == 0 then Ok([], s)
    else
      match ParseReply(s)
      case Fail(error, left) => Fail(error, left)
      case Panic(left) => Panic(left)
      case Ok(value, left) => Preceded(value, ParseReplies(left, n - 1))
  }

  // The bytes are read as that value, and nothing beyond them is read.
  ghost predicate ReadsAs(bytes: string, v: ReplyValue) {
    forall tail :: ParseReply(bytes + tail) == Ok(v, tail)
  }

  // In front of that tail, the bytes are read as one reply.
  predicate Separate(bytes: string, tail: string) {
    ParseReply(bytes + tail).Ok? && ParseReply(bytes + tail).rest == tail
  }

  // Whatever follows, a client reads exactly one reply from the bytes.
  ghost predicate OneReply(bytes: string) {
    forall tail :: Separate(bytes, tail)
  }

  // Whatever follows, it does not.
  ghost predicate NotOneReply(bytes: string) {
    forall tail :: !Separate(bytes, tail)
  }

  lemma ReadsAsIsOne(bytes: string, v: ReplyValue)
    requires ReadsAs(bytes, v)
    ensures OneReply(bytes)
  {
    forall tail ensures Separate(bytes, tail) {
      assert ParseReply(bytes + tail) == Ok(v, tail);
    }
  }

  // ---------- lines ----------

  lemma NumberOfItoa(n: int)
    ensures NumberOf(Itoa(n)) == Some(n) && '\n' !in Itoa(n) && '\r' !in Itoa(n)
  {
    if n < 0 {
      assert Itoa(n)[1..] == Digits(-n);
    } else {
      assert IsDigit(Itoa(n)[0]);
    }
  }

  // A line ends at its first line end, so what is in front of CRLF is one line if and only if it holds none.
  lemma LineWhole(text: string, tail: string)
    requires '\n' !in text
    ensures ParseLine(text + CRLF + tail, CLIENT) == Ok(text, tail)
  {
    LineFound(text, tail);
    assert (text + CRLF + tail)[..|text| + 1] == text + ['\r'];
    assert (text + ['\r'])[..|text|] == text;
  }

  lemma LineBroken(text: string, tail: string)
    requires '\n' in text
    ensures var r := ParseLine(text + CRLF + tail, CLIENT); r.Ok? && |r.rest| > |tail|
  {
    var i := Find(text, '\n').value;
    var s := text + CRLF + tail;
    assert s[i] == '\n' && forall k :: 0 <= k < i ==> s[k] == text[k];
    FoundAt(s, i, '\n');
  }

  lemma ErrorLine(message: string, tail: string)
    ensures (ErrorReply(message) + tail)[1..] == message + CRLF + tail && (ErrorReply(message) + tail)[0] == '-'
  {
  }

  lemma ErrorSeparateIff(message: string, tail: string)
    ensures Separate(ErrorReply(message), tail) <==> '\n' !in message
    ensures '\n' !in message ==> ParseReply(ErrorReply(message) + tail) == Ok(Failure(message), tail)
  {
    ErrorLine(message, tail);
    if '\n' in message {
      LineBroken(message, tail);
    } else {
      LineWhole(message, tail);
    }
  }

  // An error is one reply if and only if its text holds no line end.
  lemma ErrorIsOneIff(message: string)
    ensures if '\n' in message then NotOneReply(ErrorReply(message)) else ReadsAs(ErrorReply(message), Failure(message))
    ensures OneReply(ErrorReply(message)) <==> '\n' !in message
  {
    forall tail ensures Separate(ErrorReply(message), tail) <==> '\n' !in message {
      ErrorSeparateIff(message, tail);
    }
    forall tail | '\n' !in message ensures ParseReply(ErrorReply(message) + tail) == Ok(Failure(message), tail) {
      ErrorSeparateIff(message, tail);
    }
    assert OneReply(ErrorReply(message)) ==> Separate(ErrorReply(message), "");
  }

  lemma SimpleRead(text: string)
    requires '\n' !in text
    ensures ReadsAs(SimpleString(text), Simple(text))
  {
    forall tail ensures ParseReply(SimpleString(text) + tail) == Ok(Simple(text), tail) {
      assert (SimpleString(text) + tail)[1..] == text + CRLF + tail;
      LineWhole(text, tail);
    }
  }

  lemma NumberRead(n: int)
    ensures ReadsAs(Integer(n), Number(n))
  {
    forall tail ensures ParseReply(Integer(n) + tail) == Ok(Number(n), tail) {
      NumberBefore(n, tail);
    }
  }

  lemma IntegerLine(n: int, tail: string)
    ensures Integer(n) + tail != [] && (Integer(n) + tail)[0] == ':' && (Integer(n) + tail)[1..] == Itoa(n) + CRLF + tail
  {
  }

  lemma NumberBefore(n: int, tail: string)
    ensures ParseReply(Integer(n) + tail) == Ok(Number(n), tail)
  {
    IntegerLine(n, tail);
    HeaderLine(n, tail);
  }

  // ---------- bulk strings and arrays ----------

  lemma HeaderLine(n: int, tail: string)
    ensures var r := ParseLine(Itoa(n) + CRLF + tail, CLIENT); r.Ok? && NumberOf(r.value) == Some(n) && r.rest == tail
  {
    NumberOfItoa(n);
    LineWhole(Itoa(n), tail);
  }

  lemma BlobTail(payload: string, tail: string)
    ensures var rest := payload + CRLF + tail; ParseBlob(rest, |payload|) == Ok(Blob(Some(payload)), tail)
  {
    var rest := payload + CRLF + tail;
    assert rest[..|payload|] == payload && rest[|payload| + 2..] == tail;
  }

  lemma NilSeparate(tail: string)
    ensures ParseReply(Bulk(None) + tail) == Ok(Blob(None), tail)
  {
    var s := Bulk(None) + tail;
    assert Itoa(-1) == "-1";
    assert s[0] == '$' && s[1..] == Itoa(-1) + CRLF + tail;
    HeaderLine(-1, tail);
  }

  lemma BlobSeparate(payload: string, tail: string)
    ensures ParseReply(Bulk(Some(payload)) + tail) == Ok(Blob(Some(payload)), tail)
  {
    var rest := payload + CRLF + tail;
    Regrouped("$", Itoa(|payload|), CRLF, payload, CRLF, tail);
    HeadOf('$', |payload|, rest);
    HeaderLine(|payload|, rest);
    BlobTail(payload, tail);
  }

  lemma HeadOf(c: char, n: int, rest: string)
    ensures var s := [c] + (Itoa(n) + CRLF + rest); s[0] == c && s[1..] == Itoa(n) + CRLF + rest
  {
  }

  lemma BlobRead(payload: Option<string>)
    ensures ReadsAs(Bulk(payload), Blob(payload))
  {
    forall tail ensures ParseReply(Bulk(payload) + tail) == Ok(Blob(payload), tail) {
      if payload.Some? {
        BlobSeparate(payload.value, tail);
      } else {
        NilSeparate(tail);
      }
    }
  }

  ghost predicate ReadsAsEach(pieces: seq<string>, values: seq<ReplyValue>) {
    |pieces| == |values| && forall i :: 0 <= i < |pieces| ==> ReadsAs(pieces[i], values[i])
  }

  lemma OneMoreValue(piece: string, more: string, values: seq<ReplyValue>, tail: string)
    requires values != [] && ReadsAs(piece, values[0]) && ParseReplies(more, |values| - 1) == Ok(values[1..], tail)
    ensures ParseReplies(piece + more, |values|) == Ok(values, tail)
  {
    assert ParseReply(piece + more) == Ok(values[0], more);
    assert values == [values[0]] + values[1..];
  }

  lemma {:induction false} ListRead(pieces: seq<string>, values: seq<ReplyValue>, tail: string)
    requires ReadsAsEach(pieces, values)
    ensures ParseReplies(Concat(pieces) + tail, |pieces|) == Ok(values, tail)
    decreases |pieces|
  {
    if pieces == [] {
      assert Concat(pieces) + tail == tail;
    } else {
      ListRead(pieces[1..], values[1..], tail);
      OneMoreValue(pieces[0], Concat(pieces[1..]) + tail, values, tail);
      ConcatFront(pieces, tail);
    }
  }

  lemma ReplyOfHeader(s: string, line: string, n: nat, rest: string)
    requires s != [] && s[0] == '*' && ParseLine(s[1..], CLIENT) == Ok(line, rest) && NumberOf(line) == Some(n)
    ensures ParseReply(s) == Listed(ParseReplies(rest, n))
  {
  }

  lemma HeaderSeparate(n: nat, rest: string, values: seq<ReplyValue>, tail: string)
    requires ParseReplies(rest, n) == Ok(values, tail)
    ensures ParseReply(['*'] + (Itoa(n) + CRLF + rest)) == Ok(List(values), tail)
  {
    HeadOf('*', n, rest);
    HeaderLine(n, rest);
    ReplyOfHeader(['*'] + (Itoa(n) + CRLF + rest), ParseLine(Itoa(n) + CRLF + rest, CLIENT).value, n, rest);
  }

  lemma HeaderHead(n: nat, rest: string)
    ensures ArrayHeader(n) + rest == ['*'] + (Itoa(n) + CRLF + rest)
  {
  }

  lemma ArraySeparate(pieces: seq<string>, values: seq<ReplyValue>, tail: string)
    requires ReadsAsEach(pieces, values)
    ensures ParseReply(ArrayHeader(|pieces|) + Concat(pieces) + tail) == Ok(List(values), tail)
  {
    Grouped(ArrayHeader(|pieces|), Concat(pieces), tail);
    ListRead(pieces, values, tail);
    HeaderHead(|pieces|, Concat(pieces) + tail);
    HeaderSeparate(|pieces|, Concat(pieces) + tail, values, tail);
  }

  lemma ArrayRead(pieces: seq<string>, values: seq<ReplyValue>)
    requires ReadsAsEach(pieces, values)
    ensures ReadsAs(ArrayHeader(|pieces|) + Concat(pieces), List(values))
  {
    forall tail ensures ParseReply(ArrayHeader(|pieces|) + Concat(pieces) + tail) == Ok(List(values), tail) {
      ArraySeparate(pieces, values, tail);
    }
  }

  function Blobs(items: seq<Option<string>>): seq<ReplyValue> {
    seq(|items|, i requires 0 <= i < |items| => Blob(items[i]))
  }

  // The items of a printed array come back, nil ones as nil.
  lemma ItemsRead(items: seq<Option<string>>)
    ensures ReadsAs(ArrayOfBulks(items), List(Blobs(items)))
  {
    BulksConcat(items);
    forall i | 0 <= i < |items| ensures ReadsAs(Printed(items)[i], Blobs(items)[i]) {
      BlobRead(items[i]);
    }
    ArrayRead(Printed(items), Blobs(items));
  }

  lemma ThreeRead(a: string, b: string, c: string, x: ReplyValue, y: ReplyValue, z: ReplyValue)
    requires ReadsAs(a, x) && ReadsAs(b, y) && ReadsAs(c, z)
    ensures ReadsAs(ArrayHeader(3) + a + b + c, List([x, y, z]))
  {
    ConcatThree(a, b, c);
    ArrayRead([a, b, c], [x, y, z]);
    assert ArrayHeader(3) + a + b + c == ArrayHeader(3) + (a + b + c);
  }

  // The replies of publish and subscribe
  lemma PubSubRead(channel: string, count: int, payload: Option<string>)
    ensures ReadsAs(Subscribed(channel, count), List([Blob(Some("subscribe")), Blob(Some(channel)), Number(count)]))
    ensures ReadsAs(Unsubscribed(channel, count), List([Blob(Some("unsubscribe")), Blob(Some(channel)), Number(count)]))
    ensures ReadsAs(Message(channel, payload), List([Blob(Some("message")), Blob(Some(channel)), Blob(payload)]))
  {
    BlobRead(Some(channel));
    NumberRead(count);
    BlobRead(payload);
    BlobRead(Some("subscribe"));
    ThreeRead(Bulk(Some("subscribe")), Bulk(Some(channel)), Integer(count), Blob(Some("subscribe")), Blob(Some(channel)), Number(count));
    BlobRead(Some("unsubscribe"));
    ThreeRead(Bulk(Some("unsubscribe")), Bulk(Some(channel)), Integer(count), Blob(Some("unsubscribe")), Blob(Some(channel)), Number(count));
    BlobRead(Some("message"));
    ThreeRead(Bulk(Some("message")), Bulk(Some(channel)), Bulk(payload), Blob(Some("message")), Blob(Some(channel)), Blob(payload));
  }

  lemma ConcatTwo(a: string, b: string)
    ensures Concat([a, b]) == a + b
  {
    ConcatMore([], a);
    ConcatMore([a], b);
    assert [a] + [b] == [a, b];
  }

  lemma PongRead(payload: Option<string>)
    ensures ReadsAs(Pong(payload), List([Blob(Some("pong")), Blob(payload)]))
  {
    BlobRead(Some("pong"));
    BlobRead(payload);
    TwoRead(Bulk(Some("pong")), Bulk(payload), Blob(Some("pong")), Blob(payload));
  }

  lemma TwoRead(a: string, b: string, x: ReplyValue, y: ReplyValue)
    requires ReadsAs(a, x) && ReadsAs(b, y)
    ensures ReadsAs(ArrayHeader(2) + a + b, List([x, y]))
  {
    ConcatTwo(a, b);
    ArrayRead([a, b], [x, y]);
    Grouped(ArrayHeader(2), a, b);
  }

  // ---------- many replies, one after the other ----------

  // After reading k replies a client stands exactly behind the first k pieces.
  predicate StandsBehind(pieces: seq<string>, tail: string, k: nat)
    requires k <= |pieces|
  {
    var r := ParseReplies(Concat(pieces) + tail, k);
    r.Ok? && r.rest == Concat(pieces[k..]) + tail
  }

  // A client that reads reply after reply takes each piece for one reply, wherever it stops.
  ghost predicate InStep(pieces: seq<string>) {
    forall k: nat, tail: string :: k <= |pieces| ==> StandsBehind(pieces, tail, k)
  }

  lemma {:induction false} StandsBehindEach(pieces: seq<string>, tail: string, k: nat)
    requires k <= |pieces| && forall i :: 0 <= i < |pieces| ==> OneReply(pieces[i])
    ensures StandsBehind(pieces, tail, k)
    decreases |pieces|
  {
    if k == 0 {
      assert pieces[0..] == pieces;
    } else {
      ConcatFront(pieces, tail);
      assert Separate(pieces[0], Concat(pieces[1..]) + tail);
      StandsBehindEach(pieces[1..], tail, k - 1);
      assert pieces[1..][k - 1..] == pieces[k..];
    }
  }

  // Reading one reply, and then the others
  lemma {:induction false} OneMoreReply(s: string, k: nat, next: nat)
    requires next == k + 1 && ParseReplies(s, k).Ok? && ParseReplies(s, next).Ok?
    ensures var r := ParseReply(ParseReplies(s, k).rest); r.Ok? && r.rest == ParseReplies(s, next).rest
    decreases k
  {
    if k > 0 {
      OneMoreReply(ParseReply(s).rest, k - 1, k);
    } else {
      assert ParseReplies(ParseReply(s).rest, 0).Ok?;
    }
  }

  lemma PieceSeparate(pieces: seq<string>, i: nat, next: nat)
    requires i < |pieces| && next == i + 1 && StandsBehind(pieces, "", i) && StandsBehind(pieces, "", next)
    ensures Separate(pieces[i], Concat(pieces[next..]) + "")
  {
    OneMoreReply(Concat(pieces) + "", i, next);
    assert pieces[i..][1..] == pieces[next..];
    ConcatFront(pieces[i..], "");
  }

  // Pieces that are one reply each whatever follows them, or that are not whatever follows, are read in step if and
  // only if all are of the first kind.
  lemma InStepIff(pieces: seq<string>)
    requires forall i :: 0 <= i < |pieces| ==> OneReply(pieces[i]) || NotOneReply(pieces[i])
    ensures InStep(pieces) <==> forall i :: 0 <= i < |pieces| ==> OneReply(pieces[i])
  {
    if forall i :: 0 <= i < |pieces| ==> OneReply(pieces[i]) {
      forall k: nat, tail: string | k <= |pieces| ensures StandsBehind(pieces, tail, k) {
        StandsBehindEach(pieces, tail, k);
      }
    }
    if InStep(pieces) {
      forall i | 0 <= i < |pieces| ensures OneReply(pieces[i]) {
        var next := i + 1;
        assert StandsBehind(pieces, "", i) && StandsBehind(pieces, "", next);
        PieceSeparate(pieces, i, next);
      }
    }
  }

  // ---------- on the wire ----------

  lemma SmallNumbers()
    ensures Itoa(0) == "0" && Itoa(1) == "1" && Itoa(2) == "2" && Itoa(3) == "3" && Itoa(4) == "4"
  {
  }

  // What stands for a bulk string, for none, for a number, a status and an error, byte by byte
  lemma OnTheWire()
    ensures Bulk(None) == "$-1\r\n" && Bulk(Some("")) == "$0\r\n\r\n"
    ensures Integer(1) == ":1\r\n" && SimpleString("OK") == "+OK\r\n" && ErrorReply("ERR") == "-ERR\r\n"
  {
    SmallNumbers();
  }

  lemma WordsOnTheWire()
    ensures Bulk(Some("AUTH")) == "$4\r\nAUTH\r\n" && Bulk(Some("key")) == "$3\r\nkey\r\n" && ArrayHeader(2) == "*2\r\n"
  {
    SmallNumbers();
  }

  lemma BulksOfTwo(a: Option<string>, b: Option<string>)
    ensures Bulks([a, b]) == Bulk(a) + Bulk(b)
  {
    var items := [a, b];
    assert items[..1] == [a] && [a][..0] == [];
    assert Bulks([a]) == [] + Bulk(a) == Bulk(a);
  }

  // A command of two words, byte by byte
  lemma CommandOnTheWire()
    ensures ArrayOfBulks([Some("AUTH"), Some("key")]) == "*2\r\n" + ("$4\r\nAUTH\r\n" + "$3\r\nkey\r\n")
  {
    WordsOnTheWire();
    BulksOfTwo(Some("AUTH"), Some("key"));
  }
}
