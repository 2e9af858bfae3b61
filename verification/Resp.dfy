// The RESP codec: a parser and a printer of commands and replies. A Go string is a sequence of bytes; here each
// char stands for one byte.
module Resp {
  import opened Text

  // The errors that reading may end with. Broken stands for an error of the connection other than its end.
  datatype Error = EOF | UnexpectedEOF | Broken | Protocol | NotANumber | NilReply | Refused(message: string) | BadPrefix

  // A parse gives a value or an error, and what is left of the input; a slice too large to be made ends the process.
  datatype Parsed<T> = Ok(value: T, rest: string) | Fail(error: Error, rest: string) | Panic(rest: string)

  // What a reader runs in: the error that reading past the input gives, and the longest slices of strings and of
  // bytes that can be made.
  datatype Env = Env(end: Error, maxStrings: nat, maxBytes: nat)

  // A Go slice is never longer than an int can tell.
  predicate Realistic(env: Env) {
    env.maxStrings <= MAX_INT && env.maxBytes <= MAX_INT
  }

  // ---------- numbers ----------

  const MAX_INT := 0x7fff_ffff_ffff_ffff

  predicate IsDigit(c: char) {
    '0' <= c <= '9'
  }

  predicate AllDigits(s: string) {
    forall i :: 0 <= i < |s| ==> IsDigit(s[i])
  }

  function DigitValue(c: char): nat
    requires IsDigit(c)
  {
    c as int - '0' as int
  }

  function Value(s: string): nat
    requires AllDigits(s)
  {
    if s == [] then 0 else 10 * Value(s[..|s| - 1]) + DigitValue(s[|s| - 1])
  }

  // strconv.Atoi: a sign, digits, and nothing that a 64-bit integer cannot hold
  function Atoi(s: string): Option<int> {
    var body := if s != [] && s[0] in {'+', '-'} then s[1..] else s;
    if body == [] || !AllDigits(body) then None
    else
      var v: int := Value(body);
      var n := if s[0] == '-' then -v else v;
      if -MAX_INT - 1 <= n <= MAX_INT then Some(n) else None
  }

  function Digits(n: nat): (s: string)
    ensures s != [] && AllDigits(s) && Value(s) == n
  {
    var last := ('0' as int + n % 10) as char;
    if n < 10 then [last]
    else
      var s := Digits(n / 10) + [last];
      assert s[..|s| - 1] == Digits(n / 10);
      s
  }

  // strconv.Itoa
  function Itoa(n: int): string {
    if n < 0 then "-" + Digits(-n) else Digits(n)
  }

  // Reading a printed number gives it back, with nothing a line would end at.
  lemma AtoiItoa(n: int)
    ensures Atoi(Itoa(n)) == if -9223372036854775808 <= n <= 9223372036854775807 then Some(n) else None
    ensures forall i :: 0 <= i < |Itoa(n)| ==> IsDigit(Itoa(n)[i]) || Itoa(n)[i] == '-'
  {
    if n < 0 {
      assert Itoa(n)[1..] == Digits(-n);
    } else {
      assert IsDigit(Itoa(n)[0]);
    }
  }

  // A number is printed digit by digit, the highest first, behind a minus sign if it is negative.
  lemma ItoaPlaces(n: int, digit: nat)
    requires n >= 0 && digit < 10
    ensures Itoa(digit) == ["0123456789"[digit]]
    ensures n > 0 ==> Itoa(10 * n + digit) == Itoa(n) + ["0123456789"[digit]] && Itoa(-n) == "-" + Itoa(n)
  {
    assert ('0' as int + digit) as char == "0123456789"[digit];
    if n > 0 {
      assert (10 * n + digit) / 10 == n && (10 * n + digit) % 10 == digit;
    }
  }

  // ---------- reading ----------

  function Find(s: string, c: char): (r: Option<nat>)
    ensures r.Some? ==> r.value < |s| && s[r.value] == c && forall i :: 0 <= i < r.value ==> s[i] != c
    ensures r.None? ==> c !in s
  {
    if s == [] then None
    else if s[0] == c then Some(0)
    else match Find(s[1..], c)
      case None => None
      case Some(i) => Some(i + 1)
  }

  function DropCR(line: string): string {
    if line != [] && line[|line| - 1] == '\r' then line[..|line| - 1] else line
  }

  // readRESPLine
  function ParseLine(s: string, env: Env): Parsed<string> {
    match Find(s, '\n')
    case None => Fail(env.end, "")
    case Some(i) => Ok(DropCR(s[..i]), s[i + 1..])
  }

  // io.ReadFull, with what it reads left to the caller
  function ReadFullError(s: string, end: Error): Error {
    if s != [] && end == EOF then UnexpectedEOF else end
  }

  // What follows the line with the length: that many bytes and the end of a line
  function ParsePayload(rest: string, env: Env, length: int): Parsed<string> {
    if length < 0 then Ok("", rest)
    else if length + 2 > env.maxBytes then Panic(rest)
    else if |rest| < length + 2 then Fail(ReadFullError(rest, env.end), "")
    else if rest[length] != '\r' || rest[length + 1] != '\n' then Fail(Protocol, rest[length + 2..])
    else Ok(rest[..length], rest[length + 2..])
  }

  function ParseBulkString(s: string, env: Env): Parsed<string> {
    match ParseLine(s, env)
    case Ok(line, rest) =>
      (match Atoi(line)
       case None => Fail(Protocol, rest)
       case Some(length) => ParsePayload(rest, env, length))
    case other => other
  }

  function ParseString(s: string, env: Env): Parsed<string> {
    if s == [] then Fail(env.end, "")
    else if s[0] == '$' then ParseBulkString(s[1..], env)
    else if s[0] in {'+', ':'} then ParseLine(s[1..], env)
    else Fail(Protocol, s[1..])
  }

  function ParseStrings(s: string, env: Env, n: nat): Parsed<seq<string>> {
    if n == 0 then Ok([], s)
    else
      match ParseStrings(s, env, n - 1)
      case Ok(args, rest) => Added(args, ParseString(rest, env))
      case other => other
  }

  // readRESPArray
  function ParseArray(s: string, env: Env): Parsed<seq<string>> {
    if s == [] then Fail(env.end, "")
    else if s[0] != '*' then Fail(Protocol, s[1..])
    else
      match ParseLine(s[1..], env)
      case Fail(error, rest) => Fail(error, rest)
      case Panic(rest) => Panic(rest)
      case Ok(line, rest) =>
        match Atoi(line)
        case None => Fail(Protocol, rest)
        case Some(count) =>
          if count < 0 then Fail(Protocol, rest)
          else if count > env.maxStrings then Panic(rest)
          else ParseStrings(rest, env, count)
  }

  // readRESPBulk of the home client, which trims the length and does not look at the end of the payload
  function ParseBulkReply(s: string, env: Env): Parsed<string> {
    if s == [] then Fail(env.end, "")
    else if s[0] !in {'$', '-'} then Fail(BadPrefix, s[1..])
    else
      match Find(s[1..], '\n')
      case None => Fail(env.end, "")
      case Some(i) =>
        var line, rest := TrimSpace(s[1..][..i + 1]), s[1..][i + 1..];
        if s[0] == '-' then Fail(Refused(line), rest)
        else
          match Atoi(line)
          case None => Fail(NotANumber, rest)
          case Some(size) =>
            if size < 0 then Fail(NilReply, rest)
            else if size + 2 > env.maxBytes then Panic(rest)
            else if |rest| < size + 2 then Fail(ReadFullError(rest, env.end), "")
            else Ok(rest[..size], rest[size + 2..])
  }

  // A buffered reader; rest is what it has still to give, and env what it runs in.
  class Reader {
    var rest: string
    const env: Env

    constructor (input: string, env: Env)
      requires env.end.EOF? || env.end.Broken?
      ensures rest == input && this.env == env
    {
      rest, this.env := input, env;
    }

    method Byte() returns (r: Result<char>)
      modifies this
      ensures if old(rest) == [] then r == Err(env.end) && rest == [] else r == Got(old(rest)[0]) && rest == old(rest)[1..]
    {
      if rest == [] {
        return Err(env.end);
      }
      r, rest := Got(rest[0]), rest[1..];
    }

    // ReadString of a bufio.Reader
    method Until(c: char) returns (r: Result<string>)
      modifies this
      ensures match Find(old(rest), c)
        case None => r == Err(env.end) && rest == []
        case Some(i) => r == Got(old(rest)[..i + 1]) && rest == old(rest)[i + 1..]
    {
      match Find(rest, c)
      case None => r, rest := Err(env.end), [];
      case Some(i) => r, rest := Got(rest[..i + 1]), rest[i + 1..];
    }

    // io.ReadFull into a new buffer of n bytes
    method Full(n: nat) returns (r: Result<string>)
      requires n > 0
      modifies this
      ensures if n > env.maxBytes then r == Panicked && rest == old(rest)
        else if |old(rest)| < n then r == Err(ReadFullError(old(rest), env.end)) && rest == []
        else r == Got(old(rest)[..n]) && rest == old(rest)[n..]
    {
      if n > env.maxBytes {
        return Panicked;
      }
      if |rest| < n {
        r, rest := Err(ReadFullError(rest, env.end)), [];
      } else {
        r, rest := Got(rest[..n]), rest[n..];
      }
    }

    method ReadLine() returns (r: Result<string>)
      modifies this
      ensures Outcome(r, rest) == ParseLine(old(rest), env)
    {
      r := Until('\n');
      if r.Err? {
        return;
      }
      var line := r.value[..|r.value| - 1];
      assert line == old(rest)[..|line|];
      if |line| > 0 && line[|line| - 1] == '\r' {
        line := line[..|line| - 1];
      }
      r := Got(line);
    }

    method ReadBulkString() returns (r: Result<string>)
      modifies this
      ensures Outcome(r, rest) == ParseBulkString(old(rest), env)
    {
      r := ReadLine();
      if !r.Got? {
        return;
      }
      var length := Atoi(r.value);
      if length.None? {
        return Err(Protocol);
      }
      if length.value < 0 {
        return Got("");
      }
      var n := length.value;
      ghost var left := rest;
      r := Full(n + 2);
      if !r.Got? {
        return;
      }
      assert r.value[..n] == left[..n];
      if r.value[n] != '\r' || r.value[n + 1] != '\n' {
        return Err(Protocol);
      }
      r := Got(r.value[..n]);
    }

    method ReadString() returns (r: Result<string>)
      modifies this
      ensures Outcome(r, rest) == ParseString(old(rest), env)
    {
      var prefix := Byte();
      if prefix.Err? {
        return Err(prefix.error);
      }
      if prefix.value == '$' {
        r := ReadBulkString();
      } else if prefix.value == '+' || prefix.value == ':' {
        r := ReadLine();
      } else {
        r := Err(Protocol);
      }
    }

    method ReadArray() returns (r: Result<seq<string>>)
      modifies this
      ensures Outcome(r, rest) == ParseArray(old(rest), env)
    {
      var prefix := Byte();
      if prefix.Err? {
        return Err(prefix.error);
      }
      if prefix.value != '*' {
        return Err(Protocol);
      }
      var line := ReadLine();
      if line.Err? {
        return Err(line.error);
      }
      var count := Atoi(line.value);
      if count.None? || count.value < 0 {
        return Err(Protocol);
      }
      if count.value > env.maxStrings {
        return Panicked;
      }
      r := ReadStrings(count.value);
    }

    // The loop of readRESPArray
    method ReadStrings(count: nat) returns (r: Result<seq<string>>)
      modifies this
      ensures Outcome(r, rest) == ParseStrings(old(rest), env, count)
    {
      var args := [];
      for i := 0 to count
        invariant ParseStrings(old(rest), env, i) == Ok(args, rest)
      {
        ghost var before := rest;
        var value := ReadString();
        StringRead(old(rest), env, i, count, args, before, value, rest);
        if !value.Got? {
          return Instead(value);
        }
        args := args + [value.value];
      }
      r := Got(args);
    }

    method ReadBulkReply() returns (r: Result<string>)
      modifies this
      ensures Outcome(r, rest) == ParseBulkReply(old(rest), env)
    {
      var prefix := Byte();
      if prefix.Err? {
        return Err(prefix.error);
      }
      if prefix.value != '$' && prefix.value != '-' {
        return Err(BadPrefix);
      }
      var line := Until('\n');
      if line.Err? {
        return line;
      }
      if prefix.value == '-' {
        return Err(Refused(TrimSpace(line.value)));
      }
      var size := Atoi(TrimSpace(line.value));
      if size.None? {
        return Err(NotANumber);
      }
      if size.value < 0 {
        return Err(NilReply);
      }
      var n := size.value;
      ghost var left := rest;
      r := Full(n + 2);
      if r.Got? {
        assert r.value[..n] == left[..n];
        r := Got(r.value[..n]);
      }
    }
  }

  datatype Result<T> = Got(value: T) | Err(error: Error) | Panicked

  function Outcome<T>(r: Result<T>, rest: string): Parsed<T> {
    match r
    case Got(value) => Ok(value, rest)
    case Err(error) => Fail(error, rest)
    case Panicked => Panic(rest)
  }

  function Instead(r: Result<string>): Result<seq<string>>
    requires !r.Got?
  {
    if r.Err? then Err(r.error) else Panicked
  }

  // What the next string adds to those already read
  function Added(args: seq<string>, next: Parsed<string>): Parsed<seq<string>> {
    match next
    case Ok(arg, left) => Ok(args + [arg], left)
    case Fail(error, left) => Fail(error, left)
    case Panic(left) => Panic(left)
  }

  lemma StringRead(s: string, env: Env, i: nat, count: nat, args: seq<string>, before: string, r: Result<string>, left: string)
    requires ParseStrings(s, env, i) == Ok(args, before) && Outcome(r, left) == ParseString(before, env) && i < count
    ensures r.Got? ==> ParseStrings(s, env, i + 1) == Ok(args + [r.value], left)
    ensures !r.Got? ==> ParseStrings(s, env, count) == Outcome(Instead(r), left)
  {
    if !r.Got? {
      FailsEarly(s, env, i + 1, count);
    }
  }

  lemma {:induction false} FailsEarly(s: string, env: Env, n: nat, m: nat)
    requires n <= m && !ParseStrings(s, env, n).Ok?
    ensures ParseStrings(s, env, m) == ParseStrings(s, env, n)
    decreases m
  {
    if n < m {
      FailsEarly(s, env, n, m - 1);
    }
  }

  // ---------- printing ----------

  const CRLF := "\r\n"

  function SimpleString(value: string): string {
    "+" + value + CRLF
  }

  function ErrorReply(message: string): string {
    "-" + message + CRLF
  }

  function Integer(value: int): string {
    ":" + Itoa(value) + CRLF
  }

  // A bulk string; a nil payload has a form of its own.
  function Bulk(payload: Option<string>): string {
    match payload
    case None => "$-1" + CRLF
    case Some(p) => "$" + Itoa(|p|) + CRLF + p + CRLF
  }

  function Bulks(items: seq<Option<string>>): string {
    if items == [] then [] else Bulks(items[..|items| - 1]) + Bulk(items[|items| - 1])
  }

  function ArrayHeader(count: nat): string {
    "*" + Itoa(count) + CRLF
  }

  // writeRedisArrayOfBulkStrings
  function ArrayOfBulks(items: seq<Option<string>>): string {
    ArrayHeader(|items|) + Bulks(items)
  }

  function Plain(args: seq<string>): seq<Option<string>> {
    seq(|args|, i requires 0 <= i < |args| => Some(args[i]))
  }

  function Subscribed(channel: string, count: int): string {
    ArrayHeader(3) + Bulk(Some("subscribe")) + Bulk(Some(channel)) + Integer(count)
  }

  function Unsubscribed(channel: string, count: int): string {
    ArrayHeader(3) + Bulk(Some("unsubscribe")) + Bulk(Some(channel)) + Integer(count)
  }

  function Message(channel: string, payload: Option<string>): string {
    ArrayHeader(3) + Bulk(Some("message")) + Bulk(Some(channel)) + Bulk(payload)
  }

  function Pong(payload: Option<string>): string {
    ArrayHeader(2) + Bulk(Some("pong")) + Bulk(payload)
  }

  class Writer {
    var output: string

    constructor ()
      ensures output == ""
    {
      output := "";
    }

    method Put(s: string)
      modifies this
      ensures output == old(output) + s
    {
      output := output + s;
    }

    method PutBulk(payload: Option<string>)
      modifies this
      ensures output == old(output) + Bulk(payload)
    {
      if payload.None? {
        Put("$-1\r\n");
        return;
      }
      Put("$" + Itoa(|payload.value|) + "\r\n");
      Put(payload.value);
      Put("\r\n");
    }

    method PutHeader(count: nat)
      modifies this
      ensures output == old(output) + ArrayHeader(count)
    {
      Put("*" + Itoa(count) + "\r\n");
    }

    method PutInteger(value: int)
      modifies this
      ensures output == old(output) + Integer(value)
    {
      Put(":" + Itoa(value) + "\r\n");
    }

    method PutArrayOfBulks(items: seq<Option<string>>)
      modifies this
      ensures output == old(output) + ArrayOfBulks(items)
    {
      PutHeader(|items|);
      ghost var headed := output;
      PutBulks(items);
      Grouped(old(output), ArrayHeader(|items|), Bulks(items));
    }

    // The loop of writeRedisArrayOfBulkStrings
    method PutBulks(items: seq<Option<string>>)
      modifies this
      ensures output == old(output) + Bulks(items)
    {
      for i := 0 to |items|
        invariant output == old(output) + Bulks(items[..i])
      {
        assert items[..i + 1][..i] == items[..i];
        Grouped(old(output), Bulks(items[..i]), Bulk(items[i]));
        PutBulk(items[i]);
      }
      assert items[..|items|] == items;
    }

    // The shape of the pub/sub replies: two bulk strings and a last part
    method PutPair(count: nat, kind: string, second: Option<string>)
      modifies this
      ensures output == old(output) + (ArrayHeader(count) + Bulk(Some(kind)) + Bulk(second))
    {
      PutHeader(count);
      Grouped(old(output), ArrayHeader(count), Bulk(Some(kind)));
      PutBulk(Some(kind));
      Grouped(old(output), ArrayHeader(count) + Bulk(Some(kind)), Bulk(second));
      PutBulk(second);
    }

    method PutSubscribed(channel: string, count: int)
      modifies this
      ensures output == old(output) + Subscribed(channel, count)
    {
      PutPair(3, "subscribe", Some(channel));
      Grouped(old(output), ArrayHeader(3) + Bulk(Some("subscribe")) + Bulk(Some(channel)), Integer(count));
      PutInteger(count);
    }

    method PutUnsubscribed(channel: string, count: int)
      modifies this
      ensures output == old(output) + Unsubscribed(channel, count)
    {
      PutPair(3, "unsubscribe", Some(channel));
      Grouped(old(output), ArrayHeader(3) + Bulk(Some("unsubscribe")) + Bulk(Some(channel)), Integer(count));
      PutInteger(count);
    }

    method PutMessage(channel: string, payload: Option<string>)
      modifies this
      ensures output == old(output) + Message(channel, payload)
    {
      PutPair(3, "message", Some(channel));
      Grouped(old(output), ArrayHeader(3) + Bulk(Some("message")) + Bulk(Some(channel)), Bulk(payload));
      PutBulk(payload);
    }

    method PutPong(payload: Option<string>)
      modifies this
      ensures output == old(output) + Pong(payload)
    {
      PutPair(2, "pong", payload);
    }
  }

  // encodeRESPArray of the home client
  method EncodeArray(args: seq<string>) returns (encoded: string)
    ensures encoded == ArrayOfBulks(Plain(args))
  {
    encoded := "*" + Itoa(|args|) + "\r\n";
    for i := 0 to |args|
      invariant encoded == ArrayHeader(|args|) + Bulks(Plain(args)[..i])
    {
      assert Plain(args)[..i + 1][..i] == Plain(args)[..i];
      Grouped(ArrayHeader(|args|), Bulks(Plain(args)[..i]), Bulk(Some(args[i])));
      encoded := AppendBulk(encoded, args[i]);
    }
    assert Plain(args)[..|args|] == Plain(args);
  }

  // The five writes of the loop of encodeRESPArray
  method AppendBulk(buffer: string, arg: string) returns (r: string)
    ensures r == buffer + Bulk(Some(arg))
  {
    r := buffer + "$";
    r := r + Itoa(|arg|);
    r := r + "\r\n";
    r := r + arg;
    r := r + "\r\n";
    assert r == buffer + Bulk(Some(arg));
  }
}
