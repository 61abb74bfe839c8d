/** The queue-depth publisher's own client of the Redis protocol: commands out, one-line replies in.
    Bytes are written as the characters U+0000 to U+00FF. */
module Resp {
  import opened Prelude
  import opened Text

  const CRLF := "\r\n"

  // ----- UTF-8 -----

  function Byte(n: nat): char
    requires n < 256
  {
    n as char
  }

  predicate IsAscii(s: string) {
    forall i :: 0 <= i < |s| ==> s[i] as int < 128
  }

  /** The continuation byte with the low six bits of n. */
  function Tail(n: nat): char { Byte(128 + n % 64) }

  function EncodeChar(c: char): (r: string)
    ensures 1 <= |r| <= 4
  {
    var n := c as int;
    if n < 128 then [c]
    else if n < 0x800 then [Byte(192 + n / 64), Tail(n)]
    else if n < 0x10000 then [Byte(224 + n / 4096), Tail(n / 64), Tail(n)]
    else [Byte(240 + n / 262144), Tail(n / 4096), Tail(n / 64), Tail(n)]
  }

  /** str.encode() */
  function Utf8(s: string): string {
    if s == "" then "" else EncodeChar(s[0]) + Utf8(s[1..])
  }

  lemma {:induction false} Utf8Append(a: string, b: string)
    ensures Utf8(a + b) == Utf8(a) + Utf8(b)
  {
    if a == "" {
      assert a + b == b;
    } else {
      Utf8Append(a[1..], b);
      assert (a + b)[1..] == a[1..] + b;
      Associative(EncodeChar(a[0]), Utf8(a[1..]), Utf8(b));
    }
  }

  /** ASCII text is its own encoding; any other text takes more bytes than it has characters. */
  lemma {:induction false} Utf8Length(s: string)
    ensures IsAscii(s) ==> Utf8(s) == s
    ensures !IsAscii(s) ==> |Utf8(s)| > |s|
    ensures |Utf8(s)| >= |s|
  {
    if s != "" {
      Utf8Length(s[1..]);
      assert s == [s[0]] + s[1..];
      if s[0] as int < 128 && IsAscii(s[1..]) {
        assert IsAscii(s);
      }
    }
  }

  lemma EncodeCharInjective(c: char, d: char, x: string, y: string)
    requires EncodeChar(c) + x == EncodeChar(d) + y
    ensures c == d && x == y
  {
    var s, t := EncodeChar(c) + x, EncodeChar(d) + y;
    assert s[0] == EncodeChar(c)[0] && t[0] == EncodeChar(d)[0];
    assert |EncodeChar(c)| == |EncodeChar(d)|;
    assert s[..|EncodeChar(c)|] == EncodeChar(c) && t[..|EncodeChar(c)|] == EncodeChar(d);
    assert s[|EncodeChar(c)|..] == x && t[|EncodeChar(c)|..] == y;
    CodePointKept(c);
    CodePointKept(d);
  }

  /** The code point a UTF-8 sequence stands for. */
  function CodePoint(e: string): int
    requires 1 <= |e| <= 4
  {
    if |e| == 1 then e[0] as int
    else if |e| == 2 then (e[0] as int - 192) * 64 + (e[1] as int - 128)
    else if |e| == 3 then (e[0] as int - 224) * 4096 + (e[1] as int - 128) * 64 + (e[2] as int - 128)
    else
      (e[0] as int - 240) * 262144 + (e[1] as int - 128) * 4096 + (e[2] as int - 128) * 64
      + (e[3] as int - 128)
  }

  lemma SixBits(n: nat)
    ensures n == 64 * (n / 64) + n % 64
    ensures n / 4096 == (n / 64) / 64
    ensures n / 262144 == (n / 4096) / 64
  {
  }

  lemma CodePointKept(c: char)
    ensures CodePoint(EncodeChar(c)) == c as int
  {
    var n := c as int;
    SixBits(n);
    SixBits(n / 64);
    SixBits(n / 4096);
  }

  lemma {:induction false} Utf8Injective(s: string, t: string)
    requires Utf8(s) == Utf8(t)
    ensures s == t
  {
    if s != "" && t != "" {
      EncodeCharInjective(s[0], t[0], Utf8(s[1..]), Utf8(t[1..]));
      Utf8Injective(s[1..], t[1..]);
      assert s == [s[0]] + s[1..] && t == [t[0]] + t[1..];
    }
  }

  // ----- commands -----

  function Bulk(part: string): string {
    "$" + Digits(|part|) + CRLF + part + CRLF
  }

  function Bulks(parts: seq<string>): string {
    if parts == [] then "" else Bulk(parts[0]) + Bulks(parts[1..])
  }

  function Command(parts: seq<string>): string {
    "*" + Digits(|parts|) + CRLF + Bulks(parts)
  }

  lemma {:induction false} BulksAppend(parts: seq<string>, part: string)
    ensures Bulks(parts + [part]) == Bulks(parts) + Bulk(part)
  {
    if parts == [] {
      BulksFirst(part, []);
      assert [part] + [] == parts + [part];
    } else {
      BulksAppend(parts[1..], part);
      BulksFirst(parts[0], parts[1..] + [part]);
      BulksFirst(parts[0], parts[1..]);
      assert [parts[0]] + (parts[1..] + [part]) == parts + [part] && [parts[0]] + parts[1..] == parts;
      Associative(Bulk(parts[0]), Bulks(parts[1..]), Bulk(part));
    }
  }

  lemma BulksFirst(part: string, rest: seq<string>)
    ensures Bulks([part] + rest) == Bulk(part) + Bulks(rest)
  {
    assert ([part] + rest)[1..] == rest;
  }

  /** The text of a command, piece by piece. */
  lemma CommandText(part: string, rest: seq<string>)
    ensures Command(rest) == "*" + Digits(|rest|) + "\r\n" + Bulks(rest) && Bulks([]) == ""
    ensures Bulks([part] + rest) == "$" + Digits(|part|) + "\r\n" + part + "\r\n" + Bulks(rest)
  {
    BulksFirst(part, rest);
  }

  /** _resp_bulk: lengths are counted in characters, and the text is encoded at the end. */
  method RespBulk(parts: seq<string>) returns (bytes: string)
    ensures bytes == Utf8(Command(parts))
  {
    var out := "*" + Digits(|parts|) + CRLF;
    for i := 0 to |parts|
      invariant out == "*" + Digits(|parts|) + CRLF + Bulks(parts[..i])
    {
      BulksAppend(parts[..i], parts[i]);
      assert parts[..i + 1] == parts[..i] + [parts[i]];
      out := out + ("$" + Digits(|parts[i]|) + CRLF + parts[i] + CRLF);
    }
    assert parts[..|parts|] == parts;
    bytes := Utf8(out);
  }

  // ----- the receiving side, by the protocol's sections "Arrays" and "Bulk strings" -----

  function DigitRun(s: string): (n: nat)
    ensures n <= |s| && AllDigits(s[..n])
  {
    if s != "" && IsDigit(s[0]) then
      var n := 1 + DigitRun(s[1..]);
      assert s[..n] == [s[0]] + s[1..][..n - 1];
      n
    else 0
  }

  datatype Parsed<T> = Parsed(value: T, rest: string) | Malformed

  /** A type byte, a decimal number and a line end. */
  function ReadCount(s: string, mark: char): Parsed<nat> {
    if s == "" || s[0] != mark then Malformed
    else
      var n := DigitRun(s[1..]);
      if n == 0 || !(CRLF <= s[1 + n..]) then Malformed
      else Parsed(DigitsValue(s[1..][..n]), s[3 + n..])
  }

  function ReadBulk(s: string): Parsed<string> {
    match ReadCount(s, '$')
    case Malformed => Malformed
    case Parsed(n, rest) =>
      if |rest| < n + 2 || rest[n..n + 2] != CRLF then Malformed else Parsed(rest[..n], rest[n + 2..])
  }

  function ReadBulks(s: string, n: nat): Parsed<seq<string>> {
    if n == 0 then Parsed([], s)
    else
      match ReadBulk(s)
      case Malformed => Malformed
      case Parsed(part, rest) =>
        (match ReadBulks(rest, n - 1)
         case Malformed => Malformed
         case Parsed(parts, rest') => Parsed([part] + parts, rest'))
  }

  /** A whole command: an array of bulk strings and nothing after it. */
  function Decode(s: string): Option<seq<string>> {
    match ReadCount(s, '*')
    case Malformed => None
    case Parsed(n, rest) =>
      (match ReadBulks(rest, n)
       case Malformed => None
       case Parsed(parts, rest') => if rest' == "" then Some(parts) else None)
  }

  lemma {:induction false} DigitRunStops(digits: string, rest: string)
    requires AllDigits(digits) && (rest == "" || !IsDigit(rest[0]))
    ensures DigitRun(digits + rest) == |digits|
  {
    if digits == "" {
      assert digits + rest == rest;
    } else {
      DigitRunStops(digits[1..], rest);
      assert (digits + rest)[1..] == digits[1..] + rest;
    }
  }

  lemma CountReads(mark: char, n: nat, rest: string)
    ensures ReadCount([mark] + Digits(n) + CRLF + rest, mark) == Parsed(n, rest)
  {
    var s := [mark] + Digits(n) + CRLF + rest;
    assert s[1..] == Digits(n) + (CRLF + rest);
    DigitRunStops(Digits(n), CRLF + rest);
    var k := |Digits(n)|;
    assert s[1..][..k] == Digits(n);
    assert s[1 + k..] == CRLF + rest && s[3 + k..] == rest;
    DigitsRead(n);
  }

  /** Reading back a bulk string whose payload is `payload` under a header saying `n`. */
  lemma BulkReads(n: nat, payload: string, rest: string)
    ensures var r := ReadBulk("$" + Digits(n) + CRLF + payload + CRLF + rest);
            && (n == |payload| ==> r == Parsed(payload, rest))
            && (r.Parsed? ==> |r.value| == n)
  {
    var s := "$" + Digits(n) + CRLF + payload + CRLF + rest;
    assert s == "$" + Digits(n) + CRLF + (payload + CRLF + rest);
    CountReads('$', n, payload + CRLF + rest);
    var t := payload + CRLF + rest;
    if n == |payload| {
      assert t[n..n + 2] == CRLF && t[..n] == payload && t[n + 2..] == rest;
    }
  }

  lemma BulksUnfold(parts: seq<string>, rest: string)
    requires parts != []
    ensures Bulks(parts) + rest ==
            "$" + Digits(|parts[0]|) + CRLF + parts[0] + CRLF + (Bulks(parts[1..]) + rest)
  {
    Associative(Bulk(parts[0]), Bulks(parts[1..]), rest);
  }

  lemma {:induction false} BulksRead(parts: seq<string>, rest: string)
    ensures ReadBulks(Bulks(parts) + rest, |parts|) == Parsed(parts, rest)
  {
    if parts == [] {
      assert Bulks(parts) + rest == rest;
    } else {
      BulksRead(parts[1..], rest);
      FirstReads(parts, rest);
      ThenReads(Bulks(parts) + rest, parts, Bulks(parts[1..]) + rest, rest);
    }
  }

  lemma ThenReads(s: string, parts: seq<string>, more: string, rest: string)
    requires parts != [] && ReadBulk(s) == Parsed(parts[0], more)
    requires ReadBulks(more, |parts| - 1) == Parsed(parts[1..], rest)
    ensures ReadBulks(s, |parts|) == Parsed(parts, rest)
  {
    assert parts == [parts[0]] + parts[1..];
  }

  lemma FirstReads(parts: seq<string>, rest: string)
    requires parts != []
    ensures ReadBulk(Bulks(parts) + rest) == Parsed(parts[0], Bulks(parts[1..]) + rest)
  {
    BulksUnfold(parts, rest);
    BulkReads(|parts[0]|, parts[0], Bulks(parts[1..]) + rest);
  }

  /** Counted in characters the command is uniquely decodable, whatever the arguments contain. */
  lemma CommandReads(parts: seq<string>)
    ensures Decode(Command(parts)) == Some(parts)
  {
    assert Command(parts) == ['*'] + Digits(|parts|) + CRLF + Bulks(parts);
    CountReads('*', |parts|, Bulks(parts));
    BulksRead(parts, "");
    assert Bulks(parts) + "" == Bulks(parts);
  }

  /** Two different argument lists never share an encoding. */
  lemma EncodingIsInjective(a: seq<string>, b: seq<string>)
    requires Utf8(Command(a)) == Utf8(Command(b))
    ensures a == b
  {
    Utf8Injective(Command(a), Command(b));
    CommandReads(a);
    CommandReads(b);
  }

  // ----- what the server receives -----

  function Utf8All(parts: seq<string>): (r: seq<string>)
    ensures |r| == |parts|
  {
    if parts == [] then [] else [Utf8(parts[0])] + Utf8All(parts[1..])
  }

  predicate AllAscii(parts: seq<string>) {
    forall i :: 0 <= i < |parts| ==> IsAscii(parts[i])
  }

  lemma HeaderUtf8(mark: char, n: nat)
    requires mark as int < 128
    ensures Utf8([mark] + Digits(n) + CRLF) == [mark] + Digits(n) + CRLF
  {
    Utf8Length([mark] + Digits(n) + CRLF);
  }

  lemma BulkUtf8(part: string)
    ensures Utf8(Bulk(part)) == "$" + Digits(|part|) + CRLF + Utf8(part) + CRLF
  {
    HeaderUtf8('$', |part|);
    Utf8Append("$" + Digits(|part|) + CRLF, part);
    Utf8Append("$" + Digits(|part|) + CRLF + part, CRLF);
    Utf8Length(CRLF);
  }

  lemma BulksUtf8(parts: seq<string>)
    requires parts != []
    ensures Utf8(Bulks(parts)) ==
            "$" + Digits(|parts[0]|) + CRLF + Utf8(parts[0]) + CRLF + Utf8(Bulks(parts[1..]))
  {
    BulkUtf8(parts[0]);
    Utf8Append(Bulk(parts[0]), Bulks(parts[1..]));
  }

  /** The server gets the arguments exactly when all of them are ASCII: a longer argument is cut to
      the number of its characters. */
  lemma {:induction false} BulksReceived(parts: seq<string>)
    ensures ReadBulks(Utf8(Bulks(parts)), |parts|) == Parsed(Utf8All(parts), "") <==> AllAscii(parts)
  {
    if parts != [] {
      BulksReceived(parts[1..]);
      if IsAscii(parts[0]) {
        AsciiHead(parts);
      } else {
        LongHead(parts);
      }
    }
  }

  lemma AsciiHead(parts: seq<string>)
    requires parts != [] && IsAscii(parts[0])
    requires ReadBulks(Utf8(Bulks(parts[1..])), |parts| - 1) == Parsed(Utf8All(parts[1..]), "") <==>
             AllAscii(parts[1..])
    ensures ReadBulks(Utf8(Bulks(parts)), |parts|) == Parsed(Utf8All(parts), "") <==> AllAscii(parts)
  {
    AsciiReceived(parts);
    AllAsciiSplits(parts);
    Utf8AllFirst(parts);
    RestReceived(Utf8(Bulks(parts)), |parts|, Utf8(parts[0]), Utf8(Bulks(parts[1..])), Utf8All(parts[1..]));
  }

  lemma AsciiReceived(parts: seq<string>)
    requires parts != [] && IsAscii(parts[0])
    ensures ReadBulk(Utf8(Bulks(parts))) == Parsed(Utf8(parts[0]), Utf8(Bulks(parts[1..])))
  {
    BulksUtf8(parts);
    Utf8Length(parts[0]);
    BulkReads(|parts[0]|, Utf8(parts[0]), Utf8(Bulks(parts[1..])));
  }

  lemma Utf8AllFirst(parts: seq<string>)
    requires parts != []
    ensures Utf8All(parts) == [Utf8(parts[0])] + Utf8All(parts[1..])
  {
  }

  lemma AllAsciiSplits(parts: seq<string>)
    requires parts != []
    ensures AllAscii(parts) <==> IsAscii(parts[0]) && AllAscii(parts[1..])
  {
    assert forall i :: 0 <= i < |parts[1..]| ==> parts[1..][i] == parts[i + 1];
    assert forall i :: 0 < i < |parts| ==> parts[i] == parts[1..][i - 1];
  }

  /** After a first bulk string read right, the rest decides. */
  lemma RestReceived(s: string, n: nat, head: string, more: string, expected: seq<string>)
    requires n > 0 && ReadBulk(s) == Parsed(head, more)
    ensures ReadBulks(s, n) == Parsed([head] + expected, "") <==> ReadBulks(more, n - 1) == Parsed(expected, "")
  {
    SameHead(head, ReadBulks(more, n - 1), expected);
  }

  lemma LongHead(parts: seq<string>)
    requires parts != [] && !IsAscii(parts[0])
    ensures ReadBulks(Utf8(Bulks(parts)), |parts|) != Parsed(Utf8All(parts), "")
  {
    BulksUtf8(parts);
    Utf8Length(parts[0]);
    BulkReads(|parts[0]|, Utf8(parts[0]), Utf8(Bulks(parts[1..])));
    FirstReceived(Utf8(Bulks(parts)), |parts|);
  }

  /** The first argument received is the first bulk string. */
  lemma FirstReceived(s: string, n: nat)
    requires n > 0
    ensures var got, first := ReadBulks(s, n), ReadBulk(s);
            got.Parsed? ==> first.Parsed? && got.value != [] && got.value[0] == first.value
  {
  }

  lemma SameHead(head: string, tail: Parsed<seq<string>>, expected: seq<string>)
    ensures tail.Parsed? ==> ([head] + tail.value == [head] + expected <==> tail.value == expected)
  {
    if tail.Parsed? {
      assert ([head] + tail.value)[1..] == tail.value && ([head] + expected)[1..] == expected;
    }
  }

  lemma ServerReceives(parts: seq<string>)
    ensures Decode(Utf8(Command(parts))) == Some(Utf8All(parts)) <==> AllAscii(parts)
  {
    HeaderUtf8('*', |parts|);
    Utf8Append("*" + Digits(|parts|) + CRLF, Bulks(parts));
    CountReads('*', |parts|, Utf8(Bulks(parts)));
    BulksReceived(parts);
  }

  lemma {:induction false} AsciiStays(parts: seq<string>)
    requires AllAscii(parts)
    ensures Utf8All(parts) == parts
  {
    if parts != [] {
      Utf8Length(parts[0]);
      AsciiStays(parts[1..]);
    }
  }

  /** In particular ASCII arguments arrive as they are, line breaks in them included. */
  lemma AsciiArrives(parts: seq<string>)
    requires AllAscii(parts)
    ensures Decode(Utf8(Command(parts))) == Some(parts)
  {
    ServerReceives(parts);
    AsciiStays(parts);
  }

  // ----- replies -----

  predicate EndsLine(s: string) {
    |s| >= 2 && s[|s| - 2..] == CRLF
  }

  /** What the reader returns when the socket delivers these pieces; none left, or an empty one, means
      that the connection was closed. */
  function LineOf(buf: string, chunks: seq<string>): Option<string>
    decreases |chunks|
  {
    if EndsLine(buf) then Some(buf)
    else if chunks == [] || chunks[0] == "" then None
    else LineOf(buf + chunks[0], chunks[1..])
  }

  /** _read_line */
  method ReadLine(chunks: seq<string>) returns (line: Option<string>)
    ensures line == LineOf("", chunks)
  {
    var buf, i := "", 0;
    while !EndsLine(buf)
      invariant i <= |chunks|
      invariant LineOf(buf, chunks[i..]) == LineOf("", chunks)
      decreases |chunks| - i
    {
      if i == |chunks| || chunks[i] == "" {
        return None;
      }
      assert chunks[i..][1..] == chunks[i + 1..];
      buf := buf + chunks[i];
      i := i + 1;
    }
    line := Some(buf);
  }

  function Concat(chunks: seq<string>): string {
    if chunks == [] then "" else chunks[0] + Concat(chunks[1..])
  }

  /** A way in which `reply` may come off the socket, at most 64 bytes at a time. */
  predicate IsDelivery(reply: string, chunks: seq<string>) {
    Concat(chunks) == reply && forall i :: 0 <= i < |chunks| ==> 1 <= |chunks[i]| <= 64
  }

  /** One line: the only line end is at the end. */
  predicate IsOneLine(reply: string) {
    EndsLine(reply) && forall n :: 0 <= n < |reply| ==> !EndsLine(reply[..n])
  }

  lemma {:induction false} OneLineArrives(reply: string, buf: string, chunks: seq<string>)
    requires IsOneLine(reply) && buf + Concat(chunks) == reply
    requires forall i :: 0 <= i < |chunks| ==> chunks[i] != ""
    ensures LineOf(buf, chunks) == Some(reply)
    decreases |chunks|
  {
    if chunks == [] {
      assert buf == reply;
    } else {
      assert buf == reply[..|buf|] && |buf| < |reply|;
      assert (buf + chunks[0]) + Concat(chunks[1..]) == reply;
      OneLineArrives(reply, buf + chunks[0], chunks[1..]);
    }
  }

  /** `s` byte by byte. */
  function Singles(s: string): (r: seq<string>)
    ensures IsDelivery(s, r)
  {
    if s == "" then []
    else
      var r := [s[..1]] + Singles(s[1..]);
      assert r[1..] == Singles(s[1..]) && s == s[..1] + s[1..];
      r
  }

  lemma {:induction false} SinglesStopEarly(buf: string, rest: string, n: nat)
    requires |buf| <= n < |buf + rest| && EndsLine((buf + rest)[..n])
    ensures LineOf(buf, Singles(rest)).Some? && |LineOf(buf, Singles(rest)).value| <= n
    decreases |rest|
  {
    assert (buf + rest)[..|buf|] == buf;
    if !EndsLine(buf) {
      var buf' := buf + rest[..1];
      assert buf' + rest[1..] == buf + rest;
      assert Singles(rest)[0] == rest[..1] && Singles(rest)[1..] == Singles(rest[1..]);
      SinglesStopEarly(buf', rest[1..], n);
    }
  }

  lemma {:induction false} SinglesOfNoLine(buf: string, rest: string)
    requires !EndsLine(buf + rest)
    ensures LineOf(buf, Singles(rest)) != Some(buf + rest)
    decreases |rest|
  {
    if rest == "" {
      assert buf + rest == buf;
    } else {
      var buf' := buf + rest[..1];
      assert buf' + rest[1..] == buf + rest;
      assert Singles(rest)[0] == rest[..1] && Singles(rest)[1..] == Singles(rest[1..]);
      SinglesOfNoLine(buf', rest[1..]);
    }
  }

  ghost predicate ReadWhole(reply: string) {
    forall chunks :: IsDelivery(reply, chunks) ==> LineOf("", chunks) == Some(reply)
  }

  /** A reply is read whole however it is delivered exactly when it is one line. */
  lemma ReadWholeIffOneLine(reply: string)
    ensures ReadWhole(reply) <==> IsOneLine(reply)
  {
    if IsOneLine(reply) {
      forall chunks | IsDelivery(reply, chunks) ensures LineOf("", chunks) == Some(reply) {
        assert "" + Concat(chunks) == reply;
        OneLineArrives(reply, "", chunks);
      }
    } else {
      assert IsDelivery(reply, Singles(reply));
      assert "" + reply == reply;
      if EndsLine(reply) {
        var n :| 0 <= n < |reply| && EndsLine(reply[..n]);
        SinglesStopEarly("", reply, n);
      } else {
        SinglesOfNoLine("", reply);
      }
    }
  }
}
