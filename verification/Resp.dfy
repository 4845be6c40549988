/** The hand-written Redis command encoder and a decoder for the same wire format. */
module Resp {
  import opened Bytes
  import opened Sequences

  const CRLF: Bytes := [13, 10]

  function BulkString(p: Bytes): Bytes {
    [36] + Digits(|p|) + CRLF + p + CRLF
  }

  function BulkStrings(parts: seq<Bytes>): Bytes {
    FlatMap(BulkString, parts)
  }

  /** An array of bulk strings in RESP2. */
  function Command(parts: seq<Bytes>): Bytes {
    [42] + Digits(|parts|) + CRLF + BulkStrings(parts)
  }

  /** respArray: appends one bulk string per part to the header line. */
  method RespArray(parts: seq<Bytes>) returns (out: Bytes)
    ensures out == Command(parts)
  {
    out := [42] + Digits(|parts|) + CRLF;
    for i := 0 to |parts|
      invariant out == [42] + Digits(|parts|) + CRLF + BulkStrings(parts[..i])
    {
      FlatMapAppend(BulkString, parts[..i], parts[i]);
      assert parts[..i + 1] == parts[..i] + [parts[i]];
      out := out + ([36] + Digits(|parts[i]|) + CRLF + parts[i] + CRLF);
    }
    assert parts[..|parts|] == parts;
  }

  /** How many octets at the front of s are digits. */
  function LeadingDigits(s: Bytes): (n: nat)
    ensures n <= |s|
    ensures forall b :: b in s[..n] ==> IsDigit(b)
  {
    if s == [] || !IsDigit(s[0]) then 0
    else
      var n := LeadingDigits(s[1..]);
      assert s[..1 + n] == [s[0]] + s[1..][..n];
      1 + n
  }

  /** Reads a type marker, a decimal length and a line end. */
  function ReadLength(marker: byte, s: Bytes): (r: Option<(nat, Bytes)>)
    ensures r.Some? ==> |r.value.1| < |s|
  {
    if s == [] || s[0] != marker then None
    else
      var n := LeadingDigits(s[1..]);
      if n > 0 && |s| >= n + 3 && s[n + 1] == 13 && s[n + 2] == 10
      then Some((Numeral(s[1..][..n]), s[n + 3..]))
      else None
  }

  /** Reads one bulk string; its content is taken by length alone, whatever octets it holds. */
  function ReadBulk(s: Bytes): (r: Option<(Bytes, Bytes)>)
  {
    match ReadLength(36, s)
    case None => None
    case Some((length, rest)) =>
      if length + 2 <= |rest| && rest[length] == 13 && rest[length + 1] == 10
      then Some((rest[..length], rest[length + 2..]))
      else None
  }

  function ReadBulks(n: nat, s: Bytes): Option<(seq<Bytes>, Bytes)> {
    if n == 0 then Some(([], s))
    else match ReadBulk(s)
      case None => None
      case Some((p, rest)) =>
        match ReadBulks(n - 1, rest)
        case None => None
        case Some((ps, end)) => Some(([p] + ps, end))
  }

  /** Reads one command from the front of a byte stream. */
  function Decode(s: Bytes): Option<(seq<Bytes>, Bytes)> {
    match ReadLength(42, s)
    case None => None
    case Some((n, rest)) => ReadBulks(n, rest)
  }

  lemma {:induction false} DigitsThenOther(d: Bytes, tail: Bytes)
    requires forall b :: b in d ==> IsDigit(b)
    requires tail == [] || !IsDigit(tail[0])
    ensures LeadingDigits(d + tail) == |d|
  {
    if d == [] {
      assert d + tail == tail;
    } else {
      DigitsThenOther(d[1..], tail);
      assert (d + tail)[1..] == d[1..] + tail;
      assert (d + tail)[0] == d[0];
    }
  }

  lemma LengthRoundTrip(marker: byte, n: nat, tail: Bytes)
    ensures ReadLength(marker, [marker] + Digits(n) + CRLF + tail) == Some((n, tail))
  {
    var d := Digits(n);
    var s := [marker] + d + CRLF + tail;
    assert s[1..] == d + (CRLF + tail);
    DigitsThenOther(d, CRLF + tail);
    NumeralOfDigits(n);
    assert s[1..][..|d|] == d;
    assert s[1 + |d|..] == CRLF + tail;
    assert s[|d| + 3..] == tail;
  }

  lemma BulkRoundTrip(p: Bytes, tail: Bytes)
    ensures ReadBulk(BulkString(p) + tail) == Some((p, tail))
  {
    LengthRoundTrip(36, |p|, p + CRLF + tail);
    assert BulkString(p) + tail == [36] + Digits(|p|) + CRLF + (p + CRLF + tail);
    var rest := p + CRLF + tail;
    assert rest[..|p|] == p;
    assert rest[|p|..|p| + 2] == CRLF;
    assert rest[|p| + 2..] == tail;
  }

  lemma {:induction false} BulksRoundTrip(parts: seq<Bytes>, tail: Bytes)
    ensures ReadBulks(|parts|, BulkStrings(parts) + tail) == Some((parts, tail))
  {
    if parts == [] {
      assert BulkStrings(parts) + tail == tail;
    } else {
      var later := BulkStrings(parts[1..]) + tail;
      assert BulkStrings(parts) + tail == BulkString(parts[0]) + later by {
        FlatMapFirst(BulkString, parts);
      }
      BulkRoundTrip(parts[0], later);
      BulksRoundTrip(parts[1..], tail);
      assert [parts[0]] + parts[1..] == parts;
    }
  }

  /** Decoding recovers exactly the parts and exactly what followed them on the stream. */
  lemma CommandRoundTrip(parts: seq<Bytes>, tail: Bytes)
    ensures Decode(Command(parts) + tail) == Some((parts, tail))
  {
    LengthRoundTrip(42, |parts|, BulkStrings(parts) + tail);
    assert Command(parts) + tail == [42] + Digits(|parts|) + CRLF + (BulkStrings(parts) + tail);
    BulksRoundTrip(parts, tail);
  }

  /** Two streams that start with a command and are equal start with the same command. */
  lemma CommandsAreSelfDelimiting(a: seq<Bytes>, tailA: Bytes, b: seq<Bytes>, tailB: Bytes)
    requires Command(a) + tailA == Command(b) + tailB
    ensures a == b && tailA == tailB
  {
    CommandRoundTrip(a, tailA);
    CommandRoundTrip(b, tailB);
  }

  /** A bulk string on the wire: a dollar sign, its length in decimal, CR LF, its octets, CR LF. */
  lemma BulkOnTheWire(p: Bytes)
    ensures BulkString(p) == [36] + Digits(|p|) + [13, 10] + p + [13, 10]
  {
  }

  lemma NoBulks()
    ensures BulkStrings([]) == []
  {
  }

  lemma ThreeBulks(p: Bytes, q: Bytes, r: Bytes)
    ensures BulkStrings([p, q, r]) == BulkString(p) + BulkString(q) + BulkString(r)
  {
    hide BulkString, FlatMap;
    var none: seq<Bytes> := [];
    NoBulks();
    assert none + [p] == [p] && [p] + [q] == [p, q] && [p, q] + [r] == [p, q, r];
    FlatMapAppend(BulkString, none, p);
    FlatMapAppend(BulkString, [p], q);
    FlatMapAppend(BulkString, [p, q], r);
    assert BulkStrings([p]) == BulkString(p);
  }

  lemma ThreeOnTheWire(p: Bytes, q: Bytes, r: Bytes)
    ensures Command([p, q, r]) == [42, 51, 13, 10] + (BulkString(p) + BulkString(q) + BulkString(r))
  {
    hide BulkString, BulkStrings;
    ThreeBulks(p, q, r);
    assert Digits(3) == [51];
    assert [42] + [51] + CRLF == [42, 51, 13, 10];
  }

  lemma LengthDigits()
    ensures Digits(7) == [55] && Digits(13) == [49, 51]
  {
    assert Digits(1) == [49];
  }

  /** A publish on the wire: *3, $7 and PUBLISH, $13 and device-events, then the length and the payload. */
  lemma PublishOnTheWire(publish: Bytes, channel: Bytes, payload: Bytes)
    requires publish == [80, 85, 66, 76, 73, 83, 72]
    requires channel == [100, 101, 118, 105, 99, 101, 45, 101, 118, 101, 110, 116, 115]
    ensures Command([publish, channel, payload])
         == [42, 51, 13, 10]
          + (([36] + [55] + [13, 10] + publish + [13, 10])
             + ([36] + [49, 51] + [13, 10] + channel + [13, 10])
             + ([36] + Digits(|payload|) + [13, 10] + payload + [13, 10]))
  {
    hide Command, Digits;
    ThreeOnTheWire(publish, channel, payload);
    LengthDigits();
    BulkOnTheWire(publish);
    BulkOnTheWire(channel);
    BulkOnTheWire(payload);
  }
}
