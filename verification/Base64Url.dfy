/** Unpadded base64url, as Go's base64.RawURLEncoding: sections 5 and 3.2 of RFC 4648. */
module Base64Url {
  import opened Bytes
  import opened Sequences

  newtype sextet = x: int | 0 <= x < 64

  /** A-Z, a-z, 0-9, '-' and '_'. */
  function Symbol(v: sextet): byte {
    if v < 26 then 65 + v as byte
    else if v < 52 then 71 + v as byte
    else if v < 62 then v as byte - 4
    else if v == 62 then 45
    else 95
  }

  function ValueOf(c: byte): Option<sextet> {
    if 65 <= c <= 90 then Some((c - 65) as sextet)
    else if 97 <= c <= 122 then Some((c - 71) as sextet)
    else if 48 <= c <= 57 then Some((c as int + 4) as sextet)
    else if c == 45 then Some(62)
    else if c == 95 then Some(63)
    else None
  }

  predicate InAlphabet(c: byte) {
    ValueOf(c).Some?
  }

  /** The four sextets of three octets. */
  function Split(b0: byte, b1: byte, b2: byte): (sextet, sextet, sextet, sextet) {
    ((b0 / 4) as sextet, (b0 % 4 * 16 + b1 / 16) as sextet, (b1 % 16 * 4 + b2 / 64) as sextet, (b2 % 64) as sextet)
  }

  /** The three octets of four sextets. */
  function Join(v0: sextet, v1: sextet, v2: sextet, v3: sextet): (byte, byte, byte) {
    ((v0 as int * 4 + v1 as int / 16) as byte,
     (v1 as int % 16 * 16 + v2 as int / 4) as byte,
     (v2 as int % 4 * 64 + v3 as int) as byte)
  }

  lemma Remainders(b0: int, b1: int, b2: int)
    requires 0 <= b0 < 256 && 0 <= b1 < 256 && 0 <= b2 < 256
    ensures b0 / 4 * 4 + b0 % 4 == b0 && b1 / 16 * 16 + b1 % 16 == b1 && b2 / 64 * 64 + b2 % 64 == b2
    ensures 0 <= b1 / 16 < 16 && 0 <= b2 / 64 < 4
  {
  }

  lemma JoinSplit(b0: byte, b1: byte, b2: byte)
    ensures var (v0, v1, v2, v3) := Split(b0, b1, b2); Join(v0, v1, v2, v3) == (b0, b1, b2)
  {
    var (v0, v1, v2, v3) := Split(b0, b1, b2);
    Remainders(b0 as int, b1 as int, b2 as int);
    Unpack16(b0 as int % 4, b1 as int / 16);
    Unpack4(b1 as int % 16, b2 as int / 64);
    assert v1 as int / 16 == b0 as int % 4 && v1 as int % 16 == b1 as int / 16;
    assert v2 as int / 4 == b1 as int % 16 && v2 as int % 4 == b2 as int / 64;
  }

  lemma SplitJoin(v0: sextet, v1: sextet, v2: sextet, v3: sextet)
    ensures var (b0, b1, b2) := Join(v0, v1, v2, v3); Split(b0, b1, b2) == (v0, v1, v2, v3)
  {
    var (b0, b1, b2) := Join(v0, v1, v2, v3);
    Unpack4(v0 as int, v1 as int / 16);
    Unpack16(v1 as int % 16, v2 as int / 4);
    Unpack64(v2 as int % 4, v3 as int);
    assert b0 as int / 4 == v0 as int && b0 as int % 4 == v1 as int / 16;
    assert b1 as int / 16 == v1 as int % 16 && b1 as int % 16 == v2 as int / 4;
    assert b2 as int / 64 == v2 as int % 4 && b2 as int % 64 == v3 as int;
  }

  lemma Unpack4(high: int, low: int)
    requires 0 <= low < 4
    ensures (high * 4 + low) / 4 == high && (high * 4 + low) % 4 == low
  {
  }

  lemma Unpack16(high: int, low: int)
    requires 0 <= low < 16
    ensures (high * 16 + low) / 16 == high && (high * 16 + low) % 16 == low
  {
  }

  lemma Unpack64(high: int, low: int)
    requires 0 <= low < 64
    ensures (high * 64 + low) / 64 == high && (high * 64 + low) % 64 == low
  {
  }

  /** A last partial group is completed with zero octets and cut to its own sextets. */
  function ToSextets(b: Bytes): seq<sextet> {
    if b == [] then []
    else if |b| == 1 then var (v0, v1, _, _) := Split(b[0], 0, 0); [v0, v1]
    else if |b| == 2 then var (v0, v1, v2, _) := Split(b[0], b[1], 0); [v0, v1, v2]
    else var (v0, v1, v2, v3) := Split(b[0], b[1], b[2]); [v0, v1, v2, v3] + ToSextets(b[3..])
  }

  /** A lone last sextet is an error; the spare low bits of a partial group are ignored. */
  function FromSextets(v: seq<sextet>): Option<Bytes> {
    if v == [] then Some([])
    else if |v| == 1 then None
    else if |v| == 2 then Some([Join(v[0], v[1], 0, 0).0])
    else if |v| == 3 then var (b0, b1, _) := Join(v[0], v[1], v[2], 0); Some([b0, b1])
    else
      var (b0, b1, b2) := Join(v[0], v[1], v[2], v[3]);
      match FromSextets(v[4..])
      case None => None
      case Some(rest) => Some([b0, b1, b2] + rest)
  }

  function Spell(v: seq<sextet>): (s: Bytes)
    ensures |s| == |v|
  {
    seq(|v|, i requires 0 <= i < |v| => Symbol(v[i]))
  }

  function Read(s: Bytes): Option<seq<sextet>> {
    if forall c :: c in s ==> InAlphabet(c)
    then Some(seq(|s|, i requires 0 <= i < |s| => assert s[i] in s; ValueOf(s[i]).value))
    else None
  }

  predicate NotLineEnd(c: byte) {
    c != 10 && c != 13
  }

  function Encode(b: Bytes): Bytes {
    Spell(ToSextets(b))
  }

  /** Go's decoder skips line ends wherever they occur. */
  function Decode(s: Bytes): Option<Bytes> {
    match Read(Filter(NotLineEnd, s))
    case None => None
    case Some(v) => FromSextets(v)
  }

  lemma {:induction false} SextetsRoundTrip(b: Bytes)
    ensures FromSextets(ToSextets(b)) == Some(b)
  {
    if |b| > 2 {
      SextetsRoundTrip(b[3..]);
      JoinSplit(b[0], b[1], b[2]);
      assert ToSextets(b)[4..] == ToSextets(b[3..]);
      assert [b[0], b[1], b[2]] + b[3..] == b;
    } else if |b| == 2 {
      JoinSplit(b[0], b[1], 0);
      assert b == [b[0], b[1]];
    } else if |b| == 1 {
      JoinSplit(b[0], 0, 0);
      assert b == [b[0]];
    }
  }

  lemma ReadSpelled(v: seq<sextet>)
    ensures Read(Spell(v)) == Some(v)
    ensures forall c :: c in Spell(v) ==> InAlphabet(c) && NotLineEnd(c) && c != 46
  {
    var s := Spell(v);
    forall c | c in s ensures InAlphabet(c) && NotLineEnd(c) && c != 46 {
      var i :| 0 <= i < |s| && s[i] == c;
    }
    assert Read(s).value == v;
  }

  lemma SpellRead(s: Bytes)
    requires Read(s).Some?
    ensures Spell(Read(s).value) == s
  {
    forall i | 0 <= i < |s| ensures Spell(Read(s).value)[i] == s[i] {
      assert s[i] in s;
    }
  }

  /** Decoding what was encoded returns it, for every length modulo three; the text has no dot. */
  lemma RoundTrip(b: Bytes)
    ensures Decode(Encode(b)) == Some(b)
    ensures 46 !in Encode(b)
  {
    ReadSpelled(ToSextets(b));
    FilterAll(NotLineEnd, Encode(b));
    SextetsRoundTrip(b);
  }

  /** A final partial group uses only the bits it carries. */
  predicate NoSpareBits(v: seq<sextet>) {
    && (|v| % 4 == 2 ==> v[|v| - 1] % 16 == 0)
    && (|v| % 4 == 3 ==> v[|v| - 1] % 4 == 0)
  }

  lemma PairDecodes(v0: sextet, v1: sextet)
    ensures FromSextets([v0, v1]).Some?
    ensures ToSextets(FromSextets([v0, v1]).value) == [v0, v1] <==> v1 % 16 == 0
  {
    Unpack4(v0 as int, v1 as int / 16);
    var b0 := Join(v0, v1, 0, 0).0;
    var (w0, w1, _, _) := Split(b0, 0, 0);
    assert FromSextets([v0, v1]).value == [b0];
    assert ToSextets([b0]) == [w0, w1];
    assert w0 == v0 && (w1 == v1 <==> v1 % 16 == 0);
  }

  lemma TripleUnpacks(v0: sextet, v1: sextet, v2: sextet)
    ensures var (b0, b1, _) := Join(v0, v1, v2, 0);
      var (w0, w1, w2, _) := Split(b0, b1, 0); w0 == v0 && w1 == v1 && (w2 == v2 <==> v2 % 4 == 0)
  {
    Unpack4(v0 as int, v1 as int / 16);
    Unpack16(v1 as int % 16, v2 as int / 4);
    var (b0, b1, _) := Join(v0, v1, v2, 0);
    assert b0 as int / 4 == v0 as int && b0 as int % 4 == v1 as int / 16;
    assert b1 as int / 16 == v1 as int % 16 && b1 as int % 16 == v2 as int / 4;
  }

  lemma TripleDecodes(v0: sextet, v1: sextet, v2: sextet)
    ensures FromSextets([v0, v1, v2]).Some?
    ensures ToSextets(FromSextets([v0, v1, v2]).value) == [v0, v1, v2] <==> v2 % 4 == 0
  {
    TripleUnpacks(v0, v1, v2);
    var (b0, b1, _) := Join(v0, v1, v2, 0);
    var (w0, w1, w2, _) := Split(b0, b1, 0);
    assert FromSextets([v0, v1, v2]).value == [b0, b1];
    assert ToSextets([b0, b1]) == [w0, w1, w2];
  }

  lemma GroupEncodes(b0: byte, b1: byte, b2: byte, rest: Bytes)
    ensures var (v0, v1, v2, v3) := Split(b0, b1, b2);
      ToSextets([b0, b1, b2] + rest) == [v0, v1, v2, v3] + ToSextets(rest)
  {
    hide Split;
    assert ([b0, b1, b2] + rest)[3..] == rest;
  }

  lemma GroupDecodesTo(v: seq<sextet>)
    requires |v| >= 4 && FromSextets(v).Some?
    ensures FromSextets(v[4..]).Some?
    ensures var (b0, b1, b2) := Join(v[0], v[1], v[2], v[3]);
      FromSextets(v).value == [b0, b1, b2] + FromSextets(v[4..]).value
  {
    hide Join;
  }

  lemma CanonicalGroup(v: seq<sextet>)
    requires |v| >= 4 && FromSextets(v).Some?
    ensures FromSextets(v[4..]).Some?
    ensures ToSextets(FromSextets(v).value) == v[..4] + ToSextets(FromSextets(v[4..]).value)
  {
    hide *;
    SplitJoin(v[0], v[1], v[2], v[3]);
    GroupDecodesTo(v);
    var (b0, b1, b2) := Join(v[0], v[1], v[2], v[3]);
    GroupEncodes(b0, b1, b2, FromSextets(v[4..]).value);
    assert v[..4] == [v[0], v[1], v[2], v[3]];
  }

  /** A sextet sequence is what encoding its decoding gives back. */
  predicate Canonical(v: seq<sextet>)
    requires FromSextets(v).Some?
  {
    ToSextets(FromSextets(v).value) == v
  }

  lemma CanonicalAfterGroup(v: seq<sextet>)
    requires |v| >= 4 && FromSextets(v).Some?
    ensures FromSextets(v[4..]).Some? && (Canonical(v) <==> Canonical(v[4..]))
  {
    CanonicalGroup(v);
    var w := ToSextets(FromSextets(v[4..]).value);
    assert v == v[..4] + v[4..];
    assert (v[..4] + w)[4..] == w;
  }

  lemma SpareBitsAfterGroup(v: seq<sextet>)
    requires |v| >= 4
    ensures NoSpareBits(v) <==> NoSpareBits(v[4..])
  {
    if |v| > 4 {
      assert v[4..][|v| - 5] == v[|v| - 1];
    }
  }

  lemma GroupDecodes(v: seq<sextet>)
    requires |v| >= 4
    ensures FromSextets(v).Some? <==> FromSextets(v[4..]).Some?
  {
  }

  lemma FewDecode(v: seq<sextet>)
    requires |v| < 4
    ensures FromSextets(v).Some? <==> |v| != 1
  {
  }

  lemma SameRemainder(n: nat)
    requires n >= 4
    ensures n % 4 == (n - 4) % 4
  {
  }

  /** All lengths decode but those with a lone last sextet. */
  lemma {:induction false} DecodableLengths(v: seq<sextet>)
    ensures FromSextets(v).Some? <==> |v| % 4 != 1
  {
    if |v| < 4 {
      FewDecode(v);
    } else {
      GroupDecodes(v);
      SameRemainder(|v|);
      DecodableLengths(v[4..]);
    }
  }

  lemma {:induction false} CanonicalSextets(v: seq<sextet>)
    requires FromSextets(v).Some?
    ensures Canonical(v) <==> NoSpareBits(v)
  {
    if |v| >= 4 {
      CanonicalAfterGroup(v);
      CanonicalSextets(v[4..]);
      SpareBitsAfterGroup(v);
    } else if |v| == 3 {
      TripleDecodes(v[0], v[1], v[2]);
      assert v == [v[0], v[1], v[2]];
    } else if |v| == 2 {
      PairDecodes(v[0], v[1]);
      assert v == [v[0], v[1]];
    } else {
      assert v == [];
    }
  }

  /** Which texts decode, and which of those are what encoding the result gives back. */
  lemma DecodableAndCanonical(s: Bytes)
    ensures Decode(s).Some? <==> Read(Filter(NotLineEnd, s)).Some? && |Filter(NotLineEnd, s)| % 4 != 1
    ensures Decode(s).Some? ==>
      (Encode(Decode(s).value) == s <==> Read(s).Some? && NoSpareBits(Read(s).value))
  {
    var symbols := Filter(NotLineEnd, s);
    if Read(symbols).Some? {
      DecodableLengths(Read(symbols).value);
      if FromSextets(Read(symbols).value).Some? {
        CanonicalSextets(Read(symbols).value);
      }
      SpellRead(symbols);
    }
    if Decode(s).Some? {
      if Read(s).Some? {
        forall c | c in s ensures NotLineEnd(c) {
        }
        FilterAll(NotLineEnd, s);
      }
      if Encode(Decode(s).value) == s {
        ReadSpelled(ToSextets(Decode(s).value));
      }
    }
  }

  /** Table 2 of RFC 4648, section 5, column by column. */
  const ALPHABET :=
    Ascii("ABCDEFGHIJKLMNOPQ") + Ascii("RSTUVWXYZabcdefgh") + Ascii("ijklmnopqrstuvwxy") + Ascii("z0123456789-_")

  lemma FirstColumn(v: sextet)
    requires v < 17
    ensures Symbol(v) as int == "ABCDEFGHIJKLMNOPQ"[v] as int
  {
    assert v in {0, 1, 2, 3, 4, 5, 6, 7, 8, 9, 10, 11, 12, 13, 14, 15, 16};
  }

  lemma SecondColumn(v: sextet)
    requires 17 <= v < 34
    ensures Symbol(v) as int == "RSTUVWXYZabcdefgh"[v - 17] as int
  {
    assert v in {17, 18, 19, 20, 21, 22, 23, 24, 25, 26, 27, 28, 29, 30, 31, 32, 33};
  }

  lemma ThirdColumn(v: sextet)
    requires 34 <= v < 51
    ensures Symbol(v) as int == "ijklmnopqrstuvwxy"[v - 34] as int
  {
    assert v in {34, 35, 36, 37, 38, 39, 40, 41, 42, 43, 44, 45, 46, 47, 48, 49, 50};
  }

  lemma FourthColumn(v: sextet)
    requires 51 <= v
    ensures Symbol(v) as int == "z0123456789-_"[v - 51] as int
  {
    assert v in {51, 52, 53, 54, 55, 56, 57, 58, 59, 60, 61, 62, 63};
  }

  lemma SymbolRead(v: sextet)
    ensures |ALPHABET| == 64 && Symbol(v) == ALPHABET[v]
    ensures ValueOf(Symbol(v)) == Some(v)
  {
    if v < 17 {
      FirstColumn(v);
    } else if v < 34 {
      SecondColumn(v);
    } else if v < 51 {
      ThirdColumn(v);
    } else {
      FourthColumn(v);
    }
  }

  /** Encoding writes, and decoding reads, exactly the alphabet. */
  lemma SymbolsAreTheAlphabet(v: sextet, c: byte)
    ensures |ALPHABET| == 64 && Symbol(v) == ALPHABET[v]
    ensures ValueOf(c) == Some(v) <==> c == ALPHABET[v]
    ensures ValueOf(c).None? <==> c !in ALPHABET
  {
    SymbolRead(v);
    if ValueOf(c).None? {
      forall i | 0 <= i < 64 ensures c != ALPHABET[i] {
        SymbolRead(i as sextet);
      }
    } else {
      SymbolRead(ValueOf(c).value);
      assert c == ALPHABET[ValueOf(c).value];
    }
  }

  /** Groups of octets and of sextets are one big-endian number; missing octets count as zero. */
  lemma GroupsAreBigEndian(b0: byte, b1: byte, b2: byte)
    ensures var (v0, v1, v2, v3) := Split(b0, b1, b2);
      b0 as int * 65536 + b1 as int * 256 + b2 as int
      == v0 as int * 262144 + v1 as int * 4096 + v2 as int * 64 + v3 as int
    ensures ToSextets([b0]) == [Split(b0, 0, 0).0, Split(b0, 0, 0).1]
    ensures ToSextets([b0, b1]) == [Split(b0, b1, 0).0, Split(b0, b1, 0).1, Split(b0, b1, 0).2]
  {
  }

  /** Line feeds and carriage returns are skipped wherever they stand; any other foreign octet is an error. */
  lemma ForeignOctets(a: Bytes, c: byte, b: Bytes)
    ensures c == 10 || c == 13 ==> Decode(a + [c] + b) == Decode(a + b)
    ensures c != 10 && c != 13 && (c !in ALPHABET) ==>
      Decode(a + [c] + b).None?
  {
    FilterConcat(NotLineEnd, a + [c], b);
    FilterConcat(NotLineEnd, a, b);
    FilterAppend(NotLineEnd, a, c);
    SymbolsAreTheAlphabet(0, c);
    if NotLineEnd(c) {
      FilterMembers(NotLineEnd, a + [c] + b, c);
    }
  }
}
