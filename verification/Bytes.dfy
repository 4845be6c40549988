/** Go strings and byte slices: sequences of octets, and their decimal numerals. */
module Bytes {

  newtype byte = x: int | 0 <= x < 256

  type Bytes = seq<byte>

  /** The octets of a Go source literal. */
  function Ascii(s: string): (b: Bytes)
    requires forall c :: c in s ==> c as int < 256
    ensures |b| == |s|
    ensures forall i :: 0 <= i < |s| ==> b[i] as int == s[i] as int
  {
    seq(|s|, i requires 0 <= i < |s| => assert s[i] in s; s[i] as int as byte)
  }

  predicate IsDigit(b: byte) {
    48 <= b <= 57
  }

  /** Go's %d for a non-negative number. */
  function Digits(n: nat): (d: Bytes)
    ensures d != [] && forall b :: b in d ==> IsDigit(b)
  {
    if n < 10 then [(48 + n) as byte] else Digits(n / 10) + [(48 + n % 10) as byte]
  }

  /** The number a string of decimal digits denotes, leading zeros allowed. */
  function Numeral(d: Bytes): nat
    requires forall b :: b in d ==> IsDigit(b)
  {
    if d == [] then 0
    else
      assert d[|d| - 1] in d && IsDigit(d[|d| - 1]);
      Numeral(d[..|d| - 1]) * 10 + (d[|d| - 1] as int - 48)
  }

  lemma {:induction false} NumeralOfDigits(n: nat)
    ensures Numeral(Digits(n)) == n
  {
    var d := Digits(n);
    if n < 10 {
      assert d[..|d| - 1] == [];
    } else {
      NumeralOfDigits(n / 10);
      assert d[..|d| - 1] == Digits(n / 10);
    }
  }

  /** Go's %03d: zero padding on the left up to three digits. */
  function PadTo3(d: Bytes): Bytes
    decreases 3 - |d|
  {
    if |d| < 3 then PadTo3([48] + d) else d
  }

  lemma {:induction false} LeadingZero(d: Bytes)
    requires forall b :: b in d ==> IsDigit(b)
    ensures Numeral([48] + d) == Numeral(d)
  {
    if d == [] {
      assert ([48] + d)[..0] == d;
    } else {
      LeadingZero(d[..|d| - 1]);
      assert ([48] + d)[..|d|] == [48] + d[..|d| - 1];
    }
  }

  lemma {:induction false} PaddingKeepsNumeral(d: Bytes)
    requires forall b :: b in d ==> IsDigit(b)
    ensures forall b :: b in PadTo3(d) ==> IsDigit(b)
    ensures Numeral(PadTo3(d)) == Numeral(d)
    decreases 3 - |d|
  {
    if |d| < 3 {
      LeadingZero(d);
      PaddingKeepsNumeral([48] + d);
    }
  }

  /** A printed number has no leading zero but its only digit. */
  lemma {:induction false} NoLeadingZero(n: nat)
    ensures Digits(n)[0] == 48 ==> n == 0 && Digits(n) == [48]
  {
    if n < 10 {
    } else {
      NoLeadingZero(n / 10);
      assert Digits(n)[0] == Digits(n / 10)[0];
    }
  }

  /** Padding adds zeros in front, as many as are missing to three digits. */
  lemma {:induction false} PaddingExactly(d: Bytes)
    ensures PadTo3(d) == seq(if |d| < 3 then 3 - |d| else 0, i => 48) + d
    decreases 3 - |d|
  {
    if |d| < 3 {
      PaddingExactly([48] + d);
      assert seq(3 - |d|, i => 48 as byte) == seq(3 - |d| - 1, i => 48 as byte) + [48];
    }
  }
}
