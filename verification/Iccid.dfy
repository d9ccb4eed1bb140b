/** Decoding a card's ICCID: digits in swapped nibbles, padded with F (section 13.2 of ETSI TS 102 221). */
module Iccid {

  // A byte as the signed char the decoder works on.
  type Byte = b: int | -128 <= b < 128

  type Nibble = n: int | 0 <= n < 16

  type Digit = d: int | 0 <= d < 10

  // Division and remainder round down, as the shift and the masks do on two's complement.
  function Low(b: Byte): Nibble {
    b % 16
  }

  function High(b: Byte): Nibble {
    (b / 16) % 16
  }

  const NUL: char := 0 as char

  // The lookup table: no character for the nibbles above nine.
  function Character(n: Nibble): char {
    if n < 10 then DigitChar(n) else NUL
  }

  function DigitChar(d: Digit): (c: char)
    ensures c != NUL && '0' <= c <= '9'
  {
    '0' + d as char
  }

  function Nibbles(bcd: seq<Byte>): (ns: seq<Nibble>)
    ensures |ns| == 2 * |bcd|
  {
    if bcd == [] then [] else Nibbles(bcd[..|bcd| - 1]) + [Low(bcd[|bcd| - 1]), High(bcd[|bcd| - 1])]
  }

  function Decoded(bcd: seq<Byte>): (s: string)
    ensures |s| == 2 * |bcd|
  {
    var ns := Nibbles(bcd);
    seq(|ns|, i requires 0 <= i < |ns| => Character(ns[i]))
  }

  // A buffer read as a C string.
  function Text(s: string): (t: string)
    ensures t <= s && NUL !in t
    ensures |t| < |s| ==> s[|t|] == NUL
  {
    if s == [] || s[0] == NUL then [] else [s[0]] + Text(s[1..])
  }

  method DecodeIccid(bcd: seq<Byte>) returns (str: string)
    ensures str == Decoded(bcd)
  {
    str := "";
    for i := 0 to |bcd|
      invariant str == Decoded(bcd[..i])
    {
      assert bcd[..i + 1][..i] == bcd[..i];
      str := str + [Character(Low(bcd[i]))];
      str := str + [Character(High(bcd[i]))];
    }
    assert bcd[..|bcd|] == bcd;
  }

  // ---- encoding ----

  function Signed(v: int): Byte
    requires 0 <= v < 256
  {
    if v < 128 then v else v - 256
  }

  function Packed(low: Nibble, high: Nibble): (b: Byte)
    ensures Low(b) == low && High(b) == high
  {
    Signed(16 * high + low)
  }

  // Two digits to a byte, the first in the low nibble; an odd last digit is padded.
  function Encoded(digits: seq<Digit>): (bcd: seq<Byte>)
    ensures |bcd| == (|digits| + 1) / 2
  {
    if digits == [] then []
    else if |digits| == 1 then [Packed(digits[0], 15)]
    else [Packed(digits[0], digits[1])] + Encoded(digits[2..])
  }

  function Written(digits: seq<Digit>): string {
    seq(|digits|, i requires 0 <= i < |digits| => DigitChar(digits[i]))
  }

  lemma {:induction false} NibblesAt(bcd: seq<Byte>, k: nat)
    requires k < |bcd|
    ensures Nibbles(bcd)[2 * k] == Low(bcd[k]) && Nibbles(bcd)[2 * k + 1] == High(bcd[k])
  {
    if k < |bcd| - 1 {
      NibblesAt(bcd[..|bcd| - 1], k);
    }
  }

  lemma {:induction false} ByteAt(digits: seq<Digit>, k: nat)
    requires k < |Encoded(digits)|
    ensures Low(Encoded(digits)[k]) == digits[2 * k]
    ensures High(Encoded(digits)[k]) == if 2 * k + 1 < |digits| then digits[2 * k + 1] else 15
  {
    if |digits| > 1 && k > 0 {
      ByteAt(digits[2..], k - 1);
    }
  }

  lemma {:induction false} TextIs(s: string, t: string)
    requires t <= s && NUL !in t && (|t| < |s| ==> s[|t|] == NUL)
    ensures Text(s) == t
  {
    if t != [] {
      assert s[0] == t[0];
      TextIs(s[1..], t[1..]);
    }
  }

  lemma DigitsWritten(digits: seq<Digit>)
    ensures forall i :: 0 <= i < |digits| ==> Written(digits)[i] == "0123456789"[digits[i]]
  {
    forall i | 0 <= i < |digits|
      ensures Written(digits)[i] == "0123456789"[digits[i]]
    {
      DigitIs(digits[i]);
    }
  }

  lemma DigitIs(d: Digit)
    ensures DigitChar(d) == "0123456789"[d]
  {
  }

  lemma ComesBack(digits: seq<Digit>)
    ensures Text(Decoded(Encoded(digits))) == Written(digits)
  {
    var bcd, written := Encoded(digits), Written(digits);
    var s := Decoded(bcd);
    forall i | 0 <= i < |s|
      ensures s[i] == if i < |digits| then written[i] else NUL
    {
      NibblesAt(bcd, i / 2);
      ByteAt(digits, i / 2);
    }
    TextIs(s, written);
  }

  // Any digits, of even or odd number, come back.
  lemma RoundTrip(digits: seq<Digit>)
    ensures var t := Text(Decoded(Encoded(digits)));
            |t| == |digits| && forall i :: 0 <= i < |t| ==> t[i] == "0123456789"[digits[i]]
  {
    hide Text, Decoded, Encoded, DigitChar;
    ComesBack(digits);
    DigitsWritten(digits);
  }

  // A text spells the nibbles before the first one that is no digit.
  predicate Spells(t: string, ns: seq<Nibble>) {
    && |t| <= |ns|
    && (forall i :: 0 <= i < |t| ==> ns[i] < 10 && t[i] == DigitChar(ns[i]))
    && (|t| < |ns| ==> ns[|t|] >= 10)
  }

  // Whatever the bytes: the text spells their nibbles, so it has digits only, at most two for a byte.
  lemma TextOfAnything(bcd: seq<Byte>)
    ensures var t := Text(Decoded(bcd));
            Spells(t, Nibbles(bcd)) && |t| <= 2 * |bcd| && forall i :: 0 <= i < |t| ==> '0' <= t[i] <= '9'
  {
    var t, s := Text(Decoded(bcd)), Decoded(bcd);
    forall i | 0 <= i < |t|
      ensures Nibbles(bcd)[i] < 10 && t[i] == DigitChar(Nibbles(bcd)[i])
    {
      assert t[i] == s[i] && t[i] in t;
    }
  }

  // Each byte that the text covers, taken as unsigned, has its first digit in the low half and its second in the high one.
  lemma BytesSpelled(bcd: seq<Byte>, k: nat)
    requires 2 * k + 1 < |Text(Decoded(bcd))|
    ensures k < |bcd|
    ensures var t, u := Text(Decoded(bcd)), (bcd[k] as int + 256) % 256;
            u % 16 < 10 && u / 16 < 10 && t[2 * k] == "0123456789"[u % 16] && t[2 * k + 1] == "0123456789"[u / 16]
  {
    TextOfAnything(bcd);
    NibblesAt(bcd, k);
    var u := (bcd[k] as int + 256) % 256;
    Unsigned(bcd[k]);
    DigitIs(u % 16);
    DigitIs(u / 16);
  }

  lemma Unsigned(b: Byte)
    ensures var u := (b as int + 256) % 256;
            Low(b) == u % 16 && High(b) == u / 16
  {
  }

  lemma SpelledDigits(digits: seq<Digit>, ns: seq<Nibble>)
    requires Spells(Written(digits), ns)
    ensures |digits| <= |ns|
    ensures forall i :: 0 <= i < |digits| ==> ns[i] == digits[i]
  {
    var t := Written(digits);
    forall i | 0 <= i < |digits|
      ensures ns[i] == digits[i]
    {
      assert t[i] == DigitChar(digits[i]) && t[i] == DigitChar(ns[i]);
      SameDigit(digits[i], ns[i]);
    }
  }

  lemma SameDigit(d: Digit, n: Nibble)
    requires n < 10 && DigitChar(d) == DigitChar(n)
    ensures n == d
  {
  }

  // The bytes are determined by the text as far as it goes: encoding it again gives the same nibbles.
  lemma EncodesBack(bcd: seq<Byte>, digits: seq<Digit>)
    requires Spells(Written(digits), Nibbles(bcd))
    ensures forall k :: 0 <= k < |digits| / 2 ==> Encoded(digits)[k] == bcd[k]
    ensures |digits| % 2 == 1 ==> Low(bcd[|digits| / 2]) == digits[|digits| - 1]
  {
    SpelledDigits(digits, Nibbles(bcd));
    forall k | 0 <= k < |digits| / 2
      ensures Encoded(digits)[k] == bcd[k]
    {
      ByteBack(bcd, digits, k);
    }
    if |digits| % 2 == 1 {
      NibblesAt(bcd, |digits| / 2);
    }
  }

  lemma ByteBack(bcd: seq<Byte>, digits: seq<Digit>, k: nat)
    requires 2 * k + 1 < |digits| <= 2 * |bcd|
    requires Nibbles(bcd)[2 * k] == digits[2 * k] && Nibbles(bcd)[2 * k + 1] == digits[2 * k + 1]
    ensures Encoded(digits)[k] == bcd[k]
  {
    ByteAt(digits, k);
    NibblesAt(bcd, k);
    SameNibbles(Encoded(digits)[k], bcd[k]);
  }

  lemma SameNibbles(a: Byte, b: Byte)
    requires Low(a) == Low(b) && High(a) == High(b)
    ensures a == b
  {
  }
}
