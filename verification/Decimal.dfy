/** Decimal numbers as printf writes them with %d and %lu, and the integers that can be read back. */
module Decimal {
  import opened Basics

  /** The range of the C type `int` that the records hold. */
  const INT_MAX := 0x7fff_ffff
  const INT_MIN := -0x8000_0000

  type int32 = n: int | INT_MIN <= n <= INT_MAX

  function DigitChar(d: nat): char
    requires d < 10
  {
    '0' + d as char
  }

  function DigitValue(c: char): (d: nat)
    requires '0' <= c <= '9'
    ensures d < 10
  {
    (c - '0') as nat
  }

  /** What %lu writes. */
  function Digits(n: nat): (r: string)
    ensures |r| > 0
    ensures forall k :: 0 <= k < |r| ==> '0' <= r[k] <= '9'
  {
    if n < 10 then [DigitChar(n)] else Digits(n / 10) + [DigitChar(n % 10)]
  }

  /** What %d writes. */
  function Signed(n: int): (r: string)
    ensures |r| > 0
  {
    if n < 0 then "-" + Digits(-n) else Digits(n)
  }

  function ReadDigits(t: string): (r: Option<nat>) {
    if t == [] || !('0' <= t[|t| - 1] <= '9') then None
    else
      var d := DigitValue(t[|t| - 1]);
      if |t| == 1 then Some(d)
      else
        match ReadDigits(t[..|t| - 1])
        case None => None
        case Some(m) => Some(10 * m + d)
  }

  function ReadSigned(t: string): (r: Option<int>) {
    if t != [] && t[0] == '-' then
      match ReadDigits(t[1..])
      case None => None
      case Some(n) =>
        var m: int := n;
        Some(-m)
    else
      match ReadDigits(t)
      case None => None
      case Some(n) => Some(n as int)
  }

  /** An integer field is read when the digits denote a number of the C type `int`. */
  function ReadInt32(t: string): (r: Option<int32>)
    ensures r.Some? ==> ReadSigned(t) == Some(r.value as int)
  {
    match ReadSigned(t)
    case None => None
    case Some(n) => if INT_MIN <= n <= INT_MAX then Some(n) else None
  }

  lemma {:induction false} DigitsRoundTrip(n: nat)
    ensures ReadDigits(Digits(n)) == Some(n)
  {
    var t := Digits(n);
    if n >= 10 {
      DigitsRoundTrip(n / 10);
      assert t[..|t| - 1] == Digits(n / 10);
    }
  }

  /** Reading what %d wrote gives the number back, negative numbers included. */
  lemma SignedRoundTrip(n: int)
    ensures ReadSigned(Signed(n)) == Some(n)
  {
    hide Digits, ReadDigits;
    if n < 0 {
      DigitsRoundTrip(-n);
      assert Signed(n)[1..] == Digits(-n);
    } else {
      DigitsRoundTrip(n);
      assert '0' <= Digits(n)[0] <= '9';
    }
  }

  lemma Int32RoundTrip(n: int32)
    ensures ReadInt32(Signed(n)) == Some(n)
  {
    SignedRoundTrip(n);
  }

  lemma {:induction false} DigitsGrow(m: nat, n: nat)
    requires m <= n
    ensures |Digits(m)| <= |Digits(n)|
    decreases n
  {
    if n >= 10 && m >= 10 {
      DigitsGrow(m / 10, n / 10);
    }
  }

  function Pow10(k: nat): nat {
    if k == 0 then 1 else 10 * Pow10(k - 1)
  }

  lemma {:induction false} DigitsWidth(n: nat, k: nat)
    requires 0 < k && n < Pow10(k)
    ensures |Digits(n)| <= k
  {
    if n >= 10 {
      DigitsWidth(n / 10, k - 1);
    }
  }

  /** No 32-bit number takes more than eleven characters. */
  lemma Int32Width(n: int32)
    ensures |Signed(n)| <= 11
  {
    var m: int := n;
    assert Pow10(5) == 100000;
    assert Pow10(10) == 100000 * Pow10(5) by {
      assert Pow10(8) == 1000 * Pow10(5);
    }
    DigitsWidth(if m < 0 then -m else m, 10);
  }
}
