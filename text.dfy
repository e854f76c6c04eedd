/** Decimal rendering and parsing of numbers, prefixes and joining, shared by the C++, TypeScript and Swift models. */
module Text {

  predicate IsDigit(c: char) {
    '0' <= c <= '9'
  }

  predicate AllDigits(s: string) {
    forall i :: 0 <= i < |s| ==> IsDigit(s[i])
  }

  function DigitChar(d: nat): (c: char)
    requires d < 10
    ensures IsDigit(c) && c as int - '0' as int == d
  {
    ('0' as int + d) as char
  }

  function DigitValue(c: char): (d: nat)
    requires IsDigit(c)
    ensures d < 10
  {
    c as int - '0' as int
  }

  /** Value of a string of decimal digits, most significant first. */
  function DigitsValue(s: string): nat
    requires AllDigits(s)
  {
    if s == [] then 0 else DigitsValue(s[..|s| - 1]) * 10 + DigitValue(s[|s| - 1])
  }

  /** Decimal rendering of a natural number without leading zeros (std::to_string, String(n), "\(n)"). */
  function NatToString(n: nat): (s: string)
    ensures |s| >= 1 && AllDigits(s)
    ensures s[0] == '0' ==> n == 0
  {
    if n < 10 then [DigitChar(n)] else NatToString(n / 10) + [DigitChar(n % 10)]
  }

  lemma {:induction false} NatToStringRoundTrip(n: nat)
    ensures DigitsValue(NatToString(n)) == n
  {
    if n >= 10 {
      var s := NatToString(n);
      assert s[..|s| - 1] == NatToString(n / 10);
      NatToStringRoundTrip(n / 10);
    }
  }

  lemma NatToStringInjective(m: nat, n: nat)
    requires NatToString(m) == NatToString(n)
    ensures m == n
  {
    NatToStringRoundTrip(m);
    NatToStringRoundTrip(n);
  }

  /** Decimal rendering of an integer with a leading '-' when negative. */
  function IntToString(i: int): (s: string)
    ensures |s| >= 1
  {
    if i < 0 then "-" + NatToString(-i) else NatToString(i)
  }

  /** The longest prefix of `s` made of decimal digits. */
  function DigitPrefix(s: string): (p: string)
    ensures p <= s && AllDigits(p)
    ensures |p| < |s| ==> !IsDigit(s[|p|])
  {
    if s != [] && IsDigit(s[0]) then [s[0]] + DigitPrefix(s[1..]) else []
  }

  /** The whitespace that C's isspace accepts in the "C" locale. */
  predicate IsCSpace(c: char) {
    c == ' ' || c == '\t' || c == '\n' || c == '\r' || c == '\U{B}' || c == '\U{C}'
  }

  function SkipCSpace(s: string): (t: string)
    ensures |t| <= |s| && t == s[|s| - |t|..]
    ensures t != [] ==> !IsCSpace(t[0])
  {
    if s != [] && IsCSpace(s[0]) then SkipCSpace(s[1..]) else s
  }

  /** C's atoi: leading whitespace, an optional sign, then the longest run of digits; 0 when there are none. */
  function Atoi(s: string): int {
    var t := SkipCSpace(s);
    if t != [] && t[0] == '-' then 0 - DigitsValue(DigitPrefix(t[1..])) as int
    else if t != [] && t[0] == '+' then DigitsValue(DigitPrefix(t[1..]))
    else DigitsValue(DigitPrefix(t))
  }

  lemma {:induction false} DigitPrefixOfDigits(s: string)
    requires AllDigits(s)
    ensures DigitPrefix(s) == s
  {
    if s != [] {
      DigitPrefixOfDigits(s[1..]);
    }
  }

  /** atoi reads back what NatToString writes. */
  lemma AtoiOfNatToString(n: nat)
    ensures Atoi(NatToString(n)) == n
  {
    var s := NatToString(n);
    assert IsDigit(s[0]);
    assert !IsCSpace(s[0]) && s[0] != '-' && s[0] != '+';
    assert SkipCSpace(s) == s;
    DigitPrefixOfDigits(s);
    NatToStringRoundTrip(n);
    assert Atoi(s) == DigitsValue(DigitPrefix(s));
  }

  lemma AtoiOfZero()
    ensures Atoi("0") == 0
  {
    assert NatToString(0) == "0";
    AtoiOfNatToString(0);
  }

  /** atoi reads back what IntToString writes, negative values included. */
  lemma AtoiOfIntToString(i: int)
    ensures Atoi(IntToString(i)) == i
  {
    if i < 0 {
      var s := IntToString(i);
      var digits := NatToString(-i);
      assert s == "-" + digits && s[1..] == digits;
      assert !IsCSpace(s[0]);
      assert SkipCSpace(s) == s;
      DigitPrefixOfDigits(digits);
      NatToStringRoundTrip(-i);
    } else {
      AtoiOfNatToString(i);
    }
  }

  const IntMin := -0x8000_0000
  const IntMax := 0x7fff_ffff
  const LongMin := -0x8000_0000_0000_0000
  const LongMax := 0x7fff_ffff_ffff_ffff

  /** strtol's saturation: a value outside the 64-bit `long` range becomes LONG_MIN or LONG_MAX. */
  function ClampLong(x: int): (r: int)
    ensures LongMin <= r <= LongMax
    ensures LongMin <= x <= LongMax ==> r == x
    ensures x > LongMax ==> r == LongMax
    ensures x < LongMin ==> r == LongMin
  {
    if x > LongMax then LongMax else if x < LongMin then LongMin else x
  }

  /** The conversion of a `long` to a 32-bit `int` as GCC performs it: the value modulo 2^32, read as two's complement. */
  function WrapInt32(x: int): (r: int)
    ensures IntMin <= r <= IntMax
    ensures (x - r) % 0x1_0000_0000 == 0
    ensures IntMin <= x <= IntMax ==> r == x
  {
    var m := x % 0x1_0000_0000;
    if m > IntMax then m - 0x1_0000_0000 else m
  }

  /** Between INT_MAX and 2^32 the wrap subtracts 2^32 and gives a negative `int`. */
  lemma WrapInt32Upper(x: int)
    requires IntMax < x < 0x1_0000_0000
    ensures WrapInt32(x) == x - 0x1_0000_0000 < 0
  {
  }

  /**
   * atoi as glibc computes it on a 64-bit target: `(int) strtol(s, NULL, 10)`. Within the `int`
   * range it is the parsed value; beyond it the value saturates at the `long` range and then keeps
   * its low 32 bits.
   */
  function CAtoi(s: string): (r: int)
    ensures IntMin <= r <= IntMax
    ensures IntMin <= Atoi(s) <= IntMax ==> r == Atoi(s)
    ensures (ClampLong(Atoi(s)) - r) % 0x1_0000_0000 == 0
  {
    WrapInt32(ClampLong(Atoi(s)))
  }

  /** The 32-bit atoi reads back the decimal rendering of every n up to INT_MAX. */
  lemma CAtoiOfNatToString(n: nat)
    requires n <= IntMax
    ensures CAtoi(NatToString(n)) == n
  {
    AtoiOfNatToString(n);
  }

  /** parts joined with sep in between (Array.prototype.join). */
  function Join(parts: seq<string>, sep: string): string {
    if parts == [] then ""
    else if |parts| == 1 then parts[0]
    else parts[0] + sep + Join(parts[1..], sep)
  }
}
