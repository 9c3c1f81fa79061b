/** The decimal conversions of Go's `strconv` package used by the Windows
    matcher: `ParseUint` in base 10 and `Atoi`, together with the decimal
    formatting (`%d`, `Itoa`) that produces the strings they read. */
module GoStrconv {
  import opened Wrappers

  /** Go's `int` is 64 bits wide on the 64-bit Windows targets. */
  const IntSize: nat := 64
  const MinInt: int := -0x8000_0000_0000_0000
  const MaxInt: int := 0x7FFF_FFFF_FFFF_FFFF

  predicate IsDigit(c: char)
  {
    '0' <= c <= '9'
  }

  predicate IsDigits(s: string)
  {
    forall i :: 0 <= i < |s| ==> IsDigit(s[i])
  }

  function DigitValue(c: char): (d: nat)
    requires IsDigit(c)
    ensures d < 10
  {
    (c as int) - ('0' as int)
  }

  function DigitChar(d: nat): (c: char)
    requires d < 10
    ensures IsDigit(c) && DigitValue(c) == d
  {
    ('0' as int + d) as char
  }

  /** The value of a string of decimal digits, most significant first. */
  function DecimalValue(s: string): nat
    requires IsDigits(s)
  {
    if s == [] then 0 else 10 * DecimalValue(s[..|s| - 1]) + DigitValue(s[|s| - 1])
  }

  function Pow2(n: nat): (r: nat)
    ensures r >= 1
  {
    if n == 0 then 1 else 2 * Pow2(n - 1)
  }

  lemma {:induction false} Pow2Add(a: nat, b: nat)
    ensures Pow2(a + b) == Pow2(a) * Pow2(b)
  {
    if a > 0 {
      Pow2Add(a - 1, b);
    }
  }

  /** 2^16, the bound of a `uint16`. */
  lemma Pow2Sixteen()
    ensures Pow2(16) == 0x1_0000
  {
    assert Pow2(4) == 16;
    Pow2Add(4, 4);
    Pow2Add(8, 8);
  }

  /** The width `ParseUint` checks against: 0 selects the width of `int`. */
  function EffectiveBits(bitSize: nat): nat
  {
    if bitSize == 0 then IntSize else bitSize
  }

  /** `strconv.ParseUint(s, 10, bitSize)`: a non-empty run of decimal digits
      (no sign, no underscore) whose value fits in `bitSize` bits; any other
      input, or a bit size over 64, is an error. */
  function ParseUint(s: string, bitSize: nat): (r: Option<nat>)
    ensures r.Some? ==> bitSize <= 64 && s != "" && IsDigits(s) && r.value == DecimalValue(s)
    ensures r.Some? ==> r.value < Pow2(EffectiveBits(bitSize))
    ensures (bitSize <= 64 && s != "" && IsDigits(s) && DecimalValue(s) < Pow2(EffectiveBits(bitSize)))
      ==> r.Some?
  {
    if bitSize > 64 || s == "" || !IsDigits(s) then None
    else if DecimalValue(s) < Pow2(EffectiveBits(bitSize)) then Some(DecimalValue(s))
    else None
  }

  /** The digits `Atoi` reads: `s` without one leading '+' or '-'. */
  function UnsignedPart(s: string): string
  {
    if s != [] && (s[0] == '-' || s[0] == '+') then s[1..] else s
  }

  /** The signed value of `s`, negative exactly when `s` starts with '-'. */
  function SignedValue(s: string): int
    requires IsDigits(UnsignedPart(s))
  {
    var n: int := DecimalValue(UnsignedPart(s));
    if s != [] && s[0] == '-' then -n else n
  }

  /** `strconv.Atoi(s)`: an optional '+' or '-', then a non-empty run of
      decimal digits whose signed value fits in a 64-bit `int`. */
  function Atoi(s: string): (r: Option<int>)
    ensures r.Some? <==>
      s != "" && UnsignedPart(s) != "" && IsDigits(UnsignedPart(s)) && MinInt <= SignedValue(s) <= MaxInt
    ensures r.Some? ==> r.value == SignedValue(s)
    ensures r.Some? ==> MinInt <= r.value <= MaxInt
  {
    if s == [] then None
    else
      var digits := if s[0] == '-' || s[0] == '+' then s[1..] else s;
      if digits == [] || !IsDigits(digits) then None
      else
        var n: int := DecimalValue(digits);
        var v: int := if s[0] == '-' then -n else n;
        if MinInt <= v <= MaxInt then Some(v) else None
  }

  /** Decimal formatting of an unsigned value, as `%d` and `strconv.FormatUint`
      print it: digits only, and no leading zero except in "0" itself. */
  function FormatUint(n: nat): (s: string)
    ensures s != "" && IsDigits(s)
    ensures s[0] == '0' ==> s == "0"
    ensures DecimalValue(s) == n
  {
    if n < 10 then [DigitChar(n)]
    else
      var hi := FormatUint(n / 10);
      var s := hi + [DigitChar(n % 10)];
      assert s[..|s| - 1] == hi;
      s
  }

  /** `strconv.Itoa(r)`: a '-' before the digits of a negative value, the
      digits alone otherwise. */
  function Itoa(r: int): (s: string)
    ensures r >= 0 ==> IsDigits(s) && DecimalValue(s) == r
    ensures r < 0 ==> |s| > 1 && s[0] == '-' && IsDigits(s[1..]) && DecimalValue(s[1..]) == -r
  {
    if r < 0 then "-" + FormatUint(-r) else FormatUint(r)
  }

  /** A decimal value below 2^bits parses back with `ParseUint`. */
  lemma ParseFormatUint(n: nat, bitSize: nat)
    requires bitSize <= 64 && n < Pow2(EffectiveBits(bitSize))
    ensures ParseUint(FormatUint(n), bitSize) == Some(n)
  {
  }

  /** Every 64-bit `int` survives `Itoa` then `Atoi`. */
  lemma AtoiItoa(r: int)
    requires MinInt <= r <= MaxInt
    ensures Atoi(Itoa(r)) == Some(r)
  {
    var s := Itoa(r);
    if r < 0 {
      assert s[0] == '-' && s[1..] == FormatUint(-r);
    } else {
      assert IsDigit(s[0]);
    }
  }

  /** A string of digits has no '.' in it. */
  lemma DigitsHaveNoDot(s: string)
    requires IsDigits(s)
    ensures '.' !in s
  {
  }
}
