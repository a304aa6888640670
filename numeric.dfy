/** Decimal text of integers: `strconv.Atoi`, `strconv.Itoa` / `%d`, and the zero-padded `%0Nd` forms. */
module Numeric {
  import opened Wrappers
  import opened Chars

  const MinInt64: int := -0x8000_0000_0000_0000
  const MaxInt64: int := 0x7FFF_FFFF_FFFF_FFFF

  function DigitChar(d: nat): (c: char)
    requires d < 10
    ensures IsDigit(c)
  {
    ('0' as int + d) as char
  }

  function DigitValue(c: char): (d: nat)
    requires IsDigit(c)
    ensures d < 10
  {
    c as int - '0' as int
  }

  /** The value of a string of decimal digits, leading zeros allowed. */
  function DigitsValue(s: string): nat
    requires AllDigits(s)
  {
    if s == [] then 0 else DigitsValue(s[..|s| - 1]) * 10 + DigitValue(s[|s| - 1])
  }

  /** Decimal digits of `n` without leading zeros. */
  function NatToString(n: nat): (s: string)
    ensures |s| >= 1 && AllDigits(s)
  {
    if n < 10 then [DigitChar(n)] else NatToString(n / 10) + [DigitChar(n % 10)]
  }

  lemma {:induction false} DigitsValueOfNatToString(n: nat)
    ensures DigitsValue(NatToString(n)) == n
  {
    if n >= 10 {
      var s := NatToString(n);
      assert s[..|s| - 1] == NatToString(n / 10);
      DigitsValueOfNatToString(n / 10);
    }
  }

  /** `%d` / `strconv.Itoa`. */
  function Itoa(n: int): (s: string)
    ensures |s| >= 1
  {
    if n < 0 then "-" + NatToString(-n) else NatToString(n)
  }

  /** `strconv.Atoi`: an optional sign and at least one decimal digit, within the signed 64-bit range. */
  function Atoi(s: string): (r: Option<int>)
    ensures r.Some? ==> MinInt64 <= r.value <= MaxInt64
    ensures r.Some? ==> s != [] && AllDigits(if s[0] == '-' || s[0] == '+' then s[1..] else s)
  {
    if s == [] then None
    else
      var body := if s[0] == '-' || s[0] == '+' then s[1..] else s;
      if body == [] || !AllDigits(body) then None
      else
        var u: int := DigitsValue(body);
        var v := if s[0] == '-' then 0 - u else u;
        if MinInt64 <= v <= MaxInt64 then Some(v) else None
  }

  /** `strconv.ParseUint(s, 10, bits)` with `max` = 2^bits - 1: decimal digits only, no sign, at most `max`. */
  function ParseUint(s: string, max: nat): (r: Option<nat>)
    ensures r.Some? <==> s != [] && AllDigits(s) && DigitsValue(s) <= max
    ensures r.Some? ==> r.value == DigitsValue(s)
  {
    if s != [] && AllDigits(s) && DigitsValue(s) <= max then Some(DigitsValue(s)) else None
  }

  /** Text that the unsigned parse accepts within the int64 range reads the same through `Atoi`. */
  lemma AtoiOfUnsigned(s: string, max: nat)
    requires max <= MaxInt64 && ParseUint(s, max).Some?
    ensures Atoi(s) == Some(ParseUint(s, max).value as int)
  {
    assert IsDigit(s[0]);
  }

  /** Formatting an in-range integer in decimal and parsing it back gives the integer. */
  lemma AtoiOfItoa(n: int)
    requires MinInt64 <= n <= MaxInt64
    ensures Atoi(Itoa(n)) == Some(n)
  {
    if n < 0 {
      DigitsValueOfNatToString(-n);
      assert Itoa(n)[1..] == NatToString(-n);
    } else {
      DigitsValueOfNatToString(n);
    }
  }

  function Zeros(k: nat): (s: string)
    ensures |s| == k && AllDigits(s)
  {
    if k == 0 then "" else "0" + Zeros(k - 1)
  }

  lemma {:induction false} DigitsValueOfZeros(k: nat)
    ensures DigitsValue(Zeros(k)) == 0
  {
    if k > 0 {
      DigitsValueOfZeros(k - 1);
      assert Zeros(k)[..k - 1] == Zeros(k - 1) by {
        assert Zeros(k) == Zeros(k - 1) + "0" by { ZerosSnoc(k); }
      }
    }
  }

  lemma {:induction false} ZerosSnoc(k: nat)
    requires k > 0
    ensures Zeros(k) == Zeros(k - 1) + "0"
  {
    if k > 1 { ZerosSnoc(k - 1); }
  }

  lemma {:induction false} DigitsValueLeadingZeros(z: string, d: string)
    requires AllDigits(z) && AllDigits(d) && DigitsValue(z) == 0
    ensures AllDigits(z + d) && DigitsValue(z + d) == DigitsValue(d)
    decreases |d|
  {
    var zd := z + d;
    assert AllDigits(zd) by {
      forall i | 0 <= i < |zd| ensures IsDigit(zd[i]) { if i >= |z| { assert zd[i] == d[i - |z|]; } }
    }
    if d == [] {
      assert zd == z;
    } else {
      var d' := d[..|d| - 1];
      assert zd[..|zd| - 1] == z + d';
      DigitsValueLeadingZeros(z, d');
    }
  }

  function Pow10(k: nat): (p: nat)
    ensures p >= 1
  {
    if k == 0 then 1 else 10 * Pow10(k - 1)
  }

  lemma {:induction false} NatToStringLength(n: nat, k: nat)
    requires 1 <= k && n < Pow10(k)
    ensures |NatToString(n)| <= k
  {
    if n >= 10 {
      assert k > 1;
      NatToStringLength(n / 10, k - 1);
    }
  }

  /** `%0<width>d` of a non-negative value: its digits, left-padded with zeros to `width`. */
  function PadZeros(n: nat, width: nat): (s: string)
    ensures |s| >= width && AllDigits(s) && DigitsValue(s) == n
  {
    var d := NatToString(n);
    DigitsValueOfNatToString(n);
    if |d| >= width then d
    else
      DigitsValueOfZeros(width - |d|);
      DigitsValueLeadingZeros(Zeros(width - |d|), d);
      Zeros(width - |d|) + d
  }

  /** `%04d` of a value below 10000: exactly four digits that read back as the value. */
  function Pad4(n: nat): (s: string)
    requires n < 10000
    ensures |s| == 4 && AllDigits(s) && DigitsValue(s) == n
  {
    NatToStringLength(n, 4);
    PadZeros(n, 4)
  }

  /** `%02d` of a value below 100. */
  function Pad2(n: nat): (s: string)
    requires n < 100
    ensures |s| == 2 && AllDigits(s) && DigitsValue(s) == n
  {
    NatToStringLength(n, 2);
    PadZeros(n, 2)
  }
}
