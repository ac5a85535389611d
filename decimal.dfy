/** Kotlin's base-10 conversions between `String` and the 32-bit `Int`:
    `String.toIntOrNull()` (used by the session form to read its two numeric
    fields) and `Int.toString()` (used by string templates such as
    "and $n others..."). */
module Decimal {
  import opened Common

  const IntMin: int := -0x8000_0000
  const IntMax: int := 0x7FFF_FFFF

  /** The values of Kotlin's `Int`. */
  predicate InIntRange(n: int) {
    IntMin <= n <= IntMax
  }

  predicate IsDigit(c: char) {
    '0' <= c <= '9'
  }

  predicate AllDigits(s: string) {
    forall i :: 0 <= i < |s| ==> IsDigit(s[i])
  }

  function DigitValue(c: char): (d: nat)
    requires IsDigit(c)
    ensures d < 10
  {
    (c as int) - ('0' as int)
  }

  function DigitChar(d: nat): (c: char)
    requires d < 10
    ensures IsDigit(c) && DigitValue(c) == d
  {
    (('0' as int) + d) as char
  }

  /** The value of a run of decimal digits, most significant first
      (leading zeros allowed). */
  function DigitsValue(s: string): nat
    requires AllDigits(s)
  {
    if s == [] then 0 else DigitsValue(s[..|s| - 1]) * 10 + DigitValue(s[|s| - 1])
  }

  /** `String.toIntOrNull()`: an optional '+' or '-' followed by at least one
      decimal digit, whose value fits in an `Int`; anything else is null. */
  function ToIntOrNull(s: string): (r: Option<int>)
    ensures r.Some? ==> InIntRange(r.value)
    ensures |s| == 0 || s == "-" || s == "+" ==> r.None?
    ensures (exists i :: 1 <= i < |s| && !IsDigit(s[i])) ==> r.None?
    ensures |s| > 0 && !IsDigit(s[0]) && s[0] != '-' && s[0] != '+' ==> r.None?
  {
    if |s| == 0 then None
    else if s[0] == '-' || s[0] == '+' then
      var digits := s[1..];
      if digits == [] || !AllDigits(digits) then None
      else
        var v: int := if s[0] == '-' then -(DigitsValue(digits) as int) else DigitsValue(digits);
        if InIntRange(v) then Some(v) else None
    else if AllDigits(s) && DigitsValue(s) <= IntMax then Some(DigitsValue(s))
    else None
  }

  /** The shortest decimal digits of a natural number. */
  function NatToDigits(n: nat): (s: string)
    ensures |s| > 0 && AllDigits(s)
    ensures s[0] == '0' ==> n == 0
  {
    if n < 10 then [DigitChar(n)] else NatToDigits(n / 10) + [DigitChar(n % 10)]
  }

  /** `Int.toString()`: a '-' for negative values, then the digits of the
      magnitude. */
  function IntToDecimal(n: int): (s: string)
    ensures |s| > 0
    ensures n < 0 <==> s[0] == '-'
  {
    if n < 0 then "-" + NatToDigits(-n) else NatToDigits(n)
  }

  /** Reading the digits back gives the number they were written from. */
  lemma {:induction false} DigitsValueOfNatToDigits(n: nat)
    ensures DigitsValue(NatToDigits(n)) == n
  {
    var s := NatToDigits(n);
    if n >= 10 {
      DigitsValueOfNatToDigits(n / 10);
      assert s[..|s| - 1] == NatToDigits(n / 10);
    }
  }

  /** Two naturals with the same digits are equal. */
  lemma NatToDigitsInjective(m: nat, n: nat)
    requires NatToDigits(m) == NatToDigits(n)
    ensures m == n
  {
    DigitsValueOfNatToDigits(m);
    DigitsValueOfNatToDigits(n);
  }

  /** Parsing what `Int.toString()` wrote gives back every `Int`; a number
      outside the `Int` range is rejected, not wrapped. */
  lemma ToIntOrNullOfIntToDecimal(n: int)
    ensures InIntRange(n) ==> ToIntOrNull(IntToDecimal(n)) == Some(n)
    ensures !InIntRange(n) ==> ToIntOrNull(IntToDecimal(n)) == None
  {
    var s := IntToDecimal(n);
    if n < 0 {
      var digits := NatToDigits(-n);
      DigitsValueOfNatToDigits(-n);
      assert s == "-" + digits;
      assert s[0] == '-' && s[1..] == digits;
    } else {
      var digits := NatToDigits(n);
      DigitsValueOfNatToDigits(n);
      assert s == digits && IsDigit(s[0]);
    }
  }

  /** A leading '+' is accepted and does not change the value. */
  lemma ToIntOrNullPlusSign(n: nat)
    requires n <= IntMax
    ensures ToIntOrNull("+" + NatToDigits(n)) == Some(n)
  {
    DigitsValueOfNatToDigits(n);
    assert ("+" + NatToDigits(n))[1..] == NatToDigits(n);
  }

  /** `k` zero digits. */
  function Zeros(k: nat): string {
    seq(k, _ => '0')
  }

  /** Zero digits alone are worth nothing. */
  lemma {:induction false} DigitsValueOfZeros(k: nat)
    ensures AllDigits(Zeros(k)) && DigitsValue(Zeros(k)) == 0
  {
    if k > 0 {
      DigitsValueOfZeros(k - 1);
      assert Zeros(k)[..k - 1] == Zeros(k - 1);
    }
  }

  /** Leading zeros do not change the value of a run of digits. */
  lemma {:induction false} DigitsValueLeadingZeros(k: nat, digits: string)
    requires AllDigits(digits)
    ensures AllDigits(Zeros(k) + digits)
    ensures DigitsValue(Zeros(k) + digits) == DigitsValue(digits)
    decreases |digits|
  {
    var s := Zeros(k) + digits;
    DigitsValueOfZeros(k);
    if digits == [] {
      assert s == Zeros(k);
    } else {
      var init := digits[..|digits| - 1];
      DigitsValueLeadingZeros(k, init);
      assert s[..|s| - 1] == Zeros(k) + init;
      assert s[|s| - 1] == digits[|digits| - 1];
    }
  }

  /** Every text that is an optional sign followed by at least one digit is
      read as its signed value exactly when that value fits an `Int`, leading
      zeros, "-0" and "+0" included. With the contract of `ToIntOrNull`, which
      makes every other text null, this decides the function on all inputs. */
  lemma ToIntOrNullOfSignedDigits(sign: string, digits: string)
    requires sign == "" || sign == "+" || sign == "-"
    requires |digits| > 0 && AllDigits(digits)
    ensures var v := if sign == "-" then -(DigitsValue(digits) as int) else DigitsValue(digits);
            ToIntOrNull(sign + digits) == if InIntRange(v) then Some(v) else None
  {
    var s := sign + digits;
    if sign == "" {
      assert s == digits && IsDigit(s[0]);
    } else {
      assert s[0] == sign[0] && s[1..] == digits;
    }
  }

  /** Leading zeros after the sign change nothing: "007" is 7, "-00" is 0,
      and a zero-padded number outside the `Int` range is still null. */
  lemma ToIntOrNullLeadingZeros(sign: string, k: nat, n: nat)
    requires sign == "" || sign == "+" || sign == "-"
    ensures var v := if sign == "-" then -(n as int) else n;
            ToIntOrNull(sign + Zeros(k) + NatToDigits(n)) == if InIntRange(v) then Some(v) else None
  {
    var digits := Zeros(k) + NatToDigits(n);
    DigitsValueLeadingZeros(k, NatToDigits(n));
    DigitsValueOfNatToDigits(n);
    assert sign + Zeros(k) + NatToDigits(n) == sign + digits;
    ToIntOrNullOfSignedDigits(sign, digits);
  }
}
