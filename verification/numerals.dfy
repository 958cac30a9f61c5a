/** Decimal integers as text: the subset of Python's int() conversion that the
    build helpers rely on (an optional sign followed by ASCII digits), and its
    inverse, the canonical decimal rendering. */
module Numerals {
  import opened Config

  predicate IsDigit(c: char) { '0' <= c <= '9' }

  predicate AllDigits(s: string) { forall i :: 0 <= i < |s| ==> IsDigit(s[i]) }

  function DigitValue(c: char): nat
    requires IsDigit(c)
  {
    c as int - '0' as int
  }

  function DigitChar(d: nat): char
    requires d < 10
  {
    ('0' as int + d) as char
  }

  /** Value of a string of decimal digits, most significant digit first. */
  function DigitsValue(s: string): nat
    requires AllDigits(s)
  {
    if s == [] then 0 else DigitsValue(s[..|s| - 1]) * 10 + DigitValue(s[|s| - 1])
  }

  /** Shortest decimal rendering of a natural number. */
  function ShowNat(n: nat): (s: string)
    ensures |s| > 0 && AllDigits(s)
    ensures s[0] == '0' ==> n == 0
  {
    if n < 10 then [DigitChar(n)] else ShowNat(n / 10) + [DigitChar(n % 10)]
  }

  /** Decimal rendering of an integer, with a leading '-' when negative. */
  function ShowInt(v: int): (s: string)
    ensures |s| > 0
    ensures s[0] == '-' <==> v < 0
  {
    if v < 0 then "-" + ShowNat(-v) else ShowNat(v)
  }

  /** int(s): an optional '+' or '-' followed by at least one decimal digit;
      anything else is not an integer. */
  function ParseInt(s: string): (r: Option<int>)
    ensures r.Some? ==> |s| > 0 && AllDigits(s[1..])
    ensures r.Some? && r.value < 0 ==> s[0] == '-'
    ensures |s| > 0 && AllDigits(s) ==> r.Some? && r.value >= 0
  {
    if |s| > 0 && (s[0] == '-' || s[0] == '+') then
      if |s| > 1 && AllDigits(s[1..]) then
        var magnitude: int := DigitsValue(s[1..]);
        Some(if s[0] == '-' then -magnitude else magnitude)
      else None
    else if |s| > 0 && AllDigits(s) then Some(DigitsValue(s))
    else None
  }

  lemma {:induction false} DigitsValueOfShowNat(n: nat)
    ensures DigitsValue(ShowNat(n)) == n
  {
    if n >= 10 {
      var s := ShowNat(n);
      assert s[..|s| - 1] == ShowNat(n / 10);
      DigitsValueOfShowNat(n / 10);
    }
  }

  /** Reading back the rendering of any integer, negative ones included,
      gives that integer. */
  lemma ParseShowInt(v: int)
    ensures ParseInt(ShowInt(v)) == Some(v)
  {
    var s := ShowInt(v);
    if v < 0 {
      var digits := ShowNat(-v);
      assert s[0] == '-' && s[1..] == digits;
      DigitsValueOfShowNat(-v);
    } else {
      assert s == ShowNat(v) && IsDigit(s[0]);
      DigitsValueOfShowNat(v);
    }
  }
}
