/** Numbers as they are written out: no two alike, and readable back from the front of a longer text. */
module Decimals {
  predicate IsDigit(ch: char) {
    '0' <= ch <= '9'
  }

  predicate AllDigits(s: string) {
    forall k :: 0 <= k < |s| ==> IsDigit(s[k])
  }

  function Digit(n: nat): (ch: char)
    requires n < 10
    ensures IsDigit(ch) && ch as int == '0' as int + n
  {
    ('0' as int + n) as char
  }

  function Decimal(n: nat): (digits: string)
    ensures digits != "" && AllDigits(digits)
  {
    if n < 10 then [Digit(n)] else Decimal(n / 10) + [Digit(n % 10)]
  }

  function ValueOf(digits: string): nat
    requires AllDigits(digits)
  {
    if digits == "" then 0
    else 10 * ValueOf(digits[..|digits| - 1]) + (digits[|digits| - 1] as int - '0' as int)
  }

  lemma {:induction false} DecimalReadsBack(n: nat)
    ensures ValueOf(Decimal(n)) == n
  {
    var digits := Decimal(n);
    if n < 10 {
      assert digits[..0] == "";
    } else {
      DecimalReadsBack(n / 10);
      assert digits[..|digits| - 1] == Decimal(n / 10);
    }
  }

  predicate EndsNumber(rest: string) {
    rest == "" || !IsDigit(rest[0])
  }

  /** Where a number ends is plain from the text, so what follows it is too. */
  lemma NumberThenRest(m: nat, rest: string, n: nat, rest': string)
    requires EndsNumber(rest) && EndsNumber(rest')
    ensures Decimal(m) + rest == Decimal(n) + rest' <==> m == n && rest == rest'
  {
    var a, b := Decimal(m), Decimal(n);
    if a + rest == b + rest' {
      var whole := a + rest;
      assert forall k :: 0 <= k < |a| ==> whole[k] == a[k];
      assert forall k :: 0 <= k < |b| ==> whole[k] == b[k];
      assert |a| < |whole| ==> whole[|a|] == rest[0];
      assert |b| < |whole| ==> whole[|b|] == rest'[0];
      assert a == whole[..|a|] && b == whole[..|b|];
      assert rest == whole[|a|..] && rest' == whole[|b|..];
      DecimalReadsBack(m);
      DecimalReadsBack(n);
    }
  }
}
