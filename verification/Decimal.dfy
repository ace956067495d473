module Decimal {
  /** Decimal text as strconv prints and reads it. */

  import opened Common

  function Digit(d: nat): char
    requires d < 10
  {
    '0' + d as char
  }

  predicate IsDigit(c: char) {
    '0' <= c <= '9'
  }

  predicate AllDigits(s: string) {
    forall k :: 0 <= k < |s| ==> IsDigit(s[k])
  }

  /** strconv.FormatUint(n, 10). */
  function Print(n: nat): string {
    if n < 10 then [Digit(n)] else Print(n / 10) + [Digit(n % 10)]
  }

  function Value(s: string): nat
    requires AllDigits(s)
  {
    if s == "" then 0 else 10 * Value(s[..|s| - 1]) + (s[|s| - 1] - '0') as nat
  }

  /** strconv.ParseUint(s, 10, bits) without an error, with limit 2 to the bits. */
  function ParseUint(s: string, limit: nat): Option<nat> {
    if s == "" || !AllDigits(s) || Value(s) >= limit then None else Some(Value(s))
  }

  /** What ParseUint returns beside an error: zero, or the largest value. */
  function ParseAnyway(s: string, limit: nat): nat
    requires limit > 0
  {
    if s == "" || !AllDigits(s) then 0 else if Value(s) >= limit then limit - 1 else Value(s)
  }

  lemma {:induction false} Printed(n: nat)
    ensures Print(n) != "" && AllDigits(Print(n)) && Value(Print(n)) == n
    ensures Print(n)[0] == '0' ==> n == 0
  {
    if n >= 10 {
      Printed(n / 10);
      assert Print(n)[..|Print(n)| - 1] == Print(n / 10);
    } else {
      assert [Digit(n)][..0] == "";
    }
  }

  /** Printing is the one spelling without leading zeros. */
  lemma {:induction false} Canonical(s: string)
    requires s != "" && AllDigits(s) && (s[0] == '0' ==> |s| == 1)
    ensures Print(Value(s)) == s
    decreases |s|
  {
    var init := s[..|s| - 1];
    if |s| > 1 {
      Canonical(init);
      Leading(init);
      assert s == init + [s[|s| - 1]];
    } else {
      assert Value(init) == 0;
      assert s == [s[0]];
    }
  }

  lemma {:induction false} Leading(s: string)
    requires s != "" && AllDigits(s) && s[0] != '0'
    ensures Value(s) > 0
    decreases |s|
  {
    if |s| > 1 {
      Leading(s[..|s| - 1]);
    } else {
      assert Value(s[..0]) == 0;
    }
  }

  /** A number below a power of ten has that many digits at most. */
  lemma {:induction false} PrintedSize(n: nat, digits: nat, power: nat)
    requires digits > 0 && power == Power(digits) && n < power
    ensures |Print(n)| <= digits
  {
    if n >= 10 {
      PrintedSize(n / 10, digits - 1, power / 10);
    }
  }

  function Power(k: nat): nat {
    if k == 0 then 1 else 10 * Power(k - 1)
  }
}
