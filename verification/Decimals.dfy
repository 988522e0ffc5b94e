/** Decimal numbers as Go's `%d` prints them and `strconv.ParseUint(s, 10, 64)` reads them. */
module Decimals {
  import opened Basics

  predicate IsDigit(c: char) {
    '0' <= c <= '9'
  }

  predicate AllDigits(s: string) {
    forall i :: 0 <= i < |s| ==> IsDigit(s[i])
  }

  function Digit(d: nat): char
    requires d < 10
  {
    '0' + d as char
  }

  function FormatUint(n: nat): (s: string)
    ensures |s| > 0
  {
    if n < 10 then [Digit(n)] else FormatUint(n / 10) + [Digit(n % 10)]
  }

  function ValueOf(s: string): nat
    requires AllDigits(s)
  {
    if s == "" then 0 else 10 * ValueOf(s[..|s| - 1]) + (s[|s| - 1] - '0') as nat
  }

  function ParseUint(s: string): Option<nat> {
    if s == "" || !AllDigits(s) || ValueOf(s) > MAX_UINT64 then None else Some(ValueOf(s))
  }

  /** Printing yields digits only, whose value is the number. */
  lemma {:induction false} FormatDigits(n: nat)
    ensures AllDigits(FormatUint(n)) && ValueOf(FormatUint(n)) == n
    ensures FormatUint(n)[0] == '0' <==> n == 0
  {
    if n >= 10 {
      FormatDigits(n / 10);
      var s, t := FormatUint(n), FormatUint(n / 10);
      assert s[..|s| - 1] == t;
    } else {
      var s := FormatUint(n);
      assert s[..|s| - 1] == "";
    }
  }

  /** Reading inverts printing exactly for the numbers that fit 64 bits. */
  lemma ParseInvertsFormat(n: nat)
    ensures ParseUint(FormatUint(n)) == if n <= MAX_UINT64 then Some(n) else None
  {
    FormatDigits(n);
  }

  lemma FormatInjective(m: nat, n: nat)
    requires FormatUint(m) == FormatUint(n)
    ensures m == n
  {
    FormatDigits(m);
    FormatDigits(n);
  }

  /** A 64-bit number has at most twenty digits. */
  lemma {:induction false} FormatLength(n: nat, k: nat)
    requires k > 0 && n < Pow10(k)
    ensures |FormatUint(n)| <= k
  {
    if n >= 10 {
      FormatLength(n / 10, k - 1);
    }
  }

  function Pow10(k: nat): nat {
    if k == 0 then 1 else 10 * Pow10(k - 1)
  }

  lemma UintLength(n: nat)
    requires n <= MAX_UINT64
    ensures |FormatUint(n)| <= 20
  {
    assert Pow10(5) == 100_000;
    assert Pow10(10) == 100_000 * Pow10(5);
    assert Pow10(15) == 100_000 * Pow10(10);
    assert Pow10(20) == 100_000 * Pow10(15);
    FormatLength(n, 20);
  }

  lemma DigitsAvoid(n: nat, c: char)
    requires !IsDigit(c)
    ensures c !in FormatUint(n)
  {
    FormatDigits(n);
  }
}
