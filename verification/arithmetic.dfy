/** Facts about division and powers used by several models. */
module Arithmetic {

  function Power(base: nat, n: nat): nat {
    if n == 0 then 1 else base * Power(base, n - 1)
  }

  lemma {:induction false} PowerPositive(base: nat, n: nat)
    requires base > 0
    ensures Power(base, n) > 0
    decreases n
  {
    if n > 0 {
      PowerPositive(base, n - 1);
    }
  }

  lemma NoSmallMultiple(r: int, k: int, m: int)
    requires m > 0 && r == m * k && -m < r < m
    ensures r == 0 && k == 0
  {
    assert k >= 1 ==> m * k >= m;
    assert k <= -1 ==> m * k <= -m;
  }

  /** Quotient and remainder are unique. */
  lemma QuotientIs(a: int, m: int, q: int, r: int)
    requires m > 0 && a == m * q + r && 0 <= r < m
    ensures a / m == q && a % m == r
  {
    var q', r' := a / m, a % m;
    assert a == m * q' + r';
    assert r - r' == m * (q' - q);
    NoSmallMultiple(r - r', q' - q, m);
  }

  lemma ModAdds(x: int, k: int, m: int)
    requires m > 0
    ensures (x + m * k) % m == x % m
  {
    assert x == m * (x / m) + x % m;
    QuotientIs(x + m * k, m, x / m + k, x % m);
  }

  lemma ModIff(a: int, b: int, m: int)
    requires m > 0
    ensures a % m == b % m <==> (a - b) % m == 0
  {
    var qa, qb := a / m, b / m;
    assert a == m * qa + a % m && b == m * qb + b % m;
    var d := a - b;
    assert d == m * (qa - qb) + (a % m - b % m);
    assert d == m * (d / m) + d % m;
    if a % m == b % m {
      QuotientIs(d, m, qa - qb, 0);
    } else if d % m == 0 {
      assert a % m - b % m == m * (d / m - (qa - qb));
      NoSmallMultiple(a % m - b % m, d / m - (qa - qb), m);
    }
  }

  // ---- Decimal numbers --------------------------------------------------------------------------

  predicate IsDecimal(s: string) {
    forall i :: 0 <= i < |s| ==> '0' <= s[i] <= '9'
  }

  function DigitValue(c: char): int {
    c as int - '0' as int
  }

  /** The number a string of digits writes. */
  function Written(s: string): int {
    if s == "" then 0 else Written(s[..|s| - 1]) * 10 + DigitValue(s[|s| - 1])
  }

  function DigitChar(d: nat): char
    requires d < 10
  {
    ('0' as int + d) as char
  }

  /** A number in decimal, without leading zeros. */
  function Decimal(n: nat): string {
    if n < 10 then [DigitChar(n)] else Decimal(n / 10) + [DigitChar(n % 10)]
  }

  lemma {:induction false} DecimalWrites(n: nat)
    ensures IsDecimal(Decimal(n)) && Written(Decimal(n)) == n && |Decimal(n)| > 0
    decreases n
  {
    if n >= 10 {
      DecimalWrites(n / 10);
      assert Decimal(n)[..|Decimal(n)| - 1] == Decimal(n / 10);
    } else {
      assert Decimal(n)[..0] == "";
    }
  }

  lemma LastDigit(s: string)
    requires s != "" && IsDecimal(s)
    ensures Written(s) == Written(s[..|s| - 1]) * 10 + DigitValue(s[|s| - 1]) && 0 <= DigitValue(s[|s| - 1]) < 10
  {
  }

  lemma SameDigit(x: char, y: char)
    requires DigitValue(x) == DigitValue(y)
    ensures x == y
  {
  }

  lemma LastDigits(u: int, x: int, v: int, y: int)
    requires u * 10 + x == v * 10 + y && 0 <= x < 10 && 0 <= y < 10
    ensures u == v && x == y
  {
  }

  lemma {:induction false} DigitsDetermine(a: string, b: string)
    requires |a| == |b| && IsDecimal(a) && IsDecimal(b) && Written(a) == Written(b)
    ensures a == b
    decreases |a|
  {
    if a != "" {
      LastDigit(a);
      LastDigit(b);
      hide Written, DigitValue;
      var x, y := a[|a| - 1], b[|b| - 1];
      LastDigits(Written(a[..|a| - 1]), DigitValue(x), Written(b[..|b| - 1]), DigitValue(y));
      SameDigit(x, y);
      DigitsDetermine(a[..|a| - 1], b[..|b| - 1]);
      assert a == a[..|a| - 1] + [x] && b == b[..|b| - 1] + [y];
    }
  }

  lemma DecimalInjective(a: nat, b: nat)
    requires Decimal(a) == Decimal(b)
    ensures a == b
  {
    DecimalWrites(a);
    DecimalWrites(b);
  }
}
