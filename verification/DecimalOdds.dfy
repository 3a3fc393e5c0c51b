/** Fractional odds to truncated decimal odds (list.parser.ts `decimalOdds`). */
module DecimalOdds {
  import opened Domain
  import opened Texts

  // --- Reading the fraction --------------------------------------------------

  predicate Digits(s: string) { s != "" && forall i :: 0 <= i < |s| ==> '0' <= s[i] <= '9' }

  function Value(s: string): nat
    requires forall i :: 0 <= i < |s| ==> '0' <= s[i] <= '9'
  {
    if s == "" then 0 else Value(s[..|s| - 1]) * 10 + (s[|s| - 1] as int - '0' as int)
  }

  /** Two runs of digits around one slash. */
  function Fraction(raw: string): Option<(nat, nat)> {
    var parts := Split(raw, '/');
    if |parts| == 2 && Digits(parts[0]) && Digits(parts[1]) then Some((Value(parts[0]), Value(parts[1]))) else None
  }

  // --- Converting ------------------------------------------------------------

  const CAP: real := 1_000_000_000.0

  /** Three decimals below 1.10, two from there on. */
  function Scale(n: nat, d: nat): nat { if n * 10 < d then 1000 else 100 }

  function Quotient(n: nat, d: nat): nat
    requires d > 0
  {
    ((n + d) * Scale(n, d)) / d
  }

  function Truncated(n: nat, d: nat): real
    requires d > 0
  {
    Quotient(n, d) as real / Scale(n, d) as real
  }

  function Convert(n: nat, d: nat): Option<real> {
    if d == 0 || n == 0 then None
    else
      var v := Truncated(n, d);
      if v <= 1.0 || v > CAP then None else Some(v)
  }

  function Decimal(raw: string): Option<real> {
    var f := Fraction(raw);
    if f.None? then None else Convert(f.value.0, f.value.1)
  }

  // --- Results ---------------------------------------------------------------

  predicate Writes(raw: string, a: string, b: string, n: nat, d: nat) {
    raw == a + ['/'] + b && Digits(a) && Digits(b) && Value(a) == n && Value(b) == d
  }

  /** A text is read as n/d iff it is a numeral for n, one slash and a numeral for d. */
  lemma {:induction false} FractionIff(raw: string, n: nat, d: nat)
    ensures Fraction(raw) == Some((n, d)) <==> exists a, b :: Writes(raw, a, b, n, d)
  {
    if Fraction(raw) == Some((n, d)) {
      var parts := Split(raw, '/');
      JoinSplit(raw, '/');
      assert parts == [parts[0], parts[1]] && parts[1..] == [parts[1]];
      assert Writes(raw, parts[0], parts[1], n, d);
    }
    if a, b :| Writes(raw, a, b, n, d) {
      SplitHead(a, b, '/');
      SplitSingle(b, '/');
    }
  }

  lemma {:induction false} QuotientBounds(n: nat, d: nat)
    requires d > 0
    ensures Quotient(n, d) * d <= (n + d) * Scale(n, d) < (Quotient(n, d) + 1) * d
  {
    var x := (n + d) * Scale(n, d);
    assert x == (x / d) * d + x % d;
  }

  lemma {:induction false} OneMore(q: real, s: real)
    requires s > 0.0
    ensures (q + 1.0) / s == q / s + 1.0 / s
  {
  }

  lemma {:induction false} ScaledReal(q: nat, s: nat, x: nat, d: nat)
    requires d > 0 && s > 0 && q * d <= x * s < (q + 1) * d
    ensures q as real / s as real <= x as real / d as real < q as real / s as real + 1.0 / s as real
  {
    OneMore(q as real, s as real);
  }

  /** Truncation: never above the exact odds, and below by less than one last digit. */
  lemma {:induction false} TruncatesExactly(n: nat, d: nat)
    requires d > 0
    ensures var v, s, exact := Truncated(n, d), Scale(n, d) as real, (n + d) as real / d as real;
            v <= exact < v + 1.0 / s
  {
    QuotientBounds(n, d);
    ScaledReal(Quotient(n, d), Scale(n, d), n + d, d);
  }

  lemma {:induction false} AtMostQuotient(p: nat, y: nat, e: nat)
    requires e > 0 && p * e <= y
    ensures p <= y / e
  {
    assert y == (y / e) * e + y % e;
    if p > y / e { Scaled(y / e + 1, p, e); }
  }

  lemma {:induction false} FloorMonotone(x: nat, d: nat, y: nat, e: nat)
    requires d > 0 && e > 0 && x * e <= y * d
    ensures x / d <= y / e
  {
    var p := x / d;
    assert x == p * d + x % d;
    Scaled(p * d, x, e);
    assert (p * d) * e == (p * e) * d;
    AtMostQuotient(p, y, e);
  }

  lemma {:induction false} Scaled(a: nat, b: nat, c: nat)
    requires a <= b
    ensures a * c <= b * c
  {
  }

  /** From 1.10 on, below it: the two-decimal value is at least 1.10, the
      three-decimal one below. */
  lemma {:induction false} ScaleSwitch(n: nat, d: nat)
    requires d > 0
    ensures Scale(n, d) == 1000 ==> Truncated(n, d) < 1.1
    ensures Scale(n, d) == 100 ==> Truncated(n, d) >= 1.1
  {
    QuotientBounds(n, d);
    var q := Quotient(n, d);
    if Scale(n, d) == 1000 {
      assert (n + d) * 1000 < 1100 * d;
      if q >= 1100 { Scaled(1100, q, d); }
      assert q < 1100;
    } else {
      assert (n + d) * 100 >= 110 * d;
      if q + 1 <= 110 { Scaled(q + 1, 110, d); }
      assert q >= 110;
    }
  }

  /** A larger fraction never gives smaller odds, even across the change from three
      to two decimals. */
  lemma {:induction false} OddsAreMonotone(n: nat, d: nat, m: nat, e: nat)
    requires d > 0 && e > 0 && n * e <= m * d
    ensures Truncated(n, d) <= Truncated(m, e)
  {
    ScaleSwitch(n, d);
    ScaleSwitch(m, e);
    if Scale(n, d) == Scale(m, e) {
      SameScaleMonotone(n, d, m, e, Scale(n, d));
      assert Quotient(n, d) <= Quotient(m, e);
    }
  }

  lemma {:induction false} SameScaleMonotone(n: nat, d: nat, m: nat, e: nat, s: nat)
    requires d > 0 && e > 0 && n * e <= m * d
    ensures ((n + d) * s) / d <= ((m + e) * s) / e
  {
    assert (n + d) * e <= (m + e) * d;
    Scaled((n + d) * e, (m + e) * d, s);
    assert ((n + d) * s) * e == ((n + d) * e) * s && ((m + e) * s) * d == ((m + e) * d) * s;
    FloorMonotone((n + d) * s, d, (m + e) * s, e);
  }

  lemma {:induction false} AboveOne(n: nat, d: nat)
    requires n > 0 && d > 0
    ensures Truncated(n, d) > 1.0 <==> d <= 1000 * n
  {
    QuotientBounds(n, d);
    var q, s := Quotient(n, d), Scale(n, d);
    if d <= 1000 * n {
      assert (n + d) * s >= (s + 1) * d;
      if q + 1 <= s + 1 { Scaled(q + 1, s + 1, d); }
      assert q > s;
    } else {
      assert s == 1000;
      assert (n + d) * s < (s + 1) * d;
      if q >= s + 1 { Scaled(s + 1, q, d); }
      assert q <= s;
    }
  }

  lemma {:induction false} WithinCap(n: nat, d: nat)
    requires d > 0
    ensures Truncated(n, d) <= CAP <==> (n + d) * 100 < 100_000_000_001 * d
  {
    QuotientBounds(n, d);
    var q, s := Quotient(n, d), Scale(n, d);
    if s == 1000 {
      ScaleSwitch(n, d);
      assert (n + d) * 1000 < 1100 * d;
    } else {
      if q >= 100_000_000_001 { Scaled(100_000_000_001, q, d); }
      if q + 1 <= 100_000_000_001 { Scaled(q + 1, 100_000_000_001, d); }
    }
  }

  /** Exactly which fractions are accepted: positive ones, at least 1/1000, whose
      truncated value stays within the cap. */
  lemma {:induction false} AcceptedIff(n: nat, d: nat)
    ensures Convert(n, d).Some? <==> n > 0 && d > 0 && d <= 1000 * n && (n + d) * 100 < 100_000_000_001 * d
    ensures Convert(n, d).Some? ==> Convert(n, d).value == Truncated(n, d)
  {
    if n > 0 && d > 0 {
      AboveOne(n, d);
      WithinCap(n, d);
    }
  }
}
