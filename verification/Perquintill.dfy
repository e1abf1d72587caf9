/** Fixed-point fractions in units of 10^-18: exact floor arithmetic, saturating at one. */
module Perquintill {

  const ONE: nat := 1_000_000_000_000_000_000

  /** `p / q` rounded down; one when `q` is zero or `p` exceeds `q`. */
  function FromRational(p: nat, q: nat): (part: nat)
    ensures part <= ONE
  {
    if q == 0 || p > q then ONE else
      RatioAtMostOne(p, q);
      p * ONE / q
  }

  lemma RatioAtMostOne(p: nat, q: nat)
    requires p <= q && q > 0
    ensures p * ONE / q <= ONE
  {
    MulMono(p, q, ONE);
    assert q * ONE == ONE * q;
    DivAtMost(p * ONE, q, ONE);
  }

  function MulFloor(part: nat, x: nat): (r: nat) { part * x / ONE }

  function PlusEpsilon(part: nat): (r: nat) { if part < ONE then part + 1 else ONE }

  function ReciprocalMulFloor(part: nat, x: nat): (r: nat)
    requires part > 0
  {
    x * ONE / part
  }

  // Floor division, stated by multiplication.

  lemma DivBounds(a: nat, b: nat)
    requires b > 0
    ensures a / b * b <= a < (a / b + 1) * b
  {
    assert a == a / b * b + a % b;
  }

  lemma DivAtMost(a: nat, b: nat, q: nat)
    requires b > 0 && a <= q * b
    ensures a / b <= q
  {
    var x := a / b;
    assert x * b <= a by { DivBounds(a, b); }
    CancelMul(x, q, b);
  }

  lemma DivAtLeast(a: nat, b: nat, q: nat)
    requires b > 0 && q * b <= a
    ensures a / b >= q
  {
    var x := a / b;
    assert a < (x + 1) * b by { DivBounds(a, b); }
    CancelLess(q, x + 1, b);
  }

  /** Rounding the parts down never gives more than rounding the whole down. */
  lemma DivAntitone(a: nat, b: nat, c: nat)
    requires 0 < b <= c
    ensures a / c <= a / b
  {
    DivBounds(a, c);
    MulMono(b, c, a / c);
    DivAtLeast(a, b, a / c);
  }

  lemma DivSuperadditive(a: nat, b: nat, c: nat)
    requires c > 0
    ensures a / c + b / c <= (a + b) / c
  {
    var x, y := a / c, b / c;
    assert x * c <= a by { DivBounds(a, c); }
    assert y * c <= b by { DivBounds(b, c); }
    assert (x + y) * c <= a + b by { Distribute(x, y, c); }
    DivAtLeast(a + b, c, x + y);
  }

  lemma MulFloorSuperadditive(part: nat, x: nat, y: nat)
    ensures MulFloor(part, x) + MulFloor(part, y) <= MulFloor(part, x + y)
  {
    assert part * (x + y) == part * x + part * y;
    DivSuperadditive(part * x, part * y, ONE);
  }

  lemma ReciprocalSuperadditive(part: nat, x: nat, y: nat)
    requires part > 0
    ensures ReciprocalMulFloor(part, x) + ReciprocalMulFloor(part, y) <= ReciprocalMulFloor(part, x + y)
  {
    assert (x + y) * ONE == x * ONE + y * ONE;
    DivSuperadditive(x * ONE, y * ONE, part);
  }

  /** A fraction of at most one never enlarges its operand. */
  lemma MulFloorAtMost(part: nat, x: nat)
    requires part <= ONE
    ensures MulFloor(part, x) <= x
  {
    assert part * x <= ONE * x by { MulMono(part, ONE, x); }
    DivAtMost(part * x, ONE, x);
  }

  lemma MulFloorOne(x: nat)
    ensures MulFloor(ONE, x) == x
  {}

  /** Splitting `x` in proportion `p : q` keeps within the exact share: `r * q <= x * p`. */
  lemma ProportionBound(p: nat, q: nat, x: nat)
    requires p <= q && q > 0
    ensures MulFloor(FromRational(p, q), x) * q <= x * p
  {
    var f := FromRational(p, q);
    var r := MulFloor(f, x);
    DivBounds(p * ONE, q);
    DivBounds(f * x, ONE);
    // r * ONE <= f * x  and  f * q <= p * ONE
    calc {
      r * q * ONE;
      == r * ONE * q;
      <= { MulMono(r * ONE, f * x, q); }
      f * x * q;
      == { MulSwap(f, x, q); }
      f * q * x;
      <= { MulMono(f * q, p * ONE, x); }
      p * ONE * x;
      == { MulSwap(p, ONE, x); }
      x * p * ONE;
    }
    CancelMul(r * q, x * p, ONE);
  }

  /** `r` is `part / whole` of `amount`, rounded down; a fraction is exact to one part in 10^18 of the amount. */
  ghost predicate IsPart(r: nat, amount: nat, part: nat, whole: nat) {
    r * whole <= amount * part && amount * part * ONE < (r + 1) * ONE * whole + amount * whole
  }

  lemma ProportionIsPart(p: nat, q: nat, x: nat)
    requires p <= q && q > 0
    ensures IsPart(MulFloor(FromRational(p, q), x), x, p, q)
  {
    ProportionBound(p, q, x);
    var f := FromRational(p, q);
    var r := MulFloor(f, x);
    assert f * x < (r + 1) * ONE by { DivBounds(f * x, ONE); }
    assert p * ONE <= f * q + q by { DivBounds(p * ONE, q); Distribute(f, 1, q); }
    calc {
      x * p * ONE;
      == { MulSwap(x, p, ONE); MulSwap(p, ONE, x); }
      p * ONE * x;
      <= { MulMono(p * ONE, f * q + q, x); }
      (f * q + q) * x;
      == { Distribute(f * q, q, x); MulSwap(f, q, x); }
      f * x * q + q * x;
      < { MulMonoStrict(f * x, (r + 1) * ONE, q); }
      (r + 1) * ONE * q + q * x;
    }
  }

  lemma MulMonoStrict(a: nat, b: nat, c: nat)
    requires a < b && c > 0
    ensures a * c < b * c
  {
    MulMono(a + 1, b, c);
    Distribute(a, 1, c);
  }

  lemma MulMono(a: nat, b: nat, c: nat)
    requires a <= b
    ensures a * c <= b * c
  {}

  lemma MulSwap(a: nat, b: nat, c: nat)
    ensures a * b * c == a * c * b == c * a * b
  {
    assert a * b * c == a * (b * c);
    assert a * c * b == a * (c * b);
  }

  lemma Distribute(x: nat, y: nat, c: nat)
    ensures (x + y) * c == x * c + y * c
  {}

  lemma CancelLess(a: nat, b: nat, c: nat)
    requires a * c < b * c
    ensures a < b
  {
    if b <= a {
      MulMono(b, a, c);
    }
  }

  lemma CancelMul(a: nat, b: nat, c: nat)
    requires c > 0 && a * c <= b * c
    ensures a <= b
  {
    if b < a {
      MulMono(b + 1, a, c);
    }
  }

  lemma MulSucc(a: nat, n: nat)
    requires n > 0
    ensures a * n == a * (n - 1) + a
  {}

  /** Fractions compared by cross-multiplication: not falling twice is not falling. */
  lemma RatioTrans(s1: nat, t1: nat, s2: nat, t2: nat, s3: nat, t3: nat)
    requires s2 > 0 && t2 * s1 >= t1 * s2 && t3 * s2 >= t2 * s3
    ensures t3 * s1 >= t1 * s3
  {
    calc {
      t1 * s3 * s2;
      == { MulSwap(t1, s3, s2); }
      t1 * s2 * s3;
      <= { MulMono(t1 * s2, t2 * s1, s3); }
      t2 * s1 * s3;
      == { MulSwap(t2, s1, s3); }
      t2 * s3 * s1;
      <= { MulMono(t2 * s3, t3 * s2, s1); }
      t3 * s2 * s1;
      == { MulSwap(t3, s2, s1); }
      t3 * s1 * s2;
    }
    CancelMul(t1 * s3, t3 * s1, s2);
  }
}
