/**
 * Conversion of the binned moments <mu^l |delta|^2> into Legendre multipoles
 * <L_l(mu) |delta|^2>, as done at the end of compute_power_spectrum_multipoles.
 *
 * L_l(mu) = sum_{k=0}^{l/2} c(k,l) mu^(l-2k) with
 * c(k,l) = (-1)^k C(l,k) C(2l-2k,l) / 2^l, where the binomial coefficient is
 * computed as the product of (n-i)/(k-i) for i < k.
 */
module Legendre {

  //------------------------------------------------------------------
  // Binomial coefficients
  //------------------------------------------------------------------

  /** The product of the first j factors (n-i)/(k-i) of the binomial loop. */
  function BinomialProduct(n: int, k: nat, j: nat): real
    requires j <= k
  {
    if j == 0 then 1.0
    else BinomialProduct(n, k, j - 1) * ((n - (j - 1)) as real / (k - (j - 1)) as real)
  }

  /** The binomial coefficient by Pascal's rule: the reference definition. */
  function Choose(n: nat, k: nat): nat
  {
    if k == 0 then 1
    else if n == 0 then 0
    else Choose(n - 1, k - 1) + Choose(n - 1, k)
  }

  /** n (n-1) ... (n-j+1) */
  function Falling(n: int, j: nat): int
  {
    if j == 0 then 1 else Falling(n, j - 1) * (n - (j - 1))
  }

  function Factorial(k: nat): (r: int)
    ensures r >= 1
  {
    if k == 0 then 1 else k * Factorial(k - 1)
  }

  /** Peeling the first factor instead of the last. */
  lemma {:induction false} FallingShift(n: int, j: nat)
    requires j > 0
    ensures Falling(n, j) == n * Falling(n - 1, j - 1)
  {
    if j > 1 {
      FallingShift(n, j - 1);
      assert (n - 1) - (j - 2) == n - (j - 1);
    }
  }

  lemma {:induction false} FallingOfSelf(k: nat)
    ensures Falling(k, k) == Factorial(k)
  {
    if k > 0 {
      FallingShift(k, k);
      FallingOfSelf(k - 1);
    }
  }

  /** c (k f1) == k (a f1) + b (k f1) == k f + f (n - k) == n f */
  lemma PascalStep(c: int, a: int, b: int, f1: int, f: int, k: int, n: int)
    requires c == a + b
    requires a * f1 == f
    requires b * (k * f1) == f * (n - k)
    ensures c * (k * f1) == n * f
  {
    calc {
      c * (k * f1);
      a * (k * f1) + b * (k * f1);
      k * (a * f1) + f * (n - k);
      n * f;
    }
  }

  /** C(n,k) k! == n (n-1) ... (n-k+1) */
  lemma {:induction false} ChooseFalling(n: nat, k: nat)
    ensures Choose(n, k) * Factorial(k) == Falling(n, k)
  {
    if k == 0 {
    } else if n == 0 {
      FallingShift(0, k);
    } else {
      ChooseFalling(n - 1, k - 1);
      ChooseFalling(n - 1, k);
      FallingShift(n, k);
      PascalStep(Choose(n, k), Choose(n - 1, k - 1), Choose(n - 1, k), Factorial(k - 1),
        Falling(n - 1, k - 1), k, n);
    }
  }

  lemma CastMul(a: int, b: int)
    ensures (a * b) as real == (a as real) * (b as real)
  {
  }

  /** The falling factorial in real arithmetic, as the binomial loop sees it. */
  function FallingReal(n: int, j: nat): real
  {
    if j == 0 then 1.0 else FallingReal(n, j - 1) * (n - (j - 1)) as real
  }

  lemma {:induction false} FallingRealIsFalling(n: int, j: nat)
    ensures FallingReal(n, j) == Falling(n, j) as real
  {
    if j > 0 {
      FallingRealIsFalling(n, j - 1);
      CastMul(Falling(n, j - 1), n - (j - 1));
    }
  }

  lemma MulDivCancel(a: real, b: real, x: real, d: real)
    requires d != 0.0
    ensures (a * (x / d)) * (b * d) == (a * b) * x
  {
    assert (x / d) * d == x;
  }

  /** The partial product times the partial denominator is the partial numerator. */
  lemma {:induction false} BinomialProductFalling(n: int, k: nat, j: nat)
    requires j <= k
    ensures BinomialProduct(n, k, j) * FallingReal(k, j) == FallingReal(n, j)
  {
    if j > 0 {
      BinomialProductFalling(n, k, j - 1);
      MulDivCancel(BinomialProduct(n, k, j - 1), FallingReal(k, j - 1),
        (n - (j - 1)) as real, (k - (j - 1)) as real);
    }
  }

  lemma CancelFactor(a: int, b: int, c: int, x: real)
    requires b > 0 && a * b == c
    requires x * (b as real) == c as real
    ensures x == a as real
  {
    CastMul(a, b);
  }

  /**
   * The source's floating-point product formula gives, in exact arithmetic, the
   * binomial coefficient C(n,k) for every n >= 0 (including 0 when k > n).
   */
  lemma {:induction false} BinomialProductIsChoose(n: nat, k: nat)
    ensures BinomialProduct(n, k, k) == Choose(n, k) as real
  {
    var x := BinomialProduct(n, k, k);
    assert x * FallingReal(k, k) == FallingReal(n, k) by {
      BinomialProductFalling(n, k, k);
    }
    assert FallingReal(n, k) == Falling(n, k) as real by {
      FallingRealIsFalling(n, k);
    }
    assert FallingReal(k, k) == Factorial(k) as real by {
      FallingRealIsFalling(k, k);
      FallingOfSelf(k);
    }
    assert Choose(n, k) * Factorial(k) == Falling(n, k) by {
      ChooseFalling(n, k);
    }
    CancelFactor(Choose(n, k), Factorial(k), Falling(n, k), x);
  }

  /** The `binomial` helper: a loop multiplying (n-i)/(k-i) for i < k. */
  method Binomial(n: int, k: nat) returns (res: real)
    ensures res == BinomialProduct(n, k, k)
    ensures n >= 0 ==> res == Choose(n, k) as real
  {
    res := 1.0;
    var i := 0;
    while i < k
      invariant 0 <= i <= k
      invariant res == BinomialProduct(n, k, i)
    {
      res := res * ((n - i) as real / (k - i) as real);
      i := i + 1;
    }
    if n >= 0 {
      BinomialProductIsChoose(n, k);
    }
  }

  //------------------------------------------------------------------
  // Legendre coefficients
  //------------------------------------------------------------------

  function Pow2(e: nat): (r: real)
    ensures r >= 1.0
  {
    if e == 0 then 1.0 else 2.0 * Pow2(e - 1)
  }

  /** c(k,l) = (-1)^k C(l,k) C(2l-2k,l) / 2^l, each C computed by the product loop. */
  function Coef(k: nat, ell: nat): real
    requires 2 * k <= ell
  {
    var sign := if k % 2 == 0 then 1.0 else -1.0;
    sign * BinomialProduct(ell, k, k) * BinomialProduct(2 * ell - 2 * k, ell, ell) / Pow2(ell)
  }

  /** The coefficient is the textbook Legendre coefficient with exact binomials. */
  lemma CoefIsStandard(k: nat, ell: nat)
    requires 2 * k <= ell
    ensures Coef(k, ell) == (if k % 2 == 0 then 1.0 else -1.0)
      * (Choose(ell, k) as real) * (Choose(2 * ell - 2 * k, ell) as real) / Pow2(ell)
  {
    var a := BinomialProduct(ell, k, k);
    var b := BinomialProduct(2 * ell - 2 * k, ell, ell);
    assert a == Choose(ell, k) as real by {
      BinomialProductIsChoose(ell, k);
    }
    assert b == Choose(2 * ell - 2 * k, ell) as real by {
      BinomialProductIsChoose(2 * ell - 2 * k, ell);
    }
    ScaledProduct(if k % 2 == 0 then 1.0 else -1.0, a, Choose(ell, k) as real,
      b, Choose(2 * ell - 2 * k, ell) as real, Pow2(ell));
  }

  lemma ScaledProduct(s: real, a: real, a': real, b: real, b': real, p: real)
    requires a == a' && b == b' && p != 0.0
    ensures s * a * b / p == s * a' * b' / p
  {
  }

  /** The `summand_legendre_polynomial` helper. */
  method SummandLegendre(k: nat, ell: nat) returns (c: real)
    requires 2 * k <= ell
    ensures c == Coef(k, ell)
  {
    var sign := if k % 2 == 0 then 1.0 else -1.0;
    var b1 := Binomial(ell, k);
    var b2 := Binomial(2 * ell - 2 * k, ell);
    c := sign * b1 * b2 / Pow2(ell);
  }

  //------------------------------------------------------------------
  // The moment -> multipole map
  //------------------------------------------------------------------

  /** All moment tables have the same number of bins. */
  predicate Rectangular(m: seq<seq<real>>) {
    forall r :: 0 <= r < |m| ==> |m[r]| == |m[0]|
  }

  /** sum_{k < kk} m[ell-2k][i] * c(k,ell) */
  function MomentSum(m: seq<seq<real>>, ell: nat, i: nat, kk: nat): real
    requires ell < |m| && Rectangular(m) && i < |m[0]|
    requires kk <= ell / 2 + 1
  {
    if kk == 0 then 0.0
    else MomentSum(m, ell, i, kk - 1) + m[ell - 2 * (kk - 1)][i] * Coef(kk - 1, ell)
  }

  /** The multipole tables: P_l[i] = sum_{k <= l/2} c(k,l) m[l-2k][i], all from the unconverted moments. */
  function LegendreMultipoles(m: seq<seq<real>>): (p: seq<seq<real>>)
    requires Rectangular(m)
    ensures |p| == |m| && Rectangular(p)
    ensures forall ell :: 0 <= ell < |m| ==> |p[ell]| == |m[0]|
  {
    seq(|m|, ell requires 0 <= ell < |m| =>
      seq(|m[0]|, i requires 0 <= i < |m[0]| => MomentSum(m, ell, i, ell / 2 + 1)))
  }

  /** The innermost loop: sum[i] += mu_power[i] * c for every bin. */
  method AddScaled(sum: seq<real>, muPower: seq<real>, c: real) returns (r: seq<real>)
    requires |muPower| == |sum|
    ensures |r| == |sum|
    ensures forall j :: 0 <= j < |r| ==> r[j] == sum[j] + muPower[j] * c
  {
    r := sum;
    var i := 0;
    while i < |r|
      invariant 0 <= i <= |r| == |sum|
      invariant forall j :: 0 <= j < i ==> r[j] == sum[j] + muPower[j] * c
      invariant forall j :: i <= j < |r| ==> r[j] == sum[j]
    {
      r := r[i := r[i] + muPower[i] * c];
      i := i + 1;
    }
  }

  /** One `sum` vector of the conversion loop: sum_{k <= l/2} c(k,l) m[l-2k], bin by bin. */
  method LegendreSum(m: seq<seq<real>>, ell: nat) returns (sum: seq<real>)
    requires Rectangular(m) && ell < |m|
    ensures |sum| == |m[0]|
    ensures forall j :: 0 <= j < |sum| ==> sum[j] == MomentSum(m, ell, j, ell / 2 + 1)
  {
    var len := |m[0]|;
    sum := seq(len, _ => 0.0);
    var k := 0;
    while k <= ell / 2
      invariant 0 <= k <= ell / 2 + 1
      invariant |sum| == len
      invariant forall j :: 0 <= j < len ==> sum[j] == MomentSum(m, ell, j, k)
    {
      var c := SummandLegendre(k, ell);
      var next := AddScaled(sum, m[ell - 2 * k], c);
      forall j | 0 <= j < len
        ensures next[j] == MomentSum(m, ell, j, k + 1)
      {
      }
      sum := next;
      k := k + 1;
    }
  }

  /**
   * The loop that fills `temp`: for every l a fresh sum is built from the
   * moment tables, which are only read, so every multipole uses unconverted moments.
   */
  method MomentsToLegendre(m: seq<seq<real>>) returns (temp: seq<seq<real>>)
    requires Rectangular(m)
    ensures temp == LegendreMultipoles(m)
  {
    temp := [];
    var ell := 0;
    while ell < |m|
      invariant 0 <= ell <= |m|
      invariant temp == LegendreMultipoles(m)[..ell]
    {
      var sum := LegendreSum(m, ell);
      assert sum == LegendreMultipoles(m)[ell];
      temp := temp + [sum];
      ell := ell + 1;
    }
  }

  //------------------------------------------------------------------
  // The first multipoles, written out
  //------------------------------------------------------------------

  lemma CoefValues()
    ensures Coef(0, 0) == 1.0
    ensures Coef(0, 1) == 1.0
    ensures Coef(0, 2) == 3.0 / 2.0 && Coef(1, 2) == -1.0 / 2.0
    ensures Coef(0, 3) == 5.0 / 2.0 && Coef(1, 3) == -3.0 / 2.0
    ensures Coef(0, 4) == 35.0 / 8.0 && Coef(1, 4) == -30.0 / 8.0 && Coef(2, 4) == 3.0 / 8.0
  {
    assert BinomialProduct(2, 1, 1) == 2.0;
    assert BinomialProduct(2, 2, 2) == 1.0;
    assert BinomialProduct(4, 2, 2) == 6.0;
    assert BinomialProduct(3, 1, 1) == 3.0;
    assert BinomialProduct(6, 3, 3) == 20.0;
    assert BinomialProduct(4, 3, 3) == 4.0;
    assert BinomialProduct(4, 1, 1) == 4.0;
    assert BinomialProduct(8, 4, 4) == 70.0;
    assert BinomialProduct(6, 4, 4) == 15.0;
    assert BinomialProduct(4, 4, 4) == 1.0;
  }

  /** P0 = m0, P1 = m1, P2 = (3 m2 - m0)/2, P3 = (5 m3 - 3 m1)/2, P4 = (35 m4 - 30 m2 + 3 m0)/8. */
  lemma LowOrderMultipoles(m: seq<seq<real>>, i: nat)
    requires Rectangular(m) && |m| >= 5 && i < |m[0]|
    ensures LegendreMultipoles(m)[0][i] == m[0][i]
    ensures LegendreMultipoles(m)[1][i] == m[1][i]
    ensures LegendreMultipoles(m)[2][i] == (3.0 * m[2][i] - m[0][i]) / 2.0
    ensures LegendreMultipoles(m)[3][i] == (5.0 * m[3][i] - 3.0 * m[1][i]) / 2.0
    ensures LegendreMultipoles(m)[4][i] == (35.0 * m[4][i] - 30.0 * m[2][i] + 3.0 * m[0][i]) / 8.0
  {
    CoefValues();
    assert LegendreMultipoles(m)[0][i] == MomentSum(m, 0, i, 1) == m[0][i] * Coef(0, 0);
    assert LegendreMultipoles(m)[1][i] == MomentSum(m, 1, i, 1) == m[1][i] * Coef(0, 1);
    assert MomentSum(m, 2, i, 1) == m[2][i] * Coef(0, 2);
    assert LegendreMultipoles(m)[2][i] == MomentSum(m, 2, i, 2);
    assert MomentSum(m, 3, i, 1) == m[3][i] * Coef(0, 3);
    assert LegendreMultipoles(m)[3][i] == MomentSum(m, 3, i, 2);
    assert MomentSum(m, 4, i, 1) == m[4][i] * Coef(0, 4);
    assert MomentSum(m, 4, i, 2) == MomentSum(m, 4, i, 1) + m[2][i] * Coef(1, 4);
    assert LegendreMultipoles(m)[4][i] == MomentSum(m, 4, i, 3);
  }

  /** The monopole table is the zeroth moment table, whatever the number of tables. */
  lemma MonopoleIsZerothMoment(m: seq<seq<real>>)
    requires Rectangular(m) && |m| > 0
    ensures LegendreMultipoles(m)[0] == m[0]
  {
    CoefValues();
    forall i | 0 <= i < |m[0]|
      ensures LegendreMultipoles(m)[0][i] == m[0][i]
    {
      assert LegendreMultipoles(m)[0][i] == MomentSum(m, 0, i, 1) == m[0][i] * Coef(0, 0);
    }
  }
}
