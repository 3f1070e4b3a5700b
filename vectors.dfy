/**
 * Small vector helpers shared by the estimators: the dot product that the
 * estimators accumulate component by component, and the coordinate unit vector
 * used as a line-of-sight direction.
 */
module Vectors {

  /** sum_{d < j} a[d] b[d], accumulated in index order as the source loops do. */
  function Dot(a: seq<real>, b: seq<real>, j: nat): real
    requires j <= |a| && j <= |b|
  {
    if j == 0 then 0.0 else Dot(a, b, j - 1) + a[j - 1] * b[j - 1]
  }

  /** The loop `s += a[d] * b[d]` over every component. */
  method DotProduct(a: seq<real>, b: seq<real>) returns (s: real)
    requires |a| == |b|
    ensures s == Dot(a, b, |a|)
  {
    s := 0.0;
    var d := 0;
    while d < |a|
      invariant 0 <= d <= |a|
      invariant s == Dot(a, b, d)
    {
      s := s + a[d] * b[d];
      d := d + 1;
    }
  }

  /** The vector with a 1 in component `dir` and 0 elsewhere. */
  function UnitVector(n: nat, dir: nat): (e: seq<real>)
    requires dir < n
    ensures |e| == n && e[dir] == 1.0
    ensures forall d :: 0 <= d < n && d != dir ==> e[d] == 0.0
  {
    seq(n, d => if d == dir then 1.0 else 0.0)
  }

  /** Dotting with a coordinate unit vector picks out one component. */
  lemma {:induction false} DotUnit(v: seq<real>, dir: nat, j: nat)
    requires dir < |v| && j <= |v|
    ensures Dot(v, UnitVector(|v|, dir), j) == if dir < j then v[dir] else 0.0
  {
    if j > 0 {
      DotUnit(v, dir, j - 1);
    }
  }

  /** The sum of squares of the components. */
  function SumSquares(a: seq<real>): (s: real)
    ensures s >= 0.0
  {
    if |a| == 0 then 0.0 else SumSquares(a[..|a| - 1]) + a[|a| - 1] * a[|a| - 1]
  }

  /** A vector that is 1 in component dir and 0 elsewhere has squared length 1. */
  lemma {:induction false} SumSquaresIndicator(s: seq<real>, dir: nat)
    requires forall d :: 0 <= d < |s| ==> s[d] == if d == dir then 1.0 else 0.0
    ensures SumSquares(s) == if dir < |s| then 1.0 else 0.0
  {
    if |s| > 0 {
      SumSquaresIndicator(s[..|s| - 1], dir);
    }
  }

  lemma UnitVectorLength(n: nat, dir: nat)
    requires dir < n
    ensures SumSquares(UnitVector(n, dir)) == 1.0
  {
    SumSquaresIndicator(UnitVector(n, dir), dir);
  }
}
