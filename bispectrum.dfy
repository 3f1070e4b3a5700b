/**
 * The bispectrum estimator on a Fourier grid.
 *
 * After the shell loop (module Shells) every shell i has a real-space masked
 * grid F_i and a real-space count grid N_i. For every triple of shells
 * (k1, k2, k3) the estimator sums F_1 F_2 F_3 and N_1 N_2 N_3 over the real
 * cells, scales both by the cell volume factor (dx / 2 pi)^ndim (the parameter
 * `volume`), and stores B123 = F123 / N123 divided by the reduced-bispectrum
 * norm P1 P2 + P2 P3 + P3 P1 when that is positive. The tables are flat vectors
 * of nbins^3 entries.
 *
 * Only the triples whose decoded entries satisfy ik[0] <= ik[1] <= ik[2], with
 * ik[0] the least significant digit, are computed, and those that cannot close a
 * triangle get 0. A completion pass then copies every computed B123 into the
 * zero entries of the other orderings of its triple; N123 is left as computed.
 */
module Bispectrum {
  import opened PowerSpectrum
  import opened Shells
  import opened Tuples

  //------------------------------------------------------------------
  // One triple
  //------------------------------------------------------------------

  /** The sum over the first m real cells of a[r] * b[r] * c[r]. */
  function TripleSum(a: seq<real>, b: seq<real>, c: seq<real>, m: nat): real
    requires m <= |a| && m <= |b| && m <= |c|
  {
    if m == 0 then 0.0 else TripleSum(a, b, c, m - 1) + a[m - 1] * b[m - 1] * c[m - 1]
  }

  /** The cell loops of the tuple pass: one running sum of products over the real cells. */
  method SumTriple(a: seq<real>, b: seq<real>, c: seq<real>, m: nat) returns (sum: real)
    requires m <= |a| && m <= |b| && m <= |c|
    ensures sum == TripleSum(a, b, c, m)
  {
    sum := 0.0;
    var r := 0;
    while r < m
      invariant 0 <= r <= m && sum == TripleSum(a, b, c, r)
    {
      sum := sum + a[r] * b[r] * c[r];
      r := r + 1;
    }
  }

  /** One entry of the two tables: B123[i] and N123[i]. */
  datatype Entry = Entry(b: real, n: real)

  /** The triangle test of the tuple pass: k1 + k2 falls short of k3 by more than 3 deltak / 2. */
  predicate NoTriangle(k1: real, k2: real, k3: real, deltak: real) {
    k1 + k2 < k3 - 3.0 * deltak / 2.0
  }

  /** Both sums, scaled by the cell volume factor. */
  function ScaledSum(a: seq<real>, b: seq<real>, c: seq<real>, cells: nat, volume: real): real
    requires cells <= |a| && cells <= |b| && cells <= |c|
  {
    TripleSum(a, b, c, cells) * volume
  }

  /** The reduced-bispectrum norm P1 P2 + P2 P3 + P3 P1. */
  function ReducedNorm(p1: real, p2: real, p3: real): real {
    p1 * p2 + p2 * p3 + p3 * p1
  }

  /** The entry the tuple pass stores for the shell triple (i0, i1, i2). */
  function TripleEntry(shells: seq<Shell>, cells: nat, deltak: real, volume: real, i0: nat, i1: nat, i2: nat)
    : (e: Entry)
    requires Uniform(shells, cells) && i0 < |shells| && i1 < |shells| && i2 < |shells|
    ensures e.n >= 0.0 && (e.n == 0.0 ==> e.b == 0.0)
    ensures NoTriangle(shells[i0].kbin, shells[i1].kbin, shells[i2].kbin, deltak) ==> e == Entry(0.0, 0.0)
  {
    var s0, s1, s2 := shells[i0], shells[i1], shells[i2];
    if NoTriangle(s0.kbin, s1.kbin, s2.kbin, deltak) then Entry(0.0, 0.0)
    else
      var n := ScaledSum(s0.realN, s1.realN, s2.realN, cells, volume);
      var f := ScaledSum(s0.realF, s1.realF, s2.realF, cells, volume);
      var b := Ratio(f, n);
      var norm := ReducedNorm(s0.pofk, s1.pofk, s2.pofk);
      Entry(if norm > 0.0 then b / norm else b, if n > 0.0 then n else 0.0)
  }

  /** The body of the tuple pass for a triple that passed the ordering test. */
  method ComputeEntry(shells: seq<Shell>, cells: nat, deltak: real, volume: real, i0: nat, i1: nat, i2: nat)
    returns (e: Entry)
    requires Uniform(shells, cells) && i0 < |shells| && i1 < |shells| && i2 < |shells|
    ensures e == TripleEntry(shells, cells, deltak, volume, i0, i1, i2)
  {
    var s0, s1, s2 := shells[i0], shells[i1], shells[i2];
    if s0.kbin + s1.kbin < s2.kbin - 3.0 * deltak / 2.0 {
      return Entry(0.0, 0.0);
    }
    var n123 := SumTriple(s0.realN, s1.realN, s2.realN, cells);
    var f123 := SumTriple(s0.realF, s1.realF, s2.realF, cells);
    f123 := f123 * volume;
    n123 := n123 * volume;
    assert n123 == ScaledSum(s0.realN, s1.realN, s2.realN, cells, volume);
    assert f123 == ScaledSum(s0.realF, s1.realF, s2.realF, cells, volume);
    var b := if n123 > 0.0 then f123 / n123 else 0.0;
    var n := if n123 > 0.0 then n123 else 0.0;
    var norm := s0.pofk * s1.pofk + s1.pofk * s2.pofk + s2.pofk * s0.pofk;
    assert b == Ratio(f123, n123) && norm == ReducedNorm(s0.pofk, s1.pofk, s2.pofk);
    if norm > 0.0 {
      b := b / norm;
    }
    e := Entry(b, n);
  }

  //------------------------------------------------------------------
  // The tuple pass
  //------------------------------------------------------------------

  /** The entry the tuple pass leaves at flat index x: only ik[0] <= ik[1] <= ik[2] are computed. */
  function FirstPass(shells: seq<Shell>, cells: nat, deltak: real, volume: real, x: nat): Entry
    requires Uniform(shells, cells) && |shells| > 0
  {
    var ik := LsbDigits(x, |shells|, 3);
    if ik[0] > ik[1] || ik[1] > ik[2] then Entry(0.0, 0.0)
    else TripleEntry(shells, cells, deltak, volume, ik[0], ik[1], ik[2])
  }

  /** The loop over all nbins^3 flat indices, writing B123 and N123 in place. */
  method TuplePass(shells: seq<Shell>, cells: nat, deltak: real, volume: real, B: array<real>, N: array<real>)
    requires Uniform(shells, cells) && |shells| > 0 && B != N
    requires B.Length == N.Length == Power(|shells|, 3)
    requires forall x :: 0 <= x < B.Length ==> B[x] == 0.0 && N[x] == 0.0
    modifies B, N
    ensures forall x :: 0 <= x < B.Length ==>
      B[x] == FirstPass(shells, cells, deltak, volume, x).b && N[x] == FirstPass(shells, cells, deltak, volume, x).n
  {
    var nbins := |shells|;
    for i := 0 to B.Length
      invariant forall x :: 0 <= x < i ==>
        B[x] == FirstPass(shells, cells, deltak, volume, x).b && N[x] == FirstPass(shells, cells, deltak, volume, x).n
      invariant forall x :: i <= x < B.Length ==> B[x] == 0.0 && N[x] == 0.0
    {
      var ik := DecodeLsb(i, nbins, 3);
      if ik[0] > ik[1] || ik[1] > ik[2] {
        continue;
      }
      var e := ComputeEntry(shells, cells, deltak, volume, ik[0], ik[1], ik[2]);
      B[i], N[i] := e.b, e.n;
    }
  }

  //------------------------------------------------------------------
  // The completion pass
  //------------------------------------------------------------------

  /** A triple of shell indices below n. */
  predicate Triple(t: seq<int>, n: nat) {
    |t| == 3 && Digits(t, n)
  }

  /** The index (a*n + b)*n + c the completion pass computes for (a, b, c). */
  function Index3(a: int, b: int, c: int, n: nat): (r: nat)
    requires 0 <= a < n && 0 <= b < n && 0 <= c < n
    ensures r < Power(n, 3)
  {
    AppendBelow(a, b, n, n);
    AppendBelow(a * n + b, c, n, n * n);
    assert Power(n, 3) == n * (n * n) by {
      assert Power(n, 1) == n;
    }
    (a * n + b) * n + c
  }

  /** The completion pass's index of (a, b, c) is the flat index of the tuple. */
  lemma FoldTriple(a: int, b: int, c: int, n: nat)
    requires 0 <= a < n && 0 <= b < n && 0 <= c < n
    ensures Fold([a, b, c], n) == Index3(a, b, c, n)
  {
    assert [a, b, c][..2] == [a, b] && [a, b][..1] == [a] && [a][..0] == [];
    assert Fold([a], n) == a;
    assert Fold([a, b], n) == a * n + b;
  }

  /** t is one of the six orderings of the triple s. */
  predicate ArrangementOf(t: seq<int>, s: seq<int>)
    requires |s| == 3
  {
    t == [s[0], s[1], s[2]] || t == [s[0], s[2], s[1]] || t == [s[1], s[2], s[0]] ||
    t == [s[1], s[0], s[2]] || t == [s[2], s[0], s[1]] || t == [s[2], s[1], s[0]]
  }

  /** Sorting three indices in increasing order. */
  function Sort3(a: int, b: int, c: int): (s: seq<int>)
    ensures |s| == 3 && Sorted(s) && ArrangementOf([a, b, c], s)
  {
    if a <= b then (if b <= c then [a, b, c] else if a <= c then [a, c, b] else [c, a, b])
    else (if a <= c then [b, a, c] else if b <= c then [b, c, a] else [c, b, a])
  }

  /** Sorting any ordering of a sorted triple gives back that triple. */
  lemma SortOfArrangement(t: seq<int>, s: seq<int>)
    requires |s| == 3 && Sorted(s) && ArrangementOf(t, s)
    ensures Sort3(t[0], t[1], t[2]) == s
  {
    assert s == [s[0], s[1], s[2]];
  }

  /** The ordering of t in increasing order. */
  function Ascending(t: seq<int>, n: nat): (s: seq<int>)
    requires Triple(t, n)
    ensures Triple(s, n) && Sorted(s) && ArrangementOf(t, s)
  {
    assert t == [t[0], t[1], t[2]];
    Sort3(t[0], t[1], t[2])
  }

  /** The ordering of t in decreasing order: the one the tuple pass computed. */
  function Canon(t: seq<int>, n: nat): (c: seq<int>)
    requires Triple(t, n)
    ensures Triple(c, n) && NonIncreasing(c)
  {
    Reverse(Ascending(t, n))
  }

  /** The six orderings of a sorted triple, as the completion pass lists them. */
  function PermIndices(s: seq<int>, n: nat): set<int>
    requires Triple(s, n)
  {
    {Index3(s[0], s[1], s[2], n), Index3(s[0], s[2], s[1], n), Index3(s[1], s[2], s[0], n),
     Index3(s[1], s[0], s[2], n), Index3(s[2], s[0], s[1], n), Index3(s[2], s[1], s[0], n)}
  }

  /** The table after filling the zero entries among ps with v. */
  function Fill(b: seq<real>, ps: set<int>, v: real): (r: seq<real>)
    ensures |r| == |b|
    ensures forall x :: 0 <= x < |b| ==> r[x] == if x in ps && b[x] == 0.0 then v else b[x]
  {
    seq(|b|, x requires 0 <= x < |b| => if x in ps && b[x] == 0.0 then v else b[x])
  }

  /** Six conditional writes from one index, in a row, fill the six indices from its first value. */
  lemma FillSix(b0: seq<real>, b1: seq<real>, b2: seq<real>, b3: seq<real>, b4: seq<real>, b5: seq<real>,
                b6: seq<real>, x0: int, x1: int, x2: int, x3: int, x4: int, x5: int, index: int)
    requires 0 <= index < |b0|
    requires b1 == Fill(b0, {x0}, b0[index]) && b2 == Fill(b1, {x1}, b1[index])
    requires b3 == Fill(b2, {x2}, b2[index]) && b4 == Fill(b3, {x3}, b3[index])
    requires b5 == Fill(b4, {x4}, b4[index]) && b6 == Fill(b5, {x5}, b5[index])
    ensures b6 == Fill(b0, {x0, x1, x2, x3, x4, x5}, b0[index])
  {
    var v := b0[index];
    assert b1[index] == v && b2[index] == v && b3[index] == v && b4[index] == v && b5[index] == v;
    var f := Fill(b0, {x0, x1, x2, x3, x4, x5}, v);
    forall y | 0 <= y < |b0|
      ensures b6[y] == f[y]
    {
    }
  }

  /** One conditional write of the completion pass: if (B[x] == 0.0) B[x] = B[index]. */
  method FillZero(B: array<real>, x: int, index: int)
    requires 0 <= x < B.Length && 0 <= index < B.Length
    modifies B
    ensures B[..] == Fill(old(B[..]), {x}, old(B[index]))
  {
    if B[x] == 0.0 {
      B[x] := B[index];
    }
  }

  /** One visit of the completion pass, at (i, j, k). */
  method Visit(B: array<real>, nbins: nat, i: int, j: int, k: int)
    requires 0 <= i < nbins && 0 <= j < nbins && 0 <= k < nbins && B.Length == Power(nbins, 3)
    modifies B
    ensures Triple([i, j, k], nbins)
    ensures B[..] == Fill(old(B[..]), PermIndices(Ascending([i, j, k], nbins), nbins), old(B[Index3(i, j, k, nbins)]))
  {
    var index := Index3(i, j, k, nbins);
    var inds := Ascending([i, j, k], nbins);
    var s0, s1, s2 := inds[0], inds[1], inds[2];
    var index0 := Index3(s0, s1, s2, nbins);
    var index1 := Index3(s0, s2, s1, nbins);
    var index2 := Index3(s1, s2, s0, nbins);
    var index3 := Index3(s1, s0, s2, nbins);
    var index4 := Index3(s2, s0, s1, nbins);
    var index5 := Index3(s2, s1, s0, nbins);
    ghost var b0 := B[..];
    FillZero(B, index0, index);
    ghost var b1 := B[..];
    FillZero(B, index1, index);
    ghost var b2 := B[..];
    FillZero(B, index2, index);
    ghost var b3 := B[..];
    FillZero(B, index3, index);
    ghost var b4 := B[..];
    FillZero(B, index4, index);
    ghost var b5 := B[..];
    FillZero(B, index5, index);
    FillSix(b0, b1, b2, b3, b4, b5, B[..], index0, index1, index2, index3, index4, index5, index);
    assert PermIndices(inds, nbins) == {index0, index1, index2, index3, index4, index5};
  }

  //------------------------------------------------------------------
  // Why the completion pass copies each computed entry to all orderings
  //------------------------------------------------------------------

  /** The order the completion pass visits triples in. */
  predicate LexBelow(c: seq<int>, p: seq<int>)
    requires |c| == 3 && |p| == 3
  {
    c[0] < p[0] || (c[0] == p[0] && (c[1] < p[1] || (c[1] == p[1] && c[2] < p[2])))
  }

  /** The entry the tuple pass computed for the ordering of t. */
  function Completed(b0: seq<real>, t: seq<int>, n: nat): real
    requires Triple(t, n) && |b0| == Power(n, 3)
  {
    b0[Fold(Canon(t, n), n)]
  }

  /** Before completion only the decreasing orderings hold values. */
  ghost predicate OnlyCanonical(b0: seq<real>, n: nat) {
    |b0| == Power(n, 3) && forall t {:trigger b0[Fold(t, n)]} :: Triple(t, n) && t != Canon(t, n) ==> b0[Fold(t, n)] == 0.0
  }

  /** Every entry still holds its own value or already the completed one. */
  ghost predicate Between(b: seq<real>, b0: seq<real>, n: nat) {
    |b| == |b0| == Power(n, 3) &&
    forall t {:trigger b[Fold(t, n)]} :: Triple(t, n) ==> b[Fold(t, n)] == Completed(b0, t, n) || b[Fold(t, n)] == b0[Fold(t, n)]
  }

  /** Every triple whose decreasing ordering was visited before p holds the completed value. */
  ghost predicate Done(b: seq<real>, b0: seq<real>, n: nat, p: seq<int>)
    requires |p| == 3
  {
    |b| == |b0| == Power(n, 3) &&
    forall t {:trigger b[Fold(t, n)]} :: Triple(t, n) && LexBelow(Canon(t, n), p) ==> b[Fold(t, n)] == Completed(b0, t, n)
  }

  lemma ReverseTwice(s: seq<int>)
    ensures Reverse(Reverse(s)) == s
  {
  }

  /** Triples with the same increasing ordering have the same decreasing ordering, and back. */
  lemma CanonAgrees(t: seq<int>, p: seq<int>, n: nat)
    requires Triple(t, n) && Triple(p, n)
    ensures Canon(t, n) == Canon(p, n) <==> Ascending(t, n) == Ascending(p, n)
  {
    ReverseTwice(Ascending(t, n));
    ReverseTwice(Ascending(p, n));
  }

  /** A decreasing triple is its own decreasing ordering. */
  lemma CanonOfNonIncreasing(t: seq<int>, n: nat)
    requires Triple(t, n) && NonIncreasing(t)
    ensures Canon(t, n) == t
  {
    var s := Reverse(t);
    assert s == [t[2], t[1], t[0]];
    assert Sorted(s);
    SortOfArrangement(t, s);
    ReverseTwice(t);
  }

  /** The decreasing ordering is its own decreasing ordering. */
  lemma CanonIdempotent(t: seq<int>, n: nat)
    requires Triple(t, n)
    ensures Canon(Canon(t, n), n) == Canon(t, n)
  {
    CanonOfNonIncreasing(Canon(t, n), n);
  }

  /** Distinct triples have distinct indices. */
  lemma Index3Injective(a: int, b: int, c: int, d: int, e: int, f: int, n: nat)
    requires 0 <= a < n && 0 <= b < n && 0 <= c < n && 0 <= d < n && 0 <= e < n && 0 <= f < n
    requires Index3(a, b, c, n) == Index3(d, e, f, n)
    ensures a == d && b == e && c == f
  {
    FoldTriple(a, b, c, n);
    FoldTriple(d, e, f, n);
    FoldInjective([a, b, c], [d, e, f], n);
  }

  /** The index of t is among the six a visit of the sorted triple s fills exactly when t orders s. */
  lemma ArrangementIndex(t: seq<int>, s: seq<int>, n: nat)
    requires Triple(t, n) && Triple(s, n)
    ensures Index3(t[0], t[1], t[2], n) in PermIndices(s, n) <==> ArrangementOf(t, s)
  {
    var x, y, z := s[0], s[1], s[2];
    var i := Index3(t[0], t[1], t[2], n);
    assert t == [t[0], t[1], t[2]];
    if i == Index3(x, y, z, n) {
      Index3Injective(t[0], t[1], t[2], x, y, z, n);
    } else if i == Index3(x, z, y, n) {
      Index3Injective(t[0], t[1], t[2], x, z, y, n);
    } else if i == Index3(y, z, x, n) {
      Index3Injective(t[0], t[1], t[2], y, z, x, n);
    } else if i == Index3(y, x, z, n) {
      Index3Injective(t[0], t[1], t[2], y, x, z, n);
    } else if i == Index3(z, x, y, n) {
      Index3Injective(t[0], t[1], t[2], z, x, y, n);
    } else if i == Index3(z, y, x, n) {
      Index3Injective(t[0], t[1], t[2], z, y, x, n);
    }
  }

  /** The six indices a visit at p fills are the triples with p's decreasing ordering. */
  lemma PermIndicesAreArrangements(t: seq<int>, p: seq<int>, n: nat)
    requires Triple(t, n) && Triple(p, n)
    ensures Fold(t, n) in PermIndices(Ascending(p, n), n) <==> Canon(t, n) == Canon(p, n)
  {
    var s := Ascending(p, n);
    CanonAgrees(t, p, n);
    assert t == [t[0], t[1], t[2]];
    FoldTriple(t[0], t[1], t[2], n);
    ArrangementIndex(t, s, n);
    if ArrangementOf(t, s) {
      SortOfArrangement(t, s);
    }
  }

  /** The decreasing ordering of p is never visited before p: it is the largest ordering. */
  lemma CanonNotBelow(p: seq<int>, n: nat)
    requires Triple(p, n)
    ensures !LexBelow(Canon(p, n), p)
  {
  }

  /** The triples visited before the one after p are those visited before p, and p. */
  lemma LexNext(c: seq<int>, p: seq<int>)
    requires |c| == 3 && |p| == 3
    ensures LexBelow(c, [p[0], p[1], p[2] + 1]) <==> LexBelow(c, p) || c == p
  {
    assert c == [c[0], c[1], c[2]] && p == [p[0], p[1], p[2]];
  }

  /** One entry of the table across a visit at p. */
  lemma VisitEntry(b: seq<real>, b0: seq<real>, n: nat, p: seq<int>, t: seq<int>)
    requires Triple(p, n) && Triple(t, n) && OnlyCanonical(b0, n) && Between(b, b0, n) && Done(b, b0, n, p)
    ensures var b' := Fill(b, PermIndices(Ascending(p, n), n), b[Index3(p[0], p[1], p[2], n)]);
      (b'[Fold(t, n)] == Completed(b0, t, n) || b'[Fold(t, n)] == b0[Fold(t, n)]) &&
      (LexBelow(Canon(t, n), [p[0], p[1], p[2] + 1]) ==> b'[Fold(t, n)] == Completed(b0, t, n))
  {
    var ps := PermIndices(Ascending(p, n), n);
    var x, xp := Fold(t, n), Fold(p, n);
    assert p == [p[0], p[1], p[2]];
    FoldTriple(p[0], p[1], p[2], n);
    var v := b[xp];
    var b' := Fill(b, ps, v);
    assert b'[x] == if x in ps && b[x] == 0.0 then v else b[x];
    var c := Canon(t, n);
    var ct := Completed(b0, t, n);
    assert b[x] == ct || b[x] == b0[x];
    assert v == Completed(b0, p, n) || v == b0[xp];
    PermIndicesAreArrangements(t, p, n);
    CanonIdempotent(t, n);
    CanonNotBelow(p, n);
    LexNext(c, p);
    if c != Canon(p, n) {
      assert x !in ps && b'[x] == b[x];
      assert c != p;
      if LexBelow(c, [p[0], p[1], p[2] + 1]) {
        assert LexBelow(c, p);
      }
    } else {
      assert x in ps;
      assert ct == Completed(b0, p, n);
      if p != c {
        assert b0[xp] == 0.0;
        assert !LexBelow(c, [p[0], p[1], p[2] + 1]);
      } else {
        assert v == ct;
        if t != p {
          assert b0[x] == 0.0;
        }
        assert b'[x] == ct;
      }
    }
  }

  /** A visit at p keeps every entry at its own or its completed value. */
  lemma VisitKeeps(b: seq<real>, b0: seq<real>, n: nat, p: seq<int>)
    requires Triple(p, n) && OnlyCanonical(b0, n) && Between(b, b0, n) && Done(b, b0, n, p)
    ensures Between(Fill(b, PermIndices(Ascending(p, n), n), b[Index3(p[0], p[1], p[2], n)]), b0, n)
  {
    var b' := Fill(b, PermIndices(Ascending(p, n), n), b[Index3(p[0], p[1], p[2], n)]);
    forall t | Triple(t, n)
      ensures b'[Fold(t, n)] == Completed(b0, t, n) || b'[Fold(t, n)] == b0[Fold(t, n)]
    {
      VisitEntry(b, b0, n, p, t);
    }
  }

  /** A visit at p completes every ordering of p's triple. */
  lemma VisitCompletes(b: seq<real>, b0: seq<real>, n: nat, p: seq<int>)
    requires Triple(p, n) && OnlyCanonical(b0, n) && Between(b, b0, n) && Done(b, b0, n, p)
    ensures Done(Fill(b, PermIndices(Ascending(p, n), n), b[Index3(p[0], p[1], p[2], n)]), b0, n, [p[0], p[1], p[2] + 1])
  {
    var b' := Fill(b, PermIndices(Ascending(p, n), n), b[Index3(p[0], p[1], p[2], n)]);
    var q := [p[0], p[1], p[2] + 1];
    forall t | Triple(t, n) && LexBelow(Canon(t, n), q)
      ensures b'[Fold(t, n)] == Completed(b0, t, n)
    {
      VisitEntry(b, b0, n, p, t);
    }
  }

  /** Having visited (i, j, n - 1) is having visited everything before (i, j + 1, 0). */
  lemma NextRow(b: seq<real>, b0: seq<real>, n: nat, i: int, j: int)
    requires Done(b, b0, n, [i, j, n])
    ensures Done(b, b0, n, [i, j + 1, 0])
  {
  }

  /** Having visited (i, n - 1, n - 1) is having visited everything before (i + 1, 0, 0). */
  lemma NextPlane(b: seq<real>, b0: seq<real>, n: nat, i: int)
    requires Done(b, b0, n, [i, n, 0])
    ensures Done(b, b0, n, [i + 1, 0, 0])
  {
  }

  /** Before the first visit nothing is completed and nothing has changed. */
  lemma Start(b0: seq<real>, n: nat)
    requires |b0| == Power(n, 3)
    ensures Between(b0, b0, n) && Done(b0, b0, n, [0, 0, 0])
  {
  }

  /** After the last visit every entry holds its completed value. */
  lemma Finish(b: seq<real>, b0: seq<real>, n: nat)
    requires Done(b, b0, n, [n, 0, 0])
    ensures forall t {:trigger b[Fold(t, n)]} :: Triple(t, n) ==> b[Fold(t, n)] == b0[Fold(Canon(t, n), n)]
  {
  }

  /** The visits at (i, j, 0) .. (i, j, nbins - 1). */
  method CompleteRow(B: array<real>, nbins: nat, i: int, j: int, ghost b0: seq<real>)
    requires 0 <= i < nbins && 0 <= j < nbins
    requires OnlyCanonical(b0, nbins) && Between(B[..], b0, nbins) && Done(B[..], b0, nbins, [i, j, 0])
    modifies B
    ensures Between(B[..], b0, nbins) && Done(B[..], b0, nbins, [i, j + 1, 0])
  {
    for k := 0 to nbins
      invariant Between(B[..], b0, nbins) && Done(B[..], b0, nbins, [i, j, k])
    {
      ghost var b := B[..];
      Visit(B, nbins, i, j, k);
      VisitKeeps(b, b0, nbins, [i, j, k]);
      VisitCompletes(b, b0, nbins, [i, j, k]);
    }
    NextRow(B[..], b0, nbins, i, j);
  }

  /** The visits at (i, 0, 0) .. (i, nbins - 1, nbins - 1). */
  method CompletePlane(B: array<real>, nbins: nat, i: int, ghost b0: seq<real>)
    requires 0 <= i < nbins
    requires OnlyCanonical(b0, nbins) && Between(B[..], b0, nbins) && Done(B[..], b0, nbins, [i, 0, 0])
    modifies B
    ensures Between(B[..], b0, nbins) && Done(B[..], b0, nbins, [i + 1, 0, 0])
  {
    for j := 0 to nbins
      invariant Between(B[..], b0, nbins) && Done(B[..], b0, nbins, [i, j, 0])
    {
      CompleteRow(B, nbins, i, j, b0);
    }
    NextPlane(B[..], b0, nbins, i);
  }

  /**
   * The completion pass. Given a table in which only the decreasing orderings hold
   * values, every ordering of every triple ends up with its decreasing ordering's value.
   */
  method Complete(B: array<real>, nbins: nat)
    requires OnlyCanonical(B[..], nbins)
    modifies B
    ensures forall t {:trigger B[Fold(t, nbins)]} :: Triple(t, nbins) ==> B[Fold(t, nbins)] == old(B[Fold(Canon(t, nbins), nbins)])
  {
    ghost var b0 := B[..];
    Start(b0, nbins);
    for i := 0 to nbins
      invariant Between(B[..], b0, nbins) && Done(B[..], b0, nbins, [i, 0, 0])
    {
      CompletePlane(B, nbins, i, b0);
    }
    Finish(B[..], b0, nbins);
  }

  //------------------------------------------------------------------
  // compute_bispectrum
  //------------------------------------------------------------------

  /** The tuple pass at the index of a triple: only decreasing triples are computed, from their entries in increasing order. */
  lemma FirstPassAt(shells: seq<Shell>, cells: nat, deltak: real, volume: real, t: seq<int>)
    requires Uniform(shells, cells) && Triple(t, |shells|)
    ensures FirstPass(shells, cells, deltak, volume, Fold(t, |shells|)) ==
      if NonIncreasing(t) then TripleEntry(shells, cells, deltak, volume, t[2], t[1], t[0]) else Entry(0.0, 0.0)
  {
    var ik := LsbDigits(Fold(t, |shells|), |shells|, 3);
    LsbOfTriple(t, |shells|);
    assert ik[0] == t[2] && ik[1] == t[1] && ik[2] == t[0];
    NonIncreasingTriple(t);
  }

  lemma NonIncreasingTriple(t: seq<int>)
    requires |t| == 3
    ensures NonIncreasing(t) <==> t[1] <= t[0] && t[2] <= t[1]
  {
    if t[1] <= t[0] && t[2] <= t[1] {
      forall ii | 1 <= ii < 3
        ensures t[ii] <= t[ii - 1]
      {
        if ii == 2 {
        }
      }
    }
  }

  lemma LsbOfTriple(t: seq<int>, n: nat)
    requires Triple(t, n)
    ensures LsbDigits(Fold(t, n), n, 3) == [t[2], t[1], t[0]]
  {
    LsbOfFold(t, n);
  }

  /** After the tuple pass only the decreasing orderings hold values. */
  lemma FirstPassOnlyCanonical(shells: seq<Shell>, cells: nat, deltak: real, volume: real, b: seq<real>)
    requires Uniform(shells, cells) && |shells| > 0 && |b| == Power(|shells|, 3)
    requires forall x :: 0 <= x < |b| ==> b[x] == FirstPass(shells, cells, deltak, volume, x).b
    ensures OnlyCanonical(b, |shells|)
  {
    forall t | Triple(t, |shells|) && t != Canon(t, |shells|)
      ensures b[Fold(t, |shells|)] == 0.0
    {
      FirstPassAt(shells, cells, deltak, volume, t);
      if NonIncreasing(t) {
        CanonOfNonIncreasing(t, |shells|);
      }
    }
  }

  /** The B123 every ordering of t should hold: the entry of its increasing ordering. */
  function Expected(shells: seq<Shell>, cells: nat, deltak: real, volume: real, t: seq<int>): Entry
    requires Uniform(shells, cells) && Triple(t, |shells|)
  {
    var s := Ascending(t, |shells|);
    TripleEntry(shells, cells, deltak, volume, s[0], s[1], s[2])
  }

  /** Reordering a triple does not change its increasing ordering, so B123 is symmetric. */
  lemma ExpectedSymmetric(shells: seq<Shell>, cells: nat, deltak: real, volume: real, t: seq<int>, u: seq<int>)
    requires Uniform(shells, cells) && Triple(t, |shells|) && Triple(u, |shells|) && ArrangementOf(u, t)
    ensures Expected(shells, cells, deltak, volume, u) == Expected(shells, cells, deltak, volume, t)
  {
    var s := Ascending(t, |shells|);
    assert ArrangementOf(t, s);
    assert ArrangementOf(u, s);
    SortOfArrangement(u, s);
    assert u == [u[0], u[1], u[2]];
  }

  /** The tuple pass's entry at the decreasing ordering of t is the one every ordering of t should hold. */
  lemma ExpectedAt(shells: seq<Shell>, cells: nat, deltak: real, volume: real, t: seq<int>)
    requires Uniform(shells, cells) && Triple(t, |shells|)
    ensures FirstPass(shells, cells, deltak, volume, Fold(Canon(t, |shells|), |shells|)) == Expected(shells, cells, deltak, volume, t)
    ensures FirstPass(shells, cells, deltak, volume, Fold(t, |shells|)).n ==
      if NonIncreasing(t) then Expected(shells, cells, deltak, volume, t).n else 0.0
  {
    var n := |shells|;
    var c := Canon(t, n);
    FirstPassAt(shells, cells, deltak, volume, c);
    FirstPassAt(shells, cells, deltak, volume, t);
    var s := Ascending(t, n);
    assert c == [s[2], s[1], s[0]];
    if NonIncreasing(t) {
      CanonOfNonIncreasing(t, n);
    }
  }

  /**
   * The tables compute_bispectrum promises: every ordering of a triple holds the B123
   * of its increasing ordering, and N123 is set on the decreasing orderings only.
   */
  ghost predicate BispectrumTables(shells: seq<Shell>, cells: nat, deltak: real, volume: real, B123: seq<real>, N123: seq<real>)
    requires Uniform(shells, cells)
  {
    |B123| == |N123| == Power(|shells|, 3) &&
    forall t :: Triple(t, |shells|) ==>
      B123[Fold(t, |shells|)] == Expected(shells, cells, deltak, volume, t).b &&
      N123[Fold(t, |shells|)] == if NonIncreasing(t) then Expected(shells, cells, deltak, volume, t).n else 0.0
  }

  /** The tuple pass and the completion pass over the shells, on fresh zeroed tables. */
  method Tables(shells: seq<Shell>, cells: nat, deltak: real, volume: real) returns (B123: seq<real>, N123: seq<real>)
    requires Uniform(shells, cells) && |shells| > 0
    ensures BispectrumTables(shells, cells, deltak, volume, B123, N123)
  {
    var nbins := |shells|;
    var B := new real[Power(nbins, 3)](_ => 0.0);
    var N := new real[Power(nbins, 3)](_ => 0.0);
    TuplePass(shells, cells, deltak, volume, B, N);
    ghost var first := B[..];
    FirstPassOnlyCanonical(shells, cells, deltak, volume, first);
    Complete(B, nbins);
    B123, N123 := B[..], N[..];
    forall t | Triple(t, nbins)
      ensures B123[Fold(t, nbins)] == Expected(shells, cells, deltak, volume, t).b
      ensures N123[Fold(t, nbins)] == if NonIncreasing(t) then Expected(shells, cells, deltak, volume, t).n else 0.0
    {
      ExpectedAt(shells, cells, deltak, volume, t);
      assert B123[Fold(t, nbins)] == B[Fold(t, nbins)] == first[Fold(Canon(t, nbins), nbins)];
    }
  }

  /**
   * compute_bispectrum: the shells, the tuple pass over all nbins^3 flat indices
   * and the completion pass. `volume` is the scale factor (1 / Nmesh / 2 pi)^ndim.
   * The four results are the fields B123, N123, kbin and pofk of the binning.
   */
  method ComputeBispectrum(k: seq<real>, kmag2: seq<real>, values: seq<Complex>, sqrt: real -> real,
                           toReal: seq<Complex> -> seq<real>, cells: nat, volume: real)
    returns (B123: seq<real>, N123: seq<real>, kbin: seq<real>, pofk: seq<real>)
    requires 2 <= |k| && |values| == |kmag2| && RealCells(toReal, cells)
    ensures |kbin| == |pofk| == |k|
    ensures forall i :: 0 <= i < |k| ==> kbin[i] == KBin(k, i) && pofk[i] == ShellMeanPower(k, kmag2, values, i)
    ensures Uniform(ShellsUpTo(k, kmag2, values, sqrt, toReal, |k|), cells)
    ensures BispectrumTables(ShellsUpTo(k, kmag2, values, sqrt, toReal, |k|), cells, k[1] - k[0], volume, B123, N123)
  {
    var shells := ComputeShells(k, kmag2, values, sqrt, toReal);
    ShellsUniform(k, kmag2, values, sqrt, toReal, cells);
    B123, N123 := Tables(shells, cells, k[1] - k[0], volume);
    kbin := seq(|k|, i requires 0 <= i < |k| => shells[i].kbin);
    pofk := seq(|k|, i requires 0 <= i < |k| => shells[i].pofk);
  }
}
