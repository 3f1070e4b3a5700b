/**
 * The polyspectrum estimator of a given order on a Fourier grid.
 *
 * The shells are those of the bispectrum (module Shells). For every tuple of
 * `order` shells the estimator sums the product of the real-space masked grids
 * and the product of the count grids over the real cells, scales both by the
 * cell volume factor, and stores P123 = F / N and N123 = N. The tables are flat
 * vectors of nbins^order entries.
 *
 * The tuple loop decodes its index with ik[0] the most significant digit and
 * computes only the tuples whose digits do not increase, so ik[0] is the largest
 * shell of a computed tuple and ik[order-1] the smallest.
 *
 * Two steps of the source are modelled twice, as written and as evidently intended:
 * - the polygon test compares the sum over ik[0..order-2] with ik[order-1], the
 *   smallest shell, and so never fires (PolygonTestNeverFires); the model's tuple
 *   pass compares the sum over the other shells with the largest one, ik[0];
 * - the completion loop decodes with ik[0] the least significant digit, so the
 *   tuples it visits are exactly those whose flat index is already the index of
 *   their sorted ordering, and it leaves both tables as they were (Complete); the
 *   model's tables give every ordering of a tuple the entry of its computed
 *   ordering (Symmetrize).
 */
module Polyspectrum {
  import opened PowerSpectrum
  import opened Shells
  import opened Tuples
  import Bispectrum

  //------------------------------------------------------------------
  // One tuple
  //------------------------------------------------------------------

  /** The masked real-space grid of every shell. */
  function FGrids(shells: seq<Shell>): (g: seq<seq<real>>)
    ensures |g| == |shells| && forall s :: 0 <= s < |shells| ==> g[s] == shells[s].realF
  {
    seq(|shells|, s requires 0 <= s < |shells| => shells[s].realF)
  }

  /** The real-space count grid of every shell. */
  function NGrids(shells: seq<Shell>): (g: seq<seq<real>>)
    ensures |g| == |shells| && forall s :: 0 <= s < |shells| ==> g[s] == shells[s].realN
  {
    seq(|shells|, s requires 0 <= s < |shells| => shells[s].realN)
  }

  /** The shell midpoints k_bin. */
  function KBins(shells: seq<Shell>): (kbin: seq<real>)
    ensures |kbin| == |shells| && forall s :: 0 <= s < |shells| ==> kbin[s] == shells[s].kbin
  {
    seq(|shells|, s requires 0 <= s < |shells| => shells[s].kbin)
  }

  /** Every grid holds `cells` values. */
  predicate Cells(grids: seq<seq<real>>, cells: nat) {
    forall s :: 0 <= s < |grids| ==> |grids[s]| == cells
  }

  /** The product over the first m entries of the tuple of grid ik[ii] at real cell r. */
  function TupleProduct(grids: seq<seq<real>>, cells: nat, ik: seq<int>, r: nat, m: nat): real
    requires Cells(grids, cells) && Digits(ik, |grids|) && r < cells && m <= |ik|
  {
    if m == 0 then 1.0 else TupleProduct(grids, cells, ik, r, m - 1) * grids[ik[m - 1]][r]
  }

  /** The sum over the first m real cells of the tuple's product. */
  function TupleSum(grids: seq<seq<real>>, cells: nat, ik: seq<int>, m: nat): real
    requires Cells(grids, cells) && Digits(ik, |grids|) && m <= cells
  {
    if m == 0 then 0.0 else TupleSum(grids, cells, ik, m - 1) + TupleProduct(grids, cells, ik, m - 1, |ik|)
  }

  /** The innermost loop: the running product over the tuple at one real cell. */
  method Product(grids: seq<seq<real>>, cells: nat, ik: seq<int>, r: nat) returns (prod: real)
    requires Cells(grids, cells) && Digits(ik, |grids|) && r < cells
    ensures prod == TupleProduct(grids, cells, ik, r, |ik|)
  {
    prod := 1.0;
    for ii := 0 to |ik|
      invariant prod == TupleProduct(grids, cells, ik, r, ii)
    {
      prod := prod * grids[ik[ii]][r];
    }
  }

  /** The loop over the real cells: one running sum of products. */
  method SumTuple(grids: seq<seq<real>>, cells: nat, ik: seq<int>) returns (sum: real)
    requires Cells(grids, cells) && Digits(ik, |grids|)
    ensures sum == TupleSum(grids, cells, ik, cells)
  {
    sum := 0.0;
    for r := 0 to cells
      invariant sum == TupleSum(grids, cells, ik, r)
    {
      var prod := Product(grids, cells, ik, r);
      sum := sum + prod;
    }
  }

  /** For three shells the tuple's product is the bispectrum's triple product. */
  lemma ProductOfThree(grids: seq<seq<real>>, cells: nat, ik: seq<int>, r: nat)
    requires Cells(grids, cells) && Digits(ik, |grids|) && r < cells && |ik| == 3
    ensures TupleProduct(grids, cells, ik, r, 3) == grids[ik[0]][r] * grids[ik[1]][r] * grids[ik[2]][r]
  {
    assert TupleProduct(grids, cells, ik, r, 1) == grids[ik[0]][r];
  }

  /** The sum of k_bin over the first m entries of the tuple. */
  function KSum(kbin: seq<real>, ik: seq<int>, m: nat): real
    requires Digits(ik, |kbin|) && m <= |ik|
  {
    if m == 0 then 0.0 else KSum(kbin, ik, m - 1) + kbin[ik[m - 1]]
  }

  /** The sum of k_bin over entries 1 .. m-1 of the tuple: every entry but the first. */
  function OthersSum(kbin: seq<real>, ik: seq<int>, m: nat): real
    requires Digits(ik, |kbin|) && m <= |ik|
  {
    if m <= 1 then 0.0 else OthersSum(kbin, ik, m - 1) + kbin[ik[m - 1]]
  }

  /**
   * The validity loop of the tuple pass: the ordering test and the k_bin sum of the
   * entries other than ik[0], the largest one of a valid tuple.
   */
  method Scan(ik: seq<int>, kbin: seq<real>) returns (valid: bool, ksum: real)
    requires Digits(ik, |kbin|) && |ik| > 0
    ensures valid <==> NonIncreasing(ik)
    ensures ksum == OthersSum(kbin, ik, |ik|)
  {
    valid := true;
    ksum := 0.0;
    for ii := 1 to |ik|
      invariant valid <==> forall j :: 1 <= j < ii ==> ik[j] <= ik[j - 1]
      invariant ksum == OthersSum(kbin, ik, ii)
    {
      if ik[ii] > ik[ii - 1] {
        valid := false;
      }
      ksum := ksum + kbin[ik[ii]];
    }
  }

  /** The polygon test: the sum ksum of the other sides falls short of the side klong by more than order deltak / 2. */
  predicate NoPolygon(ksum: real, klong: real, order: nat, deltak: real) {
    ksum < klong - (order as real) * deltak / 2.0
  }

  /** One entry of the two tables: P123[i] and N123[i]. */
  datatype Entry = Entry(p: real, n: real)

  /** The entry the tuple pass stores for the tuple ik. */
  function TupleEntry(shells: seq<Shell>, cells: nat, deltak: real, volume: real, ik: seq<int>): (e: Entry)
    requires Uniform(shells, cells) && Digits(ik, |shells|) && |ik| > 0
    ensures e.n >= 0.0 && (e.n == 0.0 ==> e.p == 0.0)
    ensures NoPolygon(OthersSum(KBins(shells), ik, |ik|), shells[ik[0]].kbin, |ik|, deltak) ==> e == Entry(0.0, 0.0)
  {
    if NoPolygon(OthersSum(KBins(shells), ik, |ik|), shells[ik[0]].kbin, |ik|, deltak) then Entry(0.0, 0.0)
    else
      var n := TupleSum(NGrids(shells), cells, ik, cells) * volume;
      var f := TupleSum(FGrids(shells), cells, ik, cells) * volume;
      Entry(Ratio(f, n), if n > 0.0 then n else 0.0)
  }

  /** The body of the tuple pass for a tuple that passed the ordering test, given its k sum. */
  method ComputeEntry(shells: seq<Shell>, cells: nat, deltak: real, volume: real, ik: seq<int>, kbin: seq<real>,
                      ksum: real)
    returns (e: Entry)
    requires Uniform(shells, cells) && Digits(ik, |shells|) && |ik| > 0
    requires kbin == KBins(shells) && ksum == OthersSum(kbin, ik, |ik|)
    ensures e == TupleEntry(shells, cells, deltak, volume, ik)
  {
    var order := |ik|;
    if ksum < kbin[ik[0]] - (order as real) * deltak / 2.0 {
      return Entry(0.0, 0.0);
    }
    var n123 := SumTuple(NGrids(shells), cells, ik);
    var f123 := SumTuple(FGrids(shells), cells, ik);
    f123 := f123 * volume;
    n123 := n123 * volume;
    var p := if n123 > 0.0 then f123 / n123 else 0.0;
    var n := if n123 > 0.0 then n123 else 0.0;
    e := Entry(p, n);
  }

  //------------------------------------------------------------------
  // The tuple pass
  //------------------------------------------------------------------

  /** The entry the tuple pass leaves at flat index x: only non-increasing tuples are computed. */
  function FirstPass(shells: seq<Shell>, cells: nat, deltak: real, volume: real, order: nat, x: nat): Entry
    requires Uniform(shells, cells) && |shells| > 0 && order > 0
  {
    var ik := MsbDigits(x, |shells|, order);
    if !NonIncreasing(ik) then Entry(0.0, 0.0) else TupleEntry(shells, cells, deltak, volume, ik)
  }

  /** One pass of the tuple loop, at flat index i. */
  method VisitTuple(shells: seq<Shell>, cells: nat, deltak: real, volume: real, order: nat, kbin: seq<real>,
                    P: array<real>, N: array<real>, i: nat)
    requires Uniform(shells, cells) && |shells| > 0 && order > 0 && P != N && kbin == KBins(shells)
    requires i < P.Length == N.Length && P[i] == 0.0 && N[i] == 0.0
    modifies P, N
    ensures P[i] == FirstPass(shells, cells, deltak, volume, order, i).p
    ensures N[i] == FirstPass(shells, cells, deltak, volume, order, i).n
    ensures forall x :: 0 <= x < P.Length && x != i ==> P[x] == old(P[x]) && N[x] == old(N[x])
  {
    var ik := DecodeMsb(i, |shells|, order);
    var valid, ksum := Scan(ik, kbin);
    if !valid {
      return;
    }
    var e := ComputeEntry(shells, cells, deltak, volume, ik, kbin, ksum);
    P[i], N[i] := e.p, e.n;
  }

  /** The loop over all nbins^order flat indices, writing P123 and N123 in place. */
  method TuplePass(shells: seq<Shell>, cells: nat, deltak: real, volume: real, order: nat,
                   P: array<real>, N: array<real>)
    requires Uniform(shells, cells) && |shells| > 0 && order > 0 && P != N
    requires P.Length == N.Length == Power(|shells|, order)
    requires forall x :: 0 <= x < P.Length ==> P[x] == 0.0 && N[x] == 0.0
    modifies P, N
    ensures forall x :: 0 <= x < P.Length ==>
      P[x] == FirstPass(shells, cells, deltak, volume, order, x).p &&
      N[x] == FirstPass(shells, cells, deltak, volume, order, x).n
  {
    var kbin := KBins(shells);
    for i := 0 to P.Length
      invariant forall x :: 0 <= x < i ==>
        P[x] == FirstPass(shells, cells, deltak, volume, order, x).p &&
        N[x] == FirstPass(shells, cells, deltak, volume, order, x).n
      invariant forall x :: i <= x < P.Length ==> P[x] == 0.0 && N[x] == 0.0
    {
      VisitTuple(shells, cells, deltak, volume, order, kbin, P, N, i);
    }
  }

  /** The polygon test compares against the last entry, which is the smallest entry of a computed tuple. */
  lemma LastIsSmallest(ik: seq<int>, j: nat)
    requires NonIncreasing(ik) && j < |ik|
    ensures ik[|ik| - 1] <= ik[j]
  {
    AdjacentOrder(ik, j, |ik| - 1);
  }

  lemma {:induction false} KSumAtLeast(kbin: seq<real>, ik: seq<int>, m: nat, lo: real)
    requires Digits(ik, |kbin|) && 0 < m <= |ik| && lo >= 0.0
    requires forall ii :: 0 <= ii < m ==> kbin[ik[ii]] >= lo
    ensures KSum(kbin, ik, m) >= lo
  {
    if m > 1 {
      KSumAtLeast(kbin, ik, m - 1, lo);
    } else {
      assert KSum(kbin, ik, 0) == 0.0;
    }
  }

  /**
   * With non-negative, non-decreasing shell midpoints and deltak > 0, the polygon test
   * never zeroes a computed tuple: the sum of the other entries is at least the smallest one.
   */
  lemma PolygonTestNeverFires(kbin: seq<real>, ik: seq<int>, deltak: real)
    requires Digits(ik, |kbin|) && |ik| >= 2 && NonIncreasing(ik) && deltak > 0.0
    requires forall s :: 0 <= s < |kbin| ==> kbin[s] >= 0.0
    requires forall s, t :: 0 <= s <= t < |kbin| ==> kbin[s] <= kbin[t]
    ensures !NoPolygon(KSum(kbin, ik, |ik| - 1), kbin[ik[|ik| - 1]], |ik|, deltak)
  {
    var last := kbin[ik[|ik| - 1]];
    forall ii | 0 <= ii < |ik| - 1
      ensures kbin[ik[ii]] >= last
    {
      LastIsSmallest(ik, ii);
    }
    assert KSum(kbin, ik, |ik| - 1) >= last by {
      KSumAtLeast(kbin, ik, |ik| - 1, last);
    }
  }

  /**
   * A tuple the source's test lets through although it has no polygon: with
   * k_bin = 1, ..., 6 and deltak = 1, the tuple (5, 0, 0) has sides 6, 1, 1. The
   * source compares 6 + 1 with 1 and keeps it; the intended test compares 1 + 1
   * with 6 and zeroes it.
   */
  lemma PolygonTestMisses(kbin: seq<real>, ik: seq<int>)
    requires kbin == [1.0, 2.0, 3.0, 4.0, 5.0, 6.0] && ik == [5, 0, 0]
    ensures Digits(ik, |kbin|) && NonIncreasing(ik)
    ensures !NoPolygon(KSum(kbin, ik, 2), kbin[ik[2]], 3, 1.0)
    ensures NoPolygon(OthersSum(kbin, ik, 3), kbin[ik[0]], 3, 1.0)
  {
    assert KSum(kbin, ik, 2) == 7.0 by {
      assert KSum(kbin, ik, 1) == 6.0;
    }
    assert OthersSum(kbin, ik, 3) == 2.0 by {
      assert OthersSum(kbin, ik, 2) == 1.0;
    }
  }

  /** With non-decreasing shell midpoints, the first entry of a computed tuple is its largest side. */
  lemma FirstIsLargest(kbin: seq<real>, ik: seq<int>, j: nat)
    requires Digits(ik, |kbin|) && NonIncreasing(ik) && j < |ik|
    requires forall s, t :: 0 <= s <= t < |kbin| ==> kbin[s] <= kbin[t]
    ensures kbin[ik[j]] <= kbin[ik[0]]
  {
    AdjacentOrder(ik, 0, j);
  }

  /**
   * The intended polygon test for three shells is the bispectrum's triangle test:
   * the two smaller sides against the largest.
   */
  lemma PolygonTestIsTriangleTest(kbin: seq<real>, ik: seq<int>, deltak: real)
    requires Digits(ik, |kbin|) && |ik| == 3
    ensures NoPolygon(OthersSum(kbin, ik, 3), kbin[ik[0]], 3, deltak) <==>
            Bispectrum.NoTriangle(kbin[ik[2]], kbin[ik[1]], kbin[ik[0]], deltak)
  {
    assert OthersSum(kbin, ik, 3) == kbin[ik[1]] + kbin[ik[2]] by {
      assert OthersSum(kbin, ik, 2) == kbin[ik[1]];
    }
  }

  //------------------------------------------------------------------
  // The completion pass
  //------------------------------------------------------------------

  /** The validity loop of the completion pass. */
  method CheckOrder(ik: seq<int>) returns (valid: bool)
    requires |ik| > 0
    ensures valid <==> NonIncreasing(ik)
  {
    valid := true;
    for ii := 1 to |ik|
      invariant valid <==> forall j :: 1 <= j < ii ==> ik[j] <= ik[j - 1]
    {
      if ik[ii] > ik[ii - 1] {
        valid := false;
      }
    }
  }

  /**
   * Every tuple the completion pass visits, decoded least significant digit first,
   * sorts back to its own flat index.
   */
  lemma CompletionIndex(x: nat, n: nat, m: nat)
    requires n > 0 && x < Power(n, m) && NonIncreasing(LsbDigits(x, n, m))
    ensures Digits(SortAscending(LsbDigits(x, n, m)), n)
    ensures Fold(SortAscending(LsbDigits(x, n, m)), n) == x
  {
    SortNonIncreasing(LsbDigits(x, n, m));
    FoldOfMsb(x, n, m);
  }

  /** The tuples the completion pass visits are those whose tuple-pass digits do not decrease. */
  lemma CompletionVisitsSorted(x: nat, n: nat, m: nat)
    requires n > 0
    ensures NonIncreasing(LsbDigits(x, n, m)) <==> Sorted(MsbDigits(x, n, m))
  {
    var l := LsbDigits(x, n, m);
    var r := MsbDigits(x, n, m);
    if NonIncreasing(l) {
      SortNonIncreasing(l);
    }
    if Sorted(r) {
      forall ii | 1 <= ii < m
        ensures l[ii] <= l[ii - 1]
      {
        assert l[ii] == r[m - 1 - ii] && l[ii - 1] == r[m - ii];
      }
    }
  }

  /** The completion pass: it visits, sorts and writes back, and changes nothing. */
  method Complete(P: array<real>, N: array<real>, nbins: nat, order: nat)
    requires nbins > 0 && order > 0 && P.Length == N.Length == Power(nbins, order)
    modifies P, N
    ensures P[..] == old(P[..]) && N[..] == old(N[..])
  {
    for i := 0 to P.Length
      invariant P[..] == old(P[..]) && N[..] == old(N[..])
    {
      var ik := DecodeLsb(i, nbins, order);
      var valid := CheckOrder(ik);
      if !valid {
        continue;
      }
      var sorted := SortAscending(ik);
      CompletionIndex(i, nbins, order);
      var index := FoldIndex(sorted, nbins);
      if P[index] == 0.0 {
        P[index] := P[i];
      }
      if N[index] == 0.0 {
        N[index] := N[i];
      }
    }
  }

  /**
   * As written, an ordering the tuple pass skips keeps 0 although its sorted
   * ordering was computed: with two shells and order 2, when the tuple (1, 0) has a
   * non-zero entry, the table the source's completion leaves (the tuple pass's, by
   * Complete) differs at index 1 from the symmetric table.
   */
  lemma CompletionLeavesOrderingEmpty(shells: seq<Shell>, cells: nat, deltak: real, volume: real)
    requires Uniform(shells, cells) && |shells| == 2
    requires TupleEntry(shells, cells, deltak, volume, [1, 0]).p != 0.0
    ensures MsbDigits(1, 2, 2) == [0, 1] && MsbDigits(2, 2, 2) == [1, 0]
    ensures FirstPass(shells, cells, deltak, volume, 2, 1) == Entry(0.0, 0.0)
    ensures FirstPass(shells, cells, deltak, volume, 2, 2) == TupleEntry(shells, cells, deltak, volume, [1, 0])
    ensures SymmetricEntry(shells, cells, deltak, volume, 2, 1) == FirstPass(shells, cells, deltak, volume, 2, 2)
    ensures SymmetricEntry(shells, cells, deltak, volume, 2, 1).p != FirstPass(shells, cells, deltak, volume, 2, 1).p
  {
    SmallDigits();
    assert CanonIndex(1, 2, 2) == 2 by {
      SmallCanon();
    }
  }

  /** The high-first digits of indices 1 and 2 for two shells and order 2. */
  lemma SmallDigits()
    ensures MsbDigits(1, 2, 2) == [0, 1] && MsbDigits(2, 2, 2) == [1, 0]
  {
    assert Power(2, 1) == 2 && Power(2, 0) == 1;
    assert MsbDigits(1, 2, 2) == [0, 1];
    assert MsbDigits(2, 2, 2) == [1, 0];
  }

  /** An ordering of a computed tuple has that tuple as its computed ordering. */
  lemma CanonIsComputed(x: nat, y: nat, n: nat, m: nat)
    requires n > 0 && y < Power(n, m) && NonIncreasing(MsbDigits(y, n, m))
    requires multiset(MsbDigits(x, n, m)) == multiset(MsbDigits(y, n, m))
    ensures CanonIndex(x, n, m) == y
  {
    CanonOfArrangement(x, y, n, m);
    CanonOfComputed(y, n, m);
  }

  /** With two shells and order 2, the computed ordering of index 1, the tuple (0, 1), is index 2. */
  lemma SmallCanon()
    ensures CanonIndex(1, 2, 2) == 2
  {
    var one, two := 1, 2;
    SmallDigits();
    assert Power(two, two) == 4 by {
      assert Power(2, 1) == 2 && Power(2, 0) == 1;
    }
    assert multiset(MsbDigits(one, two, two)) == multiset(MsbDigits(two, two, two)) by {
      assert multiset([0, 1]) == multiset([1, 0]);
    }
    CanonIsComputed(one, two, two, two);
  }

  //------------------------------------------------------------------
  // The symmetric completion
  //------------------------------------------------------------------

  /** Reversing an ascending tuple gives one whose entries never increase. */
  lemma ReverseSorted(s: seq<int>, n: nat)
    requires Sorted(s) && Digits(s, n)
    ensures NonIncreasing(Reverse(s)) && Digits(Reverse(s), n)
  {
  }

  /**
   * The flat index of the ordering of x's tuple that the tuple pass computes: its
   * digits sorted so that they never increase.
   */
  function CanonIndex(x: nat, n: nat, m: nat): (c: nat)
    requires n > 0
    ensures c < Power(n, m)
    ensures NonIncreasing(MsbDigits(c, n, m))
    ensures multiset(MsbDigits(c, n, m)) == multiset(MsbDigits(x, n, m))
  {
    var d := MsbDigits(x, n, m);
    SortDigits(d, n);
    ReverseSorted(SortAscending(d), n);
    ReverseMultiset(SortAscending(d));
    MsbOfFold(Reverse(SortAscending(d)), n);
    Fold(Reverse(SortAscending(d)), n)
  }

  /** A computed ordering is its own canonical index. */
  lemma CanonOfComputed(x: nat, n: nat, m: nat)
    requires n > 0 && x < Power(n, m) && NonIncreasing(MsbDigits(x, n, m))
    ensures CanonIndex(x, n, m) == x
  {
    var d := MsbDigits(x, n, m);
    SortNonIncreasing(d);
    assert Reverse(Reverse(d)) == d;
    FoldOfMsb(x, n, m);
  }

  /** Two orderings of the same tuple have the same canonical index. */
  lemma CanonOfArrangement(x: nat, y: nat, n: nat, m: nat)
    requires n > 0 && multiset(MsbDigits(x, n, m)) == multiset(MsbDigits(y, n, m))
    ensures CanonIndex(x, n, m) == CanonIndex(y, n, m)
  {
    SortedUnique(SortAscending(MsbDigits(x, n, m)), SortAscending(MsbDigits(y, n, m)));
  }

  /** One step of the intended completion: entry i takes the entries of its computed ordering. */
  method CopyFromComputed(P: array<real>, N: array<real>, nbins: nat, order: nat, i: nat)
    requires nbins > 0 && order > 0 && P != N && P.Length == N.Length == Power(nbins, order) && i < P.Length
    modifies P, N
    ensures P[i] == old(P[CanonIndex(i, nbins, order)]) && N[i] == old(N[CanonIndex(i, nbins, order)])
    ensures forall x :: 0 <= x < P.Length && x != i ==> P[x] == old(P[x]) && N[x] == old(N[x])
  {
    var ik := DecodeMsb(i, nbins, order);
    var valid := CheckOrder(ik);
    if valid {
      CanonOfComputed(i, nbins, order);
      return;
    }
    var sorted := SortAscending(ik);
    SortDigits(ik, nbins);
    ReverseSorted(sorted, nbins);
    var index := FoldIndex(Reverse(sorted), nbins);
    assert index == CanonIndex(i, nbins, order);
    P[i] := P[index];
    N[i] := N[index];
  }

  /**
   * The completion as evidently intended: every ordering of a tuple takes the
   * entries of its computed ordering, found by sorting its digits so that they
   * never increase.
   */
  method Symmetrize(P: array<real>, N: array<real>, nbins: nat, order: nat)
    requires nbins > 0 && order > 0 && P != N && P.Length == N.Length == Power(nbins, order)
    modifies P, N
    ensures forall x :: 0 <= x < P.Length ==>
      P[x] == old(P[CanonIndex(x, nbins, order)]) && N[x] == old(N[CanonIndex(x, nbins, order)])
  {
    ghost var P0, N0 := P[..], N[..];
    for i := 0 to P.Length
      invariant forall x :: 0 <= x < i ==>
        P[x] == P0[CanonIndex(x, nbins, order)] && N[x] == N0[CanonIndex(x, nbins, order)]
      invariant forall x :: i <= x < P.Length ==> P[x] == P0[x] && N[x] == N0[x]
    {
      ghost var c := CanonIndex(i, nbins, order);
      CanonOfComputed(c, nbins, order);
      assert P[c] == P0[c] && N[c] == N0[c];
      CopyFromComputed(P, N, nbins, order, i);
    }
  }

  //------------------------------------------------------------------
  // compute_polyspectrum
  //------------------------------------------------------------------

  /**
   * The tables compute_polyspectrum returns: every entry holds the tuple pass's
   * entry of its computed ordering.
   */
  ghost predicate PolyspectrumTables(shells: seq<Shell>, cells: nat, deltak: real, volume: real, order: nat,
                                     P123: seq<real>, N123: seq<real>)
    requires Uniform(shells, cells) && |shells| > 0 && order > 0
  {
    |P123| == |N123| == Power(|shells|, order) &&
    forall x :: 0 <= x < |P123| ==>
      P123[x] == SymmetricEntry(shells, cells, deltak, volume, order, x).p &&
      N123[x] == SymmetricEntry(shells, cells, deltak, volume, order, x).n
  }

  /** The entry of flat index x after the completion: the tuple pass's entry of its computed ordering. */
  function SymmetricEntry(shells: seq<Shell>, cells: nat, deltak: real, volume: real, order: nat, x: nat): Entry
    requires Uniform(shells, cells) && |shells| > 0 && order > 0
  {
    FirstPass(shells, cells, deltak, volume, order, CanonIndex(x, |shells|, order))
  }

  /** The tables hold the same entry at every ordering of a tuple: the one computed for it. */
  lemma TablesSymmetric(shells: seq<Shell>, cells: nat, deltak: real, volume: real, order: nat,
                        P123: seq<real>, N123: seq<real>, x: nat, y: nat)
    requires Uniform(shells, cells) && |shells| > 0 && order > 0
    requires PolyspectrumTables(shells, cells, deltak, volume, order, P123, N123)
    requires x < |P123| && y < |P123|
    requires multiset(MsbDigits(x, |shells|, order)) == multiset(MsbDigits(y, |shells|, order))
    ensures P123[x] == P123[y] && N123[x] == N123[y]
    ensures var c := CanonIndex(x, |shells|, order);
      P123[x] == TupleEntry(shells, cells, deltak, volume, MsbDigits(c, |shells|, order)).p
  {
    CanonOfArrangement(x, y, |shells|, order);
  }

  /** The tuple pass and the intended completion over the shells, on fresh zeroed tables. */
  method Tables(shells: seq<Shell>, cells: nat, deltak: real, volume: real, order: nat)
    returns (P123: seq<real>, N123: seq<real>)
    requires Uniform(shells, cells) && |shells| > 0 && order > 0
    ensures PolyspectrumTables(shells, cells, deltak, volume, order, P123, N123)
  {
    var nbins := |shells|;
    var P := new real[Power(nbins, order)](_ => 0.0);
    var N := new real[Power(nbins, order)](_ => 0.0);
    TuplePass(shells, cells, deltak, volume, order, P, N);
    Symmetrize(P, N, nbins, order);
    P123, N123 := P[..], N[..];
  }

  /**
   * compute_polyspectrum for order >= 2: the shells, the tuple pass over all
   * nbins^order flat indices and the completion pass. `volume` is the scale
   * factor (1 / Nmesh / 2 pi)^ndim. The four results are the fields P123, N123,
   * kbin and pofk of the binning.
   */
  method ComputePolyspectrum(k: seq<real>, kmag2: seq<real>, values: seq<Complex>, sqrt: real -> real,
                             toReal: seq<Complex> -> seq<real>, cells: nat, volume: real, order: nat)
    returns (P123: seq<real>, N123: seq<real>, kbin: seq<real>, pofk: seq<real>)
    requires 2 <= |k| && |values| == |kmag2| && RealCells(toReal, cells) && order >= 2
    ensures |kbin| == |pofk| == |k|
    ensures forall i :: 0 <= i < |k| ==> kbin[i] == KBin(k, i) && pofk[i] == ShellMeanPower(k, kmag2, values, i)
    ensures Uniform(ShellsUpTo(k, kmag2, values, sqrt, toReal, |k|), cells)
    ensures PolyspectrumTables(ShellsUpTo(k, kmag2, values, sqrt, toReal, |k|), cells, k[1] - k[0], volume, order,
                               P123, N123)
  {
    var shells := ComputeShells(k, kmag2, values, sqrt, toReal);
    ShellsUniform(k, kmag2, values, sqrt, toReal, cells);
    P123, N123 := Tables(shells, cells, k[1] - k[0], volume, order);
    kbin := seq(|k|, i requires 0 <= i < |k| => shells[i].kbin);
    pofk := seq(|k|, i requires 0 <= i < |k| => shells[i].pofk);
  }
}
