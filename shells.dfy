/**
 * The Fourier shells of the bispectrum and polyspectrum estimators.
 *
 * From the bin centres k[0..nbins) the estimators build nbins contiguous shells:
 * the first starts at k[0], every shell ends half-way to the next centre, the
 * last ends at k[nbins-1], and each shell's representative wavenumber is the
 * midpoint of its edges. For every shell the Fourier grid is masked: cells with
 * klow^2 <= |k|^2 < khigh^2 keep their amplitude and get count 1, all other cells
 * get amplitude 0 and count 0; the in-shell cells also give the shell's count,
 * mean |k| and mean |F|^2. The masked grid and the count grid then go to real
 * space; that transform is the parameter `toReal`, and sqrt is the parameter
 * `sqrt`.
 *
 * The grid is given as two parallel sequences: |k|^2 of every stored cell and its
 * amplitude.
 */
module Shells {
  import opened PowerSpectrum

  //------------------------------------------------------------------
  // Shell edges
  //------------------------------------------------------------------

  /** The upper edge of shell i: half-way to the next centre, the last centre for the last shell. */
  function KHigh(k: seq<real>, i: nat): real
    requires 2 <= |k| && i < |k|
  {
    if i < |k| - 1 then k[i] + (k[i + 1] - k[i]) / 2.0 else k[|k| - 1]
  }

  /** The lower edge of shell i: k[0] for the first shell, the previous upper edge otherwise. */
  function KLow(k: seq<real>, i: nat): real
    requires 2 <= |k| && i < |k|
  {
    if i == 0 then k[0] else KHigh(k, i - 1)
  }

  /** The wavenumber the tables report for shell i: the midpoint of its edges. */
  function KBin(k: seq<real>, i: nat): real
    requires 2 <= |k| && i < |k|
  {
    (KHigh(k, i) + KLow(k, i)) / 2.0
  }

  /** The edge loop, as the source writes it with its three cases. */
  method ShellEdges(k: seq<real>) returns (klow: seq<real>, khigh: seq<real>, kbin: seq<real>)
    requires 2 <= |k|
    ensures |klow| == |khigh| == |kbin| == |k|
    ensures forall i :: 0 <= i < |k| ==> klow[i] == KLow(k, i) && khigh[i] == KHigh(k, i) && kbin[i] == KBin(k, i)
  {
    var nbins := |k|;
    klow, khigh, kbin := [], [], [];
    var i := 0;
    while i < nbins
      invariant 0 <= i <= nbins && |klow| == |khigh| == |kbin| == i
      invariant forall j :: 0 <= j < i ==> klow[j] == KLow(k, j) && khigh[j] == KHigh(k, j) && kbin[j] == KBin(k, j)
    {
      var lo: real, hi: real;
      if i == 0 {
        lo := k[0];
        hi := k[0] + (k[1] - k[0]) / 2.0;
      } else if i < nbins - 1 {
        lo := khigh[i - 1];
        hi := k[i] + (k[i + 1] - k[i]) / 2.0;
      } else {
        lo := khigh[i - 1];
        hi := k[nbins - 1];
      }
      assert lo == KLow(k, i) && hi == KHigh(k, i);
      klow := klow + [lo];
      khigh := khigh + [hi];
      kbin := kbin + [(hi + lo) / 2.0];
      i := i + 1;
    }
  }

  /** The bin centres increase. */
  predicate Increasing(k: seq<real>) {
    forall i, j :: 0 <= i < j < |k| ==> k[i] < k[j]
  }

  /**
   * For increasing centres every shell is a non-empty interval with its reported
   * wavenumber strictly inside, and each shell starts where the previous one ends.
   */
  lemma ShellShape(k: seq<real>, i: nat)
    requires 2 <= |k| && i < |k| && Increasing(k)
    ensures KLow(k, i) < KBin(k, i) < KHigh(k, i)
    ensures i + 1 < |k| ==> KLow(k, i + 1) == KHigh(k, i)
  {
    if i > 0 {
      assert k[i - 1] < k[i];
    }
    if i < |k| - 1 {
      assert k[i] < k[i + 1];
    }
  }

  /** The shells are ordered: every edge of shell i lies at or below every edge of a later shell j. */
  lemma {:induction false} ShellsOrdered(k: seq<real>, i: nat, j: nat)
    requires 2 <= |k| && i < j < |k| && Increasing(k)
    ensures KHigh(k, i) <= KLow(k, j)
    decreases j - i
  {
    if i + 1 < j {
      ShellsOrdered(k, i + 1, j);
      ShellShape(k, i + 1);
    }
  }

  //------------------------------------------------------------------
  // Masking one shell
  //------------------------------------------------------------------

  /** x * x, as the source squares the shell edges once before the cell loop. */
  function Sq(x: real): real {
    x * x
  }

  /** A cell with squared norm kmag2 lies in the shell whose squared edges are lo2 and hi2. */
  predicate InShell(kmag2: real, lo2: real, hi2: real) {
    lo2 <= kmag2 < hi2
  }

  /** With non-negative increasing centres no cell lies in two shells. */
  lemma ShellsDisjoint(k: seq<real>, i: nat, j: nat, kmag2: real)
    requires 2 <= |k| && i < j < |k| && Increasing(k) && k[0] >= 0.0
    ensures !(InShell(kmag2, Sq(KLow(k, i)), Sq(KHigh(k, i))) && InShell(kmag2, Sq(KLow(k, j)), Sq(KHigh(k, j))))
  {
    var hi, lo := KHigh(k, i), KLow(k, j);
    assert hi <= lo by {
      ShellsOrdered(k, i, j);
    }
    assert 0.0 <= hi by {
      ShellShape(k, i);
      if i > 0 {
        ShellsOrdered(k, 0, i);
        ShellShape(k, 0);
      }
    }
    assert Sq(hi) <= Sq(lo) by {
      SquareMonotone(hi, lo);
    }
  }

  lemma SquareMonotone(a: real, b: real)
    requires 0.0 <= a <= b
    ensures Sq(a) <= Sq(b)
  {
    assert a * a <= a * b;
  }

  /** The masked amplitudes: in-shell cells keep theirs, all others become 0. */
  function Masked(values: seq<Complex>, kmag2: seq<real>, lo2: real, hi2: real): (r: seq<Complex>)
    requires |values| == |kmag2|
    ensures |r| == |values|
    ensures forall c :: 0 <= c < |r| ==>
      (InShell(kmag2[c], lo2, hi2) ==> r[c] == values[c]) && (!InShell(kmag2[c], lo2, hi2) ==> r[c] == Complex(0.0, 0.0))
  {
    seq(|values|, c requires 0 <= c < |values| =>
      if InShell(kmag2[c], lo2, hi2) then values[c] else Complex(0.0, 0.0))
  }

  /** The count grid: 1 on the in-shell cells, 0 elsewhere. */
  function Indicator(kmag2: seq<real>, lo2: real, hi2: real): (r: seq<Complex>)
    ensures |r| == |kmag2|
    ensures forall c :: 0 <= c < |r| ==>
      r[c] == if InShell(kmag2[c], lo2, hi2) then Complex(1.0, 0.0) else Complex(0.0, 0.0)
  {
    seq(|kmag2|, c requires 0 <= c < |kmag2| =>
      if InShell(kmag2[c], lo2, hi2) then Complex(1.0, 0.0) else Complex(0.0, 0.0))
  }

  /** The number of in-shell cells among the first j. */
  function ShellCount(kmag2: seq<real>, lo2: real, hi2: real, j: nat): real
    requires j <= |kmag2|
  {
    if j == 0 then 0.0
    else ShellCount(kmag2, lo2, hi2, j - 1) + (if InShell(kmag2[j - 1], lo2, hi2) then 1.0 else 0.0)
  }

  /** The summed w(F) of the in-shell cells among the first j. */
  function ShellSum(values: seq<Complex>, kmag2: seq<real>, lo2: real, hi2: real, w: Complex -> real, j: nat): real
    requires |values| == |kmag2| && j <= |kmag2|
  {
    if j == 0 then 0.0
    else ShellSum(values, kmag2, lo2, hi2, w, j - 1) + (if InShell(kmag2[j - 1], lo2, hi2) then w(values[j - 1]) else 0.0)
  }

  /** The summed |F|^2 of the in-shell cells among the first j. */
  function ShellPower(values: seq<Complex>, kmag2: seq<real>, lo2: real, hi2: real, j: nat): real
    requires |values| == |kmag2| && j <= |kmag2|
  {
    ShellSum(values, kmag2, lo2, hi2, NormSq, j)
  }

  /** The summed |k| of the in-shell cells among the first j. */
  function ShellKSum(kmag2: seq<real>, lo2: real, hi2: real, sqrt: real -> real, j: nat): real
    requires j <= |kmag2|
  {
    if j == 0 then 0.0
    else ShellKSum(kmag2, lo2, hi2, sqrt, j - 1) + (if InShell(kmag2[j - 1], lo2, hi2) then sqrt(kmag2[j - 1]) else 0.0)
  }

  /** The count is a number of cells: between 0 and j, and 0 exactly when no cell is in the shell. */
  lemma {:induction false} ShellCountRange(kmag2: seq<real>, lo2: real, hi2: real, j: nat)
    requires j <= |kmag2|
    ensures 0.0 <= ShellCount(kmag2, lo2, hi2, j) <= j as real
    ensures ShellCount(kmag2, lo2, hi2, j) == 0.0 <==> forall c :: 0 <= c < j ==> !InShell(kmag2[c], lo2, hi2)
  {
    if j > 0 {
      ShellCountRange(kmag2, lo2, hi2, j - 1);
    }
  }

  /** The summed w(v[c]) over the first j cells. */
  function SumOf(v: seq<Complex>, w: Complex -> real, j: nat): real
    requires j <= |v|
  {
    if j == 0 then 0.0 else SumOf(v, w, j - 1) + w(v[j - 1])
  }

  function SumRe(v: seq<Complex>, j: nat): real
    requires j <= |v|
  {
    if j == 0 then 0.0 else SumRe(v, j - 1) + v[j - 1].re
  }

  /**
   * Summing any w that vanishes at 0 over the masked grid sums it over the in-shell
   * cells; for w = |.|^2 the shell's power is the whole power of the masked grid.
   */
  lemma {:induction false} MaskedSum(values: seq<Complex>, kmag2: seq<real>, lo2: real, hi2: real,
                                    w: Complex -> real, j: nat)
    requires |values| == |kmag2| && j <= |kmag2| && w(Complex(0.0, 0.0)) == 0.0
    ensures SumOf(Masked(values, kmag2, lo2, hi2), w, j) == ShellSum(values, kmag2, lo2, hi2, w, j)
  {
    if j > 0 {
      MaskedSum(values, kmag2, lo2, hi2, w, j - 1);
      var m := Masked(values, kmag2, lo2, hi2);
      assert m[j - 1] == if InShell(kmag2[j - 1], lo2, hi2) then values[j - 1] else Complex(0.0, 0.0);
    }
  }

  /** The shell's count is the sum of the count grid. */
  lemma {:induction false} IndicatorCount(kmag2: seq<real>, lo2: real, hi2: real, j: nat)
    requires j <= |kmag2|
    ensures SumRe(Indicator(kmag2, lo2, hi2), j) == ShellCount(kmag2, lo2, hi2, j)
  {
    if j > 0 {
      IndicatorCount(kmag2, lo2, hi2, j - 1);
      var m := Indicator(kmag2, lo2, hi2);
      assert m[j - 1].re == if InShell(kmag2[j - 1], lo2, hi2) then 1.0 else 0.0;
    }
  }

  /**
   * The cell loop of one shell: F (a copy of the density grid) is masked in place,
   * N (all zero) becomes the indicator, and the in-shell count, |k| sum and power
   * sum are returned.
   */
  method MaskShell(kmag2: seq<real>, F: array<Complex>, N: array<Complex>, lo2: real, hi2: real, sqrt: real -> real)
    returns (nk: real, kmean: real, power: real)
    requires F.Length == |kmag2| == N.Length && F != N
    modifies F, N
    ensures F[..] == Masked(old(F[..]), kmag2, lo2, hi2)
    ensures N[..] == Indicator(kmag2, lo2, hi2)
    ensures nk == ShellCount(kmag2, lo2, hi2, |kmag2|)
    ensures kmean == ShellKSum(kmag2, lo2, hi2, sqrt, |kmag2|)
    ensures power == ShellPower(old(F[..]), kmag2, lo2, hi2, |kmag2|)
  {
    ghost var values := F[..];
    nk, kmean, power := 0.0, 0.0, 0.0;
    var c := 0;
    while c < F.Length
      invariant 0 <= c <= F.Length
      invariant forall j :: 0 <= j < c ==> F[j] == Masked(values, kmag2, lo2, hi2)[j]
      invariant forall j :: c <= j < F.Length ==> F[j] == values[j]
      invariant forall j :: 0 <= j < c ==> N[j] == Indicator(kmag2, lo2, hi2)[j]
      invariant nk == ShellCount(kmag2, lo2, hi2, c)
      invariant kmean == ShellKSum(kmag2, lo2, hi2, sqrt, c)
      invariant power == ShellSum(values, kmag2, lo2, hi2, NormSq, c)
    {
      var x := kmag2[c];
      if x >= hi2 || x < lo2 {
        F[c] := Complex(0.0, 0.0);
        N[c] := Complex(0.0, 0.0);
      } else {
        kmean := kmean + sqrt(x);
        power := power + NormSq(F[c]);
        nk := nk + 1.0;
        N[c] := Complex(1.0, 0.0);
      }
      c := c + 1;
    }
  }

  /** pofk_bin: the mean |F|^2 of the shell, 0 for an empty shell. */
  function MeanPower(power: real, nk: real): real {
    if nk == 0.0 then 0.0 else power / nk
  }

  /** kmean_bin: the mean |k| of the shell, the shell's midpoint for an empty shell. */
  function MeanK(kmean: real, nk: real, kbin: real): real {
    if nk == 0.0 then kbin else kmean / nk
  }

  //------------------------------------------------------------------
  // All shells
  //------------------------------------------------------------------

  /** The squared lower and upper edges of shell i. */
  function Lo2(k: seq<real>, i: nat): real
    requires 2 <= |k| && i < |k|
  {
    Sq(KLow(k, i))
  }

  function Hi2(k: seq<real>, i: nat): real
    requires 2 <= |k| && i < |k|
  {
    Sq(KHigh(k, i))
  }

  /** pofk_bin[i]: the mean |F|^2 of shell i. */
  function ShellMeanPower(k: seq<real>, kmag2: seq<real>, values: seq<Complex>, i: nat): real
    requires 2 <= |k| && i < |k| && |values| == |kmag2|
  {
    MeanPower(ShellPower(values, kmag2, Lo2(k, i), Hi2(k, i), |kmag2|), ShellCount(kmag2, Lo2(k, i), Hi2(k, i), |kmag2|))
  }

  /** kmean_bin[i]: the mean |k| of shell i. */
  function ShellMeanK(k: seq<real>, kmag2: seq<real>, sqrt: real -> real, i: nat): real
    requires 2 <= |k| && i < |k|
  {
    MeanK(ShellKSum(kmag2, Lo2(k, i), Hi2(k, i), sqrt, |kmag2|), ShellCount(kmag2, Lo2(k, i), Hi2(k, i), |kmag2|), KBin(k, i))
  }

  /** The masked grid of shell i in real space. */
  function ShellRealF(k: seq<real>, kmag2: seq<real>, values: seq<Complex>, toReal: seq<Complex> -> seq<real>, i: nat)
    : seq<real>
    requires 2 <= |k| && i < |k| && |values| == |kmag2|
  {
    toReal(Masked(values, kmag2, Lo2(k, i), Hi2(k, i)))
  }

  /** The count grid of shell i in real space. */
  function ShellRealN(k: seq<real>, kmag2: seq<real>, toReal: seq<Complex> -> seq<real>, i: nat): seq<real>
    requires 2 <= |k| && i < |k|
  {
    toReal(Indicator(kmag2, Lo2(k, i), Hi2(k, i)))
  }

  /** What the shell loop hands to the tuple loop for one shell. */
  datatype Shell = Shell(
    kbin: real,           // the midpoint of the shell
    pofk: real,           // mean |F|^2 over the shell
    kmean: real,          // mean |k| over the shell (not used by the results)
    realF: seq<real>,     // the masked grid in real space
    realN: seq<real>)     // the count grid in real space

  /** Shell i of the grid (kmag2, values). */
  function ShellOf(k: seq<real>, kmag2: seq<real>, values: seq<Complex>, sqrt: real -> real,
                   toReal: seq<Complex> -> seq<real>, i: nat): Shell
    requires 2 <= |k| && i < |k| && |values| == |kmag2|
  {
    Shell(KBin(k, i), ShellMeanPower(k, kmag2, values, i), ShellMeanK(k, kmag2, sqrt, i),
          ShellRealF(k, kmag2, values, toReal, i), ShellRealN(k, kmag2, toReal, i))
  }

  /** The first n shells, in order. */
  function ShellsUpTo(k: seq<real>, kmag2: seq<real>, values: seq<Complex>, sqrt: real -> real,
                      toReal: seq<Complex> -> seq<real>, n: nat): (r: seq<Shell>)
    requires 2 <= |k| && n <= |k| && |values| == |kmag2|
    ensures |r| == n
    ensures forall i :: 0 <= i < n ==> r[i] == ShellOf(k, kmag2, values, sqrt, toReal, i)
  {
    seq(n, i requires 0 <= i < n => ShellOf(k, kmag2, values, sqrt, toReal, i))
  }

  /** One more pass of the shell loop appends the next shell. */
  lemma ShellsUpToNext(k: seq<real>, kmag2: seq<real>, values: seq<Complex>, sqrt: real -> real,
                       toReal: seq<Complex> -> seq<real>, n: nat)
    requires 2 <= |k| && n < |k| && |values| == |kmag2|
    ensures ShellsUpTo(k, kmag2, values, sqrt, toReal, n + 1) ==
      ShellsUpTo(k, kmag2, values, sqrt, toReal, n) + [ShellOf(k, kmag2, values, sqrt, toReal, n)]
  {
  }

  /** One pass of the shell loop: mask a fresh copy of the grid and transform both grids. */
  method OneShell(k: seq<real>, i: nat, lo: real, hi: real, kbin: real, kmag2: seq<real>, values: seq<Complex>,
                  sqrt: real -> real, toReal: seq<Complex> -> seq<real>)
    returns (shell: Shell)
    requires 2 <= |k| && i < |k| && |values| == |kmag2|
    requires lo == KLow(k, i) && hi == KHigh(k, i) && kbin == KBin(k, i)
    ensures shell == ShellOf(k, kmag2, values, sqrt, toReal, i)
  {
    var lo2 := lo * lo;
    var hi2 := hi * hi;
    assert lo2 == Lo2(k, i) && hi2 == Hi2(k, i);
    var F := new Complex[|values|](c requires 0 <= c < |values| => values[c]);
    var N := new Complex[|values|](_ => Complex(0.0, 0.0));
    assert F[..] == values;
    var nk, ksum, power := MaskShell(kmag2, F, N, lo2, hi2, sqrt);
    var kmean := if nk == 0.0 then kbin else ksum / nk;
    var pofk := if nk == 0.0 then 0.0 else power / nk;
    shell := Shell(kbin, pofk, kmean, toReal(F[..]), toReal(N[..]));
  }

  /** The edge loop and the shell loop of compute_bispectrum and compute_polyspectrum. */
  method ComputeShells(k: seq<real>, kmag2: seq<real>, values: seq<Complex>, sqrt: real -> real,
                       toReal: seq<Complex> -> seq<real>)
    returns (shells: seq<Shell>)
    requires 2 <= |k| && |values| == |kmag2|
    ensures shells == ShellsUpTo(k, kmag2, values, sqrt, toReal, |k|)
  {
    var klow, khigh, kbin := ShellEdges(k);
    shells := [];
    var i := 0;
    while i < |k|
      invariant 0 <= i <= |k| && shells == ShellsUpTo(k, kmag2, values, sqrt, toReal, i)
    {
      var shell := OneShell(k, i, klow[i], khigh[i], kbin[i], kmag2, values, sqrt, toReal);
      ShellsUpToNext(k, kmag2, values, sqrt, toReal, i);
      shells := shells + [shell];
      i := i + 1;
    }
  }

  /** Every shell's real-space grids hold `cells` values. */
  predicate Uniform(shells: seq<Shell>, cells: nat) {
    forall s :: 0 <= s < |shells| ==> |shells[s].realF| == cells && |shells[s].realN| == cells
  }

  /** The tuple passes' F / N, 0 when there are no configurations. */
  function Ratio(f: real, n: real): real {
    if n > 0.0 then f / n else 0.0
  }

  /** Every real-space grid has `cells` values. */
  ghost predicate RealCells(toReal: seq<Complex> -> seq<real>, cells: nat) {
    forall g :: |toReal(g)| == cells
  }

  /** Every computed shell's real-space grids hold the grid's number of real cells. */
  lemma ShellsUniform(k: seq<real>, kmag2: seq<real>, values: seq<Complex>, sqrt: real -> real,
                      toReal: seq<Complex> -> seq<real>, cells: nat)
    requires 2 <= |k| && |values| == |kmag2| && RealCells(toReal, cells)
    ensures Uniform(ShellsUpTo(k, kmag2, values, sqrt, toReal, |k|), cells)
  {
    var shells := ShellsUpTo(k, kmag2, values, sqrt, toReal, |k|);
    forall s | 0 <= s < |shells|
      ensures |shells[s].realF| == cells && |shells[s].realN| == cells
    {
      assert shells[s].realF == ShellRealF(k, kmag2, values, toReal, s);
      assert shells[s].realN == ShellRealN(k, kmag2, toReal, s);
    }
  }
}
