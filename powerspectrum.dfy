/**
 * Binning a Fourier grid into a power spectrum (bin_up_power_spectrum) and into
 * power-spectrum multipoles for a fixed line of sight
 * (compute_power_spectrum_multipoles on a Fourier grid).
 *
 * The grid is the local slab of a real-to-complex transform: Local_nx slices of
 * Nmesh^(N-2) rows, each row holding the Nmesh/2+1 non-negative frequencies of the
 * last axis. The wave vector, its norm and the complex value of every stored cell
 * are inputs (the grid's index arithmetic and the transform are not part of this
 * model); the estimators only walk the cells in storage order.
 */
module PowerSpectrum {
  import opened Wrappers
  import opened Binning
  import opened Vectors
  import Legendre
  import Tuples

  datatype Complex = Complex(re: real, im: real)

  /** std::norm: the squared modulus. */
  function NormSq(z: Complex): real {
    z.re * z.re + z.im * z.im
  }

  /** One stored cell: its wave vector, |k| and the Fourier amplitude. */
  datatype FourierCell = FourierCell(kvec: seq<real>, kmag: real, value: Complex)

  /** The local part of an N-dimensional Fourier grid. */
  datatype FourierGrid = FourierGrid(ndim: nat, nmesh: int, localNx: nat, cells: seq<FourierCell>)

  datatype SpectrumError =
    | LosWrongDimension     // the line of sight does not have N components
    | EmptyPell             // no multipole binning was supplied
    | NonPositiveNmesh      // the grid has Nmesh <= 0
    | ZeroLengthLos         // the line of sight has zero length
    | InconsistentBinning   // the binning has n <= 0, kmax <= kmin or kmin < 0
    | NonPositiveNgrid      // direct summation was asked for a grid with Ngrid <= 0

  /** Local_nx * Nmesh^(N-2) * (Nmesh/2+1): the number of stored cells the loops visit. */
  function LocalCellCount(ndim: nat, nmesh: int, localNx: nat): nat
    requires ndim >= 2 && nmesh > 0
  {
    localNx * Tuples.Power(nmesh, ndim - 2) * (nmesh / 2 + 1)
  }

  /**
   * The grid holds one cell per visited index, each with an N-component wave vector.
   * Grids of dimension 1 are outside the model.
   */
  predicate WellFormed(g: FourierGrid) {
    g.ndim >= 2 &&
    (g.nmesh > 0 ==> |g.cells| == LocalCellCount(g.ndim, g.nmesh, g.localNx)) &&
    forall i :: 0 <= i < |g.cells| ==> |g.cells[i].kvec| == g.ndim
  }

  //------------------------------------------------------------------
  // The Hermitian weight of a stored cell
  //------------------------------------------------------------------

  /**
   * A cell whose last index is 0 or Nmesh/2 is its own mirror image and counts
   * once; every other stored cell stands for itself and its unstored conjugate.
   */
  function CellWeight(ind: nat, nmesh: int): (w: real)
    requires nmesh > 0
    ensures w == 1.0 || w == 2.0
  {
    var lastCoord := ind % (nmesh / 2 + 1);
    if lastCoord > 0 && lastCoord < nmesh / 2 then 2.0 else 1.0
  }

  /** f(0) + ... + f(j-1) */
  function PrefixSum(f: nat -> real, j: nat): real {
    if j == 0 then 0.0 else PrefixSum(f, j - 1) + f(j - 1)
  }

  /** The weight of every cell index of a grid with this Nmesh. */
  function Weights(nmesh: int): nat -> real
    requires nmesh > 0
  {
    (ind: nat) => CellWeight(ind, nmesh)
  }

  /** The total weight of the first j cells in storage order. */
  function WeightSum(nmesh: int, j: nat): real
    requires nmesh > 0
  {
    PrefixSum(Weights(nmesh), j)
  }

  lemma MulZero(l: int, d: int)
    requires l > 0 && -l < l * d < l
    ensures d == 0
  {
  }

  lemma ModAddPeriod(y: int, l: int)
    requires l > 0
    ensures (y + l) % l == y % l
  {
    var q := y / l;
    var q2 := (y + l) / l;
    assert l * (q + 1 - q2) == (y + l) % l - y % l;
    MulZero(l, q + 1 - q2);
  }

  lemma ModSmall(y: int, l: int)
    requires 0 <= y < l
    ensures y % l == y
  {
    var q := y / l;
    assert l * q == y - y % l;
    MulZero(l, q);
  }

  /** f repeats with period l. */
  ghost predicate Periodic(f: nat -> real, l: nat) {
    forall i: nat, j: nat {:trigger f(i), f(j)} :: j == i + l ==> f(j) == f(i)
  }

  /** The weight depends only on the position within the row. */
  lemma CellWeightPeriodic(nmesh: int)
    requires nmesh > 0
    ensures Periodic(Weights(nmesh), nmesh / 2 + 1)
  {
    forall i: nat, j: nat | j == i + (nmesh / 2 + 1)
      ensures Weights(nmesh)(j) == Weights(nmesh)(i)
    {
      ModAddPeriod(i, nmesh / 2 + 1);
    }
  }

  /** The cells 1 .. c-1 of a row, before the last one, each count twice. */
  lemma {:induction false} PartialRowWeight(nmesh: int, c: nat)
    requires nmesh > 0 && 1 <= c <= nmesh / 2
    ensures WeightSum(nmesh, c) == (2 * c - 1) as real
  {
    if c > 1 {
      PartialRowWeight(nmesh, c - 1);
      ModSmall(c - 1, nmesh / 2 + 1);
    } else {
      ModSmall(0, nmesh / 2 + 1);
    }
  }

  /**
   * One stored row of Nmesh/2+1 cells weighs Nmesh for even Nmesh (every mode of
   * the full row counted once), but Nmesh-1 for odd Nmesh >= 3: the last stored
   * cell is then not its own mirror image, yet it is counted once.
   */
  lemma RowWeight(nmesh: int)
    requires nmesh > 0
    ensures WeightSum(nmesh, nmesh / 2 + 1) ==
      if nmesh % 2 == 0 || nmesh == 1 then nmesh as real else (nmesh - 1) as real
  {
    var h := nmesh / 2;
    if h == 0 {
      ModSmall(0, h + 1);
    } else {
      PartialRowWeight(nmesh, h);
      ModSmall(h, h + 1);
    }
  }

  /** For an l-periodic f, appending l terms adds one period's sum. */
  lemma {:induction false} PeriodicShift(f: nat -> real, l: nat, j: nat)
    requires Periodic(f, l)
    ensures PrefixSum(f, j + l) == PrefixSum(f, j) + PrefixSum(f, l)
  {
    if j > 0 {
      PeriodicShift(f, l, j - 1);
      assert f(j - 1 + l) == f(j - 1);
    }
  }

  /** rows * l, built up one row at a time. */
  function RowsLength(rows: nat, l: nat): nat {
    if rows == 0 then 0 else RowsLength(rows - 1, l) + l
  }

  lemma {:induction false} RowsLengthIsProduct(rows: nat, l: nat)
    ensures RowsLength(rows, l) == rows * l
  {
    if rows > 0 {
      RowsLengthIsProduct(rows - 1, l);
      assert rows * l == (rows - 1) * l + l;
    }
  }

  /** x added to itself `times` times. */
  function Repeat(x: real, times: nat): real {
    if times == 0 then 0.0 else Repeat(x, times - 1) + x
  }

  lemma {:induction false} RepeatIsProduct(x: real, times: nat)
    ensures Repeat(x, times) == (times as real) * x
  {
    if times > 0 {
      RepeatIsProduct(x, times - 1);
    }
  }

  /** For an l-periodic f, rows periods sum to rows copies of one period. */
  lemma {:induction false} PeriodicRows(f: nat -> real, l: nat, rows: nat)
    requires Periodic(f, l)
    ensures PrefixSum(f, RowsLength(rows, l)) == Repeat(PrefixSum(f, l), rows)
  {
    if rows > 0 {
      PeriodicRows(f, l, rows - 1);
      PeriodicShift(f, l, RowsLength(rows - 1, l));
    }
  }

  lemma CastMul(a: int, b: int)
    ensures (a * b) as real == (a as real) * (b as real)
  {
  }

  /**
   * For even Nmesh the weights of the local slab add up to Local_nx * Nmesh^(N-1):
   * every mode of the local part of the full complex grid is counted exactly once.
   */
  lemma LocalSlabWeight(ndim: nat, nmesh: int, localNx: nat)
    requires ndim >= 2 && nmesh > 0 && nmesh % 2 == 0
    ensures WeightSum(nmesh, LocalCellCount(ndim, nmesh, localNx)) == (localNx * Tuples.Power(nmesh, ndim - 1)) as real
  {
    var l := nmesh / 2 + 1;
    var p := Tuples.Power(nmesh, ndim - 2);
    var rows := localNx * p;
    var w := Weights(nmesh);
    assert PrefixSum(w, RowsLength(rows, l)) == (rows as real) * PrefixSum(w, l) by {
      CellWeightPeriodic(nmesh);
      PeriodicProduct(w, l, rows);
    }
    assert RowsLength(rows, l) == LocalCellCount(ndim, nmesh, localNx) by {
      RowsLengthIsProduct(rows, l);
    }
    assert PrefixSum(w, l) == nmesh as real by {
      RowWeight(nmesh);
    }
    assert Tuples.Power(nmesh, ndim - 1) == nmesh * p;
    assert localNx * Tuples.Power(nmesh, ndim - 1) == rows * nmesh by {
      MulRegroup(localNx, nmesh, p);
    }
    ScaleRows(PrefixSum(w, RowsLength(rows, l)), rows, PrefixSum(w, l), nmesh, localNx * Tuples.Power(nmesh, ndim - 1));
  }

  lemma PeriodicProduct(f: nat -> real, l: nat, rows: nat)
    requires Periodic(f, l)
    ensures PrefixSum(f, RowsLength(rows, l)) == (rows as real) * PrefixSum(f, l)
  {
    PeriodicRows(f, l, rows);
    RepeatIsProduct(PrefixSum(f, l), rows);
  }

  lemma MulRegroup(a: int, b: int, c: int)
    ensures a * (b * c) == (a * c) * b
  {
  }

  lemma ScaleRows(total: real, rows: int, x: real, nmesh: int, c: int)
    requires total == (rows as real) * x && x == nmesh as real && c == rows * nmesh
    ensures total == c as real
  {
    CastMul(rows, nmesh);
  }

  //------------------------------------------------------------------
  // Accumulation into a binning
  //------------------------------------------------------------------

  /**
   * The binning after adding the first j cells: cell ind contributes values[ind]
   * with its Hermitian weight, in the bin that the binning assigns to its |k|.
   */
  function Accumulate(b: PowerSpectrumBinning, cells: seq<FourierCell>, values: seq<real>,
                      nmesh: int, binOf: real -> int, j: nat): (r: PowerSpectrumBinning)
    requires Valid(b) && nmesh > 0 && |values| == |cells| && j <= |cells|
    ensures Valid(r) && r.n == b.n && r.kmin == b.kmin && r.kmax == b.kmax
  {
    if j == 0 then b
    else
      AddToBin(Accumulate(b, cells, values, nmesh, binOf, j - 1),
        binOf(cells[j - 1].kmag), cells[j - 1].kmag, values[j - 1], CellWeight(j - 1, nmesh))
  }

  /** |delta(k)|^2 of every cell. */
  function Powers(cells: seq<FourierCell>): (p: seq<real>)
    ensures |p| == |cells|
  {
    seq(|cells|, i requires 0 <= i < |cells| => NormSq(cells[i].value))
  }

  /** The sum of a table. */
  function Total(s: seq<real>): real {
    if |s| == 0 then 0.0 else Total(s[..|s| - 1]) + s[|s| - 1]
  }

  lemma {:induction false} TotalUpdate(s: seq<real>, i: nat, w: real)
    requires i < |s|
    ensures Total(s[i := s[i] + w]) == Total(s) + w
  {
    var t := s[i := s[i] + w];
    if i < |s| - 1 {
      TotalUpdate(s[..|s| - 1], i, w);
      assert t[..|t| - 1] == s[..|s| - 1][i := s[i] + w];
    } else {
      assert t[..|t| - 1] == s[..|s| - 1];
    }
  }

  lemma {:induction false} TotalZeros(n: nat)
    ensures Total(Zeros(n)) == 0.0
  {
    if n > 0 {
      TotalZeros(n - 1);
      assert Zeros(n)[..n - 1] == Zeros(n - 1);
    }
  }

  /**
   * When every cell falls inside the binning, the counts grow by exactly the
   * total weight of the cells added.
   */
  lemma {:induction false} AccumulatedCount(b: PowerSpectrumBinning, cells: seq<FourierCell>, values: seq<real>,
                                            nmesh: int, binOf: real -> int, j: nat)
    requires Valid(b) && nmesh > 0 && |values| == |cells| && j <= |cells|
    requires forall i :: 0 <= i < j ==> 0 <= binOf(cells[i].kmag) < b.n
    ensures Total(Accumulate(b, cells, values, nmesh, binOf, j).count) == Total(b.count) + WeightSum(nmesh, j)
  {
    if j > 0 {
      var prev := Accumulate(b, cells, values, nmesh, binOf, j - 1);
      var next := Accumulate(b, cells, values, nmesh, binOf, j);
      var bin := binOf(cells[j - 1].kmag);
      var w := CellWeight(j - 1, nmesh);
      assert Total(prev.count) == Total(b.count) + WeightSum(nmesh, j - 1) by {
        AccumulatedCount(b, cells, values, nmesh, binOf, j - 1);
      }
      assert Total(next.count) == Total(prev.count) + w by {
        assert next.count == prev.count[bin := prev.count[bin] + w];
        TotalUpdate(prev.count, bin, w);
      }
      assert WeightSum(nmesh, j) == WeightSum(nmesh, j - 1) + w;
    }
  }

  //------------------------------------------------------------------
  // bin_up_power_spectrum
  //------------------------------------------------------------------

  /** The binning's own consistency test. */
  predicate Consistent(b: PowerSpectrumBinning) {
    b.n > 0 && b.kmax > b.kmin && b.kmin >= 0.0
  }

  /**
   * What bin_up_power_spectrum leaves in the binning: the entry checks, then every
   * local cell's weighted |delta|^2 added to the bin of its |k|, then normalised.
   */
  function BinnedPowerSpectrum(g: FourierGrid, pofk: PowerSpectrumBinning, binOf: real -> int)
    : Result<PowerSpectrumBinning, SpectrumError>
    requires WellFormed(g) && Valid(pofk)
  {
    if g.nmesh <= 0 then Err(NonPositiveNmesh)
    else if !Consistent(pofk) then Err(InconsistentBinning)
    else Ok(Normalize(Accumulate(Reset(pofk), g.cells, Powers(g.cells), g.nmesh, binOf, |g.cells|)))
  }

  method BinUpPowerSpectrum(g: FourierGrid, pofk: PowerSpectrumBinning, binOf: real -> int)
    returns (r: Result<PowerSpectrumBinning, SpectrumError>)
    requires WellFormed(g) && Valid(pofk)
    ensures r == BinnedPowerSpectrum(g, pofk, binOf)
  {
    if g.nmesh <= 0 {
      return Err(NonPositiveNmesh);
    }
    if !(pofk.n > 0 && pofk.kmax > pofk.kmin && pofk.kmin >= 0.0) {
      return Err(InconsistentBinning);
    }
    var nmeshTotLocal := LocalCellCount(g.ndim, g.nmesh, g.localNx);
    var acc := Reset(pofk);
    ghost var start, powers := acc, Powers(g.cells);
    var ind := 0;
    while ind < nmeshTotLocal
      invariant 0 <= ind <= nmeshTotLocal
      invariant acc == Accumulate(start, g.cells, powers, g.nmesh, binOf, ind)
    {
      var lastCoord := ind % (g.nmesh / 2 + 1);
      var weight := if lastCoord > 0 && lastCoord < g.nmesh / 2 then 2.0 else 1.0;
      var cell := g.cells[ind];
      var deltaNorm := NormSq(cell.value);
      assert weight == CellWeight(ind, g.nmesh) && deltaNorm == powers[ind];
      acc := AddToBin(acc, binOf(cell.kmag), cell.kmag, deltaNorm, weight);
      ind := ind + 1;
    }
    r := Ok(Normalize(acc));
  }

  /**
   * For even Nmesh, when every cell falls inside the binning, the counts of the
   * result add up to Local_nx * Nmesh^(N-1): each mode of the local part of the
   * full grid is counted once, the unstored half through the weight 2.
   */
  lemma BinnedCountsEveryMode(g: FourierGrid, pofk: PowerSpectrumBinning, binOf: real -> int)
    requires WellFormed(g) && Valid(pofk) && g.nmesh > 0 && g.nmesh % 2 == 0 && Consistent(pofk)
    requires forall i :: 0 <= i < |g.cells| ==> 0 <= binOf(g.cells[i].kmag) < pofk.n
    ensures BinnedPowerSpectrum(g, pofk, binOf).Ok?
    ensures Total(BinnedPowerSpectrum(g, pofk, binOf).value.count) == (g.localNx * Tuples.Power(g.nmesh, g.ndim - 1)) as real
  {
    AccumulatedCount(Reset(pofk), g.cells, Powers(g.cells), g.nmesh, binOf, |g.cells|);
    assert Reset(pofk).count == Zeros(pofk.n);
    TotalZeros(pofk.n);
    LocalSlabWeight(g.ndim, g.nmesh, g.localNx);
  }

  //------------------------------------------------------------------
  // compute_power_spectrum_multipoles on a Fourier grid
  //------------------------------------------------------------------

  /** x^e as the running product mutoell *= mu builds it. */
  function Pow(x: real, e: nat): real {
    if e == 0 then 1.0 else Pow(x, e - 1) * x
  }

  /**
   * mu = (k . r) / (|k| |r|). At |k| = 0 the source divides zero by zero; the
   * value it then produces is the parameter muAtZero.
   */
  function Mu(c: FourierCell, los: seq<real>, rnorm: real, muAtZero: real): real
    requires |c.kvec| == |los|
  {
    if c.kmag * rnorm == 0.0 then muAtZero else Dot(c.kvec, los, |los|) / (c.kmag * rnorm)
  }

  lemma PowStep(x: real, e: nat)
    ensures Pow(x, e + 1) == Pow(x, e) * x
  {
  }

  /** |delta|^2 mu^ell */
  function MomentOf(power: real, mu: real, ell: nat): real {
    power * Pow(mu, ell)
  }

  /** |delta|^2 mu^ell of every cell. */
  function MomentValues(cells: seq<FourierCell>, los: seq<real>, rnorm: real, muAtZero: real, ell: nat)
    : (v: seq<real>)
    requires forall i :: 0 <= i < |cells| ==> |cells[i].kvec| == |los|
    ensures |v| == |cells|
  {
    seq(|cells|, i requires 0 <= i < |cells| =>
      MomentOf(NormSq(cells[i].value), Mu(cells[i], los, rnorm, muAtZero), ell))
  }

  /** Every binning is well formed and all have the number of bins of the first. */
  predicate SameBins(pell: seq<PowerSpectrumBinning>) {
    forall ell :: 0 <= ell < |pell| ==> Valid(pell[ell]) && pell[ell].n == pell[0].n
  }

  /** The normalised moment binnings <mu^ell |delta|^2>, before the Legendre conversion. */
  function Moments(g: FourierGrid, pell: seq<PowerSpectrumBinning>, los: seq<real>, rnorm: real,
                   muAtZero: real, binOf: real -> int): (m: seq<PowerSpectrumBinning>)
    requires WellFormed(g) && g.nmesh > 0 && SameBins(pell) && |los| == g.ndim
    ensures |m| == |pell| && SameBins(m)
    ensures forall ell :: 0 <= ell < |m| ==> m[ell].n == pell[ell].n
  {
    seq(|pell|, ell requires 0 <= ell < |pell| =>
      Normalize(Accumulate(Reset(pell[ell]), g.cells, MomentValues(g.cells, los, rnorm, muAtZero, ell),
        g.nmesh, binOf, |g.cells|)))
  }

  /** The power tables of a list of binnings. */
  function PowerTables(pell: seq<PowerSpectrumBinning>): (m: seq<seq<real>>)
    requires SameBins(pell)
    ensures |m| == |pell| && Legendre.Rectangular(m)
    ensures forall ell :: 0 <= ell < |pell| ==> m[ell] == pell[ell].pofk
  {
    seq(|pell|, ell requires 0 <= ell < |pell| => pell[ell].pofk)
  }

  /**
   * What compute_power_spectrum_multipoles leaves in Pell: the entry checks in the
   * source's order, then the moment binnings whose power tables are replaced by
   * the Legendre multipoles (count and kbin stay those of the moment binnings).
   * rnorm is the square root of the line of sight's squared length.
   */
  function Multipoles(g: FourierGrid, pell: seq<PowerSpectrumBinning>, los: seq<real>, rnorm: real,
                      muAtZero: real, binOf: real -> int): (r: Result<seq<PowerSpectrumBinning>, SpectrumError>)
    requires WellFormed(g) && SameBins(pell)
    ensures r.Ok? <==> |los| == g.ndim && |pell| > 0 && g.nmesh > 0 && rnorm > 0.0
    ensures r.Ok? ==> |r.value| == |pell| && SameBins(r.value)
    ensures r.Ok? ==> forall ell :: 0 <= ell < |pell| ==> r.value[ell].n == pell[ell].n
  {
    if |los| != g.ndim then Err(LosWrongDimension)
    else if |pell| == 0 then Err(EmptyPell)
    else if g.nmesh <= 0 then Err(NonPositiveNmesh)
    else if !(rnorm > 0.0) then Err(ZeroLengthLos)
    else
      var m := Moments(g, pell, los, rnorm, muAtZero, binOf);
      var p := Legendre.LegendreMultipoles(PowerTables(m));
      Ok(seq(|m|, ell requires 0 <= ell < |m| => m[ell].(pofk := p[ell])))
  }

  /** Accumulator ell after the first j cells. */
  function MomentAccumulator(g: FourierGrid, pell: seq<PowerSpectrumBinning>, los: seq<real>, rnorm: real,
                             muAtZero: real, binOf: real -> int, ell: nat, j: nat): PowerSpectrumBinning
    requires WellFormed(g) && g.nmesh > 0 && SameBins(pell) && |los| == g.ndim
    requires ell < |pell| && j <= |g.cells|
  {
    Accumulate(Reset(pell[ell]), g.cells, MomentValues(g.cells, los, rnorm, muAtZero, ell), g.nmesh, binOf, j)
  }

  lemma MomentAccumulatorStep(g: FourierGrid, pell: seq<PowerSpectrumBinning>, los: seq<real>, rnorm: real,
                               muAtZero: real, binOf: real -> int, ell: nat, j: nat)
    requires WellFormed(g) && g.nmesh > 0 && SameBins(pell) && |los| == g.ndim
    requires ell < |pell| && j < |g.cells|
    ensures MomentAccumulator(g, pell, los, rnorm, muAtZero, binOf, ell, j + 1)
      == AddToBin(MomentAccumulator(g, pell, los, rnorm, muAtZero, binOf, ell, j),
           binOf(g.cells[j].kmag), g.cells[j].kmag,
           MomentOf(NormSq(g.cells[j].value), Mu(g.cells[j], los, rnorm, muAtZero), ell),
           CellWeight(j, g.nmesh))
  {
  }

  /** The innermost loop: one cell's |delta|^2 mu^ell is added to every accumulator ell. */
  method AddCellMoments(acc: seq<PowerSpectrumBinning>, bin: int, kmag: real, power: real, mu: real, weight: real)
    returns (next: seq<PowerSpectrumBinning>)
    requires forall e :: 0 <= e < |acc| ==> Valid(acc[e])
    ensures |next| == |acc|
    ensures forall e :: 0 <= e < |acc| ==> next[e] == AddToBin(acc[e], bin, kmag, MomentOf(power, mu, e), weight)
  {
    next := acc;
    var mutoell := 1.0;
    var ell := 0;
    while ell < |next|
      invariant 0 <= ell <= |next| == |acc|
      invariant mutoell == Pow(mu, ell)
      invariant forall e :: 0 <= e < ell ==> next[e] == AddToBin(acc[e], bin, kmag, MomentOf(power, mu, e), weight)
      invariant forall e :: ell <= e < |acc| ==> next[e] == acc[e]
    {
      assert power * mutoell == MomentOf(power, mu, ell);
      next := next[ell := AddToBin(next[ell], bin, kmag, power * mutoell, weight)];
      PowStep(mu, ell);
      mutoell := mutoell * mu;
      ell := ell + 1;
    }
  }

  /** The moment loop: |delta|^2 mu^ell goes into accumulator ell, for every cell. */
  method AccumulateMoments(g: FourierGrid, pell: seq<PowerSpectrumBinning>, los: seq<real>, rnorm: real,
                           muAtZero: real, binOf: real -> int) returns (acc: seq<PowerSpectrumBinning>)
    requires WellFormed(g) && g.nmesh > 0 && SameBins(pell) && |los| == g.ndim
    ensures |acc| == |pell|
    ensures forall ell :: 0 <= ell < |pell| ==>
      acc[ell] == MomentAccumulator(g, pell, los, rnorm, muAtZero, binOf, ell, |g.cells|)
  {
    acc := seq(|pell|, ell requires 0 <= ell < |pell| => Reset(pell[ell]));
    var nmeshTotTotal := LocalCellCount(g.ndim, g.nmesh, g.localNx);
    var ind := 0;
    while ind < nmeshTotTotal
      invariant 0 <= ind <= nmeshTotTotal
      invariant |acc| == |pell|
      invariant forall e :: 0 <= e < |pell| ==>
        acc[e] == MomentAccumulator(g, pell, los, rnorm, muAtZero, binOf, e, ind)
    {
      acc := AddGridCell(g, pell, los, rnorm, muAtZero, binOf, ind, acc);
      ind := ind + 1;
    }
  }

  /** One pass of the cell loop: cell ind's |delta|^2 mu^ell goes into every accumulator. */
  method AddGridCell(g: FourierGrid, pell: seq<PowerSpectrumBinning>, los: seq<real>, rnorm: real,
                     muAtZero: real, binOf: real -> int, ind: nat, acc: seq<PowerSpectrumBinning>)
    returns (next: seq<PowerSpectrumBinning>)
    requires WellFormed(g) && g.nmesh > 0 && SameBins(pell) && |los| == g.ndim
    requires ind < |g.cells| && |acc| == |pell|
    requires forall e :: 0 <= e < |pell| ==>
      acc[e] == MomentAccumulator(g, pell, los, rnorm, muAtZero, binOf, e, ind)
    ensures |next| == |pell|
    ensures forall e :: 0 <= e < |pell| ==>
      next[e] == MomentAccumulator(g, pell, los, rnorm, muAtZero, binOf, e, ind + 1)
  {
    var lastCoord := ind % (g.nmesh / 2 + 1);
    var weight := if lastCoord > 0 && lastCoord < g.nmesh / 2 then 2.0 else 1.0;
    var cell := g.cells[ind];
    var power := NormSq(cell.value);
    var mu := DotProduct(cell.kvec, los);
    if cell.kmag * rnorm == 0.0 {
      mu := muAtZero;
    } else {
      mu := mu / (cell.kmag * rnorm);
    }
    assert mu == Mu(cell, los, rnorm, muAtZero);
    assert weight == CellWeight(ind, g.nmesh);
    next := AddCellMoments(acc, binOf(cell.kmag), cell.kmag, power, mu, weight);
    forall e | 0 <= e < |pell|
      ensures next[e] == MomentAccumulator(g, pell, los, rnorm, muAtZero, binOf, e, ind + 1)
    {
      MomentAccumulatorStep(g, pell, los, rnorm, muAtZero, binOf, e, ind);
    }
  }

  method ComputeMultipoles(g: FourierGrid, pell: seq<PowerSpectrumBinning>, los: seq<real>, rnorm: real,
                           muAtZero: real, binOf: real -> int) returns (r: Result<seq<PowerSpectrumBinning>, SpectrumError>)
    requires WellFormed(g) && SameBins(pell)
    requires rnorm >= 0.0 && rnorm * rnorm == SumSquares(los)
    ensures r == Multipoles(g, pell, los, rnorm, muAtZero, binOf)
  {
    if |los| != g.ndim {
      return Err(LosWrongDimension);
    }
    if |pell| == 0 {
      return Err(EmptyPell);
    }
    if g.nmesh <= 0 {
      return Err(NonPositiveNmesh);
    }
    if !(rnorm > 0.0) {
      return Err(ZeroLengthLos);
    }
    var acc := AccumulateMoments(g, pell, los, rnorm, muAtZero, binOf);
    ghost var moments := Moments(g, pell, los, rnorm, muAtZero, binOf);
    var ell := 0;
    while ell < |acc|
      invariant 0 <= ell <= |acc| == |pell|
      invariant forall e :: 0 <= e < ell ==> acc[e] == moments[e]
      invariant forall e :: ell <= e < |pell| ==>
        acc[e] == MomentAccumulator(g, pell, los, rnorm, muAtZero, binOf, e, |g.cells|)
    {
      acc := acc[ell := Normalize(acc[ell])];
      ell := ell + 1;
    }
    assert acc == moments;
    var temp := Legendre.MomentsToLegendre(PowerTables(acc));
    var result := CopyPowerTables(acc, temp);
    r := Ok(result);
  }

  /** The final copy: Pell[ell].pofk = temp[ell] for every ell, the rest kept. */
  method CopyPowerTables(acc: seq<PowerSpectrumBinning>, temp: seq<seq<real>>)
    returns (result: seq<PowerSpectrumBinning>)
    requires |temp| == |acc|
    ensures result == seq(|acc|, e requires 0 <= e < |acc| => acc[e].(pofk := temp[e]))
  {
    var ell := 0;
    result := acc;
    while ell < |result|
      invariant 0 <= ell <= |result| == |acc|
      invariant forall e :: 0 <= e < ell ==> result[e] == acc[e].(pofk := temp[e])
      invariant forall e :: ell <= e < |acc| ==> result[e] == acc[e]
    {
      result := result[ell := result[ell].(pofk := temp[ell])];
      ell := ell + 1;
    }
  }

  //------------------------------------------------------------------
  // Properties of the multipoles
  //------------------------------------------------------------------

  /** With mu^0 = 1 the zeroth moment of every cell is its plain power. */
  lemma ZerothMomentValues(cells: seq<FourierCell>, los: seq<real>, rnorm: real, muAtZero: real)
    requires forall i :: 0 <= i < |cells| ==> |cells[i].kvec| == |los|
    ensures MomentValues(cells, los, rnorm, muAtZero, 0) == Powers(cells)
  {
  }

  /**
   * The monopole is the plain power spectrum: P0 of compute_power_spectrum_multipoles
   * equals what bin_up_power_spectrum gives for the same grid and binning.
   */
  lemma MonopoleIsPowerSpectrum(g: FourierGrid, pell: seq<PowerSpectrumBinning>, los: seq<real>, rnorm: real,
                                muAtZero: real, binOf: real -> int)
    requires WellFormed(g) && SameBins(pell) && |los| == g.ndim && |pell| > 0
    requires g.nmesh > 0 && rnorm > 0.0 && Consistent(pell[0])
    ensures Multipoles(g, pell, los, rnorm, muAtZero, binOf).Ok?
    ensures BinnedPowerSpectrum(g, pell[0], binOf).Ok?
    ensures Multipoles(g, pell, los, rnorm, muAtZero, binOf).value[0] == BinnedPowerSpectrum(g, pell[0], binOf).value
  {
    var m := Moments(g, pell, los, rnorm, muAtZero, binOf);
    ZerothMomentValues(g.cells, los, rnorm, muAtZero);
    assert m[0] == BinnedPowerSpectrum(g, pell[0], binOf).value;
    Legendre.MonopoleIsZerothMoment(PowerTables(m));
    assert Multipoles(g, pell, los, rnorm, muAtZero, binOf).value[0] == m[0].(pofk := m[0].pofk);
  }

  /** Counts and wavenumber sums do not depend on the values being binned. */
  lemma {:induction false} AccumulateSameCounts(b1: PowerSpectrumBinning, b2: PowerSpectrumBinning,
                                                cells: seq<FourierCell>, v1: seq<real>, v2: seq<real>,
                                                nmesh: int, binOf: real -> int, j: nat)
    requires Valid(b1) && Valid(b2) && b1.n == b2.n && b1.count == b2.count && b1.kbin == b2.kbin
    requires nmesh > 0 && |v1| == |cells| && |v2| == |cells| && j <= |cells|
    ensures Accumulate(b1, cells, v1, nmesh, binOf, j).count == Accumulate(b2, cells, v2, nmesh, binOf, j).count
    ensures Accumulate(b1, cells, v1, nmesh, binOf, j).kbin == Accumulate(b2, cells, v2, nmesh, binOf, j).kbin
  {
    if j > 0 {
      AccumulateSameCounts(b1, b2, cells, v1, v2, nmesh, binOf, j - 1);
    }
  }

  /** Every multipole carries the same mode counts and mean wavenumbers. */
  lemma MultipoleCountsAgree(g: FourierGrid, pell: seq<PowerSpectrumBinning>, los: seq<real>, rnorm: real,
                             muAtZero: real, binOf: real -> int)
    requires WellFormed(g) && SameBins(pell)
    requires Multipoles(g, pell, los, rnorm, muAtZero, binOf).Ok?
    ensures forall ell :: 0 <= ell < |pell| ==>
      Multipoles(g, pell, los, rnorm, muAtZero, binOf).value[ell].count
        == Multipoles(g, pell, los, rnorm, muAtZero, binOf).value[0].count &&
      Multipoles(g, pell, los, rnorm, muAtZero, binOf).value[ell].kbin
        == Multipoles(g, pell, los, rnorm, muAtZero, binOf).value[0].kbin
  {
    var m := Moments(g, pell, los, rnorm, muAtZero, binOf);
    forall ell | 0 <= ell < |pell|
      ensures m[ell].count == m[0].count && m[ell].kbin == m[0].kbin
    {
      AccumulateSameCounts(Reset(pell[ell]), Reset(pell[0]), g.cells,
        MomentValues(g.cells, los, rnorm, muAtZero, ell), MomentValues(g.cells, los, rnorm, muAtZero, 0),
        g.nmesh, binOf, |g.cells|);
    }
  }
}
