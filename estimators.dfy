/**
 * The estimators built on top of the binning of a Fourier grid:
 *
 *  - compute_power_spectrum: bin the deconvolved density and subtract the shot
 *    noise 1/NumPartTotal from every bin;
 *  - compute_power_spectrum_interlacing: the same on the mean of the grid and the
 *    grid of the particles shifted by half a cell, the particles shifted back;
 *  - compute_power_spectrum_direct_summation: the density field summed directly
 *    over the particles, the particle's own contribution removed from the zero
 *    mode, shot noise 1/NumPart;
 *  - compute_power_spectrum_multipoles on particles: for each coordinate axis the
 *    particles are put into redshift space along it, the multipoles are computed
 *    with that axis as line of sight, and the results are averaged over the axes;
 *    the monopole loses the shot noise.
 *
 * Assigning particles to a grid, the transform to Fourier space and the window
 * deconvolution are not part of this model: they are the function parameters
 * `density` (particles to Fourier amplitudes, one per stored cell) and
 * `deconvolve`. The stored cells of the grid (wave vectors and |k|) depend only
 * on Ngrid and form the `layout`; exp(i x) is the parameter `expI`.
 */
module Estimators {
  import opened Wrappers
  import opened Binning
  import opened Vectors
  import opened PowerSpectrum
  import opened Particles
  import Tuples

  //------------------------------------------------------------------
  // Complex arithmetic used by the estimators
  //------------------------------------------------------------------

  function Add(a: Complex, b: Complex): Complex {
    Complex(a.re + b.re, a.im + b.im)
  }

  function Mul(a: Complex, b: Complex): Complex {
    Complex(a.re * b.re - a.im * b.im, a.re * b.im + a.im * b.re)
  }

  /** A complex number times a real one. */
  function Scale(a: Complex, s: real): Complex {
    Complex(a.re * s, a.im * s)
  }

  /** A complex number divided by 2. */
  function Halve(a: Complex): Complex {
    Complex(a.re / 2.0, a.im / 2.0)
  }

  //------------------------------------------------------------------
  // Grids
  //------------------------------------------------------------------

  /** The grid with the given layout holding the given Fourier amplitudes. */
  function WithValues(layout: FourierGrid, values: seq<Complex>): (g: FourierGrid)
    requires |values| == |layout.cells|
    ensures g.ndim == layout.ndim && g.nmesh == layout.nmesh && g.localNx == layout.localNx
    ensures |g.cells| == |layout.cells|
    ensures forall i :: 0 <= i < |g.cells| ==>
      g.cells[i].kvec == layout.cells[i].kvec && g.cells[i].kmag == layout.cells[i].kmag &&
      g.cells[i].value == values[i]
    ensures WellFormed(layout) ==> WellFormed(g)
  {
    layout.(cells := seq(|values|, i requires 0 <= i < |values| => layout.cells[i].(value := values[i])))
  }

  /** The density assignment gives one amplitude per stored cell of the layout. */
  ghost predicate FitsLayout(layout: FourierGrid, density: seq<Particle> -> seq<Complex>) {
    forall ps :: |density(ps)| == |layout.cells|
  }

  /** The deconvolution keeps the number of cells. */
  ghost predicate KeepsLength(deconvolve: seq<Complex> -> seq<Complex>) {
    forall v :: |deconvolve(v)| == |v|
  }

  //------------------------------------------------------------------
  // Shot noise
  //------------------------------------------------------------------

  /** Every bin of the power lowered by the shot noise; counts and wavenumbers kept. */
  function ShotNoiseSubtracted(b: PowerSpectrumBinning, shot: real): (r: PowerSpectrumBinning)
    requires Valid(b)
    ensures Valid(r) && r.n == b.n && r.kmin == b.kmin && r.kmax == b.kmax
    ensures r.count == b.count && r.kbin == b.kbin
    ensures forall i :: 0 <= i < b.n ==> r.pofk[i] + shot == b.pofk[i]
  {
    b.(pofk := seq(b.n, i requires 0 <= i < b.n => b.pofk[i] - shot))
  }

  /** The loop `pofk.pofk[i] -= shot` over the bins. */
  method SubtractShotNoise(b: PowerSpectrumBinning, shot: real) returns (r: PowerSpectrumBinning)
    requires Valid(b)
    ensures r == ShotNoiseSubtracted(b, shot)
  {
    var pofk := b.pofk;
    var i := 0;
    while i < b.n
      invariant 0 <= i <= b.n == |pofk|
      invariant forall j :: 0 <= j < i ==> pofk[j] == b.pofk[j] - shot
      invariant forall j :: i <= j < b.n ==> pofk[j] == b.pofk[j]
    {
      pofk := pofk[i := pofk[i] - shot];
      i := i + 1;
    }
    r := b.(pofk := pofk);
  }

  //------------------------------------------------------------------
  // compute_power_spectrum
  //------------------------------------------------------------------

  /** The binned power of the given amplitudes less the shot noise 1/NumPartTotal. */
  function PowerSpectrumEstimate(layout: FourierGrid, values: seq<Complex>, pofk: PowerSpectrumBinning,
                                 binOf: real -> int, numPartTotal: nat): Result<PowerSpectrumBinning, SpectrumError>
    requires WellFormed(layout) && Valid(pofk) && |values| == |layout.cells| && numPartTotal > 0
  {
    var binned :- BinnedPowerSpectrum(WithValues(layout, values), pofk, binOf);
    Ok(ShotNoiseSubtracted(binned, 1.0 / numPartTotal as real))
  }

  method ComputePowerSpectrum(parts: seq<Particle>, numPartTotal: nat, pofk: PowerSpectrumBinning,
                              layout: FourierGrid, density: seq<Particle> -> seq<Complex>,
                              deconvolve: seq<Complex> -> seq<Complex>, binOf: real -> int)
    returns (r: Result<PowerSpectrumBinning, SpectrumError>)
    requires WellFormed(layout) && Valid(pofk) && numPartTotal > 0
    requires FitsLayout(layout, density) && KeepsLength(deconvolve)
    ensures r == PowerSpectrumEstimate(layout, deconvolve(density(parts)), pofk, binOf, numPartTotal)
  {
    var values := deconvolve(density(parts));
    var binned := BinUpPowerSpectrum(WithValues(layout, values), pofk, binOf);
    if binned.Err? {
      return Err(binned.error);
    }
    var b := SubtractShotNoise(binned.value, 1.0 / numPartTotal as real);
    r := Ok(b);
  }

  /**
   * The estimate is the monopole of the multipole estimator for any line of sight,
   * less the shot noise.
   */
  lemma EstimateIsMonopole(layout: FourierGrid, values: seq<Complex>, pell: seq<PowerSpectrumBinning>,
                           los: seq<real>, rnorm: real, muAtZero: real, binOf: real -> int, numPartTotal: nat)
    requires WellFormed(layout) && |values| == |layout.cells| && numPartTotal > 0
    requires SameBins(pell) && |pell| > 0 && Consistent(pell[0])
    requires |los| == layout.ndim && layout.nmesh > 0 && rnorm > 0.0
    ensures Multipoles(WithValues(layout, values), pell, los, rnorm, muAtZero, binOf).Ok?
    ensures PowerSpectrumEstimate(layout, values, pell[0], binOf, numPartTotal)
      == Ok(ShotNoiseSubtracted(Multipoles(WithValues(layout, values), pell, los, rnorm, muAtZero, binOf).value[0],
                                1.0 / numPartTotal as real))
  {
    MonopoleIsPowerSpectrum(WithValues(layout, values), pell, los, rnorm, muAtZero, binOf);
  }

  /**
   * For even Nmesh, with every mode inside the binning, the counts of the estimate
   * add up to Local_nx * Nmesh^(N-1): subtracting the shot noise leaves them alone.
   */
  lemma EstimateCountsEveryMode(layout: FourierGrid, values: seq<Complex>, pofk: PowerSpectrumBinning,
                                binOf: real -> int, numPartTotal: nat)
    requires WellFormed(layout) && Valid(pofk) && |values| == |layout.cells| && numPartTotal > 0
    requires layout.nmesh > 0 && layout.nmesh % 2 == 0 && Consistent(pofk)
    requires forall i :: 0 <= i < |layout.cells| ==> 0 <= binOf(layout.cells[i].kmag) < pofk.n
    ensures PowerSpectrumEstimate(layout, values, pofk, binOf, numPartTotal).Ok?
    ensures Total(PowerSpectrumEstimate(layout, values, pofk, binOf, numPartTotal).value.count)
      == (layout.localNx * Tuples.Power(layout.nmesh, layout.ndim - 1)) as real
  {
    var g := WithValues(layout, values);
    assert g.localNx == layout.localNx && g.nmesh == layout.nmesh && g.ndim == layout.ndim;
    assert forall i :: 0 <= i < |g.cells| ==> 0 <= binOf(g.cells[i].kmag) < pofk.n;
    BinnedCountsEveryMode(g, pofk, binOf);
    var binned := BinnedPowerSpectrum(g, pofk, binOf).value;
    var estimate := PowerSpectrumEstimate(layout, values, pofk, binOf, numPartTotal);
    assert estimate == Ok(ShotNoiseSubtracted(binned, 1.0 / numPartTotal as real));
    assert Total(estimate.value.count) == Total(binned.count);
  }

  //------------------------------------------------------------------
  // compute_power_spectrum_interlacing
  //------------------------------------------------------------------

  /** Half a grid cell in units of the box: 1/(2 Ngrid). */
  function HalfCell(ngrid: int): (s: real)
    requires ngrid > 0
    ensures 0.0 < s <= 0.5
  {
    1.0 / (2 * ngrid) as real
  }

  /** The sum of the wave-vector components. */
  function KSum(kvec: seq<real>): real {
    if |kvec| == 0 then 0.0 else KSum(kvec[..|kvec| - 1]) + kvec[|kvec| - 1]
  }

  /** (k_x + k_y + ...) * shift: the phase of the half-cell shift. */
  function ShiftPhase(kvec: seq<real>, shift: real): real {
    KSum(kvec) * shift
  }

  /** (ff + exp(i ksum shift) gg) / 2 */
  function MergedValue(ff: Complex, gg: Complex, kvec: seq<real>, shift: real, expI: real -> Complex): Complex {
    Halve(Add(ff, Mul(expI(ShiftPhase(kvec, shift)), gg)))
  }

  /** The mean of the grid and the phase-corrected grid of the shifted particles, cell by cell. */
  function MergedValues(layout: FourierGrid, ff: seq<Complex>, gg: seq<Complex>, shift: real,
                        expI: real -> Complex): (r: seq<Complex>)
    requires |ff| == |layout.cells| && |gg| == |layout.cells|
    ensures |r| == |ff|
  {
    seq(|ff|, i requires 0 <= i < |ff| => MergedValue(ff[i], gg[i], layout.cells[i].kvec, shift, expI))
  }

  /**
   * When the shifted grid is exactly the phase-shifted copy of the first one (no
   * aliasing), the mean is the first grid: interlacing then changes nothing.
   */
  lemma MergeOfMatchingGrids(layout: FourierGrid, ff: seq<Complex>, gg: seq<Complex>, shift: real,
                             expI: real -> Complex)
    requires |ff| == |layout.cells| && |gg| == |layout.cells|
    requires forall i :: 0 <= i < |ff| ==> Mul(expI(ShiftPhase(layout.cells[i].kvec, shift)), gg[i]) == ff[i]
    ensures MergedValues(layout, ff, gg, shift, expI) == ff
  {
  }

  /** The loop over the wave-vector components: ksum += kvec[idim]. */
  method ComponentSum(kvec: seq<real>) returns (s: real)
    ensures s == KSum(kvec)
  {
    s := 0.0;
    var d := 0;
    while d < |kvec|
      invariant 0 <= d <= |kvec|
      invariant s == KSum(kvec[..d])
    {
      assert kvec[..d + 1][..d] == kvec[..d];
      s := s + kvec[d];
      d := d + 1;
    }
    assert kvec[..|kvec|] == kvec;
  }

  /** The merge loop, writing the mean into ff in place. */
  method MergeInterlaced(layout: FourierGrid, ff: seq<Complex>, gg: seq<Complex>, shift: real,
                         expI: real -> Complex) returns (r: seq<Complex>)
    requires |ff| == |layout.cells| && |gg| == |layout.cells|
    ensures r == MergedValues(layout, ff, gg, shift, expI)
  {
    r := ff;
    var i := 0;
    while i < |r|
      invariant 0 <= i <= |r| == |ff|
      invariant forall j :: 0 <= j < i ==> r[j] == MergedValue(ff[j], gg[j], layout.cells[j].kvec, shift, expI)
      invariant forall j :: i <= j < |r| ==> r[j] == ff[j]
    {
      var ksum := ComponentSum(layout.cells[i].kvec);
      var norm := expI(ksum * shift);
      assert ksum == KSum(layout.cells[i].kvec);
      assert ksum * shift == ShiftPhase(layout.cells[i].kvec, shift);
      assert norm == expI(ShiftPhase(layout.cells[i].kvec, shift));
      r := r[i := Halve(Add(r[i], Mul(norm, gg[i])))];
      i := i + 1;
    }
  }

  /** What compute_power_spectrum_interlacing returns for the particles ps. */
  function InterlacedEstimate(ps: seq<Particle>, ngrid: int, numPartTotal: nat, pofk: PowerSpectrumBinning,
                              layout: FourierGrid, density: seq<Particle> -> seq<Complex>,
                              deconvolve: seq<Complex> -> seq<Complex>, expI: real -> Complex,
                              binOf: real -> int): Result<PowerSpectrumBinning, SpectrumError>
    requires ngrid > 0 && numPartTotal > 0 && WellFormed(layout) && Valid(pofk) && layout.nmesh == ngrid
    requires FitsLayout(layout, density) && KeepsLength(deconvolve)
  {
    var shift := HalfCell(ngrid);
    var merged := MergedValues(layout, density(ps), density(ShiftedAll(ps, shift)), shift, expI);
    PowerSpectrumEstimate(layout, deconvolve(merged), pofk, binOf, numPartTotal)
  }

  method ComputePowerSpectrumInterlacing(ngrid: int, parts: array<Particle>, numPart: nat, numPartTotal: nat,
                                         pofk: PowerSpectrumBinning, layout: FourierGrid,
                                         density: seq<Particle> -> seq<Complex>,
                                         deconvolve: seq<Complex> -> seq<Complex>,
                                         expI: real -> Complex, binOf: real -> int)
    returns (r: Result<PowerSpectrumBinning, SpectrumError>)
    requires ngrid > 0 && numPartTotal > 0 && numPart <= parts.Length
    requires forall i :: 0 <= i < numPart ==> |parts[i].pos| > 0
    requires WellFormed(layout) && Valid(pofk) && layout.nmesh == ngrid
    requires FitsLayout(layout, density) && KeepsLength(deconvolve)
    modifies parts
    ensures r == InterlacedEstimate(old(parts[..numPart]), ngrid, numPartTotal, pofk, layout, density,
                                    deconvolve, expI, binOf)
    ensures parts[..numPart] == UnshiftedAll(ShiftedAll(old(parts[..numPart]), HalfCell(ngrid)), HalfCell(ngrid))
    ensures forall i :: numPart <= i < parts.Length ==> parts[i] == old(parts[i])
  {
    ghost var ps := parts[..numPart];
    var ff := density(parts[..numPart]);
    var shift := 1.0 / (2 * ngrid) as real;
    ShiftParticles(parts, numPart, shift);
    var gg := density(parts[..numPart]);
    UnshiftParticles(parts, numPart, shift);
    var merged := MergeInterlaced(layout, ff, gg, shift, expI);
    var values := deconvolve(merged);
    var binned := BinUpPowerSpectrum(WithValues(layout, values), pofk, binOf);
    if binned.Err? {
      return Err(binned.error);
    }
    var b := SubtractShotNoise(binned.value, 1.0 / numPartTotal as real);
    r := Ok(b);
  }

  /** Particles in the box come back to where they were. */
  lemma InterlacingRestoresParticles(ps: seq<Particle>, ngrid: int)
    requires ngrid > 0
    requires forall i :: 0 <= i < |ps| ==> InBox(ps[i].pos)
    ensures UnshiftedAll(ShiftedAll(ps, HalfCell(ngrid)), HalfCell(ngrid)) == ps
  {
    InterlaceRoundTrip(ps, HalfCell(ngrid));
  }

  //------------------------------------------------------------------
  // compute_power_spectrum_direct_summation
  //------------------------------------------------------------------

  /** Every particle has as many coordinates as the grid has dimensions. */
  predicate Dimensioned(ps: seq<Particle>, ndim: nat) {
    forall i :: 0 <= i < |ps| ==> |ps[i].pos| == ndim
  }

  /** exp(-i k.x_p) summed over the first j particles. */
  function PhaseSum(kvec: seq<real>, ps: seq<Particle>, expI: real -> Complex, j: nat): Complex
    requires Dimensioned(ps, |kvec|) && j <= |ps|
  {
    if j == 0 then Complex(0.0, 0.0)
    else Add(PhaseSum(kvec, ps, expI, j - 1), expI(-Dot(kvec, ps[j - 1].pos, |kvec|)))
  }

  /**
   * The amplitude of cell c: the phase sum, less 1 in the zero mode on task 0 (the
   * self-pair of each particle), times 1/NumPart.
   */
  function DirectValue(c: nat, kvec: seq<real>, ps: seq<Particle>, expI: real -> Complex, isRoot: bool): Complex
    requires Dimensioned(ps, |kvec|) && |ps| > 0
  {
    var sum := PhaseSum(kvec, ps, expI, |ps|);
    var corrected := if isRoot && c == 0 then Complex(sum.re - 1.0, sum.im) else sum;
    Scale(corrected, 1.0 / |ps| as real)
  }

  function DirectValues(layout: FourierGrid, ps: seq<Particle>, expI: real -> Complex, isRoot: bool)
    : (r: seq<Complex>)
    requires WellFormed(layout) && Dimensioned(ps, layout.ndim) && |ps| > 0
    ensures |r| == |layout.cells|
  {
    seq(|layout.cells|, c requires 0 <= c < |layout.cells| =>
      DirectValue(c, layout.cells[c].kvec, ps, expI, isRoot))
  }

  /** What compute_power_spectrum_direct_summation returns. */
  function DirectSummationEstimate(ngrid: int, ps: seq<Particle>, pofk: PowerSpectrumBinning, layout: FourierGrid,
                                   expI: real -> Complex, isRoot: bool, binOf: real -> int)
    : Result<PowerSpectrumBinning, SpectrumError>
    requires WellFormed(layout) && Valid(pofk) && Dimensioned(ps, layout.ndim) && |ps| > 0
    requires ngrid > 0 ==> layout.nmesh == ngrid
  {
    if ngrid <= 0 then Err(NonPositiveNgrid)
    else
      var binned :- BinnedPowerSpectrum(WithValues(layout, DirectValues(layout, ps, expI, isRoot)), pofk, binOf);
      Ok(ShotNoiseSubtracted(binned, 1.0 / |ps| as real))
  }

  /** The particle loop for one cell: the real and imaginary parts are summed separately. */
  method SumPhases(kvec: seq<real>, ps: seq<Particle>, expI: real -> Complex) returns (sum: Complex)
    requires Dimensioned(ps, |kvec|)
    ensures sum == PhaseSum(kvec, ps, expI, |ps|)
  {
    var re := 0.0;
    var im := 0.0;
    var i := 0;
    while i < |ps|
      invariant 0 <= i <= |ps|
      invariant Complex(re, im) == PhaseSum(kvec, ps, expI, i)
    {
      var kx := DotProduct(kvec, ps[i].pos);
      var val := expI(-kx);
      re := re + val.re;
      im := im + val.im;
      i := i + 1;
    }
    sum := Complex(re, im);
  }

  /** The loop over the cells filling the density field. */
  method DirectField(layout: FourierGrid, ps: seq<Particle>, expI: real -> Complex, isRoot: bool)
    returns (f: seq<Complex>)
    requires WellFormed(layout) && Dimensioned(ps, layout.ndim) && |ps| > 0
    ensures f == DirectValues(layout, ps, expI, isRoot)
  {
    var norm := 1.0 / |ps| as real;
    f := [];
    var c := 0;
    while c < |layout.cells|
      invariant 0 <= c <= |layout.cells| && |f| == c
      invariant forall j :: 0 <= j < c ==> f[j] == DirectValue(j, layout.cells[j].kvec, ps, expI, isRoot)
    {
      var sum := SumPhases(layout.cells[c].kvec, ps, expI);
      if isRoot && c == 0 {
        sum := Complex(sum.re - 1.0, sum.im);
      }
      f := f + [Scale(sum, norm)];
      c := c + 1;
    }
  }

  method ComputePowerSpectrumDirectSummation(ngrid: int, ps: seq<Particle>, pofk: PowerSpectrumBinning,
                                             layout: FourierGrid, expI: real -> Complex, isRoot: bool,
                                             binOf: real -> int)
    returns (r: Result<PowerSpectrumBinning, SpectrumError>)
    requires WellFormed(layout) && Valid(pofk) && Dimensioned(ps, layout.ndim) && |ps| > 0
    requires ngrid > 0 ==> layout.nmesh == ngrid
    ensures r == DirectSummationEstimate(ngrid, ps, pofk, layout, expI, isRoot, binOf)
  {
    if ngrid <= 0 {
      return Err(NonPositiveNgrid);
    }
    var field := DirectField(layout, ps, expI, isRoot);
    var binned := BinUpPowerSpectrum(WithValues(layout, field), pofk, binOf);
    if binned.Err? {
      return Err(binned.error);
    }
    var b := SubtractShotNoise(binned.value, 1.0 / |ps| as real);
    r := Ok(b);
  }

  lemma {:induction false} DotZero(kvec: seq<real>, x: seq<real>, j: nat)
    requires j <= |kvec| && j <= |x|
    requires forall d :: 0 <= d < |kvec| ==> kvec[d] == 0.0
    ensures Dot(kvec, x, j) == 0.0
  {
    if j > 0 {
      DotZero(kvec, x, j - 1);
    }
  }

  /** At k = 0 every particle contributes exp(0) = 1: the phase sum counts the particles. */
  lemma {:induction false} PhaseSumAtZero(kvec: seq<real>, ps: seq<Particle>, expI: real -> Complex, j: nat)
    requires Dimensioned(ps, |kvec|) && j <= |ps|
    requires forall d :: 0 <= d < |kvec| ==> kvec[d] == 0.0
    requires expI(0.0) == Complex(1.0, 0.0)
    ensures PhaseSum(kvec, ps, expI, j) == Complex(j as real, 0.0)
  {
    if j > 0 {
      PhaseSumAtZero(kvec, ps, expI, j - 1);
      DotZero(kvec, ps[j - 1].pos, |kvec|);
    }
  }

  /**
   * The zero mode is (NumPart - 1)/NumPart on task 0, where each particle's pairing
   * with itself is removed, and 1 on the other tasks.
   */
  lemma DirectZeroMode(ps: seq<Particle>, kvec: seq<real>, expI: real -> Complex, isRoot: bool)
    requires Dimensioned(ps, |kvec|) && |ps| > 0
    requires forall d :: 0 <= d < |kvec| ==> kvec[d] == 0.0
    requires expI(0.0) == Complex(1.0, 0.0)
    ensures DirectValue(0, kvec, ps, expI, isRoot)
      == if isRoot then Complex((|ps| - 1) as real / |ps| as real, 0.0) else Complex(1.0, 0.0)
  {
    PhaseSumAtZero(kvec, ps, expI, |ps|);
    var n := |ps| as real;
    if isRoot {
      assert (n - 1.0) * (1.0 / n) == (n - 1.0) / n;
    } else {
      assert n * (1.0 / n) == 1.0;
    }
  }

  //------------------------------------------------------------------
  // compute_power_spectrum_multipoles on simulation particles
  //------------------------------------------------------------------

  /** Every particle has ndim position and ndim velocity components. */
  predicate PhaseSpace(ps: seq<Particle>, ndim: nat) {
    forall i :: 0 <= i < |ps| ==> |ps[i].pos| == ndim && |ps[i].vel| == ndim
  }

  /**
   * The particles when axis dir is reached: each earlier axis has displaced them
   * into redshift space along it and back again.
   */
  function AxisState(ps: seq<Particle>, f: real, ndim: nat, dir: nat): (r: seq<Particle>)
    requires PhaseSpace(ps, ndim) && dir <= ndim
    ensures |r| == |ps| && PhaseSpace(r, ndim)
  {
    if dir == 0 then ps
    else
      var before := AxisState(ps, f, ndim, dir - 1);
      MovedAll(MovedAll(before, dir - 1, f, true), dir - 1, f, false)
  }

  function ResetAll(pell: seq<PowerSpectrumBinning>): (r: seq<PowerSpectrumBinning>)
    requires SameBins(pell)
    ensures |r| == |pell| && SameBins(r)
    ensures forall ell :: 0 <= ell < |pell| ==> r[ell] == Reset(pell[ell])
  {
    seq(|pell|, ell requires 0 <= ell < |pell| => Reset(pell[ell]))
  }

  /**
   * The multipoles measured with axis dir as the line of sight, from the particles
   * ps displaced into redshift space along that axis.
   */
  function AxisMultipoles(ps: seq<Particle>, f: real, ndim: nat, dir: nat, pell: seq<PowerSpectrumBinning>,
                          layout: FourierGrid, density: seq<Particle> -> seq<Complex>,
                          deconvolve: seq<Complex> -> seq<Complex>, muAtZero: real, binOf: real -> int)
    : Result<seq<PowerSpectrumBinning>, SpectrumError>
    requires PhaseSpace(ps, ndim) && dir < ndim && SameBins(pell) && WellFormed(layout)
    requires FitsLayout(layout, density) && KeepsLength(deconvolve)
  {
    var values := deconvolve(density(MovedAll(ps, dir, f, true)));
    Multipoles(WithValues(layout, values), ResetAll(pell), UnitVector(ndim, dir), 1.0, muAtZero, binOf)
  }

  /** One set of multipoles per axis, each binned like pell. */
  predicate PerAxis(all: seq<seq<PowerSpectrumBinning>>, pell: seq<PowerSpectrumBinning>) {
    forall d :: 0 <= d < |all| ==>
      (|all[d]| == |pell| && forall ell :: 0 <= ell < |pell| ==> Valid(all[d][ell]) && all[d][ell].n == pell[ell].n)
  }

  /** The multipoles of axes 0 .. dir-1, in order; the first axis that fails gives the error. */
  function AxisResults(ps: seq<Particle>, f: real, ndim: nat, dir: nat, pell: seq<PowerSpectrumBinning>,
                       layout: FourierGrid, density: seq<Particle> -> seq<Complex>,
                       deconvolve: seq<Complex> -> seq<Complex>, muAtZero: real, binOf: real -> int)
    : (r: Result<seq<seq<PowerSpectrumBinning>>, SpectrumError>)
    requires PhaseSpace(ps, ndim) && dir <= ndim && SameBins(pell) && WellFormed(layout)
    requires FitsLayout(layout, density) && KeepsLength(deconvolve)
    ensures r.Ok? ==> |r.value| == dir && PerAxis(r.value, pell)
    ensures r.Ok? && dir > 0 ==> |pell| > 0
  {
    if dir == 0 then Ok([])
    else
      var earlier :- AxisResults(ps, f, ndim, dir - 1, pell, layout, density, deconvolve, muAtZero, binOf);
      var current :- AxisMultipoles(AxisState(ps, f, ndim, dir - 1), f, ndim, dir - 1, pell, layout, density,
                                    deconvolve, muAtZero, binOf);
      Ok(earlier + [current])
  }

  /** Multipole ell of the first k axes added to start, axis by axis. */
  function AxisSum(start: PowerSpectrumBinning, all: seq<seq<PowerSpectrumBinning>>, ell: nat, k: nat)
    : (r: PowerSpectrumBinning)
    requires Valid(start) && k <= |all|
    requires forall d :: 0 <= d < |all| ==> ell < |all[d]| && Valid(all[d][ell]) && all[d][ell].n == start.n
    ensures Valid(r) && r.n == start.n && r.kmin == start.kmin && r.kmax == start.kmax
  {
    if k == 0 then start else Plus(AxisSum(start, all, ell, k - 1), all[k - 1][ell])
  }

  /** Every table divided by the number of axes. */
  function AxisMean(b: PowerSpectrumBinning, ndim: nat): (r: PowerSpectrumBinning)
    requires Valid(b) && ndim > 0
    ensures Valid(r) && r.n == b.n && r.kmin == b.kmin && r.kmax == b.kmax
    ensures forall i :: 0 <= i < b.n ==>
      r.pofk[i] * ndim as real == b.pofk[i] && r.count[i] * ndim as real == b.count[i] &&
      r.kbin[i] * ndim as real == b.kbin[i]
  {
    var d := ndim as real;
    b.(pofk := seq(b.n, i requires 0 <= i < b.n => b.pofk[i] / d),
       count := seq(b.n, i requires 0 <= i < b.n => b.count[i] / d),
       kbin := seq(b.n, i requires 0 <= i < b.n => b.kbin[i] / d))
  }

  /** The mean over the axes of multipole ell, accumulated into the reset Pell[ell]. */
  function MeanOverAxes(pell: seq<PowerSpectrumBinning>, all: seq<seq<PowerSpectrumBinning>>, ell: nat)
    : PowerSpectrumBinning
    requires SameBins(pell) && ell < |pell| && |all| > 0 && PerAxis(all, pell)
  {
    AxisMean(AxisSum(Reset(pell[ell]), all, ell, |all|), |all|)
  }

  function MeansOverAxes(pell: seq<PowerSpectrumBinning>, all: seq<seq<PowerSpectrumBinning>>)
    : (r: seq<PowerSpectrumBinning>)
    requires SameBins(pell) && |all| > 0 && PerAxis(all, pell)
    ensures |r| == |pell|
    ensures forall ell :: 0 <= ell < |pell| ==> r[ell] == MeanOverAxes(pell, all, ell)
  {
    seq(|pell|, ell requires 0 <= ell < |pell| => MeanOverAxes(pell, all, ell))
  }

  /**
   * What compute_power_spectrum_multipoles leaves in Pell for simulation particles:
   * the mean over the ndim axes of the multipoles with that axis as the line of
   * sight, the monopole less the shot noise 1/NumPartTotal.
   */
  function SimulationMultipoles(ps: seq<Particle>, f: real, ndim: nat, numPartTotal: nat,
                                pell: seq<PowerSpectrumBinning>, layout: FourierGrid,
                                density: seq<Particle> -> seq<Complex>, deconvolve: seq<Complex> -> seq<Complex>,
                                muAtZero: real, binOf: real -> int)
    : (r: Result<seq<PowerSpectrumBinning>, SpectrumError>)
    requires ndim > 0 && numPartTotal > 0 && PhaseSpace(ps, ndim) && SameBins(pell) && WellFormed(layout)
    requires FitsLayout(layout, density) && KeepsLength(deconvolve)
    ensures r.Ok? ==> |r.value| == |pell| > 0
  {
    var all :- AxisResults(ps, f, ndim, ndim, pell, layout, density, deconvolve, muAtZero, binOf);
    var mean := MeansOverAxes(pell, all);
    Ok(mean[0 := ShotNoiseSubtracted(mean[0], 1.0 / numPartTotal as real)])
  }

  /** The division loop: every table of b divided by the number of axes. */
  method DivideByAxes(b: PowerSpectrumBinning, ndim: nat) returns (r: PowerSpectrumBinning)
    requires Valid(b) && ndim > 0
    ensures r == AxisMean(b, ndim)
  {
    var d := ndim as real;
    var pofk, count, kbin := b.pofk, b.count, b.kbin;
    var i := 0;
    while i < b.n
      invariant 0 <= i <= b.n && |pofk| == |count| == |kbin| == b.n
      invariant forall j :: 0 <= j < i ==> pofk[j] == b.pofk[j] / d && count[j] == b.count[j] / d && kbin[j] == b.kbin[j] / d
      invariant forall j :: i <= j < b.n ==> pofk[j] == b.pofk[j] && count[j] == b.count[j] && kbin[j] == b.kbin[j]
    {
      pofk := pofk[i := pofk[i] / d];
      count := count[i := count[i] / d];
      kbin := kbin[i := kbin[i] / d];
      i := i + 1;
    }
    r := b.(pofk := pofk, count := count, kbin := kbin);
  }

  /** Pell[ell] += Pell_all[dir][ell] for every axis dir, starting from the reset Pell[ell]. */
  method SumOverAxes(pell: seq<PowerSpectrumBinning>, all: seq<seq<PowerSpectrumBinning>>, ell: nat)
    returns (sum: PowerSpectrumBinning)
    requires SameBins(pell) && ell < |pell| && PerAxis(all, pell)
    ensures sum == AxisSum(Reset(pell[ell]), all, ell, |all|)
  {
    var start := Reset(pell[ell]);
    sum := start;
    var dir := 0;
    while dir < |all|
      invariant 0 <= dir <= |all|
      invariant sum == AxisSum(start, all, ell, dir)
    {
      assert Valid(all[dir][ell]) && all[dir][ell].n == start.n;
      sum := Plus(sum, all[dir][ell]);
      dir := dir + 1;
    }
  }

  /** The sum over the axes of every multipole, then the division by the number of axes. */
  method AverageOverAxes(pell: seq<PowerSpectrumBinning>, all: seq<seq<PowerSpectrumBinning>>)
    returns (mean: seq<PowerSpectrumBinning>)
    requires SameBins(pell) && |all| > 0 && PerAxis(all, pell)
    ensures mean == MeansOverAxes(pell, all)
  {
    mean := [];
    var ell := 0;
    while ell < |pell|
      invariant 0 <= ell <= |pell| && |mean| == ell
      invariant forall e :: 0 <= e < ell ==> mean[e] == MeanOverAxes(pell, all, e)
    {
      var sum := SumOverAxes(pell, all, ell);
      var m := DivideByAxes(sum, |all|);
      mean := mean + [m];
      ell := ell + 1;
    }
  }

  /**
   * One axis: the particles displaced into redshift space along it, assigned to
   * the grid, displaced back, and the multipoles measured with it as line of sight.
   */
  method MeasureAxis(parts: array<Particle>, f: real, ndim: nat, dir: nat, reset: seq<PowerSpectrumBinning>,
                     pell: seq<PowerSpectrumBinning>, layout: FourierGrid,
                     density: seq<Particle> -> seq<Complex>, deconvolve: seq<Complex> -> seq<Complex>,
                     muAtZero: real, binOf: real -> int)
    returns (current: Result<seq<PowerSpectrumBinning>, SpectrumError>)
    requires PhaseSpace(parts[..], ndim) && dir < ndim && SameBins(pell) && reset == ResetAll(pell)
    requires WellFormed(layout) && FitsLayout(layout, density) && KeepsLength(deconvolve)
    modifies parts
    ensures current == AxisMultipoles(old(parts[..]), f, ndim, dir, pell, layout, density, deconvolve, muAtZero, binOf)
    ensures parts[..] == MovedAll(MovedAll(old(parts[..]), dir, f, true), dir, f, false)
  {
    var los := UnitVector(ndim, dir);
    DisplaceParticles(parts, dir, f, true);
    var grid := density(parts[..]);
    DisplaceParticles(parts, dir, f, false);
    var values := deconvolve(grid);
    UnitVectorLength(ndim, dir);
    current := ComputeMultipoles(WithValues(layout, values), reset, los, 1.0, muAtZero, binOf);
  }

  /** Once an axis has failed, the later axes are not measured: the error stands. */
  lemma {:induction false} AxisErrorStands(ps: seq<Particle>, f: real, ndim: nat, dir: nat, last: nat,
                                          pell: seq<PowerSpectrumBinning>, layout: FourierGrid,
                                          density: seq<Particle> -> seq<Complex>,
                                          deconvolve: seq<Complex> -> seq<Complex>, muAtZero: real, binOf: real -> int)
    requires PhaseSpace(ps, ndim) && dir <= last <= ndim && SameBins(pell) && WellFormed(layout)
    requires FitsLayout(layout, density) && KeepsLength(deconvolve)
    requires AxisResults(ps, f, ndim, dir, pell, layout, density, deconvolve, muAtZero, binOf).Err?
    ensures AxisResults(ps, f, ndim, last, pell, layout, density, deconvolve, muAtZero, binOf)
      == AxisResults(ps, f, ndim, dir, pell, layout, density, deconvolve, muAtZero, binOf)
    decreases last - dir
  {
    if dir < last {
      AxisErrorStands(ps, f, ndim, dir, last - 1, pell, layout, density, deconvolve, muAtZero, binOf);
    }
  }

  method ComputeSimulationMultipoles(parts: array<Particle>, f: real, ndim: nat, numPartTotal: nat,
                                     pell: seq<PowerSpectrumBinning>, layout: FourierGrid,
                                     density: seq<Particle> -> seq<Complex>,
                                     deconvolve: seq<Complex> -> seq<Complex>, muAtZero: real, binOf: real -> int)
    returns (r: Result<seq<PowerSpectrumBinning>, SpectrumError>)
    requires ndim > 0 && numPartTotal > 0 && PhaseSpace(parts[..], ndim) && SameBins(pell) && WellFormed(layout)
    requires FitsLayout(layout, density) && KeepsLength(deconvolve)
    modifies parts
    ensures r == SimulationMultipoles(old(parts[..]), f, ndim, numPartTotal, pell, layout, density, deconvolve,
                                      muAtZero, binOf)
    ensures r.Ok? ==> parts[..] == AxisState(old(parts[..]), f, ndim, ndim)
  {
    ghost var ps := parts[..];
    var reset := ResetAll(pell);
    var all: seq<seq<PowerSpectrumBinning>> := [];
    var dir := 0;
    while dir < ndim
      invariant 0 <= dir <= ndim
      invariant parts[..] == AxisState(ps, f, ndim, dir)
      invariant AxisResults(ps, f, ndim, dir, pell, layout, density, deconvolve, muAtZero, binOf) == Ok(all)
    {
      var current := MeasureAxis(parts, f, ndim, dir, reset, pell, layout, density, deconvolve, muAtZero, binOf);
      if current.Err? {
        AxisErrorStands(ps, f, ndim, dir + 1, ndim, pell, layout, density, deconvolve, muAtZero, binOf);
        return Err(current.error);
      }
      all := all + [current.value];
      dir := dir + 1;
    }
    assert AxisResults(ps, f, ndim, ndim, pell, layout, density, deconvolve, muAtZero, binOf) == Ok(all);
    var mean := AverageOverAxes(pell, all);
    var monopole := SubtractShotNoise(mean[0], 1.0 / numPartTotal as real);
    r := Ok(mean[0 := monopole]);
  }

  /**
   * Particles in the box whose displacement along every axis is shorter than the
   * box end where they started.
   */
  lemma {:induction false} AxisStateRestored(ps: seq<Particle>, f: real, ndim: nat, dir: nat)
    requires PhaseSpace(ps, ndim) && dir <= ndim
    requires forall i :: 0 <= i < |ps| ==> InBox(ps[i].pos)
    requires forall i, d :: 0 <= i < |ps| && 0 <= d < ndim ==> ShortMove(ps[i], d, f)
    ensures AxisState(ps, f, ndim, dir) == ps
  {
    if dir > 0 {
      AxisStateRestored(ps, f, ndim, dir - 1);
      forall i | 0 <= i < |ps|
        ensures ShortMove(ps[i], dir - 1, f)
      {
      }
      MovedAllRoundTrip(ps, dir - 1, f);
    }
  }

  /** Adding the same binning k times to a reset one gives k copies of its tables. */
  lemma {:induction false} AxisSumOfCopies(b: PowerSpectrumBinning, all: seq<seq<PowerSpectrumBinning>>, ell: nat,
                                          m: PowerSpectrumBinning, k: nat)
    requires Valid(b) && Valid(m) && m.n == b.n && k <= |all|
    requires forall d :: 0 <= d < |all| ==> ell < |all[d]| && all[d][ell] == m
    ensures forall i :: 0 <= i < b.n ==>
      AxisSum(Reset(b), all, ell, k).pofk[i] == Repeat(m.pofk[i], k) &&
      AxisSum(Reset(b), all, ell, k).count[i] == Repeat(m.count[i], k) &&
      AxisSum(Reset(b), all, ell, k).kbin[i] == Repeat(m.kbin[i], k)
  {
    if k > 0 {
      AxisSumOfCopies(b, all, ell, m, k - 1);
    }
  }

  /** When every axis measures the same binning, the mean over the axes is that binning's tables. */
  lemma IsotropicMean(pell: seq<PowerSpectrumBinning>, all: seq<seq<PowerSpectrumBinning>>, ell: nat,
                      m: PowerSpectrumBinning)
    requires SameBins(pell) && ell < |pell| && |all| > 0 && PerAxis(all, pell)
    requires forall d :: 0 <= d < |all| ==> all[d][ell] == m
    ensures MeanOverAxes(pell, all, ell).n == m.n
    ensures MeanOverAxes(pell, all, ell).pofk == m.pofk
    ensures MeanOverAxes(pell, all, ell).count == m.count
    ensures MeanOverAxes(pell, all, ell).kbin == m.kbin
  {
    var k := |all|;
    var sum := AxisSum(Reset(pell[ell]), all, ell, k);
    var r := MeanOverAxes(pell, all, ell);
    AxisSumOfCopies(pell[ell], all, ell, m, k);
    forall i | 0 <= i < m.n
      ensures r.pofk[i] == m.pofk[i] && r.count[i] == m.count[i] && r.kbin[i] == m.kbin[i]
    {
      RepeatIsProduct(m.pofk[i], k);
      RepeatIsProduct(m.count[i], k);
      RepeatIsProduct(m.kbin[i], k);
      CancelCopies(r.pofk[i], m.pofk[i], k as real);
      CancelCopies(r.count[i], m.count[i], k as real);
      CancelCopies(r.kbin[i], m.kbin[i], k as real);
    }
  }

  lemma CancelCopies(x: real, y: real, k: real)
    requires k > 0.0 && x * k == k * y
    ensures x == y
  {
  }
}
