/**
 * The power-spectrum binning result (PowerSpectrumBinning in the source).
 *
 * Its definition lives in a header that is not part of this model, so only the
 * operations the estimators call are given here, with the behaviour the estimators
 * rely on: reset zeroes the accumulators, add_to_bin adds a weighted sample to one
 * bin, normalize divides by the per-bin count, and += sums two results bin by bin.
 * The bin a wavenumber falls into is decided by the binning's own search rule; the
 * model takes that bin index as an argument instead of inventing a rule.
 *
 * The source copies binnings by assignment (value semantics), so a binning is a
 * datatype and every operation returns the updated value.
 */
module Binning {

  datatype PowerSpectrumBinning = PowerSpectrumBinning(
    n: int,              // number of bins
    kmin: real,
    kmax: real,
    count: seq<real>,    // (weighted) number of modes per bin
    pofk: seq<real>,     // accumulated, then normalised, power per bin
    kbin: seq<real>)     // accumulated, then normalised, wavenumber per bin

  /** The three per-bin tables have one entry per bin. */
  predicate Valid(b: PowerSpectrumBinning) {
    b.n >= 0 && |b.count| == b.n && |b.pofk| == b.n && |b.kbin| == b.n
  }

  function Zeros(len: nat): (z: seq<real>)
    ensures |z| == len && forall i :: 0 <= i < len ==> z[i] == 0.0
  {
    seq(len, _ => 0.0)
  }

  /** reset(): every accumulator becomes zero; the geometry is kept. */
  function Reset(b: PowerSpectrumBinning): (r: PowerSpectrumBinning)
    requires Valid(b)
    ensures Valid(r) && r.n == b.n && r.kmin == b.kmin && r.kmax == b.kmax
    ensures forall i :: 0 <= i < r.n ==> r.count[i] == 0.0 && r.pofk[i] == 0.0 && r.kbin[i] == 0.0
  {
    b.(count := Zeros(b.n), pofk := Zeros(b.n), kbin := Zeros(b.n))
  }

  /**
   * add_to_bin(kmag, value, weight) for a wavenumber whose bin is `bin`: the
   * weight goes to the count, weight*value to the power and weight*kmag to the
   * wavenumber sum. A bin outside [0, n) means the sample is dropped.
   */
  function AddToBin(b: PowerSpectrumBinning, bin: int, kmag: real, value: real, weight: real): (r: PowerSpectrumBinning)
    requires Valid(b)
    ensures Valid(r) && r.n == b.n && r.kmin == b.kmin && r.kmax == b.kmax
    ensures forall i :: 0 <= i < b.n && i != bin ==>
      r.count[i] == b.count[i] && r.pofk[i] == b.pofk[i] && r.kbin[i] == b.kbin[i]
    ensures 0 <= bin < b.n ==>
      r.count[bin] == b.count[bin] + weight &&
      r.pofk[bin] == b.pofk[bin] + weight * value &&
      r.kbin[bin] == b.kbin[bin] + weight * kmag
    ensures !(0 <= bin < b.n) ==> r == b
  {
    if 0 <= bin < b.n then
      b.(count := b.count[bin := b.count[bin] + weight],
         pofk := b.pofk[bin := b.pofk[bin] + weight * value],
         kbin := b.kbin[bin := b.kbin[bin] + weight * kmag])
    else b
  }

  function Divided(s: seq<real>, count: seq<real>): (r: seq<real>)
    requires |s| == |count|
    ensures |r| == |s|
    ensures forall i :: 0 <= i < |s| ==> r[i] == if count[i] > 0.0 then s[i] / count[i] else s[i]
  {
    seq(|s|, i requires 0 <= i < |s| => if count[i] > 0.0 then s[i] / count[i] else s[i])
  }

  /**
   * normalize(): the power and the wavenumber sums are divided by the count
   * wherever the count is positive (the reduction over processes is the identity
   * in this single-process model).
   */
  function Normalize(b: PowerSpectrumBinning): (r: PowerSpectrumBinning)
    requires Valid(b)
    ensures Valid(r) && r.n == b.n && r.kmin == b.kmin && r.kmax == b.kmax && r.count == b.count
    ensures forall i :: 0 <= i < b.n && b.count[i] > 0.0 ==>
      r.pofk[i] * b.count[i] == b.pofk[i] && r.kbin[i] * b.count[i] == b.kbin[i]
    ensures forall i :: 0 <= i < b.n && b.count[i] <= 0.0 ==>
      r.pofk[i] == b.pofk[i] && r.kbin[i] == b.kbin[i]
  {
    b.(pofk := Divided(b.pofk, b.count), kbin := Divided(b.kbin, b.count))
  }

  /** operator+=: the two results are summed bin by bin. */
  function Plus(a: PowerSpectrumBinning, b: PowerSpectrumBinning): (r: PowerSpectrumBinning)
    requires Valid(a) && Valid(b) && a.n == b.n
    ensures Valid(r) && r.n == a.n && r.kmin == a.kmin && r.kmax == a.kmax
    ensures forall i :: 0 <= i < a.n ==>
      r.count[i] == a.count[i] + b.count[i] &&
      r.pofk[i] == a.pofk[i] + b.pofk[i] &&
      r.kbin[i] == a.kbin[i] + b.kbin[i]
  {
    a.(count := seq(a.n, i requires 0 <= i < a.n => a.count[i] + b.count[i]),
       pofk := seq(a.n, i requires 0 <= i < a.n => a.pofk[i] + b.pofk[i]),
       kbin := seq(a.n, i requires 0 <= i < a.n => a.kbin[i] + b.kbin[i]))
  }
}
