# FML power-spectrum estimators and Gadget record framing, in Dafny

This project models two parts of the FML cosmology library.

**The Fourier-space estimators of `ComputePowerSpectrum.h`:**
- the binning of |delta(k)|^2 into a power spectrum, with the weight 2 for the modes whose conjugate is not stored;
- the mu^ell moments and their conversion to Legendre multipoles;
- the particle-based estimators:
  - plain;
  - interlaced, with the half-cell shift of the particles and its undoing;
  - direct summation over particles;
  - redshift-space multipoles averaged over the coordinate axes, with the displacement of the particles and its undoing;
- the shell construction of the bispectrum and polyspectrum estimators;
- their tuple passes over flat nbins^order tables;
- the completion passes that fill the other orderings of each tuple.

**The Gadget-2 file framing of `GadgetUtils.cpp`:**
- records framed by an int32 length before and after the payload;
- the 256-byte header with its endianness detection and field swap, read as sizeof(header) bytes (corrected: the source reads as many bytes as the unswapped start marker says, see Findings);
- the header writer;
- the reader's `get_num_files`.

Floating-point values are modelled as `real`. FFTs, particle-to-grid assignment, window deconvolution, `sqrt` and `exp(i x)` are function parameters. The grid-bin lookup of a binning (`binOf`) is also a parameter. Integer widths are written out where the source depends on them: the int32 record markers, the unsigned 32-bit particle counts and the 64-bit total split into two words.

Modules, one per file:
- `Wrappers`: `Option` and `Result`.
- `Binning`: the power-spectrum binning and its `reset`, `add_to_bin`, `normalize` and `+=`.
- `Vectors`: dot products and unit vectors.
- `Legendre`: the binomial helper, the Legendre coefficients and the moment-to-multipole conversion.
- `Particles`: the in-place particle shifts and displacements.
- `PowerSpectrum`: `bin_up_power_spectrum` and the grid version of `compute_power_spectrum_multipoles`.
- `Estimators`: the particle-based estimators.
- `Shells`: the bispectrum and polyspectrum shells.
- `Tuples`: mixed-radix index decoding and encoding, and sorting.
- `Bispectrum` and `Polyspectrum`: the two estimators.
- `Gadget`: the record and header framing.

## Model

| member | source | states |
|---|---|---|
| Binning.Zeros | FML/ComputePowerSpectra/ComputePowerSpectrum.h:249 | a table of the given length holding 0 everywhere |
| Binning.Reset | FML/ComputePowerSpectra/ComputePowerSpectrum.h:184-186 | reset keeps the bin layout (n, kmin, kmax) and sets every count, power and k sum to 0 |
| Binning.AddToBin | FML/ComputePowerSpectra/ComputePowerSpectrum.h:212 | add_to_bin adds weight, weight*value and weight*k to the cell's bin only; a k outside the binning changes nothing |
| Binning.Divided | FML/ComputePowerSpectra/ComputePowerSpectrum.h:226-228 | every entry with a positive count is divided by it; the others are left as they are |
| Binning.Normalize | FML/ComputePowerSpectra/ComputePowerSpectrum.h:305-306 | normalize keeps the counts; the normalised power times the count gives back the sum where the count is positive, and bins with no count are unchanged |
| Binning.Plus | FML/ComputePowerSpectra/ComputePowerSpectrum.h:484 | += adds counts, power and k sums bin by bin |
| Vectors.DotProduct | FML/ComputePowerSpectra/ComputePowerSpectrum.h:420-423 | the loop computes the dot product of the two vectors |
| Vectors.UnitVector | FML/ComputePowerSpectra/ComputePowerSpectrum.h:409-411 | the line of sight along axis dir is 1 at dir and 0 elsewhere |
| Vectors.DotUnit | FML/ComputePowerSpectra/ComputePowerSpectrum.h:420-423 | a vector dotted with the unit vector of axis dir is its dir component |
| Vectors.SumSquaresIndicator | FML/ComputePowerSpectra/ComputePowerSpectrum.h:176-180 | a 0/1 indicator vector has squared length 1 when its one lies inside it, else 0 |
| Vectors.UnitVectorLength | FML/ComputePowerSpectra/ComputePowerSpectrum.h:176-182 | an axis line of sight has squared length 1, so rnorm = 1 passes the zero-length check |
| Legendre.Factorial | FML/ComputePowerSpectra/ComputePowerSpectrum.h:231-237 | k! is at least 1 |
| Legendre.FallingShift | FML/ComputePowerSpectra/ComputePowerSpectrum.h:233-235 | the falling factorial peels off its first factor |
| Legendre.FallingOfSelf | FML/ComputePowerSpectra/ComputePowerSpectrum.h:233-235 | k falling k equals k! |
| Legendre.ChooseFalling | FML/ComputePowerSpectra/ComputePowerSpectrum.h:231-237 | Pascal's binomial times k! is the falling factorial n(n-1)...(n-k+1) |
| Legendre.FallingRealIsFalling | FML/ComputePowerSpectra/ComputePowerSpectrum.h:234 | the falling factorial computed in reals equals the integer one |
| Legendre.BinomialProductFalling | FML/ComputePowerSpectra/ComputePowerSpectrum.h:232-235 | after j steps the product of (n-i)/(k-i) times k(k-1)...(k-j+1) is n(n-1)...(n-j+1) |
| Legendre.BinomialProductIsChoose | FML/ComputePowerSpectra/ComputePowerSpectrum.h:231-237 | the product of (n-i)/(k-i) over i < k is the binomial coefficient C(n, k) |
| Legendre.Binomial | FML/ComputePowerSpectra/ComputePowerSpectrum.h:231-237 | the binomial lambda's loop returns that product, which is C(n, k) for n >= 0 |
| Legendre.Pow2 | FML/ComputePowerSpectra/ComputePowerSpectrum.h:243 | 2^ell is at least 1 |
| Legendre.CoefIsStandard | FML/ComputePowerSpectra/ComputePowerSpectrum.h:239-244 | the coefficient of x^(ell-2k) is (-1)^k C(ell,k) C(2ell-2k,ell) / 2^ell, Rodrigues' formula for the Legendre polynomial P_ell |
| Legendre.SummandLegendre | FML/ComputePowerSpectra/ComputePowerSpectrum.h:240-244 | summand_legendre_polynomial returns that coefficient |
| Legendre.LegendreMultipoles | FML/ComputePowerSpectra/ComputePowerSpectrum.h:246-256 | the conversion gives one table per multipole, each as long as the moment tables |
| Legendre.AddScaled | FML/ComputePowerSpectra/ComputePowerSpectrum.h:252-253 | the inner loop adds c times the mu-power table to the sum, entry by entry |
| Legendre.LegendreSum | FML/ComputePowerSpectra/ComputePowerSpectrum.h:249-254 | the sum for multipole ell is sum over k <= ell/2 of coef(k, ell) times moment ell-2k |
| Legendre.MomentsToLegendre | FML/ComputePowerSpectra/ComputePowerSpectrum.h:246-256 | the temp tables the loops build are the Legendre multipoles of the moments |
| Legendre.CoefValues | FML/ComputePowerSpectra/ComputePowerSpectrum.h:239-244 | the coefficients of P_0 to P_4: 1; 1; 3/2, -1/2; 5/2, -3/2; 35/8, -30/8, 3/8 |
| Legendre.LowOrderMultipoles | FML/ComputePowerSpectra/ComputePowerSpectrum.h:246-261 | P0 = m0, P1 = m1, P2 = (3m2 - m0)/2, P3 = (5m3 - 3m1)/2, P4 = (35m4 - 30m2 + 3m0)/8 |
| Legendre.MonopoleIsZerothMoment | FML/ComputePowerSpectra/ComputePowerSpectrum.h:246-261 | the monopole table is the zeroth moment unchanged |
| Particles.ShiftPos | FML/ComputePowerSpectra/ComputePowerSpectrum.h:584-589 | the shift keeps the number of coordinates; what it does is stated by ShiftBounds and its inverse by ShiftRoundTrip |
| Particles.UnshiftPos | FML/ComputePowerSpectra/ComputePowerSpectrum.h:607-612 | the unshift keeps the number of coordinates; it inverts the shift (ShiftRoundTrip) |
| Particles.ShiftBounds | FML/ComputePowerSpectra/ComputePowerSpectrum.h:583-590 | x is shifted without wrapping; every other coordinate is wrapped back into [0, 1) |
| Particles.ShiftRoundTrip | FML/ComputePowerSpectra/ComputePowerSpectrum.h:583-613 | shifting back undoes the shift of a position in the box |
| Particles.ShiftedAll | FML/ComputePowerSpectra/ComputePowerSpectrum.h:583-590 | the shift keeps the number of particles; InterlaceRoundTrip gives its inverse |
| Particles.UnshiftedAll | FML/ComputePowerSpectra/ComputePowerSpectrum.h:606-613 | the unshift keeps the number of particles; InterlaceRoundTrip shows it undoes the shift |
| Particles.InterlaceRoundTrip | FML/ComputePowerSpectra/ComputePowerSpectrum.h:602-613 | shifting all particles back restores them, so the interlacing leaves the caller's particles as it found them |
| Particles.ShiftPosition | FML/ComputePowerSpectra/ComputePowerSpectrum.h:584-589 | the per-particle loop computes the shifted position |
| Particles.UnshiftPosition | FML/ComputePowerSpectra/ComputePowerSpectrum.h:607-612 | the per-particle loop computes the unshifted position |
| Particles.ShiftParticles | FML/ComputePowerSpectra/ComputePowerSpectrum.h:583-590 | in place: the first NumPart particles get shifted positions, velocities and the rest of the array are unchanged |
| Particles.UnshiftParticles | FML/ComputePowerSpectra/ComputePowerSpectrum.h:606-613 | in place: the first NumPart particles get unshifted positions, the rest of the array is unchanged |
| Particles.MoveAlong | FML/ComputePowerSpectra/ComputePowerSpectrum.h:424-429 | the displacement keeps the number of coordinates; AxisStep states the step per coordinate |
| Particles.Displaced | FML/ComputePowerSpectra/ComputePowerSpectrum.h:417-430 | the forward redshift-space displacement keeps the number of coordinates; DisplacedOnlyAlongAxis states what moves |
| Particles.Undisplaced | FML/ComputePowerSpectra/ComputePowerSpectrum.h:447-460 | the backward displacement keeps the number of coordinates; DisplaceRoundTrip shows it undoes the forward one |
| Particles.LosVelocityIsComponent | FML/ComputePowerSpectra/ComputePowerSpectrum.h:420-423 | v.r along axis dir is the velocity's dir component |
| Particles.AxisStep | FML/ComputePowerSpectra/ComputePowerSpectrum.h:424-425 | the step is v_dir * f along dir and 0 along every other axis |
| Particles.WrapRoundTrip | FML/ComputePowerSpectra/ComputePowerSpectrum.h:425-428 | for a step shorter than the box, the periodic wrap stays in [0, 1) and moving back restores the coordinate |
| Particles.DisplacedOnlyAlongAxis | FML/ComputePowerSpectra/ComputePowerSpectrum.h:417-430 | only the dir coordinate moves, by v_dir * f wrapped; a short move stays in the box |
| Particles.DisplaceRoundTrip | FML/ComputePowerSpectra/ComputePowerSpectrum.h:446-460 | displacing back undoes the displacement of a particle in the box |
| Particles.DisplaceParticle | FML/ComputePowerSpectra/ComputePowerSpectrum.h:418-429 | the per-particle loop computes the forward or backward displaced position |
| Particles.MovedAll | FML/ComputePowerSpectra/ComputePowerSpectrum.h:417-460 | displacing all particles keeps their number, dimensions and velocities |
| Particles.MovedAllRoundTrip | FML/ComputePowerSpectra/ComputePowerSpectrum.h:417-460 | the backward loop restores the particles the forward loop moved |
| Particles.DisplaceParticles | FML/ComputePowerSpectra/ComputePowerSpectrum.h:417-430 | in place: the array becomes the displaced particles |
| PowerSpectrum.CellWeight | FML/ComputePowerSpectra/ComputePowerSpectrum.h:292-294 | a cell's weight is 1 or 2 |
| PowerSpectrum.CellWeightPeriodic | FML/ComputePowerSpectra/ComputePowerSpectrum.h:293-294 | the weight depends only on the last coordinate ind % (Nmesh/2+1) |
| PowerSpectrum.PartialRowWeight | FML/ComputePowerSpectra/ComputePowerSpectrum.h:293-294 | the first c cells of a row weigh 2c-1 |
| PowerSpectrum.RowWeight | FML/ComputePowerSpectra/ComputePowerSpectrum.h:293-294 | a whole row of Nmesh/2+1 stored cells weighs Nmesh for even Nmesh (and Nmesh = 1): each of the Nmesh modes counts once; for odd Nmesh > 1 it weighs Nmesh-1, because the test last_coord < Nmesh/2 gives weight 1 to the last stored frequency (Nmesh-1)/2, whose conjugate is not stored |
| PowerSpectrum.PeriodicShift | FML/ComputePowerSpectra/ComputePowerSpectrum.h:291-294 | weights summed past one more row add that row's weight |
| PowerSpectrum.RowsLengthIsProduct | FML/ComputePowerSpectra/ComputePowerSpectrum.h:282 | rows of l cells laid end to end span rows*l cells |
| PowerSpectrum.RepeatIsProduct | FML/ComputePowerSpectra/ComputePowerSpectrum.h:282 | x repeated n times is n*x |
| PowerSpectrum.PeriodicRows | FML/ComputePowerSpectra/ComputePowerSpectrum.h:291-294 | the weight over whole rows is the row weight repeated |
| PowerSpectrum.LocalSlabWeight | FML/ComputePowerSpectra/ComputePowerSpectrum.h:282-294 | for even Nmesh the weights of the Local_nx*Nmesh^(N-2)*(Nmesh/2+1) stored cells add up to Local_nx*Nmesh^(N-1) |
| PowerSpectrum.PeriodicProduct | FML/ComputePowerSpectra/ComputePowerSpectrum.h:291-294 | the weight over whole rows is the number of rows times the row weight |
| PowerSpectrum.Accumulate | FML/ComputePowerSpectra/ComputePowerSpectrum.h:291-303 | binning cells keeps the bin layout |
| PowerSpectrum.Powers | FML/ComputePowerSpectra/ComputePowerSpectrum.h:296 | one |delta|^2 per cell |
| PowerSpectrum.TotalUpdate | FML/ComputePowerSpectra/ComputePowerSpectrum.h:302 | adding w to one bin adds w to the total count |
| PowerSpectrum.TotalZeros | FML/ComputePowerSpectra/ComputePowerSpectrum.h:285 | a reset table counts 0 |
| PowerSpectrum.AccumulatedCount | FML/ComputePowerSpectra/ComputePowerSpectrum.h:291-303 | when every cell falls in a bin, the total count grows by exactly the cells' weights |
| PowerSpectrum.BinUpPowerSpectrum | FML/ComputePowerSpectra/ComputePowerSpectrum.h:270-307 | bin_up_power_spectrum: Nmesh <= 0 or an inconsistent binning is an error; otherwise the reset, weighted, binned and normalised |delta|^2 of every local cell |
| PowerSpectrum.BinnedCountsEveryMode | FML/ComputePowerSpectra/ComputePowerSpectrum.h:270-307 | for even Nmesh with all modes inside the binning, the counts add up to Local_nx*Nmesh^(N-1): every mode of the local slab is counted once |
| PowerSpectrum.PowStep | FML/ComputePowerSpectra/ComputePowerSpectrum.h:210-213 | mutoell after ell+1 steps is mu^ell times mu |
| PowerSpectrum.MomentValues | FML/ComputePowerSpectra/ComputePowerSpectrum.h:201-213 | one value |delta|^2 mu^ell per cell |
| PowerSpectrum.Moments | FML/ComputePowerSpectra/ComputePowerSpectrum.h:184-228 | one binned, normalised moment table per multipole, each binned like Pell[ell] |
| PowerSpectrum.PowerTables | FML/ComputePowerSpectra/ComputePowerSpectrum.h:251 | the power tables of Pell, one per multipole, all of one length |
| PowerSpectrum.Multipoles | FML/ComputePowerSpectra/ComputePowerSpectrum.h:159-262 | the result is Ok exactly when the line of sight has N components, Pell is non-empty, Nmesh > 0 and rnorm > 0; then there is one binning per multipole with Pell's layout |
| PowerSpectrum.MomentAccumulatorStep | FML/ComputePowerSpectra/ComputePowerSpectrum.h:192-215 | each cell adds weight * |delta|^2 mu^ell to the bin of its k in table ell |
| PowerSpectrum.AddCellMoments | FML/ComputePowerSpectra/ComputePowerSpectrum.h:209-215 | the ell loop adds |delta|^2 mu^ell to table ell for every ell |
| PowerSpectrum.AccumulateMoments | FML/ComputePowerSpectra/ComputePowerSpectrum.h:184-216 | the cell loop leaves in table ell the moment accumulator over all cells |
| PowerSpectrum.AddGridCell | FML/ComputePowerSpectra/ComputePowerSpectrum.h:192-215 | one cell advances every table's accumulator by one cell |
| PowerSpectrum.ComputeMultipoles | FML/ComputePowerSpectra/ComputePowerSpectrum.h:159-262 | compute_power_spectrum_multipoles returns the Multipoles specification, its entry checks included |
| PowerSpectrum.CopyPowerTables | FML/ComputePowerSpectra/ComputePowerSpectrum.h:258-261 | the copy loop replaces only the power table of each binning |
| PowerSpectrum.ZerothMomentValues | FML/ComputePowerSpectra/ComputePowerSpectrum.h:210-213 | the mu^0 values are the plain |delta|^2 |
| PowerSpectrum.MonopoleIsPowerSpectrum | FML/ComputePowerSpectra/ComputePowerSpectrum.h:159-307 | the monopole of the multipole estimator equals bin_up_power_spectrum on the same grid and binning |
| PowerSpectrum.AccumulateSameCounts | FML/ComputePowerSpectra/ComputePowerSpectrum.h:209-215 | binning different values with the same weights gives the same counts and k sums |
| PowerSpectrum.MultipoleCountsAgree | FML/ComputePowerSpectra/ComputePowerSpectrum.h:209-228 | all multipoles share the monopole's counts and k sums |
| Estimators.WithValues | FML/ComputePowerSpectra/ComputePowerSpectrum.h:521-535 | the Fourier grid of the density field has the layout's wave vectors and the given amplitudes |
| Estimators.ShotNoiseSubtracted | FML/ComputePowerSpectra/ComputePowerSpectrum.h:540-543 | the shot noise is taken off every power bin; counts and k sums stay |
| Estimators.SubtractShotNoise | FML/ComputePowerSpectra/ComputePowerSpectrum.h:541-543 | the subtraction loop computes that binning |
| Estimators.ComputePowerSpectrum | FML/ComputePowerSpectra/ComputePowerSpectrum.h:508-544 | compute_power_spectrum: bin_up of the deconvolved density field less 1/NumPartTotal |
| Estimators.EstimateIsMonopole | FML/ComputePowerSpectra/ComputePowerSpectrum.h:508-544 | that estimate is the monopole of the multipole estimator on the same field, less the shot noise |
| Estimators.EstimateCountsEveryMode | FML/ComputePowerSpectra/ComputePowerSpectrum.h:508-544 | for even Nmesh with all modes binned, the estimate's counts add up to Local_nx*Nmesh^(N-1) |
| Estimators.HalfCell | FML/ComputePowerSpectra/ComputePowerSpectrum.h:579 | the interlacing shift 1/(2 Ngrid) lies in (0, 1/2] |
| Estimators.MergedValues | FML/ComputePowerSpectra/ComputePowerSpectrum.h:619-630 | the merged grid has one amplitude per cell |
| Estimators.MergeOfMatchingGrids | FML/ComputePowerSpectra/ComputePowerSpectrum.h:619-630 | when the phase-corrected shifted grid equals the unshifted one, the mean (f + e^{i k.s} g)/2 is f itself |
| Estimators.ComponentSum | FML/ComputePowerSpectra/ComputePowerSpectrum.h:625-627 | the ksum loop adds up the wave-vector components |
| Estimators.MergeInterlaced | FML/ComputePowerSpectra/ComputePowerSpectrum.h:619-630 | the merge loop computes those merged amplitudes |
| Estimators.ComputePowerSpectrumInterlacing | FML/ComputePowerSpectra/ComputePowerSpectrum.h:552-642 | for a density grid of Ngrid cells per side, the interlaced estimate of the unshifted and shifted particles; afterwards the particles are the shifted-back ones and the rest of the array is unchanged |
| Estimators.InterlacingRestoresParticles | FML/ComputePowerSpectra/ComputePowerSpectrum.h:578-613 | particles in the box are exactly restored after the interlacing |
| Estimators.DirectValues | FML/ComputePowerSpectra/ComputePowerSpectrum.h:335-357 | one amplitude per cell of the grid |
| Estimators.SumPhases | FML/ComputePowerSpectra/ComputePowerSpectrum.h:338-353 | the particle loop sums exp(-i k.x) over all particles |
| Estimators.DirectField | FML/ComputePowerSpectra/ComputePowerSpectrum.h:335-357 | the cell loop fills every cell with its normalised phase sum, less 1 in the zero mode on task 0 |
| Estimators.ComputePowerSpectrumDirectSummation | FML/ComputePowerSpectra/ComputePowerSpectrum.h:317-365 | Ngrid <= 0 is an error; otherwise, on a grid with nmesh = Ngrid, the binned direct-summation field less 1/NumPart |
| Estimators.DotZero | FML/ComputePowerSpectra/ComputePowerSpectrum.h:345-348 | the zero wave vector has k.x = 0 |
| Estimators.PhaseSumAtZero | FML/ComputePowerSpectra/ComputePowerSpectrum.h:343-352 | at k = 0 every particle contributes exp(0) = 1 |
| Estimators.DirectZeroMode | FML/ComputePowerSpectra/ComputePowerSpectrum.h:353-356 | the zero mode is (NumPart-1)/NumPart on task 0, which removes the self-pairs, and 1 elsewhere |
| Estimators.AxisState | FML/ComputePowerSpectra/ComputePowerSpectrum.h:402-479 | the particles after the first dir axes keep their number and dimensions |
| Estimators.ResetAll | FML/ComputePowerSpectra/ComputePowerSpectrum.h:405-407 | every binning of Pell_current is reset |
| Estimators.AxisResults | FML/ComputePowerSpectra/ComputePowerSpectrum.h:402-479 | one set of multipoles per axis done, each binned like Pell; the first failing axis gives the error |
| Estimators.AxisSum | FML/ComputePowerSpectra/ComputePowerSpectrum.h:482-486 | adding the axes' multipoles keeps the bin layout |
| Estimators.AxisMean | FML/ComputePowerSpectra/ComputePowerSpectrum.h:487-493 | power, counts and k sums divided by N: the mean times N gives back the sum |
| Estimators.MeansOverAxes | FML/ComputePowerSpectra/ComputePowerSpectrum.h:482-493 | one mean over the axes per multipole |
| Estimators.SimulationMultipoles | FML/ComputePowerSpectra/ComputePowerSpectrum.h:378-501 | on success, one multipole per entry of a non-empty Pell |
| Estimators.DivideByAxes | FML/ComputePowerSpectra/ComputePowerSpectrum.h:488-492 | the division loop computes the mean over the axes |
| Estimators.SumOverAxes | FML/ComputePowerSpectra/ComputePowerSpectrum.h:483-485 | the loop adds multipole ell of every axis to the reset Pell[ell] |
| Estimators.AverageOverAxes | FML/ComputePowerSpectra/ComputePowerSpectrum.h:482-493 | the two loops give the mean over the axes of every multipole |
| Estimators.MeasureAxis | FML/ComputePowerSpectra/ComputePowerSpectrum.h:404-478 | one axis: the multipoles of the particles displaced along it; the particles are then displaced back |
| Estimators.AxisErrorStands | FML/ComputePowerSpectra/ComputePowerSpectrum.h:402-479 | once an axis fails, the later axes do not change the error |
| Estimators.ComputeSimulationMultipoles | FML/ComputePowerSpectra/ComputePowerSpectrum.h:378-501 | the mean over the N axes of the multipoles with that axis as line of sight, the monopole less 1/NumPartTotal; the particles end as the axis loop leaves them |
| Estimators.AxisStateRestored | FML/ComputePowerSpectra/ComputePowerSpectrum.h:417-460 | particles in the box moving less than the box come back unchanged after all the axes |
| Estimators.AxisSumOfCopies | FML/ComputePowerSpectra/ComputePowerSpectrum.h:482-486 | summing k identical axis results gives each table repeated k times |
| Estimators.IsotropicMean | FML/ComputePowerSpectra/ComputePowerSpectrum.h:482-493 | when every axis gives the same multipole, the mean is that multipole |
| Shells.ShellEdges | FML/ComputePowerSpectra/ComputePowerSpectrum.h:825-845 | the edge loop gives klow, khigh and the midpoint k_bin of every shell |
| Shells.ShellShape | FML/ComputePowerSpectra/ComputePowerSpectrum.h:834-844 | for increasing centres, klow < k_bin < khigh and each shell starts where the previous one ends |
| Shells.ShellsOrdered | FML/ComputePowerSpectra/ComputePowerSpectrum.h:834-844 | a later shell starts at or above where an earlier one ends |
| Shells.ShellsDisjoint | FML/ComputePowerSpectra/ComputePowerSpectrum.h:896-911 | no cell lies in two shells |
| Shells.Masked | FML/ComputePowerSpectra/ComputePowerSpectrum.h:896-911 | cells with klow^2 <= |k|^2 < khigh^2 keep their amplitude, the others become 0 |
| Shells.Indicator | FML/ComputePowerSpectra/ComputePowerSpectrum.h:896-911 | the count grid is 1 on the shell's cells and 0 elsewhere |
| Shells.ShellCountRange | FML/ComputePowerSpectra/ComputePowerSpectrum.h:909 | nk lies between 0 and the number of cells, and is 0 exactly when no cell is in the shell |
| Shells.MaskedSum | FML/ComputePowerSpectra/ComputePowerSpectrum.h:896-911 | any sum over the masked grid that ignores zeros equals the sum over the shell |
| Shells.IndicatorCount | FML/ComputePowerSpectra/ComputePowerSpectrum.h:909-910 | the count grid adds up to nk |
| Shells.MaskShell | FML/ComputePowerSpectra/ComputePowerSpectrum.h:892-911 | in place: F is masked, N is the indicator, and nk, the k sum and the power sum are those of the shell |
| Shells.ShellsUpTo | FML/ComputePowerSpectra/ComputePowerSpectrum.h:865-942 | the first n shells, each as the shell loop computes it |
| Shells.ShellsUpToNext | FML/ComputePowerSpectra/ComputePowerSpectrum.h:865-942 | one more iteration appends the next shell |
| Shells.OneShell | FML/ComputePowerSpectra/ComputePowerSpectrum.h:871-941 | one iteration: masked grids in real space, kmean = k_bin when empty, and mean power 0 when empty |
| Shells.ComputeShells | FML/ComputePowerSpectra/ComputePowerSpectrum.h:865-942 | the shell loop computes every shell |
| Shells.ShellsUniform | FML/ComputePowerSpectra/ComputePowerSpectrum.h:865-942 | all computed shells share the real-cell count |
| Tuples.Power | FML/ComputePowerSpectra/ComputePowerSpectrum.h:859 | nbins^order is positive for nbins > 0 |
| Tuples.Fold | FML/ComputePowerSpectra/ComputePowerSpectrum.h:1246-1248 | the index of a digit tuple lies below nbins^order |
| Tuples.LsbDigits | FML/ComputePowerSpectra/ComputePowerSpectrum.h:954-956 | the low-digit-first decoding gives order digits below nbins |
| Tuples.Reverse | FML/ComputePowerSpectra/ComputePowerSpectrum.h:1229-1232 | reversal keeps the length |
| Tuples.MsbDigits | FML/ComputePowerSpectra/ComputePowerSpectrum.h:1172-1175 | the high-digit-first decoding: ik[ii] = i / nbins^(order-1-ii) % nbins |
| Tuples.LsbStep | FML/ComputePowerSpectra/ComputePowerSpectrum.h:954-956 | the first low digit is i % nbins, the rest decode i / nbins |
| Tuples.LsbOfFold | FML/ComputePowerSpectra/ComputePowerSpectrum.h:954-956 | decoding an index low digit first gives its digits reversed |
| Tuples.MsbOfFold | FML/ComputePowerSpectra/ComputePowerSpectrum.h:1172-1175 | decoding an index high digit first gives its digits back |
| Tuples.MsbStep | FML/ComputePowerSpectra/ComputePowerSpectrum.h:1172-1175 | the last high-first digit is i % nbins |
| Tuples.FoldOfMsb | FML/ComputePowerSpectra/ComputePowerSpectrum.h:1246-1248 | folding the high-first digits of an index gives the index back |
| Tuples.FoldInjective | FML/ComputePowerSpectra/ComputePowerSpectrum.h:1246-1248 | distinct tuples have distinct indices |
| Tuples.DecodeLsb | FML/ComputePowerSpectra/ComputePowerSpectrum.h:1229-1232 | the loop computes the low-first digits |
| Tuples.DecodeMsb | FML/ComputePowerSpectra/ComputePowerSpectrum.h:1172-1175 | the loop computes the high-first digits |
| Tuples.FoldIndex | FML/ComputePowerSpectra/ComputePowerSpectrum.h:1246-1248 | the loop computes the index of the digits |
| Tuples.Insert | FML/ComputePowerSpectra/ComputePowerSpectrum.h:1243 | inserting into a sorted tuple keeps it sorted and adds exactly that element |
| Tuples.SortAscending | FML/ComputePowerSpectra/ComputePowerSpectrum.h:1243 | std::sort with std::less: an ascending permutation of its input |
| Tuples.SortDigits | FML/ComputePowerSpectra/ComputePowerSpectrum.h:1243 | sorting digits gives digits |
| Tuples.SortedUnique | FML/ComputePowerSpectra/ComputePowerSpectrum.h:1243 | two sorted permutations of the same elements are equal, so the sort's result is determined |
| Tuples.SortedHeadIsLeast | FML/ComputePowerSpectra/ComputePowerSpectrum.h:1243 | the head of a sorted tuple is its least element |
| Tuples.ReverseMultiset | FML/ComputePowerSpectra/ComputePowerSpectrum.h:1243 | reversal is a permutation |
| Tuples.SortNonIncreasing | FML/ComputePowerSpectra/ComputePowerSpectrum.h:1235-1243 | sorting a non-increasing tuple reverses it |
| Tuples.AdjacentOrder | FML/ComputePowerSpectra/ComputePowerSpectrum.h:1180-1181 | adjacent non-increasing digits make the whole tuple non-increasing |
| Bispectrum.SumTriple | FML/ComputePowerSpectra/ComputePowerSpectrum.h:970-988 | the real-cell loop sums the triple products |
| Bispectrum.TripleEntry | FML/ComputePowerSpectra/ComputePowerSpectrum.h:963-1002 | N123 >= 0 and B123 = 0 where N123 = 0; a triple that cannot close a triangle gives 0, 0 |
| Bispectrum.ComputeEntry | FML/ComputePowerSpectra/ComputePowerSpectrum.h:963-1002 | the body of the tuple loop computes that entry |
| Bispectrum.TuplePass | FML/ComputePowerSpectra/ComputePowerSpectrum.h:945-1003 | after the tuple loop, every entry of B123 and N123 is the first-pass value of its index |
| Bispectrum.Index3 | FML/ComputePowerSpectra/ComputePowerSpectrum.h:1009 | (i*nbins + j)*nbins + k lies below nbins^3 |
| Bispectrum.FoldTriple | FML/ComputePowerSpectra/ComputePowerSpectrum.h:1009-1019 | that index is the index of the tuple (i, j, k) |
| Bispectrum.Sort3 | FML/ComputePowerSpectra/ComputePowerSpectrum.h:1011-1012 | sorting three indices gives an ascending arrangement of them |
| Bispectrum.SortOfArrangement | FML/ComputePowerSpectra/ComputePowerSpectrum.h:1011-1012 | every arrangement of a triple sorts to the same ascending triple |
| Bispectrum.Ascending | FML/ComputePowerSpectra/ComputePowerSpectrum.h:1011-1012 | the sorted triple is an ascending arrangement of the triple |
| Bispectrum.Canon | FML/ComputePowerSpectra/ComputePowerSpectrum.h:958-960 | the canonical triple of a tuple is non-increasing in flat-index order, the one the tuple loop computes |
| Bispectrum.Fill | FML/ComputePowerSpectra/ComputePowerSpectrum.h:1021-1026 | the fill writes v into the listed entries that hold 0 and leaves every other entry |
| Bispectrum.FillSix | FML/ComputePowerSpectra/ComputePowerSpectrum.h:1021-1026 | the six conditional writes together fill all six orderings at once |
| Bispectrum.FillZero | FML/ComputePowerSpectra/ComputePowerSpectrum.h:1021 | one conditional write |
| Bispectrum.Visit | FML/ComputePowerSpectra/ComputePowerSpectrum.h:1009-1026 | one (i, j, k): B[index] is written into the zero entries of the six orderings |
| Bispectrum.ReverseTwice | FML/ComputePowerSpectra/ComputePowerSpectrum.h:1014-1019 | reversing twice gives the tuple back |
| Bispectrum.CanonAgrees | FML/ComputePowerSpectra/ComputePowerSpectrum.h:1011-1019 | two triples have the same canonical form exactly when they sort to the same triple |
| Bispectrum.CanonOfNonIncreasing | FML/ComputePowerSpectra/ComputePowerSpectrum.h:958-960 | a triple the tuple loop computes is its own canonical form |
| Bispectrum.CanonIdempotent | FML/ComputePowerSpectra/ComputePowerSpectrum.h:958-960 | the canonical form is canonical |
| Bispectrum.Index3Injective | FML/ComputePowerSpectra/ComputePowerSpectrum.h:1009 | distinct triples have distinct indices |
| Bispectrum.ArrangementIndex | FML/ComputePowerSpectra/ComputePowerSpectrum.h:1014-1019 | an index is among index0..index5 exactly when its triple is an arrangement of the sorted one |
| Bispectrum.PermIndicesAreArrangements | FML/ComputePowerSpectra/ComputePowerSpectrum.h:1011-1019 | the six indices of a triple are exactly those of the triples with the same canonical form |
| Bispectrum.CanonNotBelow | FML/ComputePowerSpectra/ComputePowerSpectrum.h:1006-1008 | the loop reaches the canonical form of a triple no earlier than the triple: the non-increasing ordering is never lexicographically below any ordering, so it is the last of its orderings to be visited |
| Bispectrum.LexNext | FML/ComputePowerSpectra/ComputePowerSpectrum.h:1006-1008 | the triples before (i, j, k+1) are those before (i, j, k) and (i, j, k) itself |
| Bispectrum.VisitEntry | FML/ComputePowerSpectra/ComputePowerSpectrum.h:1009-1026 | after a visit each entry is either still its first-pass value or its completed value, and completed when its canonical form has been visited |
| Bispectrum.VisitKeeps | FML/ComputePowerSpectra/ComputePowerSpectrum.h:1009-1026 | a visit keeps every entry at its first-pass or completed value |
| Bispectrum.VisitCompletes | FML/ComputePowerSpectra/ComputePowerSpectrum.h:1009-1026 | after visiting (i, j, k) every triple whose canonical form comes up to it is completed |
| Bispectrum.NextRow | FML/ComputePowerSpectra/ComputePowerSpectrum.h:1007-1008 | finishing the k loop moves to the next j |
| Bispectrum.NextPlane | FML/ComputePowerSpectra/ComputePowerSpectrum.h:1006-1007 | finishing the j loop moves to the next i |
| Bispectrum.Start | FML/ComputePowerSpectra/ComputePowerSpectrum.h:1006 | before the loop nothing is completed and everything is at its first-pass value |
| Bispectrum.Finish | FML/ComputePowerSpectra/ComputePowerSpectrum.h:1029 | after the loop every triple holds the first-pass value of its canonical form |
| Bispectrum.CompleteRow | FML/ComputePowerSpectra/ComputePowerSpectrum.h:1008-1027 | the k loop completes one row |
| Bispectrum.CompletePlane | FML/ComputePowerSpectra/ComputePowerSpectrum.h:1007-1028 | the j loop completes one plane |
| Bispectrum.Complete | FML/ComputePowerSpectra/ComputePowerSpectrum.h:1006-1029 | in place: when only canonical triples were computed, afterwards every triple holds the old value of its canonical form |
| Bispectrum.FirstPassAt | FML/ComputePowerSpectra/ComputePowerSpectrum.h:953-960 | the tuple loop computes a triple's entry exactly when it is non-increasing in flat-index order; the others stay 0 |
| Bispectrum.NonIncreasingTriple | FML/ComputePowerSpectra/ComputePowerSpectrum.h:958 | the filter ik[0] <= ik[1] <= ik[2] on the low-first digits is non-increasing order of the triple |
| Bispectrum.LsbOfTriple | FML/ComputePowerSpectra/ComputePowerSpectrum.h:954-956 | the low-first decoding of a triple's index gives it reversed |
| Bispectrum.FirstPassOnlyCanonical | FML/ComputePowerSpectra/ComputePowerSpectrum.h:945-1003 | the tuple loop leaves B123 non-zero only at canonical triples |
| Bispectrum.ExpectedSymmetric | FML/ComputePowerSpectra/ComputePowerSpectrum.h:1006-1029 | the completed value is the same for every arrangement of a triple |
| Bispectrum.ExpectedAt | FML/ComputePowerSpectra/ComputePowerSpectrum.h:945-1029 | the completed B123 of a triple is the entry of its canonical form; N123 is non-zero only at canonical triples |
| Bispectrum.Tables | FML/ComputePowerSpectra/ComputePowerSpectrum.h:859-1029 | B123 holds the canonical entry for every ordering of a triple, N123 only at canonical triples, both of length nbins^3 |
| Bispectrum.ComputeBispectrum | FML/ComputePowerSpectra/ComputePowerSpectrum.h:811-1037 | compute_bispectrum returns k_bin and the shells' mean power per shell, and tables that are symmetric in B123 |
| Polyspectrum.FGrids | FML/ComputePowerSpectra/ComputePowerSpectrum.h:1206-1211 | the masked real grid of every shell |
| Polyspectrum.NGrids | FML/ComputePowerSpectra/ComputePowerSpectrum.h:1194-1199 | the real count grid of every shell |
| Polyspectrum.KBins | FML/ComputePowerSpectra/ComputePowerSpectrum.h:1074 | the k_bin of every shell |
| Polyspectrum.Product | FML/ComputePowerSpectra/ComputePowerSpectrum.h:1196-1198 | the product loop over the tuple's shells at one real cell |
| Polyspectrum.SumTuple | FML/ComputePowerSpectra/ComputePowerSpectrum.h:1194-1212 | the real-cell loop sums those products |
| Polyspectrum.ProductOfThree | FML/ComputePowerSpectra/ComputePowerSpectrum.h:1196-1198 | for order 3 the product is the bispectrum's triple product |
| Polyspectrum.Scan | FML/ComputePowerSpectra/ComputePowerSpectrum.h:1177-1184 | valid exactly when the digits do not increase; ksum is the k_bin sum of every entry but the first, the largest of a valid tuple (the corrected test, see Findings) |
| Polyspectrum.TupleEntry | FML/ComputePowerSpectra/ComputePowerSpectrum.h:1186-1222 | corrected (see Findings): N123 >= 0 and P123 = 0 where N123 = 0; a tuple whose largest side exceeds the sum of the other sides by more than order deltak / 2 gives 0, 0 |
| Polyspectrum.ComputeEntry | FML/ComputePowerSpectra/ComputePowerSpectrum.h:1187-1222 | the body of the tuple loop computes that entry |
| Polyspectrum.VisitTuple | FML/ComputePowerSpectra/ComputePowerSpectrum.h:1172-1222 | one iteration writes only entry i, with its first-pass value |
| Polyspectrum.TuplePass | FML/ComputePowerSpectra/ComputePowerSpectrum.h:1164-1223 | after the tuple loop every entry is the first-pass value of its index |
| Polyspectrum.LastIsSmallest | FML/ComputePowerSpectra/ComputePowerSpectrum.h:1180-1184 | in a valid tuple the last digit is the smallest |
| Polyspectrum.KSumAtLeast | FML/ComputePowerSpectra/ComputePowerSpectrum.h:1182 | a sum of k_bins each at least lo is at least lo |
| Polyspectrum.PolygonTestNeverFires | FML/ComputePowerSpectra/ComputePowerSpectrum.h:1177-1191 | as written: with non-decreasing non-negative k_bin, a valid tuple always passes the polygon test, because the test compares with its last entry, the smallest |
| Polyspectrum.PolygonTestMisses | FML/ComputePowerSpectra/ComputePowerSpectrum.h:1180-1191 | as written: k_bin = 1..6, deltak = 1 and the tuple (5, 0, 0) pass the source test, although side 6 exceeds 1 + 1 by more than 3/2, which the corrected test catches |
| Polyspectrum.FirstIsLargest | FML/ComputePowerSpectra/ComputePowerSpectrum.h:1173-1184 | in a valid tuple the first entry is the largest shell |
| Polyspectrum.PolygonTestIsTriangleTest | FML/ComputePowerSpectra/ComputePowerSpectrum.h:1186-1191 | for three shells the corrected polygon test is the bispectrum's triangle test: the two smaller sides against the largest |
| Polyspectrum.CheckOrder | FML/ComputePowerSpectra/ComputePowerSpectrum.h:1235-1239 | valid exactly when the digits do not increase |
| Polyspectrum.CompletionIndex | FML/ComputePowerSpectra/ComputePowerSpectrum.h:1229-1248 | for an index the completion accepts, the sorted digits fold back to the same index |
| Polyspectrum.CompletionVisitsSorted | FML/ComputePowerSpectra/ComputePowerSpectrum.h:1229-1239 | the completion accepts an index exactly when its high-first digits are ascending |
| Polyspectrum.Complete | FML/ComputePowerSpectra/ComputePowerSpectrum.h:1225-1253 | as written: the completion loop leaves P123 and N123 as they were |
| Polyspectrum.CompletionLeavesOrderingEmpty | FML/ComputePowerSpectra/ComputePowerSpectrum.h:1172-1253 | as written: with two shells and order 2, the ordering (0, 1) keeps 0 while (1, 0) holds its computed entry; when that entry is non-zero, the table the source leaves differs at index 1 from the symmetric table |
| Polyspectrum.CanonIndex | FML/ComputePowerSpectra/ComputePowerSpectrum.h:1241-1248 | the index of a tuple's computed ordering: its digits never increase and are a permutation of the tuple's |
| Polyspectrum.CanonOfComputed | FML/ComputePowerSpectra/ComputePowerSpectrum.h:1177-1184 | a tuple the tuple pass computes is its own computed ordering |
| Polyspectrum.CanonOfArrangement | FML/ComputePowerSpectra/ComputePowerSpectrum.h:1241-1248 | every ordering of a tuple has the same computed ordering |
| Polyspectrum.CanonIsComputed | FML/ComputePowerSpectra/ComputePowerSpectrum.h:1241-1248 | an ordering of a computed tuple has that tuple's index as its computed ordering |
| Polyspectrum.CopyFromComputed | FML/ComputePowerSpectra/ComputePowerSpectrum.h:1226-1253 | one step of the corrected completion writes only entry i, with the old entry of its computed ordering |
| Polyspectrum.Symmetrize | FML/ComputePowerSpectra/ComputePowerSpectrum.h:1225-1253 | the corrected completion: every entry of P123 and N123 takes the old entry of its computed ordering |
| Polyspectrum.TablesSymmetric | FML/ComputePowerSpectra/ComputePowerSpectrum.h:1225-1253 | the final tables hold the same entries at every ordering of a tuple, the entry computed for its non-increasing ordering |
| Polyspectrum.Tables | FML/ComputePowerSpectra/ComputePowerSpectrum.h:1078-1253 | corrected (see Findings): P123 and N123 have length nbins^order, and every entry is the tuple pass's entry of its computed ordering |
| Polyspectrum.ComputePolyspectrum | FML/ComputePowerSpectra/ComputePowerSpectrum.h:1040-1261 | corrected (see Findings): compute_polyspectrum returns k_bin and the mean power per shell, and tables that hold at every ordering of a tuple the entry computed for it |
| Gadget.U32 | FML/GadgetUtils/GadgetUtils.cpp:39-40 | an unsigned 32-bit word read little-endian lies in [0, 2^32) |
| Gadget.U32Bytes | FML/GadgetUtils/GadgetUtils.cpp:153-155 | an unsigned word is stored in 4 bytes |
| Gadget.U32OfBytes | FML/GadgetUtils/GadgetUtils.cpp:153-155 | reading a stored unsigned word gives it back |
| Gadget.BytesOfU32 | FML/GadgetUtils/GadgetUtils.cpp:153-155 | storing a read unsigned word gives the bytes back |
| Gadget.I32 | FML/GadgetUtils/GadgetUtils.cpp:57-58 | an int read from 4 bytes lies in [-2^31, 2^31) |
| Gadget.I32Bytes | FML/GadgetUtils/GadgetUtils.cpp:138 | an int is written as 4 bytes |
| Gadget.I32OfBytes | FML/GadgetUtils/GadgetUtils.cpp:138-140 | reading a written int gives it back |
| Gadget.I32Injective | FML/GadgetUtils/GadgetUtils.cpp:71 | two markers are equal as ints exactly when their bytes are equal |
| Gadget.SwapBytes | FML/GadgetUtils/GadgetUtils.cpp:59 | swap_endian reverses the bytes |
| Gadget.SwapTwice | FML/GadgetUtils/GadgetUtils.cpp:59 | swapping twice gives the word back |
| Gadget.Record | FML/GadgetUtils/GadgetUtils.cpp:138-140 | a record is its payload plus 8 bytes of markers |
| Gadget.Value | FML/GadgetUtils/GadgetUtils.cpp:52-75 | a read's outcome without its end position: same error or same value |
| Gadget.ReadSectionBuffer | FML/GadgetUtils/GadgetUtils.cpp:57-70 | on success the length is non-negative, the stream moves past both markers, and the first length bytes of the buffer are the payload; a given buffer keeps its size and its tail, an empty one is sized to the payload |
| Gadget.ReadSectionChecksMarkers | FML/GadgetUtils/GadgetUtils.cpp:69-74 | a closing marker that differs from the opening one is an error |
| Gadget.ReadFramed | FML/GadgetUtils/GadgetUtils.cpp:68-74 | a payload followed by its own length reads back |
| Gadget.SectionRoundTrip | FML/GadgetUtils/GadgetUtils.cpp:52-75 | read_section of a record write_section wrote gives the payload and ends right after it |
| Gadget.SwappedSectionRoundTrip | FML/GadgetUtils/GadgetUtils.cpp:59-70 | with endian swap on, a record written with byte-swapped markers reads back |
| Gadget.WidthAt | FML/GadgetUtils/GadgetUtils.cpp:101-117 | each header byte belongs to a field of width 4 or 8, or to the unswapped fill |
| Gadget.Mirror | FML/GadgetUtils/GadgetUtils.cpp:101-117 | the byte a field swap moves to stays in the header |
| Gadget.MirrorTwice | FML/GadgetUtils/GadgetUtils.cpp:101-117 | the byte map of the field swap is an involution that keeps each byte in its field |
| Gadget.SwapFields | FML/GadgetUtils/GadgetUtils.cpp:101-117 | the header swap reverses the bytes within each field |
| Gadget.SwapFieldsTwice | FML/GadgetUtils/GadgetUtils.cpp:101-117 | swapping the header twice gives it back |
| Gadget.ReadHeaderOutcome | FML/GadgetUtils/GadgetUtils.cpp:82-119 | for the corrected 256-byte read (see Findings): read_header succeeds exactly when the markers agree and the marker or its byte swap is sizeof(header); differing markers are an error; it swaps exactly when the marker itself is not sizeof(header), which is exactly when the source's own read length differs from sizeof(header) |
| Gadget.HeaderRecord | FML/GadgetUtils/GadgetUtils.cpp:173-176 | the header record is 256 + 8 bytes |
| Gadget.HeaderRecordIsRecord | FML/GadgetUtils/GadgetUtils.cpp:173-176 | the header is written as an ordinary record |
| Gadget.HeaderRoundTrip | FML/GadgetUtils/GadgetUtils.cpp:77-122 | read_header of the record write_header wrote gives the header unswapped and ends after it |
| Gadget.SwappedHeaderRoundTrip | FML/GadgetUtils/GadgetUtils.cpp:91-119 | corrected (see Findings): with the 256-byte read, a header written on a machine of the other endianness reads back as the same header, with the swap flag set |
| Gadget.SwappedHeaderMarker | FML/GadgetUtils/GadgetUtils.cpp:94-97 | the byte-swapped 256 marker reads as 65536, so it fails the first size test and passes the swapped one |
| Gadget.SwappedHeaderOverrun | FML/GadgetUtils/GadgetUtils.cpp:82-85 | as written: on a header record of the other byte order the source reads 65536 bytes into the 256-byte header and reads bytes_end beyond the record's end marker |
| Gadget.NativeHeaderReadLength | FML/GadgetUtils/GadgetUtils.cpp:82-85 | as written: on a header record of this byte order the source reads exactly sizeof(header) bytes, so it agrees with the corrected read |
| Gadget.Put | FML/GadgetUtils/GadgetUtils.cpp:153-171 | storing a field keeps the header's size |
| Gadget.PutAt | FML/GadgetUtils/GadgetUtils.cpp:153-171 | a stored field reads back at its offset |
| Gadget.PutKeeps | FML/GadgetUtils/GadgetUtils.cpp:153-171 | storing a field leaves every byte outside it |
| Gadget.InStream.constructor | FML/GadgetUtils/GadgetUtils.cpp:185 | an input stream opened on its bytes at position 0 |
| Gadget.InStream.Read | FML/GadgetUtils/GadgetUtils.cpp:58 | fp.read takes the next count bytes and advances, or runs out at the end |
| Gadget.OutStream.constructor | FML/GadgetUtils/GadgetUtils.cpp:138 | an empty output stream |
| Gadget.OutStream.Write | FML/GadgetUtils/GadgetUtils.cpp:138-140 | fp.write appends |
| Gadget.GadgetReader.constructor | FML/GadgetUtils/GadgetUtils.cpp:46 | a new reader has not read a header and does not swap |
| Gadget.GadgetReader.SetEndianSwap | FML/GadgetUtils/GadgetUtils.cpp:179-181 | set_endian_swap turns swapping on and changes nothing else |
| Gadget.GadgetReader.ReadSection | FML/GadgetUtils/GadgetUtils.cpp:52-75 | read_section: a closed file, a buffer too small, a negative length, a short file or differing markers are errors; otherwise the payload as the section specification gives it, and the stream after the record |
| Gadget.GadgetReader.ReadPayload | FML/GadgetUtils/GadgetUtils.cpp:68-74 | the payload and the closing marker as the payload specification gives them |
| Gadget.GadgetReader.ReadHeader | FML/GadgetUtils/GadgetUtils.cpp:77-122 | read_header succeeds exactly when the header specification does; then the header is the read, possibly swapped header, the swap flag is set when it was swapped, and header_is_read holds; an error leaves both flags |
| Gadget.GadgetReader.GetNumFiles | FML/GadgetUtils/GadgetUtils.cpp:183-193 | get_num_files returns the stored num_files without reading when a header was read; otherwise it reads the header first, and on success returns its num_files with the header, swap flag and stream position read_header leaves, and on error returns read_header's error with the swap and read flags unchanged |
| Gadget.OtherFields | FML/GadgetUtils/GadgetUtils.cpp:156-171 | the mass, time, redshift, zeroed flags and cosmology fields keep the header's size |
| Gadget.WrittenHeader | FML/GadgetUtils/GadgetUtils.cpp:153-171 | the header write_header fills keeps its size |
| Gadget.WrittenCounts | FML/GadgetUtils/GadgetUtils.cpp:153-155 | the written header reads back npart[1] = NumPart and num_files, and the low and high count words recombine to TotNumPart, as print_header_info prints it |
| Gadget.GadgetWriter.constructor | FML/GadgetUtils/GadgetUtils.cpp:127 | a writer with the given initial header |
| Gadget.GadgetWriter.WriteSection | FML/GadgetUtils/GadgetUtils.cpp:129-141 | write_section: a closed file or a buffer shorter than bytes is an error and writes nothing; otherwise it appends the record of the first bytes bytes |
| Gadget.GadgetWriter.WriteHeader | FML/GadgetUtils/GadgetUtils.cpp:143-177 | write_header: a closed file is an error and changes nothing; otherwise the stored header is the filled one and its record is appended |

## Left out

- PowerSpectrum.WellFormed: grids of dimension 1 are excluded, so every estimator requires N >= 2. The source's cell count uses Nmesh^(N-2), and `FML::power` with exponent -1 is defined in a header that is not part of this model.
- FFTs (`fftw_r2c`, `fftw_c2r`), particle-to-grid assignment, window deconvolution and the Fourier-grid index-to-wave-vector maps are not modelled. They are function parameters (`density`, `deconvolve`, `toReal`), or the grid is given with its wave vectors.
- MPI reductions, `communicate_particles` and OpenMP are not modelled; every loop runs on one task. `isRoot` stands for `ThisTask == 0`.
- Floating point is modelled as exact `real`. `sqrt`, `exp(i x)` and the volume factor pow(1/Nmesh/2pi, N) are parameters. NaN and infinity are not modelled.
- PowerSpectrum.Multipoles: mu at k = 0 is 0/0 in the source. The model takes it from the parameter `muAtZero`, and rnorm is a parameter constrained by rnorm^2 = the line of sight's squared length.
- Binning.AddToBin: the bin search of `PowerSpectrumBinning::add_to_bin` lives in a header that is not part of this model. The bin index comes from the parameter `binOf`, and an index outside the table drops the value.
- Estimators.ComputePowerSpectrumDirectSummation: it requires at least one particle, because 1/NumPart is a floating-point division by zero in the source.
- Estimators.ComputeSimulationMultipoles: `velocity_to_displacement` is the parameter `f`, and the density assignment method is folded into `density`. `assert_mpi` aborts are modelled as an `Err` result.
- `compute_multipole_Q_term` and the commented-out quadrupole estimator are not modelled: the estimator's only call is commented out. `Smoothing/SmoothingFourier.h` is not modelled either: it multiplies by transcendental filters. Nor are the printing, the progress output and `print_header_info` (its recombination of the count words is stated by Gadget.WrittenCounts).
- Shells.OneShell: kmean_bin is computed but discarded by the source. It is modelled but not returned.
- Shells.ShellEdges, Bispectrum.ComputeBispectrum and Polyspectrum.ComputePolyspectrum: they require at least two bin centres, because the source reads k[1] for deltak.
- Polyspectrum.ComputePolyspectrum: it requires order >= 2, the source's static_assert.
- The `BispectrumBinning`, `PolyspectrumBinning` and `GadgetHeader` declarations are not part of this model. The header layout is taken to be the standard 256-byte Gadget-2 one, and swap_endian to be a byte reversal.
- Gadget.GadgetReader.ReadHeader: it always consumes 256 header bytes. The source reads bytes_start bytes into the header struct, which overruns it for any other length; on a file of the other byte order that length is 65536 (see Findings).
- Gadget.ReadHeaderOutcome: it describes the corrected 256-byte read. As written, the source never reaches its swap branch with the record's header, because it first reads 65536 bytes (Gadget.SwappedHeaderOverrun).
- Gadget.SwappedHeaderRoundTrip: it holds for the corrected 256-byte read only. As written, a header of the other byte order does not read back (Gadget.SwappedHeaderOverrun).
- PowerSpectrum.Multipoles, PowerSpectrum.ComputeMultipoles and Estimators.ComputePowerSpectrum: they require every binning in Pell to have as many bins as Pell[0] (SameBins). The source does not check this but relies on it: the Legendre conversion reads Pell[ell-2k].pofk[i] for every i below Pell[0].pofk.size().
- Gadget.GadgetReader.ReadSection, Gadget.GadgetReader.ReadHeader and Gadget.ReadHeaderOf: a stream that ends early gives a `Truncated` error. The source does not check its reads in read_section or read_header. After an error, the contents of the stream position and of the header are not specified.
- Gadget.GadgetReader.GetNumFiles: opening the file by name is modelled as an already opened input stream.
- Gadget.GadgetWriter.WriteHeader: mass[1] and the redshift are computed by formulas over doubles. They are given as their byte encodings in `Doubles`. The count fields are written after the other fields; the writes are to disjoint bytes, so the header is the same.
- Gadget.GadgetReader.constructor: the source takes pos_factor and ndim, which only the particle readers use. The reader's initial header is uninitialised in the source and is a constructor argument here.

## Findings

| source | as written | input that shows it | evidently intended | confidence | as-written member | corrected member |
|---|---|---|---|---|---|---|
| FML/ComputePowerSpectra/ComputePowerSpectrum.h:1173-1191 | the polygon test sums k_bin over ik[0..order-2] and compares it with k_bin[ik[order-1]]; the tuple loop decodes ik[0] as the most significant digit, so ik[order-1] is the smallest shell and the test never fires | k_bin = 1, ..., 6, deltak = 1, tuple (5, 0, 0): 6 + 1 is not below 1 - 3/2, so the tuple is computed although 1 + 1 < 6 - 3/2 | sum the other shells and compare with the largest, k_bin[ik[0]], as the bispectrum's triangle test does | high; not executed | Polyspectrum.PolygonTestMisses | Polyspectrum.TupleEntry |
| FML/ComputePowerSpectra/ComputePowerSpectrum.h:1225-1253 | the completion loop decodes ik[0] as the least significant digit, so it visits only tuples already stored at the index of their sorted ordering, and each write copies an entry onto itself | two shells, order 2: the tuple (1, 0) is computed at index 2, and its ordering (0, 1) at index 1 keeps 0 | every ordering of a tuple holds the entry computed for its non-increasing ordering | high; not executed | Polyspectrum.CompletionLeavesOrderingEmpty | Polyspectrum.Symmetrize |
| FML/GadgetUtils/GadgetUtils.cpp:82-119 | read_header reads bytes_start bytes into the header before it looks at the byte order, and only swaps bytes_start afterwards | a header record written on a machine of the other byte order: its start marker reads as 65536, so 65536 bytes go into the 256-byte header and bytes_end is read 65536 bytes on | read sizeof(header) bytes between the markers, check the markers, and swap the header when the marker's byte swap is sizeof(header) | high; not executed | Gadget.SwappedHeaderOverrun | Gadget.SwappedHeaderRoundTrip |

The model's tuple pass (Polyspectrum.TupleEntry, Polyspectrum.Scan) uses the corrected polygon test, and Polyspectrum.Tables uses Polyspectrum.Symmetrize in place of the source's completion loop. Polyspectrum.PolygonTestNeverFires and Polyspectrum.Complete state the behaviour as written. Gadget.ReadHeaderOf, and with it Gadget.GadgetReader.ReadHeader, reads sizeof(header) bytes; Gadget.SourceHeaderReadLength is the source's read length, and Gadget.SwappedHeaderOverrun and Gadget.NativeHeaderReadLength compare the two.
