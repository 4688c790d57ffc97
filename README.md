# specrend colour conversion, modelled in Dafny

This project models `color.py` of openrgb-temperature. That file is a Python
translation of John Walker's `specrend.c`. It turns the spectrum of a light
source into CIE 1931 chromaticity, then into weights of a display's red, green
and blue primaries, and brings those weights into a displayable range.

All arithmetic is over Dafny's `real`, which is exact rational arithmetic. The
original's floating-point tolerances therefore become exact equalities.
Each place where the Python code would raise `ZeroDivisionError` is a
precondition of the modelled function.

Modules, one per part of the library:

- `ColorTypes` (`color_types.dfy`): the value triples `Xy`, `Upvp`, `Xyz`,
  `Rgb`, and the derived z = 1 - (x + y).
- `ColorSystems` (`color_system.dfy`): the colour-system record and the
  three illuminants. It also holds the six shipped presets with their literal
  chromaticities. The `GAMMA_REC709` sentinel object is the constructor
  `Gamma.Rec709`.
- `Chromaticity` (`chromaticity.dfy`): `upvp_to_xy` and `xy_to_upvp`. These
  are the linear-fractional maps between CIE 1931 (x, y) and CIE 1976 UCS
  (u', v'), per section 8.1 of CIE 15:2004.
- `Primaries` (`primaries.dfy`): `xyz_to_rgb`.
  - The solver is written once over an arbitrary primaries matrix and white
    triple, then instantiated for a `ColorSystem`.
  - Its properties are stated against the determinant of the primaries
    matrix. The determinant is a specification function; the code never
    computes it.
  - The six presets are proved to have a positive determinant and positive
    white scales.
- `Gamut` (`gamut.dfy`): `inside_gamut`, and `constrain_rgb` as a method with
  the same comparison chain. It is proved equal to the specification
  function `Desaturated`.
- `Normalise` (`normalise.dfy`): `norm_rgb` as a method that divides in
  place. It is proved equal to the specification function `Normalised`.
- `Spectrum` (`spectrum.dfy`): the 81-entry `CIE_COLOR_MATCH` table and
  `spectrum_to_xyz`.
  - The accumulation loop is a method with loop invariants tying X, Y and Z
    to the recursive sum `Accumulated`.
  - The caller's spectral function is an arbitrary `real -> real`
    parameter. It is sampled at 380 + 5 i, in nanometres.

Where the code and its documentation differ, the model follows the code:

- `spectrum_to_xyz`'s docstring (color.py:257-259) says the wavelength
  argument is in metres. The loop passes nanometres (color.py:277), and
  `planck` converts from nanometres (color.py:297). The model samples at
  nanometre wavelengths.
- The solver fails only when `yw` or one of the white scales `rw`, `gw`,
  `bw` is zero (color.py:124-132). It never checks for collinear primaries.
  With a zero determinant it still returns weights, and then
  `Primaries.XyzToRgbMixesBack` says those weights mix to the zero triple.
  The model keeps exactly those preconditions (`Primaries.Solvable`). The
  uniqueness result (`Primaries.XyzToRgbUnique`) additionally assumes a
  nonzero determinant.
- `ILLUMINANT_E` is the literal 0.33333333, not 1/3 (color.py:58), and is
  modelled as that literal.

## Model

| member | source | states |
|---|---|---|
| ColorTypes.Derived | color.py:109-113 | the third chromaticity coordinate is 1 - (x + y), so x + y + z = 1 and x, y are kept |
| Chromaticity.UpvpToXy | color.py:78-84 | defined off the line 6u' - 16v' + 12 = 0; its result always lies off the singular line of the reverse map (the two denominators multiply to 36) |
| Chromaticity.XyToUpvp | color.py:86-92 | defined off the line -2x + 12y + 3 = 0; its result always lies off the singular line of the reverse map |
| Chromaticity.XyRoundTrip | color.py:78-92 | xy_to_upvp followed by upvp_to_xy returns the original (x, y) exactly, wherever -2x + 12y + 3 is nonzero |
| Chromaticity.UpvpRoundTrip | color.py:78-92 | upvp_to_xy followed by xy_to_upvp returns the original (u', v') exactly, wherever 6u' - 16v' + 12 is nonzero |
| Chromaticity.XyToUpvpInjective | color.py:86-92 | distinct (x, y) off the singular line have distinct (u', v') images |
| Primaries.Cofactors | color.py:117-119 | the xyz -> rgb matrix before scaling to white; Primaries.CofactorsAreCrosses and Primaries.CofactorsOrthogonal carry its properties |
| Primaries.WhiteScales | color.py:124-126 | the white scaling factors rw, gw, bw; Primaries.SolveWhite shows that dividing by them sends white to r = g = b = yw, and the six preset lemmas show them positive |
| Primaries.RgbMatrix | color.py:130-132 | the matrix scaled to white; Primaries.SolveWhite, SolvePrimaries, SolveThenMix, MixThenSolve and SolveUnique carry its properties |
| Primaries.XyzToRgb | color.py:94-140 | xyz_to_rgb for a colour system; Primaries.WhiteIsNeutral, XyzToRgbMixesBack and XyzToRgbUnique carry its properties |
| Primaries.CofactorsAreCrosses | color.py:117-119 | each row of the unscaled xyz -> rgb matrix is the cross product of the other two primaries, and the determinant is their triple product |
| Primaries.CofactorsOrthogonal | color.py:117-119 | each cofactor row is orthogonal to the other two primaries and meets its own primary in the determinant |
| Primaries.SolveWhite | color.py:113-140 | for any primaries and white with yw and the three white scales nonzero, the white triple is solved to r = g = b = yw |
| Primaries.SolvePrimaries | color.py:117-140 | each primary is solved to zero weight on the two other channels, and its own weight times its white scale is the determinant |
| Primaries.SolveThenMix | color.py:117-140 | the primaries, each scaled by its white factor and mixed with the returned weights, give the requested triple times the determinant |
| Primaries.MixThenSolve | color.py:117-140 | solving a white-scaled mix of the primaries returns the mixing weights times the determinant |
| Primaries.SolveUnique | color.py:117-140 | with a nonzero determinant, any weights whose white-scaled mix is the determinant times the request are the returned weights |
| Primaries.WhiteIsNeutral | color.py:113-140 | xyz_to_rgb of a colour system's own white point (xw, yw, 1 - xw - yw) gives r = g = b = yw |
| Primaries.PrimaryWeights | color.py:94-140 | a pure primary of a colour system gets zero weight on the other two channels, and its own weight is nonzero exactly when the determinant is |
| Primaries.XyzToRgbLinear | color.py:136-140 | xyz_to_rgb is linear in the requested triple |
| Primaries.XyzToRgbMixesBack | color.py:94-140 | the system's primaries, scaled to white and mixed with the weights xyz_to_rgb returns, reproduce the requested triple times the determinant |
| Primaries.XyzToRgbUnique | color.py:94-140 | with a nonzero determinant: weights mix to the request (times the determinant) if and only if they are the weights xyz_to_rgb returns |
| Primaries.NtscWellFormed | color.py:71 | NTSC with illuminant C: no zero divisor, positive determinant, positive white scales |
| Primaries.EbuWellFormed | color.py:72 | the same for EBU (PAL/SECAM) with D65 |
| Primaries.SmpteWellFormed | color.py:73 | the same for SMPTE with D65 |
| Primaries.HdtvWellFormed | color.py:74 | the same for HDTV with D65 |
| Primaries.CieWellFormed | color.py:75 | the same for CIE with illuminant E as the literal 0.33333333 |
| Primaries.Rec709WellFormed | color.py:76 | the same for CIE REC 709 with D65 |
| Primaries.PresetsWellFormed | color.py:71-76 | every one of the six shipped presets is well formed |
| Gamut.InsideGamut | color.py:142-150 | a colour is inside the gamut exactly when its least weight is non-negative |
| Gamut.AddWhite | color.py:169-170 | adding w white raises the least weight by exactly w and keeps the differences between channels |
| Gamut.WhiteNeeded | color.py:162-166 | the white to add is -min(0, r, g, b): zero exactly when inside the gamut, otherwise minus the least weight |
| Gamut.Desaturated | color.py:155-173 | the result is inside the gamut; it equals the input exactly when the input is inside; when it adjusts, its least weight is exactly 0; pairwise channel differences are kept |
| Gamut.AddWhiteInsideGamut | color.py:168-170 | adding w white brings a colour inside the gamut exactly when w >= -min(r, g, b), so the amount added is the least non-negative one that does |
| Gamut.DesaturatedAddsWhite | color.py:169-170 | the result is the input with WhiteNeeded added to every channel |
| Gamut.DesaturatedIdempotent | color.py:155-173 | constraining twice is constraining once |
| Gamut.ConstrainRgb | color.py:155-173 | the step-by-step comparison chain and in-place addition return exactly Desaturated of the input |
| Gamut.InsideGamutIffMixable | color.py:94-106 | for a well-formed system, xyz_to_rgb's weights are inside the gamut exactly when the request is a non-negative mix of the primaries; a colour outside their triangle gets a negative weight |
| Gamut.InsideGamutIffInTriangle | color.py:94-150 | for a well-formed system, xyz_to_rgb's weights are inside the gamut exactly when the request is a non-negative combination of the primaries' chromaticity triples themselves, without white scaling or determinant |
| ColorTypes.Max | color.py:214 | the greater of two weights: at least both, and equal to one of them |
| Normalise.Normalised | color.py:210-221 | when the greatest weight m is positive, the result's greatest weight is 1, every weight is at most 1, and each weight times m is the input weight; otherwise the input is returned unchanged |
| Normalise.NormRgb | color.py:210-221 | the in-place division by the greatest weight returns exactly Normalised of the input |
| Normalise.NormalisedIdempotent | color.py:210-221 | normalising twice is normalising once |
| Normalise.NormalisedPreservesGamut | color.py:210-221 | normalising keeps the sign of every weight, so a colour stays inside or outside the gamut |
| Normalise.ConstrainThenNormaliseInRange | color.py:155-221 | constrain_rgb followed by norm_rgb leaves every weight in [0, 1] |
| Spectrum.Samples | color.py:276-277 | the sampled wavelengths are 380 + 5 i nm in order, each 5 nm above the previous |
| Spectrum.SampledBand | color.py:223-251 | the table has 81 entries and the sampled band runs from 380 to 780 nm |
| Spectrum.Accumulated | color.py:276-282 | the running sums X, Y, Z after n table entries; Spectrum.Accumulate, AccumulatedNonNegative, AccumulatedScaled and AccumulatedSeesOnlySamples carry its properties |
| Spectrum.Tristimulus | color.py:276-282 | X, Y, Z over the whole CIE table; Spectrum.TristimulusSeesOnlySamples and ChromaticityInUnitRange carry its properties |
| Spectrum.Accumulate | color.py:276-282 | the loop leaves X, Y, Z equal to the recursive sum over the whole table and calls the source at exactly the sampled wavelengths, in order |
| Spectrum.ChromaticityOf | color.py:284-290 | tristimulus values divided by their nonzero sum give coordinates that sum to 1 |
| Spectrum.SpectrumChromaticity | color.py:276-290 | the (x, y, z) spectrum_to_xyz returns for a spectrum: its coordinates sum to 1 |
| Spectrum.SpectrumToXyz | color.py:253-290 | returns the tristimulus values over the CIE table divided by their sum; the coordinates sum to 1; a zero sum is excluded as the division error |
| Spectrum.CieColorMatchNonNegative | color.py:223-251 | every colour-matching entry is non-negative |
| Spectrum.AccumulatedNonNegative | color.py:276-282 | a source that is non-negative at the sampled wavelengths accumulates non-negative X, Y, Z over a non-negative table |
| Spectrum.ChromaticityInUnitRange | color.py:253-290 | for a source that is non-negative on the band, each of x, y, z lies in [0, 1] |
| Spectrum.ChromaticityScaleInvariant | color.py:253-290 | emittance is in arbitrary units: scaling the source by a nonzero constant leaves its chromaticity unchanged |
| Spectrum.TristimulusSeesOnlySamples | color.py:276-282 | two sources that agree at the 81 sampled wavelengths have the same tristimulus values |

## Left out

- `gamma_correct` and `gamma_correct_rgb` (color.py:175-208) are not modelled.
  - Both need real exponentiation, which Dafny's `real` does not have.
  - The Rec. 709 branch also cannot run as written: `c ** (cc, 0.45)` (color.py:194) and `c ** (*c, 0.45)` (color.py:196) raise `TypeError`.
  - Every preset uses that branch. Only the gamma tag is kept in the model (`ColorSystems.Gamma`).
- `bb_spectrum` and `planck` (color.py:292-302) are not modelled. Planck's law needs `exp` and negative real powers. A black body is one possible instance of the spectral-function parameter of `Spectrum.SpectrumToXyz`.
- The `__main__` demonstration (color.py:304-353) is left out: it prints ANSI-coloured rows. Its expected-output table depends on `exp` and float rounding, so it cannot be stated over exact reals.
- temperature.py is not part of this model. It is sensor polling, OpenRGB connection handling and quantisation into a foreign colour type.
- Floating-point rounding, NaN and infinity are not modelled. All arithmetic is exact over `real`, and every division by zero is a precondition.
- Primaries.DivideRow: a row divided by its white factor is modelled as a product with the reciprocal. It is equal over the reals to the code's three separate divisions (color.py:130-132), but it is not the same floating-point computation.
- Spectrum.Accumulate: the source's loop runs inline in `spectrum_to_xyz` (color.py:276-282). In the model it is a method over any table, which `Spectrum.SpectrumToXyz` calls with the CIE table.
- Spectrum.SpectrumToXyz: the spectral function is a pure `real -> real`. A Python callable with side effects or exceptions is outside the model.
