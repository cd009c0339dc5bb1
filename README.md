# Cosmogravity-V2 simulation core in Dafny

Cosmogravity simulates two kinds of physics:

- **Cosmology.** A Friedmann–Lemaître universe, described by its temperature, its Hubble constant, its matter and dark-energy density parameters, and three flags (CMB, neutrinos, flat). From these the `Simulation_universe` class computes:
  - the density parameters;
  - the normalised Friedmann function `F`;
  - the age of the universe and the time between two redshifts;
  - distances, brightness and apparent diameters;
  - the scale factor `a(τ)` and the age as a function of redshift.
- **Trajectories.** Test particles ("mobiles": massive particles or photons) move around a central body:
  - a Schwarzschild body: closed-form integration constants and radial accelerations;
  - a rotating Kerr body: the same formulas, plus the per-mobile updates of one simulation step (initialisation, time step, new position, velocity, clocks).

Both kinds of simulation rest on one generic integrator: a fourth-order Runge-Kutta step and a composite Simpson rule.

The repository carries three revisions of the integrator and of `Simulation_universe`, plus a TypeScript sketch of the Kerr formulas. Each revision is modelled in the form its code has:

| Dafny module | source | form |
|---|---|---|
| `Integrator` | js/class/simulation/simulation.js (bundled unchanged in src/main.js:9-90) | pure RK4 functions; `Simpson` keeps its two array loops (`i < n`) |
| `IntegratorTs` | ts/class/simulation/simulation.ts | RK4 returning `[y1, yp1]`; Simpson loops `i <= n` |
| `Cosmology` | formulas shared by the three `Simulation_universe` revisions | functions and lemmas |
| `UniverseSeries` | the `runge_kutta_universe_1/2` marches and the years rescaling loop | methods with loop invariants over `seq` |
| `UniverseTs` | ts/class/simulation/simulation_universe.js, the current revision; it imports `./simulation.js`, so it runs on `Integrator` (Simpson with `i < n`, object-first `runge_kutta_equation_order1/2`) | a `Cosmos` value of the fields; class `Universe` with setters |
| `UniverseJs` | js/class/simulation/simulation_universe.js, the oldest revision | the same layout |
| `UniverseSrc` | the `Simulation_universe` bundled in src/main.js:150-643 | the same layout |
| `Schwarzschild` | js/class/simulation/schwarzschild.js | functions and lemmas |
| `Kerr` | js/class/simulation/kerr.js | formulas as functions; one mobile update as a function on a `MobileState` value; classes `Mobile` and `Simulation` whose methods update the mobiles in place |
| `KerrTs` | ts/class/simulation/kerr.ts | functions, related to `Kerr` |

Conventions:

- **Numbers.** Numbers are exact reals.
- **`Math`.** The transcendental functions of JavaScript's `Math` (`exp`, `log`, `sqrt`, `sin`, `cos`, `sinh`, `PI`) are fields of a `RealMath.Math` value that every formula takes. `RealMath.Lawful` lists the few facts about them that the proofs use.
- **Division.** Every division by a run-time quantity is `Math.Div`. Its value at a zero divisor is left unspecified; it stands for the infinities and NaN that JavaScript produces there.
- **Constants.** The physical constants are parameters or stored fields: `c`, `G`, `k`, `h` and `AU` (the astronomical unit).
- **Optional arguments and errors.** Optional arguments are `Wrappers.Option`. Thrown errors are `Wrappers.Result.Failure`.

## Model

| member | source | states |
|---|---|---|
| Integrator.RungeKutta1 | js/class/simulation/simulation.js:26-33 | the first-order RK4 step advances the abscissa by exactly one step |
| Integrator.RungeKutta2 | js/class/simulation/simulation.js:45-53 | the second-order RK4 step advances the abscissa by exactly one step |
| Integrator.RungeKutta1ConstantSlope | js/class/simulation/simulation.js:26-33 | a constant slope `C` is integrated exactly: `y1 = y0 + step·C` (the weights 1/6, 1/3, 1/3, 1/6 sum to one) |
| Integrator.RungeKutta1IsSimpsonPanel | js/class/simulation/simulation.js:26-33 | when the slope does not depend on `y`, one step is Simpson's rule on `[x0, x0 + step]` |
| Integrator.RungeKutta1ZeroStep | js/class/simulation/simulation.js:26-33 | a zero step returns the input point |
| Integrator.RungeKutta2ConstantAcceleration | js/class/simulation/simulation.js:45-53 | a constant second derivative is integrated exactly (uniform acceleration: `y0 + step·y'0 + step²C/2`, `y'0 + step·C`) |
| Integrator.RungeKutta2ZeroStep | js/class/simulation/simulation.js:45-53 | a zero step returns the input state |
| Integrator.Weight | js/class/simulation/simulation.js:73-83 | each sample weight is 1, 2 or 4; an interior sample weighs 4 exactly when its index is odd |
| Integrator.NodeNext | js/class/simulation/simulation.js:68-71 | consecutive sample abscissae are one `step` apart |
| Integrator.WeightedSumOnNodes | js/class/simulation/simulation.js:73-83 | the accumulated sum depends only on the integrand's values at the nodes visited |
| Integrator.ConstantWeightedSum | js/class/simulation/simulation.js:73-83 | for a constant integrand, the first `k` weights add up to `2k - 1 + 2⌊k/2⌋` |
| Integrator.NodeReachesSupremumOnlyAtN | js/class/simulation/simulation.js:68-71 | on a non-degenerate interval, node `i` is the supremum exactly when `i = n` |
| Integrator.Sample | js/class/simulation/simulation.js:68-71 | the first loop fills `x[i] = infimum + i·step` and `y[i] = f(x[i])` for every `i < n` |
| Integrator.Accumulate | js/class/simulation/simulation.js:73-83 | the second loop's result is the weighted sum of the samples (ends 1, odd 4, even 2) |
| Integrator.Simpson | js/class/simulation/simulation.js:64-84 | `simpson` returns `SimpsonRule`: the weighted sum of the `n` samples, times `step/3` |
| Integrator.SimpsonRuleSamples | js/class/simulation/simulation.js:64-84 | the rule reads the integrand at the `n` nodes `i < n` only |
| Integrator.SimpsonRuleIgnoresSupremum | js/class/simulation/simulation.js:68-71 | because the loops stop at `i < n`, the integrand's value at the supremum never enters the result |
| Integrator.SimpsonRuleZeroWidth | js/class/simulation/simulation.js:64-84 | a zero-width interval integrates to 0 |
| Integrator.SimpsonRuleConstant | js/class/simulation/simulation.js:64-84 | for a constant `C` and an even `n`, the result is `C·(b - a)·(3n - 1)/(3n)`: short by the missing right end |
| IntegratorTs.RungeKuttaIsOrder2Step | ts/class/simulation/simulation.ts:31-42 | `runge_kutta` is the js revision's second-order step, with the abscissa dropped |
| IntegratorTs.RungeKuttaConstantAcceleration | ts/class/simulation/simulation.ts:31-42 | a constant second derivative is integrated exactly |
| IntegratorTs.RungeKuttaZeroStep | ts/class/simulation/simulation.ts:31-42 | a zero step returns `(y0, yp0)` |
| IntegratorTs.Simpson | ts/class/simulation/simulation.ts:53-72 | `simpson` returns `SimpsonRule`: the weighted sum of all `n + 1` samples, times `h/3` |
| IntegratorTs.LastNodeIsSupremum | ts/class/simulation/simulation.ts:57-62 | the last node sampled, `infimum + n·h`, is the supremum |
| IntegratorTs.SimpsonRuleSamples | ts/class/simulation/simulation.ts:53-72 | the rule reads the integrand at exactly the `n + 1` nodes `i <= n` |
| IntegratorTs.WeightedSumReadsLast | ts/class/simulation/simulation.ts:65-70 | the last sample enters the sum with weight 1 |
| IntegratorTs.SimpsonRuleReadsSupremum | ts/class/simulation/simulation.ts:53-72 | a change of `d` in the integrand at the supremum changes the result by `d·h/3` |
| IntegratorTs.SimpsonRuleZeroWidth | ts/class/simulation/simulation.ts:53-72 | a zero-width interval integrates to 0 |
| IntegratorTs.WeightedSumIsPanelSum | ts/class/simulation/simulation.ts:65-70 | summed up to an even index `2j`, the weights group into `j` panels `f(l) + 4f(l+h) + f(l+2h)`, less the last panel's right end |
| IntegratorTs.FullWeightedSumIsPanelSum | ts/class/simulation/simulation.ts:65-70 | for even `n`, all `n + 1` weighted samples are exactly `n/2` Simpson panels |
| IntegratorTs.SimpsonRuleExact | ts/class/simulation/simulation.ts:53-72 | for even `n`, the rule gives `F(b) - F(a)` for every `F` that each panel antidifferentiates exactly |
| IntegratorTs.SimpsonRuleConstant | ts/class/simulation/simulation.ts:53-72 | a constant `C` integrates to `C·(b - a)` |
| IntegratorTs.SimpsonRuleIdentity | ts/class/simulation/simulation.ts:53-72 | `x` integrates to `(b² - a²)/2` |
| IntegratorTs.SimpsonRuleCube | ts/class/simulation/simulation.ts:53-72 | `x³` integrates to `(b⁴ - a⁴)/4`: the rule is exact on cubics |
| Cosmology.HubbleSiIsLinear | ts/class/simulation/simulation_universe.js:80 | converting km/s/Mpc to 1/s multiplies by a fixed factor |
| Cosmology.HubbleSi | ts/class/simulation/simulation_universe.js:80 | `H0·10³/((AU·180·3600/π)·10⁶)`: the Hubble constant converted from km/s/Mpc to 1/s |
| Cosmology.RadiationParameter | ts/class/simulation/simulation_universe.js:314-324 | `Ωr = 8πG·ρr/(3H0²)`, with `ρr = 4σT⁴/c³` and `σ = 2π⁵k⁴/(15h³c²)` |
| Cosmology.Y | ts/class/simulation/simulation_universe.js:366-371 | `Y(x) = exp(-3(w0 + w1 + 1)·ln x - 3w1(1 - x))` |
| Cosmology.DY | ts/class/simulation/simulation_universe.js:378-382 | `dY(x) = Y(x)·(3w1 - 3(1 + w0 + w1)/x)` |
| Cosmology.DYWithoutQuotient | js/class/simulation/simulation_universe.js:303-307 | the older `dY(x) = Y(x)·(3w1 - 3(1 + w0 + w1))`, without the `1/x` |
| Cosmology.Friedmann | ts/class/simulation/simulation_universe.js:389-394 | `F(x) = (1+x)²Ωk + (1+x)³Ωm + (1+x)⁴Ωr + Y(1/(1+x))·ΩDE` |
| Cosmology.Acceleration | ts/class/simulation/simulation_universe.js:721-729 | `a'' = -Ωr/a³ - Ωm/(2a²) + ΩDE·(a·Y(a) + a²·dY(a)/2)` |
| Cosmology.AccelerationWithSquare | js/class/simulation/simulation_universe.js:510-518 | the older `a'' = -Ωr/a² - Ωm/(2a²) + ΩDE·(a·Y(a) + a²·dY(a)/2)`, with the older `dY` |
| Cosmology.YAtOne | ts/class/simulation/simulation_universe.js:366-371 | `Y(1) = 1` for every equation of state |
| Cosmology.YCosmologicalConstant | ts/class/simulation/simulation_universe.js:366-371 | with `w0 = -1` and `w1 = 0`, `Y ≡ 1` |
| Cosmology.FriedmannAtZero | ts/class/simulation/simulation_universe.js:389-394 | `F(0)` is the sum of the four density parameters |
| Cosmology.FriedmannCosmologicalConstant | ts/class/simulation/simulation_universe.js:389-394 | for a cosmological constant, `F` is the polynomial `(1+x)²Ωk + (1+x)³Ωm + (1+x)⁴Ωr + ΩDE` |
| Cosmology.Curvature | ts/class/simulation/simulation_universe.js:329-339 | `Ωk` is 0 when the universe is flat; otherwise it closes the budget `Ωm + Ωr + ΩDE + Ωk = 1` |
| Cosmology.DYCosmologicalConstant | ts/class/simulation/simulation_universe.js:378-382 | for a cosmological constant, both revisions of `dY` vanish |
| Cosmology.AccelerationCosmologicalConstant | ts/class/simulation/simulation_universe.js:721-729 | with a cosmological constant, `a'' = -Ωr/a³ - Ωm/(2a²) + ΩDE·a` |
| Cosmology.AccelerationWithSquareCosmologicalConstant | js/class/simulation/simulation_universe.js:510-518 | the older `equa_diff_a`, with a cosmological constant, is `-(Ωr + Ωm/2)/a² + ΩDE·a` |
| Cosmology.EnergyIsScaledFriedmann | ts/class/simulation/simulation_universe.js:389-394 | for every equation of state, `a'² = a²·F(1/a - 1) = Ωr/a² + Ωm/a + Ωk + ΩDE·a²·Y(a)` |
| Cosmology.Energy | ts/class/simulation/simulation_universe.js:389-394 | `Ωr/a² + Ωm/a + Ωk + ΩDE·a²·Y(a)`, the right-hand side of the Friedmann equation for `a'²` in units of `H0` |
| Cosmology.EnergyCosmologicalConstant | ts/class/simulation/simulation_universe.js:389-394 | for a cosmological constant, `a'²` is the rational function `Ωr/a² + Ωm/a + Ωk + ΩDE·a²` |
| Cosmology.EnergySlope | ts/class/simulation/simulation_universe.js:721-729 | the chord slope `-Ωr(a + b)/(a²b²) - Ωm/(ab) + ΩDE(a + b)` of the rational `a'²` between `a` and `b` |
| Cosmology.EnergyChord | ts/class/simulation/simulation_universe.js:721-729 | for a cosmological constant only (`w0 = -1`, `w1 = 0`), `EnergySlope` is the chord slope of `a'²` between two scale factors |
| Cosmology.AccelerationIsHalfEnergySlope | ts/class/simulation/simulation_universe.js:721-729 | for a cosmological constant only (`w0 = -1`, `w1 = 0`), the current `equa_diff_a` is half the derivative of `a'²` with respect to `a`, i.e. consistent with the Friedmann equation |
| Cosmology.AccelerationIsHalfEnergyRate | ts/class/simulation/simulation_universe.js:721-729 | for every equation of state, `2a''` is the exact slope of the radiation and matter terms of `a'²` plus the product rule `ΩDE(2a·Y + a²·dY)` on its dark-energy term, with `dY` (lines 378-382) in the place of `Y'` |
| Cosmology.AccelerationWithSquareIsNotHalfEnergySlope | js/class/simulation/simulation_universe.js:510-518 | the older form is not: at `Ωr = 1`, `a = 2` it gives `-1/4` where `-1/8` is due |
| Cosmology.CurvedFacts | ts/class/simulation/simulation_universe.js:584-600 | the curvature correction leaves the distance unchanged in a flat universe, and keeps a zero distance at zero in every geometry |
| Cosmology.DurationSubstitution | ts/class/simulation/simulation_universe.js:541-551 | with `x = y/(1 - y)` and `s = √F(x)`: `((1 - y)/(1 - y)²)/s` is `(1/(1 + x))/s` times the Jacobian `1/(1 - y)²`, and over `H0` it is `1/(H0(1 + x)s)` times the same Jacobian |
| Cosmology.ShiftRoundTrip | ts/class/simulation/simulation_universe.js:569-578 | the bound `z/(1 + z)` that `duration` integrates to is mapped back to `z` by `y/(1 - y)`, for every `z ≠ -1` |
| Cosmology.Curved | ts/class/simulation/simulation_universe.js:584-600 | the curvature correction: `sinh(√\|Ωk\|·d)/√\|Ωk\|` for `Ωk < 0`, `sin(√\|Ωk\|·d)/√\|Ωk\|` for `Ωk > 0`, `d` when flat |
| Cosmology.LuminosityIsSquareTimesAngular | ts/class/simulation/simulation_universe.js:607-630 | Etherington's relation: `d_L = (1 + z)²·d_A` |
| Cosmology.BrightnessInverseSquare | ts/class/simulation/simulation_universe.js:646-664 | brightness times the squared luminosity distance gives back the intensity `I` of `luminosity(I)` |
| Cosmology.ApparentDiameterTimesAngular | ts/class/simulation/simulation_universe.js:672-681 | apparent diameter × angular-diameter distance = linear diameter |
| UniverseSeries.StepsLeftDecreases | ts/class/simulation/simulation_universe.js:229-245 | every in-range step brings the `x`-guarded march one step closer to leaving the interval, so both loops stop for a non-zero step |
| UniverseSeries.Series1Steps | ts/class/simulation/simulation_universe.js:229-245 | every entry right of the seed is `runge_kutta_equation_order1(step)` of its left neighbour; every entry left of it is the `-step` image of its right neighbour |
| UniverseSeries.Shape1Push | ts/class/simulation/simulation_universe.js:230-232 | a forward `push` keeps the series shape |
| UniverseSeries.Shape1Unshift | ts/class/simulation/simulation_universe.js:241-243 | a backward `unshift` keeps the shape, moves the seed one index right, and keeps the interior in range |
| UniverseSeries.March1Forward | ts/class/simulation/simulation_universe.js:229-234 | the forward loop keeps the shape, stays in range before its last entry, and ends just outside the interval |
| UniverseSeries.March1Backward | ts/class/simulation/simulation_universe.js:240-245 | the backward loop keeps the shape and the seed, keeps the interior in range, and ends with both ends outside |
| UniverseSeries.RungeKuttaUniverse1 | ts/class/simulation/simulation_universe.js:221-250 | `runge_kutta_universe_1` returns an RK4 series through the seed: interior entries in range, both ends outside, one point exactly when the seed is outside, and reaching past both ends for a positive step |
| UniverseSeries.Series2Steps | ts/class/simulation/simulation_universe.js:272-290 | every entry is `runge_kutta_equation_order2` of its neighbour (`+step` right of the seed, `-step` left of it), derivative included |
| UniverseSeries.Shape2Push | ts/class/simulation/simulation_universe.js:273-276 | a forward `push` of `(x, y, dy)` keeps the shape |
| UniverseSeries.Shape2Unshift | ts/class/simulation/simulation_universe.js:285-288 | a backward `unshift` keeps the shape and moves the seed one index right |
| UniverseSeries.March2Forward | ts/class/simulation/simulation_universe.js:272-278 | the forward loop keeps the shape, with `y` in range before the last entry; stopping before its fuel means `y` left the interval |
| UniverseSeries.March2Backward | ts/class/simulation/simulation_universe.js:284-290 | the backward loop keeps the shape, the seed and the last entry; stopping before its fuel means the first `y` is out of range |
| UniverseSeries.RungeKuttaUniverse2 | ts/class/simulation/simulation_universe.js:263-296 | `runge_kutta_universe_2` returns an RK4 series of `(y, y')` through the seed, with the interior `y` in range and out-of-range ends wherever the fuel was not exhausted |
| UniverseSeries.RescaleToYears | ts/class/simulation/simulation_universe.js:490-492 | each abscissa `τ` is replaced in place by `(τ/H0 + age)` seconds, in years |
| UniverseSeries.RescaledGrid | ts/class/simulation/simulation_universe.js:490-492 | the rescaled abscissae form a grid of spacing `step/H0` seconds, in years |
| UniverseTs.OmegaRFlags | ts/class/simulation/simulation_universe.js:314-324 | `Ωr` is 0 without CMB, carries the factor 1.68 with neutrinos, and does not depend on the matter, dark energy or flatness |
| UniverseTs.F | ts/class/simulation/simulation_universe.js:389-394 | `F(x) = Ωr(1+x)⁴ + Ωm(1+x)³ + Ωk(1+x)² + ΩDE·Y(x)`, with this universe's `Ωr` and `Ωk` |
| UniverseTs.SumOmegas | ts/class/simulation/simulation_universe.js:345-359 | the budget that `check_sum_omegas` checks sums to 1 in a curved universe, and to `Ωm + Ωr + ΩDE` in a flat one |
| UniverseTs.FToday | ts/class/simulation/simulation_universe.js:389-394 | `F(0)` equals the budget's sum, so it is 1 in a curved universe |
| UniverseTs.FunctionE | ts/class/simulation/simulation_universe.js:404-408 | `function_E(0) = 1` for any parameters |
| UniverseTs.E | ts/class/simulation/simulation_universe.js:404-408 | `E(z)` is `function_E` with this universe's `Ωm`, `ΩDE` and `Ωr` |
| UniverseTs.T | ts/class/simulation/simulation_universe.js:414-416 | `T(z) = T0(1 + z)` |
| UniverseTs.H | ts/class/simulation/simulation_universe.js:421-426 | `H(z) = H0·√E(z)` |
| UniverseTs.TemperatureScales | ts/class/simulation/simulation_universe.js:414-416 | `T(0)` is today's temperature, and `T` grows linearly with `z` |
| UniverseTs.HubbleToday | ts/class/simulation/simulation_universe.js:421-426 | `H(0) = H0` |
| UniverseTs.ShiftsToday | ts/class/simulation/simulation_universe.js:431-470 | at `z = 0`, each shifted density parameter is the present one |
| UniverseTs.ShiftsSumToOne | ts/class/simulation/simulation_universe.js:431-470 | when `Ωk` closes the budget, the four shifted parameters sum to 1 wherever `E(z) ≠ 0` |
| UniverseTs.CurvedShiftsSumToOne | ts/class/simulation/simulation_universe.js:431-470 | in a curved universe, the shifted parameters sum to 1 at every redshift with `E(z) ≠ 0` |
| UniverseTs.IntegralDurationSubstituted | ts/class/simulation/simulation_universe.js:699-702 | `((1 - y)/(1 - y)²)/√F(y/(1 - y))` |
| UniverseTs.UniverseAge | ts/class/simulation/simulation_universe.js:541-551 | Simpson's rule (the `i < n` form, 10000 intervals) on `integral_duration_substituated` over `[0, 1]`, divided by `H0` |
| UniverseTs.UniverseAgeSubstitution | ts/class/simulation/simulation_universe.js:541-551 | the integrand of `universe_age` over `H0` is `equa_diff_time` at `x = y/(1 - y)` times the Jacobian `1/(1 - y)²`, so `[0, 1)` in `y` covers `[0, ∞)` in `z` |
| UniverseTs.Duration | ts/class/simulation/simulation_universe.js:569-578 | `duration` fails exactly when a redshift is `<= -1` |
| UniverseTs.DurationSameShift | ts/class/simulation/simulation_universe.js:569-578 | no time passes between a redshift and itself |
| UniverseTs.MetricDistance | ts/class/simulation/simulation_universe.js:584-600 | Simpson's rule (100 intervals) on `1/√F` over `[0, z]`, corrected for curvature by `Cosmology.Curved`, times `c/H0` |
| UniverseTs.MetricDistanceToday | ts/class/simulation/simulation_universe.js:584-600 | the metric distance at `z = 0` is 0 |
| UniverseTs.LightDistance | ts/class/simulation/simulation_universe.js:636-640 | `light_distance` fails exactly when `z <= -1` |
| UniverseTs.EquaDiffA | ts/class/simulation/simulation_universe.js:721-729 | `a''` is `Cosmology.Acceleration` with this universe's parameters; `τ` and `a'` are not read |
| UniverseTs.EquaDiffACosmologicalConstant | ts/class/simulation/simulation_universe.js:721-729 | with a cosmological constant, `equa_diff_a` is `-Ωr/a³ - Ωm/(2a²) + ΩDE·a`, half the slope of `a'²` |
| UniverseTs.EquaDiffTime | ts/class/simulation/simulation_universe.js:738-740 | `dt/dz = 1/(H0(1 + z)√F(z))` |
| UniverseTs.CubedSharesAdd | ts/class/simulation/simulation_universe.js:499-518 | the scaled entries of `compute_omegas` add up like their parameters |
| UniverseTs.OmegaAtToday | ts/class/simulation/simulation_universe.js:499-518 | in a curved universe, `compute_omegas` at `z = 0` returns the present parameters |
| UniverseTs.OmegaAtSum | ts/class/simulation/simulation_universe.js:499-518 | the four entries at `z` sum to `(1+z)³·ΣΩ/F(z)`, not to 1 |
| UniverseTs.Corrected | ts/class/simulation/simulation_universe.js:345-359 | after `check_sum_omegas`, a flat universe's budget sums to 1; only the chosen parameter changes; a closed budget is left alone |
| UniverseTs.CorrectedIsFinal | ts/class/simulation/simulation_universe.js:345-359 | a corrected state needs no further correction, so the setter/check recursion stops after one round |
| UniverseTs.DarkEnergyModifiedFacts | ts/class/simulation/simulation_universe.js:163-174 | a new dark-energy value is stored and keeps a flat budget closed; `w0` and `w1` change only as told |
| UniverseTs.PositiveStep | ts/class/simulation/simulation_universe.js:526-536 | the step of `time` is positive on a non-empty interval |
| UniverseTs.Universe.constructor | ts/class/simulation/simulation_universe.js:59-85 | the given fields, each argument left out taking its default (2.7255 K, 67.74, 0.3089, CMB and neutrinos on, not flat), the default dark energy, and `H0` also stored converted to 1/s |
| UniverseTs.Universe.CheckSumOmegas | ts/class/simulation/simulation_universe.js:345-359 | reports whether a flat budget was open, and leaves the `Corrected` state |
| UniverseTs.Universe.SetMatterParameter | ts/class/simulation/simulation_universe.js:115-118 | stores the value, then re-closes the budget |
| UniverseTs.Universe.ModifyDarkEnergy | ts/class/simulation/simulation_universe.js:163-174 | the new state is `DarkEnergyModified` of the old |
| UniverseTs.Universe.SetTemperature | ts/class/simulation/simulation_universe.js:91-94 | stores the value, then re-closes the budget |
| UniverseTs.Universe.SetHubble | ts/class/simulation/simulation_universe.js:99-102 | stores the value (leaving the 1/s field stale), then re-closes the budget |
| UniverseTs.Universe.SetH0Parsec | ts/class/simulation/simulation_universe.js:107-110 | stores the value, then re-closes the budget |
| UniverseTs.Universe.SetHasCmb | ts/class/simulation/simulation_universe.js:131-134 | stores the flag, then re-closes the budget |
| UniverseTs.Universe.SetHasNeutrino | ts/class/simulation/simulation_universe.js:139-142 | stores the flag, then re-closes the budget |
| UniverseTs.Universe.SetIsFlat | ts/class/simulation/simulation_universe.js:147-150 | stores the flag, then re-closes the budget |
| UniverseTs.Universe.ModifyConstants | ts/class/simulation/simulation_universe.js:184-209 | each constant given is replaced and the rest is unchanged; the year-type argument changes nothing |
| UniverseTs.Universe.ComputeScaleFactor | ts/class/simulation/simulation_universe.js:478-494 | an RK4 series of `a'' = equa_diff_a` through `(0, 1, 1)`, with each `τ` turned into years, the seed at the universe's age, and a grid of spacing `step/H0` |
| UniverseTs.Universe.Time | ts/class/simulation/simulation_universe.js:526-536 | fails exactly when `zmin <= -1`; otherwise the RK4 series of `dt/dz` through `(zmin, duration(0, zmin))` covering `[zmin, zmax]` |
| UniverseTs.Universe.ComputeOmegas | ts/class/simulation/simulation_universe.js:499-518 | four series, as long as the input, holding each parameter scaled by `(1+z)³/F(z)` |
| UniverseJs.OmegaRFlags | js/class/simulation/simulation_universe.js:258-275 | `Ωr` is non-zero only with both CMB and neutrinos, and then carries the factor 1.68 |
| UniverseJs.HubbleSi | js/class/simulation/simulation_universe.js:362 | `H0_si`, recomputed from `hubble_cst` by every formula |
| UniverseJs.F | js/class/simulation/simulation_universe.js:314-319 | `F` with `Ωk` closing the budget (lines 279-284), flat or not |
| UniverseJs.FToday | js/class/simulation/simulation_universe.js:314-319 | `F(0) = 1` in every universe of this revision, flat or not |
| UniverseJs.IntegralDuration | js/class/simulation/simulation_universe.js:480-482 | `(1/(1 + x))/√F(x)` |
| UniverseJs.IntegralDurationSubstituted | js/class/simulation/simulation_universe.js:490-493 | `((1 - y)/(1 - y)²)/√F(y/(1 - y))` |
| UniverseJs.DurationSubstitution | js/class/simulation/simulation_universe.js:490-493 | the substituted integrand at `y` is `integral_duration` at `x = y/(1 - y)` times the Jacobian `1/(1 - y)²` |
| UniverseJs.UniverseAge | js/class/simulation/simulation_universe.js:356-367 | Simpson's rule (the `i <= n` form, 100 intervals) on the substituted integrand over `[0, 1]`, divided by `H0_si` |
| UniverseJs.Duration | js/class/simulation/simulation_universe.js:374-381 | `duration` fails exactly when a redshift is `< -1` |
| UniverseJs.DurationAcceptsMinusOne | js/class/simulation/simulation_universe.js:374-381 | `z = -1` is accepted, and no time passes between a redshift and itself |
| UniverseJs.MetricDistance | js/class/simulation/simulation_universe.js:387-404 | Simpson's rule on `1/√F` over `[0, z]`, corrected for curvature, times `c/H0_si` |
| UniverseJs.EquaDiffA | js/class/simulation/simulation_universe.js:510-518 | `a''` is `Cosmology.AccelerationWithSquare` with this universe's parameters |
| UniverseJs.MetricDistanceToday | js/class/simulation/simulation_universe.js:387-404 | the metric distance at `z = 0` is 0 |
| UniverseJs.EquaDiffACosmologicalConstant | js/class/simulation/simulation_universe.js:510-518 | with a cosmological constant, this revision's `a''` is `-(Ωr + Ωm/2)/a² + ΩDE·a` |
| UniverseJs.EquaDiffTime | js/class/simulation/simulation_universe.js:526-529 | `dt/dz = 1/(H0_si(1 + z)√F(z))` |
| UniverseJs.RungeKuttaUniverse2 | js/class/simulation/simulation_universe.js:225-254 | the march as written: the series shape with the `y`-for-derivative stepper, so every derivative except the seed's equals its `y` |
| UniverseJs.LostDerivativeCounterexample | js/class/simulation/simulation_universe.js:236-239 | with no acceleration, RK4 keeps `a' = 1` over a unit step, while this revision records `a' = 2` |
| UniverseJs.PositiveStep | js/class/simulation/simulation_universe.js:341-351 | the step of `time` is positive on a non-empty interval |
| UniverseJs.Universe.constructor | js/class/simulation/simulation_universe.js:59-78 | the given fields, each argument left out taking its default (2.7255 K, 67.74, 0.3089, CMB and neutrinos on, not flat), and the default dark energy |
| UniverseJs.Universe.SetTemperature | js/class/simulation/simulation_universe.js:84-86 | stores the value and nothing else |
| UniverseJs.Universe.SetHubble | js/class/simulation/simulation_universe.js:91-93 | stores the value and nothing else |
| UniverseJs.Universe.SetMatterParameter | js/class/simulation/simulation_universe.js:98-100 | stores the value and nothing else |
| UniverseJs.Universe.SetHasCmb | js/class/simulation/simulation_universe.js:113-115 | stores the flag and nothing else |
| UniverseJs.Universe.SetHasNeutrino | js/class/simulation/simulation_universe.js:120-122 | stores the flag and nothing else |
| UniverseJs.Universe.SetIsFlat | js/class/simulation/simulation_universe.js:127-129 | stores the flag and nothing else |
| UniverseJs.Universe.ModifyDarkEnergy | js/class/simulation/simulation_universe.js:142-152 | each dark-energy field given is replaced and the rest is unchanged |
| UniverseJs.Universe.ModifyConstants | js/class/simulation/simulation_universe.js:161-174 | each constant given is replaced and the rest is unchanged |
| UniverseJs.Universe.ComputeATau | js/class/simulation/simulation_universe.js:331-333 | this revision's march from `(0, 1, 1)` on `[0, 5)`, each derivative except the seed's being its `y` |
| UniverseJs.Universe.Time | js/class/simulation/simulation_universe.js:341-351 | fails exactly when `zmin < -1`; otherwise the RK4 series of `dt/dz` through `(zmin, duration(0, zmin))` |
| UniverseSrc.OmegaRFlags | src/main.js:351-367 | `Ωr` is non-zero only with both CMB and neutrinos, carries 1.68, and does not depend on the other parameters |
| UniverseSrc.F | src/main.js:425-430 | `F` with this universe's `Ωr` and `Ωk` |
| UniverseSrc.SumOmegas | src/main.js:382-395 | the checked budget is 1 in a curved universe, and `Ωm + Ωr + ΩDE` in a flat one |
| UniverseSrc.FToday | src/main.js:425-430 | `F(0)` is the budget's sum: 1 in a curved universe |
| UniverseSrc.Checked | src/main.js:382-395 | after the check the budget sums to 1; only the chosen parameter changes; a closed budget is left alone |
| UniverseSrc.CheckedIsIdempotent | src/main.js:382-395 | checking twice changes nothing more than checking once |
| UniverseSrc.IntegralDuration | src/main.js:594-596 | `(1/(1 + x))/√F(x)` |
| UniverseSrc.IntegralDurationSubstituted | src/main.js:604-607 | `((1 - y)/(1 - y)²)/√F(y/(1 - y))` |
| UniverseSrc.DurationSubstitution | src/main.js:604-607 | the substituted integrand at `y` is `integral_duration` at `x = y/(1 - y)` times the Jacobian `1/(1 - y)²` |
| UniverseSrc.UniverseAge | src/main.js:472-482 | Simpson's rule (100 intervals) on the substituted integrand over `[0, 1]`, divided by `H0` |
| UniverseSrc.Duration | src/main.js:489-496 | `duration` fails exactly when a redshift is `<= -1` |
| UniverseSrc.DurationSameShift | src/main.js:489-496 | no time passes between a redshift and itself |
| UniverseSrc.MetricDistance | src/main.js:502-518 | Simpson's rule on `1/√F` over `[0, z]`, corrected for curvature, times `c/H0` |
| UniverseSrc.EquaDiffA | src/main.js:624-632 | `a''` is `Cosmology.AccelerationWithSquare` with this universe's parameters |
| UniverseSrc.MetricDistanceToday | src/main.js:502-518 | the metric distance at `z = 0` is 0 |
| UniverseSrc.EquaDiffACosmologicalConstant | src/main.js:624-632 | with a cosmological constant, `a'' = -(Ωr + Ωm/2)/a² + ΩDE·a` |
| UniverseSrc.EquaDiffTime | src/main.js:640-642 | `dt/dz = 1/(H0(1 + z)√F(z))` |
| UniverseSrc.PositiveStep | src/main.js:457-467 | the step of `time` is positive on a non-empty interval |
| UniverseSrc.Universe.constructor | src/main.js:152-171 | the given fields, each argument left out taking its default (2.7255 K, 67.74, 0.3089, CMB and neutrinos on, not flat), with `H0` stored converted to 1/s (line 166), and the default dark energy |
| UniverseSrc.Universe.SetTemperature | src/main.js:177-179 | stores the value and nothing else |
| UniverseSrc.Universe.SetHubble | src/main.js:184-186 | stores the value converted from km/s/Mpc to 1/s, and nothing else |
| UniverseSrc.Universe.SetMatterParameter | src/main.js:191-193 | stores the value and nothing else |
| UniverseSrc.Universe.SetHasCmb | src/main.js:206-208 | stores the flag and nothing else |
| UniverseSrc.Universe.SetHasNeutrino | src/main.js:213-215 | stores the flag and nothing else |
| UniverseSrc.Universe.SetIsFlat | src/main.js:220-222 | stores the flag and nothing else |
| UniverseSrc.Universe.ModifyDarkEnergy | src/main.js:235-245 | each dark-energy field given is replaced and the rest is unchanged |
| UniverseSrc.Universe.ModifyConstants | src/main.js:254-267 | each constant given is replaced and the rest is unchanged |
| UniverseSrc.Universe.CheckSumOmegas | src/main.js:382-395 | always returns `false`, and leaves the `Checked` state |
| UniverseSrc.Universe.ComputeATau | src/main.js:435-449 | an RK4 series of `a''` through `(0, 1, 1)`, with each `τ` turned into years, the seed at the age, and a grid of spacing `step/H0` |
| UniverseSrc.Universe.Time | src/main.js:457-467 | fails exactly when `zmin <= -1`; otherwise the RK4 series of `dt/dz` through `(zmin, duration(0, zmin))` covering `[zmin, zmax]` |
| Schwarzschild.AngularMomentum | js/class/simulation/schwarzschild.js:54-58 | `L = U_φ(0)·r(0)/c` |
| Schwarzschild.ExternalMassiveConstants | js/class/simulation/schwarzschild.js:54-58 | `[L, E]` with `E = √((U_r/c)² + (1 - R_s/r₀)(1 + (U_φ/c)²))` |
| Schwarzschild.ExternalPhotonConstants | js/class/simulation/schwarzschild.js:98-102 | `[L, E]` with `E = √((U_r/c)² + (1 - R_s/r₀)(U_φ/c)²)` |
| Schwarzschild.ExternalMassiveA | js/class/simulation/schwarzschild.js:69-71 | `d²r/dτ² = c²/(2r⁴)·(-R_s r² + (2r - 3R_s)L²)` |
| Schwarzschild.ExternalMassiveDO | js/class/simulation/schwarzschild.js:83-86 | the distant observer's `d²r/dt²` for a massive particle, with the factor `(r - R_s)` |
| Schwarzschild.ExternalPhotonA | js/class/simulation/schwarzschild.js:113-115 | `d²r/dλ² = c²/(2r⁴)·(2r - 3R_s)L²` |
| Schwarzschild.ExternalPhotonDO | js/class/simulation/schwarzschild.js:127-130 | the distant observer's `d²r/dt²` for a photon, with the factor `(r - R_s)` |
| Schwarzschild.Alpha | js/class/simulation/schwarzschild.js:146-148 | `α(r) = 1 - r²R_s/R³` |
| Schwarzschild.Beta | js/class/simulation/schwarzschild.js:158-160 | `β(r) = (3/2)√(1 - R_s/R) - (1/2)√(1 - r²R_s/R³)` |
| Schwarzschild.InternalMassiveConstants | js/class/simulation/schwarzschild.js:173-177 | `[L, E]` with `E = β₀/c·√(U_r²/α₀ + U_φ² + c²)` |
| Schwarzschild.InternalPhotonConstants | js/class/simulation/schwarzschild.js:206-210 | `[L, E]` with `E = β₀/c·√(U_r²/α₀ + U_φ²)` |
| Schwarzschild.InternalMassiveA | js/class/simulation/schwarzschild.js:192-195 | the interior massive-particle acceleration: tidal term times `(E/β)² - (L/r)² - 1`, plus the centrifugal term |
| Schwarzschild.InternalPhotonA | js/class/simulation/schwarzschild.js:225-228 | the interior photon acceleration: tidal term times `(E/β)² - (L/r)²`, plus the centrifugal term |
| Schwarzschild.SameAngularMomentum | js/class/simulation/schwarzschild.js:54-58 | the four integration-constant methods give the same `L`, with `L·c = U_φ·r0` |
| Schwarzschild.ExternalEnergyGap | js/class/simulation/schwarzschild.js:54-58 | outside `R_s`, the squared energies of a massive particle and a photon launched alike differ by `1 - R_s/r0` |
| Schwarzschild.ExternalMassiveIsPhotonPlusNewton | js/class/simulation/schwarzschild.js:69-71 | a massive particle's `d²r/dτ²` is a photon's plus the Newtonian pull `-c²R_s/(2r²)` |
| Schwarzschild.ExternalPhotonAZeros | js/class/simulation/schwarzschild.js:113-115 | a photon's radial acceleration vanishes exactly when `L = 0` or on the photon sphere `r = 3R_s/2` |
| Schwarzschild.DistantObserverVanishesAtHorizon | js/class/simulation/schwarzschild.js:83-86 | both distant-observer accelerations vanish on the horizon `r = R_s` |
| Schwarzschild.AlphaValues | js/class/simulation/schwarzschild.js:146-148 | `α(0) = 1`, and at the surface `α(R) = 1 - R_s/R` |
| Schwarzschild.BetaAtSurface | js/class/simulation/schwarzschild.js:158-160 | at the surface, `β(R) = √(1 - R_s/R) = √α(R)`: the interior metric meets the exterior one |
| Schwarzschild.InternalEnergyGap | js/class/simulation/schwarzschild.js:173-177 | inside the body, the squared energies of a massive particle and a photon differ by `β0²` |
| Schwarzschild.InternalMassiveMinusPhoton | js/class/simulation/schwarzschild.js:192-195 | the internal massive and photon accelerations differ by exactly the tidal term `c²rR_s/R³` |
| Kerr.Advance | js/class/simulation/kerr.js:184-208 | advancing a clock by `d` adds `d` to a finite reading and keeps an infinite one |
| Kerr.Delta | js/class/simulation/kerr.js:228-231 | `Δ(r) = (r - R_h+)(r - R_h-)` |
| Kerr.DeltaZeros | js/class/simulation/kerr.js:228-231 | `Δ(r)` vanishes exactly on the two horizons |
| Kerr.AngularMomentumWithoutRotation | js/class/simulation/kerr.js:239-247 | without rotation, the Kerr `L` is Schwarzschild's `U_φ r/c` |
| Kerr.MassiveEnergy | js/class/simulation/kerr.js:240-243 | as written, `E = √(U_r²(r - R_s)r³ + c²r(r - R_s)Δ + Δ²U_φ²)/(c²r²Δ)`: the root of the numerator only (see Findings) |
| Kerr.PhotonEnergy | js/class/simulation/kerr.js:328-330 | as written, `E = √(U_r²(r - R_s)r³ + Δ²U_φ²)/(c²r²Δ)`: the root of the numerator only (see Findings) |
| Kerr.MassiveEnergyCorrected | js/class/simulation/kerr.js:240-243 | the massive `E` with the root taken of the whole quotient, `√(N/(c²r²Δ))`; tied to Schwarzschild by EnergyCorrectedWithoutRotation |
| Kerr.PhotonEnergyCorrected | js/class/simulation/kerr.js:328-330 | the photon `E` with the root taken of the whole quotient; tied to Schwarzschild by EnergyCorrectedWithoutRotation |
| Kerr.EnergyCorrectedWithoutRotation | js/class/simulation/kerr.js:240-243 | without rotation (`a = 0`, `R_h+ = R_s`, `R_h- = 0`, `c ≠ 0`, `r ∉ {0, R_s}`) the corrected massive and photon `E` are exactly the `E` of `ESM_MP_integration_constants` and `ESM_PH_integration_constants` |
| Kerr.EnergyAsWrittenIsNotSchwarzschilds | js/class/simulation/kerr.js:328-330 | at `R_s = R_h+ = 1`, `R_h- = 0`, `r = 2`, `c = 1`, `U_r = 0`, the as-written `E` is `1/4` for a massive mobile at rest and for a photon with `U_φ = 1`, where Schwarzschild's `E² = 1/2` |
| Kerr.AngularMomentum | js/class/simulation/kerr.js:239-247 | `L = (ΔU_φ - R_s a c E)/(c(r - R_s))` |
| Kerr.MassivePotentialA | js/class/simulation/kerr.js:255-260 | `1 - R_s/r - (a²(E² - 1) - L²)/r² - R_s(L - aE)²/r³` |
| Kerr.PhotonPotentialA | js/class/simulation/kerr.js:341-345 | `-(a²E² - L²)/r² - R_s(L - aE)²/r³` |
| Kerr.MassivePotentialDO | js/class/simulation/kerr.js:268-278 | `E² - (c²E² - V_A)Δ²/(W²c²)` with the massive `V_A` |
| Kerr.PhotonPotentialDO | js/class/simulation/kerr.js:353-362 | the same with the photon's `V_A` |
| Kerr.PotentialGap | js/class/simulation/kerr.js:255-260 | a massive particle's astronaut potential exceeds a photon's by `1 - R_s/r + a²/r²` |
| Kerr.MassiveAAsWritten | js/class/simulation/kerr.js:290-294 | `KM_MP_trajectory_A` as written: `c²/(2r⁴)·(R_s r² + 2r(a²(E² - 1) - L²) + 3R_s(L - aE)²)` |
| Kerr.MassiveA | js/class/simulation/kerr.js:290-294 | the same with the leading minus of the photon and Schwarzschild formulas |
| Kerr.PhotonA | js/class/simulation/kerr.js:374-378 | `-c²/(2r⁴)·(2r(a²E² - L²) + 3R_s(L - aE)²)` |
| Kerr.MassiveDO | js/class/simulation/kerr.js:306-319 | the distant observer's massive acceleration, with `Δ` read at the mobile's stored radius |
| Kerr.PhotonDO | js/class/simulation/kerr.js:390-401 | the distant observer's photon acceleration, with `Δ` as in `MassiveDO` |
| Kerr.PhotonAZeroWhenLIsAE | js/class/simulation/kerr.js:374-378 | a photon with `L = aE` has no radial acceleration |
| Kerr.PhotonAWithoutRotation | js/class/simulation/kerr.js:374-378 | without rotation, the Kerr photon equation is Schwarzschild's |
| Kerr.MassiveAAsWrittenWithoutRotation | js/class/simulation/kerr.js:290-294 | without rotation, the massive equation as written is the negative of Schwarzschild's |
| Kerr.MassiveAAsWrittenRepels | js/class/simulation/kerr.js:290-294 | at `c = R_s = r = 1`, `L = 0`, the equation as written gives `+1/2` where Schwarzschild gives `-1/2` |
| Kerr.MassiveAWithoutRotation | js/class/simulation/kerr.js:290-294 | with the sign corrected, the massive equation without rotation is Schwarzschild's |
| Kerr.MassiveMinusPhoton | js/class/simulation/kerr.js:290-294 | with the sign corrected, massive minus photon is `-c²/(2r⁴)·(R_s r² - 2ra²)`: the Newtonian pull plus the spin term |
| Kerr.DistantObserverVanishesOnHorizon | js/class/simulation/kerr.js:306-319 | with the mobile stored on a horizon (`Δ = 0`), both distant-observer accelerations vanish |
| Kerr.Initialized | js/class/simulation/kerr.js:49-65 | initialisation changes exactly `U_r`, `U_φ`, `E` and `L`, which become the launch constants of the mobile's kind, radius and launch velocity |
| Kerr.FreeFallTime | js/class/simulation/kerr.js:74 | the free-fall time `π r √(√(r/(2GM)))/2` |
| Kerr.Clamped | js/class/simulation/kerr.js:72-96 | the capped time step never exceeds the cap, and equals the raw value when that is within the cap |
| Kerr.Dtau | js/class/simulation/kerr.js:72-96 | `dtau` is capped at a 500th of the free-fall time, except for a photon in the astronaut frame, which gets `0.001r/(\|U_r\| + \|U_φ\| + 1)` |
| Kerr.RightHandSide | js/class/simulation/kerr.js:106-123 | a right-hand side exists exactly for `"A"` and `"DO"`; it is `KM_MP_trajectory_A` as written (`MassiveAAsWritten`) for a massive mobile in `"A"` |
| Kerr.Trajectory | js/class/simulation/kerr.js:106-123 | the step exists exactly for `"A"` and `"DO"`, is the RK4 step of the as-written `RightHandSide` from `(0, r, U_r)`, and a zero step returns `(0, r, U_r)` |
| Kerr.RightHandSideCorrected | js/class/simulation/kerr.js:106-123 | the same selection with `Kerr.MassiveA` for a massive mobile in `"A"`; exists exactly for `"A"` and `"DO"` |
| Kerr.TrajectoryCorrected | js/class/simulation/kerr.js:106-123 | the RK4 step of the corrected right-hand side; it differs from `Trajectory` only for a massive mobile in `"A"`, where it integrates `Kerr.MassiveA` |
| Kerr.RightHandSideWithoutRotation | js/class/simulation/kerr.js:106-123 | on a non-rotating body the astronaut-frame right-hand side is Schwarzschild's for a photon, and the opposite of Schwarzschild's for a massive mobile as written; corrected, it is Schwarzschild's |
| Kerr.PhiStepA | js/class/simulation/kerr.js:137-140 | the astronaut-frame `φ` increment `c·dτ/Δ·(R_s aE/r + (1 - R_s/r)L)` at the new radius |
| Kerr.PhiStepDO | js/class/simulation/kerr.js:141-146 | the distant-observer `φ` increment `c·dτ·(R_s aE/r + (1 - R_s/r)L)/W` at the new radius |
| Kerr.NewPosition | js/class/simulation/kerr.js:130-147 | defined exactly for `"A"` and `"DO"`; changes only `r`, `U_r` and `φ`; the new `r` and `U_r` are those of the as-written `Trajectory`, and `φ` grows by `PhiStepA` or `PhiStepDO` at the new radius |
| Kerr.NewPositionCorrected | js/class/simulation/kerr.js:130-147 | the same update from `TrajectoryCorrected`; equal to `NewPosition` except for a massive mobile in `"A"` |
| Kerr.RadialMobileKeepsAngle | js/class/simulation/kerr.js:130-147 | on a non-rotating body a mobile with `L = 0` keeps its `φ` in both frames |
| Kerr.NoTurnWithoutRotation | js/class/simulation/kerr.js:137-146 | without rotation and with `L = 0`, both `φ` increments are 0 |
| Kerr.NewPositionZeroStep | js/class/simulation/kerr.js:130-147 | a zero step leaves the mobile where it is, wherever the `φ` divisor is non-zero |
| Kerr.Velocity | js/class/simulation/kerr.js:152-178 | only `v_r`, `v_φ` and `v_norm` change |
| Kerr.VelocityNorm | js/class/simulation/kerr.js:152-178 | `v_norm ≥ 0` and `v_norm² = v_r² + v_φ²`, with `v_r ≥ 0` |
| Kerr.FarClockStepAsWritten | js/class/simulation/kerr.js:193-194 | the far-clock increment as written: `dτ((r² + a² + R_s a²/E) - R_s aL/r)/Δ` |
| Kerr.OwnClockStepAsWritten | js/class/simulation/kerr.js:204-205 | the own-clock increment as written: `dτΔ/((r² + a²/r)E - R_s aL/r)` |
| Kerr.FarClockStep | js/class/simulation/kerr.js:193-194 | the time dilation `dτ·W/Δ` the far clock should gain |
| Kerr.OwnClockStep | js/class/simulation/kerr.js:204-205 | its inverse `dt·Δ/W` for the own clock |
| Kerr.FarClockStepAsWrittenMissesEnergy | js/class/simulation/kerr.js:193-194 | on a Schwarzschild body, the astronaut-frame far clock as written advances 2 where the time dilation gives 4 |
| Kerr.OwnClockStepAsWrittenDiffers | js/class/simulation/kerr.js:204-205 | with rotation, the distant-observer-frame own clock as written differs from `dτ·Δ/W` |
| Kerr.ClockStepsAreInverse | js/class/simulation/kerr.js:184-208 | the corrected far-clock and own-clock conversions are inverse to each other off the horizons |
| Kerr.FarClockStepWithoutRotation | js/class/simulation/kerr.js:193-194 | on a Schwarzschild body, the corrected far clock runs at `E/(1 - R_s/r)` |
| Kerr.Clocks | js/class/simulation/kerr.js:184-208 | only the two clocks change. In `"A"` photons keep theirs; a massive mobile's own clock gains `dtau`, and its far clock gains `FarClockStepAsWritten` or becomes infinite exactly on or inside the outer horizon. In `"DO"` the far clock gains `dtau`, and a massive mobile on or outside the horizon has its own clock advanced by `OwnClockStepAsWritten` |
| Kerr.ClocksCorrected | js/class/simulation/kerr.js:184-208 | the same update with `FarClockStep` and `OwnClockStep`; it agrees with `Clocks` on every clock that is not converted |
| Kerr.FarClockStepsWithoutRotation | js/class/simulation/kerr.js:193-194 | on a Schwarzschild body the as-written far-clock increment lacks exactly the factor `E` of the time dilation |
| Kerr.Simulation.constructor | js/class/simulation/kerr.js:39-41 | stores the body, the constants and the mobile list |
| Kerr.Simulation.MobileInitialization | js/class/simulation/kerr.js:49-65 | every mobile of the list ends in its `Initialized` state, and no other field changes |
| Kerr.Simulation.Launch | js/class/simulation/kerr.js:50-64 | one mobile gets the launch constants of its own kind, radius and velocity |
| Kerr.Simulation.MobileDtau | js/class/simulation/kerr.js:72-96 | every mobile gets the `Dtau` of its old state, and nothing else changes |
| Kerr.Simulation.MobileNewPosition | js/class/simulation/kerr.js:130-147 | succeeds exactly for `"A"` and `"DO"`, leaving the mobile in the as-written `NewPosition` state; otherwise changes nothing |
| Kerr.Simulation.MobileVelocity | js/class/simulation/kerr.js:152-178 | the mobile is left in its `Velocity` state |
| Kerr.Simulation.MobileClocks | js/class/simulation/kerr.js:184-208 | the mobile is left in its as-written `Clocks` state |
| KerrTs.DeltaR | ts/class/simulation/kerr.ts:35-38 | `KM_delta_r(R_h+, R_h-, r) = (r - R_h+)(r - R_h-)` |
| KerrTs.DeltaRShape | ts/class/simulation/kerr.ts:35-38 | `KM_delta_r` is the js `Δ`: zero exactly on the horizons, symmetric in them, negative between them |
| KerrTs.MassiveA | ts/class/simulation/kerr.ts:55-58 | the massive acceleration with every quantity a parameter |
| KerrTs.PhotonA | ts/class/simulation/kerr.ts:80-83 | the photon acceleration with every quantity a parameter |
| KerrTs.MassiveAIsJavaScripts | ts/class/simulation/kerr.ts:55-58 | the TypeScript massive equation is the js one as written, sign included, and so without rotation it is the negative of Schwarzschild's |
| KerrTs.PhotonAIsJavaScripts | ts/class/simulation/kerr.ts:80-83 | the TypeScript photon equation is the js one; it vanishes for `L = aE`, and is Schwarzschild's without rotation |

## Findings

| source | as written | input that shows it | evidently intended | confidence | as-written member | corrected member |
|---|---|---|---|---|---|---|
| js/class/simulation/simulation_universe.js:510-518 | `equa_diff_a` divides the radiation term by `a²`; src/main.js:624-632 does the same | `Ωr = 1`, `Ωm = ΩDE = 0`, `a = 2`: `-1/4`, where the Friedmann equation requires `-1/8` | `-Ωr/a³`, as in ts/class/simulation/simulation_universe.js:721-729 | not executed | Cosmology.AccelerationWithSquareIsNotHalfEnergySlope | Cosmology.AccelerationIsHalfEnergySlope |
| js/class/simulation/simulation_universe.js:236-239 | `runge_kutta_universe_2` stores the new `y` where the new derivative belongs (`yp.push(result[1])`, and the same with `unshift` at line 250) | no acceleration, seed `(0, 1, 1)`, step 1: RK4 gives `a' = 1`, the series records `a' = 2` | store `result[2]`, as in the later revisions | not executed | UniverseJs.LostDerivativeCounterexample | UniverseSeries.RungeKuttaUniverse2 |
| js/class/simulation/kerr.js:290-294 | `KM_MP_trajectory_A` has the opposite overall sign of the photon and Schwarzschild formulas | `c = R_s = r = 1`, `a = L = 0`: `+1/2` (outward), where Schwarzschild gives `-1/2` | a leading minus, as in `KM_PH_trajectory_A` (374-378) and `ESM_MP_trajectory_A` | not executed | Kerr.MassiveAAsWrittenRepels | Kerr.MassiveAWithoutRotation |
| js/class/simulation/kerr.js:193-194 | the astronaut-frame far-clock step divides `R_s a²` by `E` instead of by `r`, and never multiplies by `E` | `R_s = 1`, `a = 0`, `r = 2`, `E = 2`, `dτ = 1`: 2, where the time dilation gives 4 | `dτ·W/Δ`, with `W = (r² + a² + R_s a²/r)E - R_s aL/r` | not executed | Kerr.FarClockStepAsWrittenMissesEnergy | Kerr.FarClockStepWithoutRotation |
| js/class/simulation/kerr.js:204-205 | the distant-observer-frame own-clock step uses `(r² + a²/r)E` in place of `(r² + a² + R_s a²/r)E` | `R_s = 2`, `a = 0.8`, `r = 2`, `E = 1`, `L = 0`: denominator 4.32, where `W = 5.28` | `dt·Δ/W`, the inverse of the far-clock step | not executed | Kerr.OwnClockStepAsWrittenDiffers | Kerr.ClockStepsAreInverse |
| js/class/simulation/kerr.js:240-243 | `KM_MP_integration_constants` and `KM_PH_integration_constants` (328-330) take the square root of the numerator only, `√N/(c²r²Δ)`, so `E` is not dimensionless (lines 216-217 say it is) | `R_s = R_h+ = 1`, `a = R_h- = 0`, `r = 2`, `c = 1`, `U_r = U_φ = 0` (massive) or `U_φ = 1` (photon): `E = 1/4`, where Schwarzschild's `E² = 1/2` | `√(N/(c²r²Δ))`, which without rotation is the `E` of `ESM_MP_integration_constants` and `ESM_PH_integration_constants` | not executed | Kerr.EnergyAsWrittenIsNotSchwarzschilds | Kerr.EnergyCorrectedWithoutRotation |

Where each finding is used:

- `UniverseTs` uses `Cosmology.Acceleration`.
- `UniverseTs` and `UniverseSrc` use `UniverseSeries.RungeKuttaUniverse2`. The as-written `UniverseJs` revision keeps its own forms: `Cosmology.AccelerationWithSquare` and `UniverseJs.RungeKuttaUniverse2`.
- The Kerr mobile updates are modelled as written. `Kerr.RightHandSide`, `Kerr.Trajectory`, `Kerr.NewPosition` and `Kerr.Simulation.MobileNewPosition` integrate `Kerr.MassiveAAsWritten`. `Kerr.Clocks` and `Kerr.Simulation.MobileClocks` advance by `Kerr.FarClockStepAsWritten` and `Kerr.OwnClockStepAsWritten`.
- `Kerr.LaunchConstants`, `Kerr.Initialized` and `Kerr.Simulation.MobileInitialization` compute `E` as written, with `Kerr.MassiveEnergy` and `Kerr.PhotonEnergy`. The corrected `Kerr.MassiveEnergyCorrected` and `Kerr.PhotonEnergyCorrected` sit next to them.
- The corrected Kerr updates sit next to them: `Kerr.RightHandSideCorrected`, `Kerr.TrajectoryCorrected`, `Kerr.NewPositionCorrected` and `Kerr.ClocksCorrected`. Each states where it differs from its as-written twin.
- The intended properties are proved of the corrected formulas: `Kerr.EnergyCorrectedWithoutRotation` (Schwarzschild's `E` without rotation), `Kerr.MassiveAWithoutRotation` and `Kerr.RightHandSideWithoutRotation` (Schwarzschild's equation without rotation), `Kerr.FarClockStepWithoutRotation` (the time dilation `E/(1 - R_s/r)`) and `Kerr.ClockStepsAreInverse`.

## Left out

**Floating point and special values**
- IEEE floating point: rounding, overflow, NaN and the infinities are not modelled. Numbers are exact reals, and a division by zero is an unspecified value (`Math.Div`).
- The `isNaN(age)` fallback to 0 in `compute_scale_factor` is not modelled, because NaN is not modelled. The same holds for the NaN and Infinity that `mobile_clocks` and the distances rely on. Kerr's infinite clock is modelled explicitly as `Clock.Infinite`.
- `Math.pow(function_E(z), 0.5)` in `H` (ts/class/simulation/simulation_universe.js:425) is modelled as `Math.sqrt`. `function_E` can be negative (for instance `Ωm = 3`, `ΩDE = 0`, no CMB, `z = -0.5` gives `-0.125`); there the source returns NaN and the model an unspecified value.

**`this` and missing constants**
- `this` is unbound in the integration callbacks (`equa_diff_time` reads `this.hubble_cst`; the Kerr right-hand sides read `this.central_body`). The model passes the universe and the body explicitly, as evidently intended.
- schwarzschild.js never imports `c`, and kerr.ts uses `c` without defining it: `c` is a parameter.
- kerr.ts: `KM_PM_integration_constants` refers to undefined names, and the distant-observer and photon-constant methods are empty. Only `KM_delta_r` and the two astronaut-frame accelerations are modelled.

**Calls that do not match the integrator's signature**
- js/class/simulation/simulation_universe.js calls `simpson` and `runge_kutta_equation_order1` without the leading object argument, which its own integrator expects. The model uses the signature they match: simulation.ts's `simpson` (`i <= n`) and the first-order step.
- `UniverseSeries.RungeKuttaUniverse2`, `UniverseSeries.March2Forward`, `UniverseSeries.March2Backward`, `UniverseTs.Universe.ComputeScaleFactor`, `UniverseSrc.Universe.ComputeATau`, `UniverseJs.RungeKuttaUniverse2` and `UniverseJs.Universe.ComputeATau` take a `fuel` bound: at most that many steps are taken in each direction. The source's loops are guarded only by `y` staying in range, and `y` may never leave it, so the source may loop forever where the model stops.

**Properties proved in a restricted form**
- Cosmology.AccelerationIsHalfEnergySlope: proved for a cosmological constant only (`w0 = -1`, `w1 = 0`). For other equations of state `Y` involves `exp` and `log`, which are uninterpreted here, so the derivative of `Y` is not available. `Cosmology.AccelerationIsHalfEnergyRate` states the relation for every equation of state, with `dY` in the place of `Y'`. `Cosmology.EnergyIsScaledFriedmann` holds for every equation of state.
- Cosmology.EnergyChord: proved for a cosmological constant only, for the same reason.

**Caller obligations added by the model**
- `UniverseSeries.RungeKuttaUniverse1` requires a non-zero step when the seed is in range, because the source loops forever there.
- `UniverseTs.Universe.Time` and the other revisions' `Time` require `n > 0`. With `n = 0` the step is a division by zero and the source loops forever or returns a single point.

**Kerr operations**
- mobile_trajectory: passes an undefined abscissa to the integrator. The model passes 0, which no right-hand side reads.
- mobile_new_position: throws (reading `undefined`) for an unknown frame. The model returns `None` / `false` and changes nothing.

**Behaviour modelled as written, but not proved desirable**
- ts/class/simulation/simulation_universe.js:
  - The `hubble_cst` setter does not refresh `_H0parsec`: `UniverseTs.Universe.SetHubble`.
  - `compute_omegas` scales all four parameters by `(1+z)³` (`UniverseTs.OmegaAtSum`).
  - The `H0parsec` and `is_flat` getters call themselves. The model reads the fields instead.
- The year-type argument of `modify_constants` is assigned inside an `if` test and never used, so it changes nothing: `UniverseTs.Universe.ModifyConstants`.
- `modify_constants` does not re-check the budget, although the constants enter `Ωr`.

**Operations not modelled**
- `get_interval_a` returns an empty array; `compute_a_tau` in src/main.js also writes to the console.
- `emission_age`, `calcul_rho_lambda` and `calcul_rho_m` (ts/class/simulation/simulation_universe.js:302-309, 555-562) are not part of this model. They are not used by the modelled operations.
- `Kerr.Mobile.constructor` follows the `Mobile` constructor of the TypeScript revision (ts/class/simulation/simulation objects/mobile.js:26-43), the only one that sets the velocity and the clocks that kerr.js reads. The plain-JavaScript `Mobile` (js/class/simulation/simulation objects/mobile.js:17-22) sets only the kind, a collision flag, `r` and `φ`; with it the first `clock_a += dtau` of kerr.js would give NaN. That revision is not modelled.
- Kerr.Created and Kerr.Mobile.constructor have no row in the model table above, because their source, ts/class/simulation/simulation objects/mobile.js:26-43, sits in a directory whose name contains a space, which the table's path format cannot hold. `Created` ensures both angles are converted from degrees, `L = E = 0`, both clocks start at 0 and `v_φ = v_r·sin(v_α)`; a photon's `v_r` and `v_norm` are `c`, and a massive mobile's `v_norm` is the non-negative Euclidean norm of `(v_r, v_φ)`. `Mobile.constructor` ensures the new mobile is in the `Created` state.
- Kerr.Created: the mobile's `id` is not modelled, and `U_r`, `U_φ` and `dtau`, which the constructor leaves undefined, start at 0; `mobile_initialization` and `mobile_dtau` overwrite them before they are read.
- `add_mobile` and the `Simulation_trajectory` base class are not part of this model. The list of mobiles is a field set by the constructor.
- js/class/simulation/schwarzschild.js has no mobile-level loop; only its closed-form methods are modelled.
- Graphics, animation and the user interface are not part of this model.
