# Epidemic and rumour dashboards: a verified model of the page callbacks

The repository is a teaching dashboard built with Dash. This project models
the five page callbacks that compute something. Each module models one page.

- **Sir**, from `pages/pag4.py`, and **Seir**, from `pages/pag5.py`: compartment
  simulators.
  - Numeric fields default through Python truthiness (`x or d`), so an empty
    field and a zero both take the default. `tmax` is then cut to an integer.
  - Arrays of length `tmax` are filled by one explicit Euler step per day.
    Every increment of day `k` reads only day `k - 1`.
  - The page reports the first day of the infection peak (`np.argmax`),
    `int(max(I))` and `beta / gamma`.
  - The simulation is a `method` with a `for` loop over local arrays. It is
    proved equal to a reference function `StateAt`. Conservation, positivity,
    monotonicity and threshold behaviour are proved about `StateAt`.
- **Exponential**, from `pages/pag3.py`:
  - `actualizar_grafica` parses, defaults and clamps `P0`, `r` and `t_max`. It
    samples `P0 * exp(r * t)` on a 15-point grid and sets the y-axis top. It
    places two annotations and writes their texts.
  - `sync_all` picks each value from the typed field or from its slider, and
    writes each value back to both, with a formatted label.
- **RumorMassAction**, from `pages/z_Proyecto2.1.py`:
  - Seven fields are defaulted, and the rumour system is handed to `odeint` on
    500 points.
  - The page marks the first time of the spreaders' peak and labels it with
    one decimal.
- **RumorRateRatio**, from `pages/z_Proyecto2.2.py`:
  - Nothing is computed when any field is empty. Unlike the other pages, zero
    is accepted.
  - Otherwise the system is integrated on 300 points, and the message gives
    the peak number of spreaders to two decimals.
- Shared modules:
  - **Values**: `Option`, `Result`, Python truthiness and `int()`.
  - **Series**: `max`, `np.argmax` and `np.linspace`.
  - **MassAction**: the flows `beta*S*I/N` and `rate*X`, with their bounds.
  - **Arith**: monotonicity of multiplication and division, for the
    nonlinear proof steps.
  - **Ode**: the rumour state, the signs of the terms of both rumour
    right-hand sides, and the little assumed of `odeint`, which receives the
    right-hand side itself. Each rumour page writes its own right-hand side.
    `RumorRateRatio.SameDynamics` proves that the two agree, and
    `RumorRateRatio.SameSolution` that `odeint` then returns the same rows.
  - **Decimal**: Python's `.Nf` formatting and the thousands grouping, each
    with a reader and a round-trip proof.

Floats are modelled as `real`. `exp` and `odeint` are function-valued
parameters. A number field is an `Option<real>`: `None` stands for an empty
field, or for text that `float()` rejects.

Three facts about the code shape the model:

- The Euler loops have no step-size factor, so each step is one day. The x-axis
  labels `np.linspace(0, tmax, tmax)` do not enter the simulation.
- A `tmax` field is not guaranteed to give a figure. If it truncates to a
  negative number, `np.linspace` raises `ValueError`. If it truncates to 0,
  the arrays are empty and `S[0] = S0` raises `IndexError`. `Sir.Update` and
  `Seir.Update` return these as `Failure`.
- In `pages/z_Proyecto2.2.py`, `N` is computed but never used.

## Model

| member | source | states |
|---|---|---|
| Values.Or | pages/pag4.py:73-77 | `x or d`: the field's value when it is truthy (present and non-zero), the default otherwise; a non-zero default gives a non-zero result |
| Values.Trunc | pages/pag4.py:77 | `int()` on a float truncates toward zero: it is the integer `n` with `n <= x < n + 1` for `x >= 0` and `n - 1 < x <= n` for `x < 0` |
| Series.Max | pages/z_Proyecto2.2.py:152 | for a non-empty series, `np.max` is an element of the series and at least every element |
| Series.FirstArgMax | pages/pag4.py:119 | for a non-empty series, `np.argmax` is an index holding a largest element, and every earlier element is strictly smaller |
| Series.ArgMaxAttainsMax | pages/pag4.py:119-120 | for a non-empty series, the element at the argmax is the max, and no index holding the max comes before the argmax |
| Series.NonIncreasingPeaksFirst | pages/pag4.py:119 | a non-empty series that never increases has its argmax at 0 |
| Series.Linspace | pages/pag3.py:140 | `np.linspace` has `num` points; with at least one point it starts at `start`; with at least two it ends at `stop` and has a uniform step `(stop - start) / (num - 1)` (`np.linspace(a, b, 1) == [a]`) |
| Series.LinspaceWithin | pages/z_Proyecto2.1.py:101 | with `start <= stop`, every point of the linspace lies between its endpoints |
| MassAction.FractionOf | pages/pag4.py:87 | with rate in [0, 1] and `X >= 0`, an outflow `rate * X` lies between 0 and X |
| MassAction.IncidenceWithinSusceptible | pages/pag4.py:85 | with `N > 0`, `0 <= beta <= 1`, `S >= 0` and `0 <= I <= N`, the infections `beta*S*I/N` lie between 0 and S |
| MassAction.IncidenceNonNegative | pages/pag4.py:85 | with `N > 0` and `beta, S, I >= 0`, the infections `beta*S*I/N` are non-negative |
| MassAction.OutflowNonNegative | pages/pag4.py:87 | with `rate, X >= 0`, the outflow `rate * X` is non-negative |
| MassAction.IncidenceBelowRecovery | pages/pag4.py:85-87 | with `N > 0`, `0 <= beta <= gamma`, `0 <= S <= N` and `I >= 0`, infections never exceed recoveries `gamma*I` |
| MassAction.InitialGrowth | pages/pag4.py:79-87 | with `N != 0`, `I0 > 0` and `beta*(N - I0)/N > gamma`, day-0 infections exceed day-0 recoveries |
| Sir.ApplyDefaults | pages/pag4.py:73-77 | after defaulting, the divisors `N` and `gamma` are non-zero, so `beta/gamma` and the step are defined |
| Sir.DefaultsApplied | pages/pag4.py:73-77 | each parameter is its field when truthy, else 1000, 0.3, 0.1, 1 or 100; `tmax` is truncated |
| Sir.Initial | pages/pag4.py:79-82 | day 0 is `(N - I0, I0, 0)`: the compartments add up to N |
| Sir.Derivatives | pages/pag4.py:85-87 | for `N != 0`, the three increments sum to zero |
| Sir.Step | pages/pag4.py:88-90 | for `N != 0`, one day keeps the total population |
| Sir.Simulate | pages/pag4.py:79-90 | for `N != 0` and `tmax >= 1` (the cases `Update` does not turn into an error), the arrays have length `tmax`, hold the reference simulation `StateAt` day by day, start at `Initial`, make each day one `Step` of the previous one, and add up to N on every day |
| Sir.Peak | pages/pag4.py:119-121 | for `gamma != 0` and at least one day, the peak day is the first argmax of I; the peak value is `int(max(I))`, which equals `int(I[peak day])`; `R0 * gamma == beta` |
| Sir.Update | pages/pag4.py:71-121 | a `tmax` that truncates below 0 gives `ValueError` and 0 gives `IndexError`; otherwise the result is the defaulted simulation with its peak day, peak value and `R0` |
| Sir.Reset | pages/pag4.py:150-152 | reset enables the interval and restores exactly `1000, 0.3, 0.1, 1, 100`; every restored value is kept by the defaulting, and they give the same parameters as an empty form |
| Sir.Conservation | pages/pag4.py:84-90 | for `N != 0`, `S[k] + I[k] + R[k] == N` on every day of the reference simulation |
| Sir.IncidenceBounded | pages/pag4.py:85 | for epidemic parameters (`N > 0`, `beta` and `gamma` in [0, 1], `I0` in [0, N]) and an in-range state (S, I, R non-negative, summing to N), a day's infections lie in [0, S] |
| Sir.RecoveryBounded | pages/pag4.py:87 | for epidemic parameters and an in-range state (as in `IncidenceBounded`), a day's recoveries lie in [0, I] |
| Sir.StepInRange | pages/pag4.py:84-90 | for epidemic parameters and an in-range state (as in `IncidenceBounded`), one step keeps every compartment non-negative and the total at N |
| Sir.StaysInRange | pages/pag4.py:84-90 | for epidemic parameters (`N > 0`, `beta` and `gamma` in [0, 1], `I0` in [0, N]), no compartment ever becomes negative |
| Sir.StepMonotone | pages/pag4.py:87-90 | for any parameters with `N != 0` and any state, one day adds exactly `gamma * I` to R; R does not decrease when `gamma, I >= 0`, and S does not increase when `beta, S, I >= 0` and `N > 0` |
| Sir.Monotone | pages/pag4.py:85-90 | for epidemic parameters (`N > 0`, `beta` and `gamma` in [0, 1], `I0` in [0, N]), R never decreases and S never increases, from any day to any later day |
| Sir.SubcriticalDecline | pages/pag4.py:85-89 | for epidemic parameters (`N > 0`, `beta` and `gamma` in [0, 1], `I0` in [0, N]) with `beta <= gamma`, I never rises from one day to the next |
| Sir.SubcriticalPeakAtStart | pages/pag4.py:119 | for epidemic parameters (`N > 0`, `beta` and `gamma` in [0, 1], `I0` in [0, N]) with `beta <= gamma`, and a trajectory of at least one day that equals the reference simulation, the reported peak day is day 0 |
| Sir.OutbreakPeaksLater | pages/pag4.py:79-90 | with `N != 0`, `I0 > 0` and `beta*(N - I0)/N > gamma`, and a trajectory of at least two days that equals the reference simulation, the peak day is after day 0 and the peak exceeds I0 |
| Sir.ExampleOutbreak | pages/pag4.py:150-152 | for the 100-day trajectory of the reset values, `R0 = 3`, and the infected rise above I0 after day 0 |
| Seir.ApplyDefaults | pages/pag5.py:81-87 | after defaulting, `N` and `gamma` are non-zero |
| Seir.DefaultsApplied | pages/pag5.py:81-87 | each parameter is its field when truthy, else 1000, 0.3, 0.2, 0.1, 0, 1 or 160; `tmax` is truncated |
| Seir.Initial | pages/pag5.py:89-94 | day 0 is `(N - E0 - I0, E0, I0, 0)`: the compartments add up to N |
| Seir.Derivatives | pages/pag5.py:97-100 | for `N != 0`, the four increments sum to zero |
| Seir.Step | pages/pag5.py:101-104 | for `N != 0`, one day keeps the total population |
| Seir.Simulate | pages/pag5.py:89-104 | for `N != 0` and `tmax >= 1`, the four arrays have length `tmax`, hold the reference simulation, start at `Initial`, make each day one `Step` of the previous one, and add up to N on every day |
| Seir.Peak | pages/pag5.py:135-137 | for `gamma != 0` and at least one day, the peak day is the first argmax of I; the peak value is `int(max(I))`; `R0_num * gamma == beta` |
| Seir.Update | pages/pag5.py:79-137 | `ValueError` for a `tmax` below 0 and `IndexError` for 0; otherwise the defaulted simulation and its peak summary |
| Seir.Reset | pages/pag5.py:167-169 | reset enables the interval and restores exactly `1000, 0.3, 0.2, 0.1, 0, 1, 160`; E0's 0 is falsy and defaults to 0; the restored fields give the same parameters as an empty form |
| Seir.Conservation | pages/pag5.py:96-104 | for `N != 0`, `S[k] + E[k] + I[k] + R[k] == N` on every day |
| Seir.IncidenceBounded | pages/pag5.py:97 | for epidemic parameters (`N > 0`; `beta`, `sigma`, `gamma` in [0, 1]; `E0, I0 >= 0` with `E0 + I0 <= N`) and an in-range state (S, E, I, R non-negative, summing to N), a day's infections lie in [0, S] |
| Seir.OutflowsBounded | pages/pag5.py:98-100 | for epidemic parameters and an in-range state (as in `IncidenceBounded`), a day's onsets lie in [0, E] and its recoveries in [0, I] |
| Seir.StepInRange | pages/pag5.py:96-104 | for epidemic parameters and an in-range state (as in `IncidenceBounded`), one step keeps every compartment non-negative and the total at N |
| Seir.StaysInRange | pages/pag5.py:96-104 | for epidemic parameters (`N > 0`; `beta`, `sigma`, `gamma` in [0, 1]; `E0, I0 >= 0` with `E0 + I0 <= N`), no compartment ever becomes negative |
| Seir.StepMonotone | pages/pag5.py:100-104 | for any parameters with `N != 0` and any state, one day adds exactly `gamma * I` to R; R does not decrease when `gamma, I >= 0`, and S does not increase when `beta, S, I >= 0` and `N > 0` |
| Seir.Monotone | pages/pag5.py:97-104 | for epidemic parameters (as in `StaysInRange`), R never decreases and S never increases |
| Seir.ExposedDelaysInfection | pages/pag5.py:98-103 | for any `N != 0` with `E0 == 0`, day 1 has `E[1] == beta*S[0]*I[0]/N` and `I[1] == I[0] - gamma*I[0]`, and `I[1] <= I[0]` when `gamma, I0 >= 0` |
| Seir.SubcriticalDecline | pages/pag5.py:97-103 | for epidemic parameters (as in `StaysInRange`) with `beta <= gamma`, E + I never rises from one day to the next |
| Decimal.DigitsRoundTrip | pages/pag3.py:113 | reading back the decimal digits of n gives n |
| Decimal.Padded | pages/z_Proyecto2.2.py:153 | zero-padding to a width still denotes the same number |
| Decimal.RoundHalfEven | pages/z_Proyecto2.2.py:153 | formatting rounds to the nearest integer, within one half, and a tie goes to the even integer |
| Decimal.Scaled | pages/z_Proyecto2.2.py:153 | for a unit of at least 1, the printed count of hundredths (or tenths, ten-thousandths) is within half a unit of `|x|` |
| Decimal.RoundError | pages/z_Proyecto2.2.py:153 | for a unit of at least 1, the value the printed text denotes is within half a unit in the last place of x |
| Decimal.FormatFixed | pages/z_Proyecto2.2.py:153 | for `N >= 1`, `f"{x:.Nf}"` has exactly N digits after its point |
| Decimal.FormatFixedRoundTrip | pages/z_Proyecto2.2.py:153 | for `N >= 1`, reading `f"{x:.Nf}"` back gives x rounded to N places, ties to even |
| Decimal.GroupThousandsRoundTrip | pages/pag3.py:113 | for a string of digits, grouping by three only inserts spaces; removing them gives back the digits |
| Decimal.FormatGrouped | pages/pag3.py:113 | `f"{n:,}".replace(",", " ")` is never empty; what it reads back as is given by `FormatGroupedRoundTrip` |
| Decimal.FormatGroupedRoundTrip | pages/pag3.py:113 | reading `f"{n:,}".replace(",", " ")` back gives n |
| Exponential.ParsedOr | pages/pag3.py:131-136 | `try float(x) except d`: a value that parses is kept, zero included; otherwise `d` |
| Exponential.Sanitize | pages/pag3.py:131-138 | fallbacks 1.0, 0.1 and 10.0; a non-positive `t_max` becomes 1.0 and a non-positive `P0` becomes 1e-6; positive values are kept; both end positive |
| Exponential.SanitizeIdempotent | pages/pag3.py:131-138 | sanitised settings fed back in come out unchanged |
| Exponential.Grid | pages/pag3.py:140 | for `t_max > 0` (as `Sanitize` guarantees), 15 points, `t[0] == 0`, `t[14] == t_max`, uniform step `t_max / 14` |
| Exponential.GridIncreasing | pages/pag3.py:140 | for `t_max > 0`, the grid is strictly increasing inside `[0, t_max]` |
| Exponential.Samples | pages/pag3.py:141 | `P0 * np.exp(r * t)` elementwise: same length as t, and each element is the sample at its time |
| Exponential.Curve | pages/pag3.py:141 | for `t_max > 0`, 15 samples, and `P[0] == P0` when `exp(0) == 1` |
| Exponential.SampleMonotone | pages/pag3.py:141 | for an increasing exp and `P0 > 0`, the population grows when `r > 0` and decays when `r < 0` |
| Exponential.CurveMonotone | pages/pag3.py:140-141 | for `t_max > 0`, `P0 > 0` and an increasing exp, the samples on the grid strictly increase for `r > 0` and strictly decrease for `r < 0` |
| Exponential.CurveFlat | pages/pag3.py:141 | for `t_max > 0`, `r == 0` and `exp(0) == 1`, every sample is `P0` |
| Exponential.AxisTop | pages/pag3.py:153-154 | for a non-empty series, the y-axis top `y_max * 1.12`, after the guard, is positive and strictly above every sample |
| Exponential.AxisTopOfPositive | pages/pag3.py:153-154 | with a non-empty series of positive samples the guard never fires |
| Exponential.AnnotationIndex | pages/pag3.py:192 | the annotation index is in `[0, len(P) - 1]` for a non-empty series |
| Exponential.AnnotationIndexOfGrid | pages/pag3.py:192 | for 15 points the index is 10 |
| Exponential.UpdateChart | pages/pag3.py:130-199 | the chart uses the sanitised settings, the grid and its curve (starting at P0); the y-axis top is `AxisTop(P)`, the guarded `y_max * 1.12`, which is above every sample; the annotations sit at `(0, P0)` and `(t[10], P[10])` with texts `P₀ = ` + P0 to 2 places and `r = ` + r to 4 places |
| Exponential.TypedTrigger | pages/pag3.py:101-103 | the typed-field branch is taken exactly when the trigger is one of `input-p0`, `input-r`, `input-t`; no trigger (`None`) takes the slider branch |
| Exponential.IntLabel | pages/pag3.py:113 | `fmt_int`: the label starts with ` — ` and the rest reads back as `int(x)` (spaces between thousands, sign kept) |
| Exponential.FloatLabel | pages/pag3.py:114 | `fmt_float`: the label starts with ` — ` and the rest reads back as x rounded to four places, ties to even |
| Exponential.Sync | pages/pag3.py:99-116 | a typed trigger takes each parsed field or else its slider; any other trigger takes the sliders; each value is echoed to field and slider, with its label |
| Exponential.SyncFixedPoint | pages/pag3.py:99-116 | feeding the synchronised values back, under any trigger, reproduces the same outputs |
| Ode.ContactSigns | pages/z_Proyecto2.1.py:96 | the contact term `b*S*I` is non-negative for non-negative factors and zero when `I == 0` |
| Ode.FractionSign | pages/z_Proyecto2.1.py:98 | the stifling term `k*I` is non-negative for non-negative factors and zero when `I == 0` |
| Ode.SolverRun | pages/z_Proyecto2.1.py:102 | for a solver meeting the `odeint` assumption `Integrates`, a run on any right-hand side has one row per grid time, and the first row is the initial state |
| Ode.SolverAgrees | pages/z_Proyecto2.1.py:102 | for a solver meeting `Integrates`, two right-hand sides that agree on every state and time give the same rows |
| Ode.Transpose | pages/z_Proyecto2.1.py:103 | `sol.T`: three columns as long as the solution, each holding its component of every row |
| RumorMassAction.ApplyDefaults | pages/z_Proyecto2.1.py:85-91 | the six real parameters end non-zero after defaulting (`tmax` can truncate to 0) |
| RumorMassAction.DefaultsApplied | pages/z_Proyecto2.1.py:85-91 | each parameter is its field when truthy, else 275, 0.004, 0.01, 266, 1, 8 or 15; `tmax` is truncated |
| RumorMassAction.SirRumor | pages/z_Proyecto2.1.py:94-99 | the rates sum to zero; `dS <= 0` when `b, S, I >= 0`; `dR >= 0` when `k, I >= 0`; a state with `I == 0` does not move |
| RumorMassAction.Update | pages/z_Proyecto2.1.py:101-108 | for a solver meeting `Integrates`: grid of 500 points on `[0, tmax]`; curves from odeint on `sir_rumor` with `args=(b, k)`, starting at I0; the peak index is the first argmax; the peak value is `I[idx] == max(I) >= I0`; the peak day is `t[idx]`, inside `[0, tmax]` when `tmax >= 0`; the label is `Pico del rumor (día d)` with d to 1 place |
| RumorMassAction.PopulationIrrelevant | pages/z_Proyecto2.1.py:94-108 | for a solver meeting `Integrates`, changing N changes neither the curves nor the peak, since `sir_rumor` and its `args` do not contain N |
| RumorMassAction.PeakTextReadsBack | pages/z_Proyecto2.1.py:132 | for a solver meeting `Integrates`, the day in the peak label reads back as the peak day rounded to one place |
| RumorMassAction.Reset | pages/z_Proyecto2.1.py:196-197 | restores exactly `275, 0.004, 0.01, 266, 1, 8, 15`; every restored field is kept by the defaulting, and they give the same parameters as an empty form |
| RumorRateRatio.AnyMissing | pages/z_Proyecto2.2.py:113 | the guard holds exactly when `None in (s0, i0, r0, beta, gamma, tmax)`; zero does not count as missing |
| RumorRateRatio.SirEq | pages/z_Proyecto2.2.py:121-126 | the rates sum to zero; `dS <= 0` when `beta, S, I >= 0`; `dR = gamma*I >= 0` when `gamma, I >= 0` |
| RumorRateRatio.PeakMessage | pages/z_Proyecto2.2.py:153 | the message is the prefix followed by a number that reads back as the peak rounded to 2 places |
| RumorRateRatio.UpdateSir | pages/z_Proyecto2.2.py:111-153 | for a solver meeting `Integrates`: no update, an empty message and no population exactly when a field is None; otherwise the population `N == s0 + i0 + r0` beside the outputs, a 300-point grid on `[0, tmax]`, odeint's curves for the `sir_eq` closure with `I[0] == i0`, and the peak message of `max(I)` |
| RumorRateRatio.PeakAtLeastInitial | pages/z_Proyecto2.2.py:152 | for a solver meeting `Integrates` and no field missing, the reported peak is at least i0 |
| RumorRateRatio.SameDynamics | pages/z_Proyecto2.2.py:121-126 | the separately written `sir_eq` with `(beta, gamma)` gives the same rates as `sir_rumor` (z_Proyecto2.1.py:94-99) with `(b, k)` on every state |
| RumorRateRatio.SameSolution | pages/z_Proyecto2.2.py:121-129 | for a solver meeting `Integrates`, `odeint` on the `sir_eq` closure with `(beta, gamma)` returns the same rows as on `sir_rumor` with `args=(beta, gamma)` (z_Proyecto2.1.py:102), for the same initial state and grid |

## Left out

- Rendering is not modelled: Plotly figures, traces, layout, theming, axis labels, the lines drawn with `add_shape`, and the hover templates.
- Dash plumbing is not modelled: `callback_context` is reduced to the id of the triggering component, and `dash.no_update` to a constructor.
- The interpretation paragraphs are not modelled. These are `R₀ ≈ {R0:.2f}`, the peak sentences on the SIR and SEIR pages, and the summary at lines 172-177 of `pages/z_Proyecto2.1.py` with Python's `repr` of `b` and `k`. Their numbers come from the modelled reports; only the text around them is left out.
- `odeint` is foreign code: the model assumes only that it returns one row per grid time, starts at the initial state, and gives the same rows for right-hand sides that agree everywhere. So nothing is proved about the rumour curves after time 0.
- `exp` is a parameter. The monotonicity lemmas assume it increases, and `Curve` assumes `exp(0) == 1` where it is used.
- Floats are modelled as exact reals. IEEE rounding, overflow, NaN and infinities are not modelled, so `np.nanmax`'s handling of NaN is absent too.
- `float()` is not modelled on strings. A field is either a number or `None`, and the `except` branches of `pages/pag3.py` cover exactly the `None` case.
- Sir.Simulate: the arrays are local to the callback, so the method returns snapshots of them. In-place reuse and aliasing of the arrays are not captured.
- Unimodality of I (a single rise and fall) is not proved for either simulator; only the threshold cases (`SubcriticalPeakAtStart`, `OutbreakPeaksLater`) are.
- The other pages (`pages/pag1.py`, `pag2.py`, `pag6.py`, `pag7.py`, `pag8.py`, `pag9.py`, `inicio.py`) and `app.py` are not part of this model. They are layout, network I/O, clock time, randomness, or a host `eval` of user strings.
