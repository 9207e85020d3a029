/**
 * The rumour page without defaults (`z_Proyecto2.2`, callback `update_sir`):
 * when any field is empty the page keeps its figure and clears the message;
 * otherwise the rumour system is integrated by `odeint` on 300 points of
 * `[0, tmax]` and the message gives the largest number of spreaders to two
 * decimals.
 */
module RumorRateRatio {
  import opened Values
  import opened Series
  import opened Decimal
  import opened Ode
  import RumorMassAction

  /** The fields `sir-s0-p22`, `sir-i0-p22`, `sir-r0-p22`, `sir-beta-p22`,
      `sir-gamma-p22` and `sir-tmax-p22`. */
  datatype Inputs = Inputs(
    s0: Option<real>, i0: Option<real>, r0: Option<real>,
    beta: Option<real>, gamma: Option<real>, tmax: Option<real>)

  predicate AnyMissing(raw: Inputs)
    ensures AnyMissing(raw) <==> None in [raw.s0, raw.i0, raw.r0, raw.beta, raw.gamma, raw.tmax]
  {
    raw.s0.None? || raw.i0.None? || raw.r0.None? || raw.beta.None? || raw.gamma.None? || raw.tmax.None?
  }

  /** `sir_eq(y, t)`, the closure over the callback's `beta` and `gamma`:
      the rates sum to zero, ignorants never increase and stiflers never
      decrease. */
  function SirEq(y: State, t: real, beta: real, gamma: real): (d: Rates)
    ensures d.dS + d.dI + d.dR == 0.0
    ensures 0.0 <= beta && 0.0 <= y.S && 0.0 <= y.I ==> d.dS <= 0.0
    ensures 0.0 <= gamma && 0.0 <= y.I ==> 0.0 <= d.dR
  {
    ContactSigns(beta, y.S, y.I);
    FractionSign(gamma, y.I);
    assert -beta * y.S * y.I == -(beta * y.S * y.I);
    Rates(-beta * y.S * y.I, beta * y.S * y.I - gamma * y.I, gamma * y.I)
  }

  /** `sir_eq`, the closure over `beta` and `gamma`, as the page hands it to
      `odeint`. */
  function SirEqWith(beta: real, gamma: real): Rhs {
    (y, t) => SirEq(y, t, beta, gamma)
  }

  /** The figure output: `dash.no_update`, or the three curves over the grid. */
  datatype Figure = NoUpdate | Plot(t: seq<real>, curves: Columns)

  /** The callback's two outputs, and beside them the population `N` it
      computes before building the figure; `N` reaches neither output. */
  datatype Outcome = Outcome(figure: Figure, message: string, population: Option<real>)

  const PeakPrefix: string := "Pico máximo de infectados: "

  /** `f"Pico máximo de infectados: {peak:.2f}"`: the prefix, then a number
      that reads back as the peak rounded to hundredths. */
  function PeakMessage(peak: real): (m: string)
    ensures |PeakPrefix| <= |m| && m[..|PeakPrefix|] == PeakPrefix
    ensures ParseFixed(m[|PeakPrefix|..], 2) == Some(RoundTo(peak, 100))
  {
    var number := FormatFixed(peak, 2);
    FormatFixedRoundTrip(peak, 2);
    assert Pow10(2) == 100;
    assert (PeakPrefix + number)[|PeakPrefix|..] == number;
    PeakPrefix + number
  }

  /** `update_sir`. Any empty field (zero is accepted) gives
      `(no_update, "")`. Otherwise `N = s0 + i0 + r0`, the grid has 300 points
      from 0 to `tmax`, the curves are `odeint`'s rows from `(s0, i0, r0)`
      and the message is the prefix followed by `np.max(I)` with two decimals. */
  function UpdateSir(raw: Inputs, odeint: Solver): (out: Outcome)
    requires Integrates(odeint)
    ensures out.figure.NoUpdate? <==> AnyMissing(raw)
    ensures out.figure.NoUpdate? ==> out.message == "" && out.population == None
    ensures out.figure.Plot? ==>
      var f := out.figure;
      && out.population == Some(raw.s0.value + raw.i0.value + raw.r0.value)
      && f.t == Linspace(0.0, raw.tmax.value, 300)
      && f.curves == Transpose(odeint(SirEqWith(raw.beta.value, raw.gamma.value), State(raw.s0.value, raw.i0.value, raw.r0.value), f.t))
      && |f.curves.I| == 300 && f.curves.I[0] == raw.i0.value
      && out.message == PeakMessage(Max(f.curves.I))
  {
    if AnyMissing(raw) then Outcome(NoUpdate, "", None)
    else
      var N := raw.s0.value + raw.i0.value + raw.r0.value;
      var t := Linspace(0.0, raw.tmax.value, 300);
      var y0 := State(raw.s0.value, raw.i0.value, raw.r0.value);
      var f := SirEqWith(raw.beta.value, raw.gamma.value);
      SolverRun(odeint, f, y0, t);
      var curves := Transpose(odeint(f, y0, t));
      Outcome(Plot(t, curves), PeakMessage(Max(curves.I)), Some(N))
  }

  /** The reported peak is at least the initial number of spreaders. */
  lemma PeakAtLeastInitial(raw: Inputs, odeint: Solver)
    requires Integrates(odeint) && !AnyMissing(raw)
    ensures var out := UpdateSir(raw, odeint);
      out.figure.Plot? && Max(out.figure.curves.I) >= raw.i0.value
  {
    var I := UpdateSir(raw, odeint).figure.curves.I;
    assert I[0] == raw.i0.value;
  }

  /** Both rumour pages integrate the same system: `sir_eq` with rates
      `(beta, gamma)` is `sir_rumor` with `(b, k)`. */
  lemma SameDynamics(y: State, t: real, beta: real, gamma: real)
    ensures SirEq(y, t, beta, gamma) == RumorMassAction.SirRumor(y, t, beta, gamma)
  {
  }

  /** So, given the same rates, initial state and grid, `odeint` returns the
      same rows for `sir_eq` as for `sir_rumor`: the two pages differ only in
      their defaults, their grids and what they report. */
  lemma SameSolution(odeint: Solver, beta: real, gamma: real, y0: State, t: seq<real>)
    requires Integrates(odeint)
    ensures odeint(SirEqWith(beta, gamma), y0, t) == odeint(RumorMassAction.SirRumorWith(beta, gamma), y0, t)
  {
    forall y, s
      ensures SirEqWith(beta, gamma)(y, s) == RumorMassAction.SirRumorWith(beta, gamma)(y, s)
    {
      SameDynamics(y, s, beta, gamma);
    }
    SolverAgrees(odeint, SirEqWith(beta, gamma), RumorMassAction.SirRumorWith(beta, gamma), y0, t);
  }
}
