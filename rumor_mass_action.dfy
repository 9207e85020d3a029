/**
 * The rumour page with defaults (`z_Proyecto2.1`, callback
 * `actualizar_sir_modificado`): seven fields are defaulted, the rumour system
 * is integrated by `odeint` on 500 points of `[0, tmax]`, and the page marks
 * the first time at which the number of spreaders is largest.
 */
module RumorMassAction {
  import opened Values
  import opened Series
  import opened Decimal
  import opened Ode

  /** The fields `sirN`, `sirB`, `sirK`, `sirS0`, `sirI0`, `sirR0` and
      `sirTmax` as the callback receives them. */
  datatype Inputs = Inputs(
    N: Option<real>, b: Option<real>, k: Option<real>,
    S0: Option<real>, I0: Option<real>, R0: Option<real>, tmax: Option<real>)

  datatype Params = Params(N: real, b: real, k: real, S0: real, I0: real, R0: real, tmax: int)

  /** `N = float(N or 275)` and so on; every default is non-zero, so no
      parameter ends up zero. */
  function ApplyDefaults(raw: Inputs): (p: Params)
    ensures p.N != 0.0 && p.b != 0.0 && p.k != 0.0 && p.S0 != 0.0 && p.I0 != 0.0 && p.R0 != 0.0
  {
    Params(Or(raw.N, 275.0), Or(raw.b, 0.004), Or(raw.k, 0.01), Or(raw.S0, 266.0),
      Or(raw.I0, 1.0), Or(raw.R0, 8.0), Trunc(Or(raw.tmax, 15.0)))
  }

  /** Each parameter is its field's value when that is truthy and the page's
      default otherwise; `tmax` is then truncated toward zero. */
  lemma DefaultsApplied(raw: Inputs)
    ensures ApplyDefaults(raw).N == (if Truthy(raw.N) then raw.N.value else 275.0)
    ensures ApplyDefaults(raw).b == (if Truthy(raw.b) then raw.b.value else 0.004)
    ensures ApplyDefaults(raw).k == (if Truthy(raw.k) then raw.k.value else 0.01)
    ensures ApplyDefaults(raw).S0 == (if Truthy(raw.S0) then raw.S0.value else 266.0)
    ensures ApplyDefaults(raw).I0 == (if Truthy(raw.I0) then raw.I0.value else 1.0)
    ensures ApplyDefaults(raw).R0 == (if Truthy(raw.R0) then raw.R0.value else 8.0)
    ensures ApplyDefaults(raw).tmax == Trunc(if Truthy(raw.tmax) then raw.tmax.value else 15.0)
  {
  }

  /** `sir_rumor(y, t, b, k)`: spreaders recruit ignorants at rate `b` per
      contact and lose interest at rate `k`; the time argument is not used.
      Nothing is created or lost, ignorants never increase and stiflers never
      decrease, and a state without spreaders does not move. */
  function SirRumor(y: State, t: real, b: real, k: real): (d: Rates)
    ensures d.dS + d.dI + d.dR == 0.0
    ensures 0.0 <= b && 0.0 <= y.S && 0.0 <= y.I ==> d.dS <= 0.0
    ensures 0.0 <= k && 0.0 <= y.I ==> 0.0 <= d.dR
    ensures y.I == 0.0 ==> d == Rates(0.0, 0.0, 0.0)
  {
    ContactSigns(b, y.S, y.I);
    FractionSign(k, y.I);
    assert -b * y.S * y.I == -(b * y.S * y.I);
    Rates(-b * y.S * y.I, b * y.S * y.I - k * y.I, k * y.I)
  }

  /** `sir_rumor` with `args=(b, k)`, as the page hands it to `odeint`. */
  function SirRumorWith(b: real, k: real): Rhs {
    (y, t) => SirRumor(y, t, b, k)
  }

  /** The curves and the peak marker of the page. */
  datatype Report = Report(t: seq<real>, curves: Columns, peakIndex: nat, peakDay: real, peakValue: real, peakText: string)

  /** `actualizar_sir_modificado`. The grid has 500 points from 0 to `tmax`,
      the curves are `odeint`'s rows from `(S0, I0, R0)`, the peak index is
      `np.argmax(I)`, the first index of the largest number of spreaders,
      which is at least `I0`; the peak day is the grid time there, inside
      `[0, tmax]` when `tmax` is not negative. */
  function Update(raw: Inputs, odeint: Solver): (r: Report)
    requires Integrates(odeint)
    ensures var p := ApplyDefaults(raw);
      && r.t == Linspace(0.0, p.tmax as real, 500)
      && r.curves == Transpose(odeint(SirRumorWith(p.b, p.k), State(p.S0, p.I0, p.R0), r.t))
      && |r.curves.I| == 500 && r.curves.I[0] == p.I0
      && r.peakIndex == FirstArgMax(r.curves.I)
      && r.peakValue == r.curves.I[r.peakIndex] == Max(r.curves.I) >= p.I0
      && r.peakDay == r.t[r.peakIndex]
      && (p.tmax >= 0 ==> 0.0 <= r.peakDay <= p.tmax as real)
      && r.peakText == "Pico del rumor (día " + FormatFixed(r.peakDay, 1) + ")"
  {
    var p := ApplyDefaults(raw);
    var t := Linspace(0.0, p.tmax as real, 500);
    SolverRun(odeint, SirRumorWith(p.b, p.k), State(p.S0, p.I0, p.R0), t);
    var curves := Transpose(odeint(SirRumorWith(p.b, p.k), State(p.S0, p.I0, p.R0), t));
    var peakIndex := FirstArgMax(curves.I);
    ArgMaxAttainsMax(curves.I);
    var r := Report(t, curves, peakIndex, t[peakIndex], curves.I[peakIndex],
      "Pico del rumor (día " + FormatFixed(t[peakIndex], 1) + ")");
    if p.tmax >= 0 then LinspaceWithin(0.0, p.tmax as real, 500, peakIndex); r else r
  }

  /** `N` only enters the page's text: the curves and the peak do not
      depend on it. */
  lemma PopulationIrrelevant(raw: Inputs, N: Option<real>, odeint: Solver)
    requires Integrates(odeint)
    ensures Update(raw.(N := N), odeint) == Update(raw, odeint)
  {
    assert ApplyDefaults(raw.(N := N)).(N := 0.0) == ApplyDefaults(raw).(N := 0.0);
  }

  /** The peak text reads back as the peak day to one decimal. */
  lemma PeakTextReadsBack(raw: Inputs, odeint: Solver)
    requires Integrates(odeint)
    ensures var r := Update(raw, odeint);
      |r.peakText| > 21 && ParseFixed(r.peakText[20..|r.peakText| - 1], 1) == Some(RoundTo(r.peakDay, 10))
  {
    var r := Update(raw, odeint);
    var prefix := "Pico del rumor (día ";
    assert |prefix| == 20;
    var day := FormatFixed(r.peakDay, 1);
    assert r.peakText == prefix + day + ")";
    assert r.peakText[20..|r.peakText| - 1] == day;
    FormatFixedRoundTrip(r.peakDay, 1);
  }

  /** `reiniciar_valores`: every field gets a value the defaulting keeps, and
      together they give exactly the parameters of an all-empty form. */
  function Reset(): (fields: Inputs)
    ensures Truthy(fields.N) && Truthy(fields.b) && Truthy(fields.k) && Truthy(fields.S0)
    ensures Truthy(fields.I0) && Truthy(fields.R0) && Truthy(fields.tmax)
    ensures fields == Inputs(Some(275.0), Some(0.004), Some(0.01), Some(266.0), Some(1.0), Some(8.0), Some(15.0))
    ensures ApplyDefaults(fields) == ApplyDefaults(Inputs(None, None, None, None, None, None, None))
  {
    Inputs(Some(275.0), Some(0.004), Some(0.01), Some(266.0), Some(1.0), Some(8.0), Some(15.0))
  }
}
