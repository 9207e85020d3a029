/**
 * The SEIR page (`/pagina5`): seven fields are defaulted, four arrays
 * S, E, I, R of length `tmax` are filled by one explicit Euler step per day,
 * and the page reports the first day of the infection peak, the truncated
 * peak value and `beta/gamma`. Infection first makes people exposed (E);
 * a fraction `sigma` of the exposed becomes infectious each day.
 */
module Seir {
  import opened Values
  import opened Series
  import opened MassAction

  /** The fields `input-N-seir`, `input-beta-seir`, `input-sigma-seir`,
      `input-gamma-seir`, `input-E0-seir`, `input-I0-seir` and
      `input-tmax-seir` as the callback receives them. */
  datatype Inputs = Inputs(
    N: Option<real>, beta: Option<real>, sigma: Option<real>, gamma: Option<real>,
    E0: Option<real>, I0: Option<real>, tmax: Option<real>)

  /** The parameters after defaulting; `tmax` is the number of days simulated. */
  datatype Params = Params(N: real, beta: real, sigma: real, gamma: real, E0: real, I0: real, tmax: int)

  datatype State = State(S: real, E: real, I: real, R: real)

  function Total(x: State): real {
    x.S + x.E + x.I + x.R
  }

  /** `N = float(N or 1000)` and so on. The default of `E0` is 0, so an empty
      or zero `E0` field gives no exposed at the start; `N` and `gamma`, the
      page's divisors, always end up non-zero. */
  function ApplyDefaults(raw: Inputs): (p: Params)
    ensures p.N != 0.0 && p.gamma != 0.0
  {
    Params(Or(raw.N, 1000.0), Or(raw.beta, 0.3), Or(raw.sigma, 0.2), Or(raw.gamma, 0.1),
      Or(raw.E0, 0.0), Or(raw.I0, 1.0), Trunc(Or(raw.tmax, 160.0)))
  }

  /** Each parameter is its field's value when that is truthy and the
      page's default otherwise; `tmax` is then truncated toward zero. */
  lemma DefaultsApplied(raw: Inputs)
    ensures ApplyDefaults(raw).N == (if Truthy(raw.N) then raw.N.value else 1000.0)
    ensures ApplyDefaults(raw).beta == (if Truthy(raw.beta) then raw.beta.value else 0.3)
    ensures ApplyDefaults(raw).sigma == (if Truthy(raw.sigma) then raw.sigma.value else 0.2)
    ensures ApplyDefaults(raw).gamma == (if Truthy(raw.gamma) then raw.gamma.value else 0.1)
    ensures ApplyDefaults(raw).E0 == (if Truthy(raw.E0) then raw.E0.value else 0.0)
    ensures ApplyDefaults(raw).I0 == (if Truthy(raw.I0) then raw.I0.value else 1.0)
    ensures ApplyDefaults(raw).tmax == Trunc(if Truthy(raw.tmax) then raw.tmax.value else 160.0)
  {
  }

  /** Day 0: `S0 = N - E0 - I0` and nobody recovered. */
  function Initial(p: Params): (x: State)
    ensures Total(x) == p.N && x.E == p.E0 && x.I == p.I0 && x.R == 0.0
  {
    State(p.N - p.E0 - p.I0, p.E0, p.I0, 0.0)
  }

  /** The day's increments: new infections leave S and enter E, a fraction
      `sigma` of E becomes infectious and a fraction `gamma` of I recovers.
      The increments cancel out. */
  datatype Rates = Rates(dS: real, dE: real, dI: real, dR: real)

  function Derivatives(p: Params, x: State): (d: Rates)
    requires p.N != 0.0
    ensures d.dS + d.dE + d.dI + d.dR == 0.0
  {
    var infections := Incidence(p.beta, x.S, x.I, p.N);
    var onsets := Outflow(p.sigma, x.E);
    var recoveries := Outflow(p.gamma, x.I);
    Rates(-infections, infections - onsets, onsets - recoveries, recoveries)
  }

  /** One day of the explicit Euler scheme (step 1, no `dt` factor). */
  function Step(p: Params, x: State): (y: State)
    requires p.N != 0.0
    ensures Total(y) == Total(x)
  {
    var d := Derivatives(p, x);
    State(x.S + d.dS, x.E + d.dE, x.I + d.dI, x.R + d.dR)
  }

  /** The reference definition of day `k` of the simulation. */
  function StateAt(p: Params, k: nat): State
    requires p.N != 0.0
  {
    if k == 0 then Initial(p) else Step(p, StateAt(p, k - 1))
  }

  /** The arrays S, E, I, R as the page plots them. */
  datatype Trajectory = Trajectory(S: seq<real>, E: seq<real>, I: seq<real>, R: seq<real>) {
    predicate Valid() {
      |S| == |E| == |I| == |R|
    }

    function At(k: nat): State
      requires Valid() && k < |S|
    {
      State(S[k], E[k], I[k], R[k])
    }
  }

  /** `traj` holds days `0 .. tmax - 1` of the reference simulation. */
  predicate IsSimulation(p: Params, traj: Trajectory)
    requires p.N != 0.0
  {
    && traj.Valid() && |traj.S| == p.tmax
    && forall k :: 0 <= k < |traj.S| ==> traj.At(k) == StateAt(p, k)
  }

  /** The loop of the SEIR callback: four zero arrays of length `tmax`,
      day 0 set from the parameters, then day `k` written from day `k - 1`
      only. The population is conserved on every day. */
  method Simulate(p: Params) returns (traj: Trajectory)
    requires p.N != 0.0 && p.tmax >= 1
    ensures IsSimulation(p, traj)
    ensures traj.At(0) == Initial(p)
    ensures forall k :: 1 <= k < p.tmax ==> traj.At(k) == Step(p, traj.At(k - 1))
    ensures forall k :: 0 <= k < p.tmax ==> traj.S[k] + traj.E[k] + traj.I[k] + traj.R[k] == p.N
  {
    var S := new real[p.tmax];
    var E := new real[p.tmax];
    var I := new real[p.tmax];
    var R := new real[p.tmax];
    S[0], E[0], I[0], R[0] := p.N - p.E0 - p.I0, p.E0, p.I0, 0.0;
    for k := 1 to p.tmax
      invariant forall j {:trigger S[j]} :: 0 <= j < k ==> State(S[j], E[j], I[j], R[j]) == StateAt(p, j)
    {
      assert State(S[k - 1], E[k - 1], I[k - 1], R[k - 1]) == StateAt(p, k - 1);
      var d := Derivatives(p, State(S[k - 1], E[k - 1], I[k - 1], R[k - 1]));
      S[k] := S[k - 1] + d.dS;
      E[k] := E[k - 1] + d.dE;
      I[k] := I[k - 1] + d.dI;
      R[k] := R[k - 1] + d.dR;
      assert State(S[k], E[k], I[k], R[k]) == StateAt(p, k);
    }
    traj := Trajectory(S[..], E[..], I[..], R[..]);
    forall k | 1 <= k < p.tmax
      ensures traj.At(k) == Step(p, traj.At(k - 1))
    {
      assert traj.At(k) == StateAt(p, k) && traj.At(k - 1) == StateAt(p, k - 1);
    }
    forall k | 0 <= k < p.tmax
      ensures traj.S[k] + traj.E[k] + traj.I[k] + traj.R[k] == p.N
    {
      assert traj.At(k) == StateAt(p, k);
      Conservation(p, k);
    }
  }

  /** What the page reports besides the curves. */
  datatype Report = Report(traj: Trajectory, peakDay: nat, peakValue: int, reproduction: real)

  /** The SEIR `actualizar_en_tiempo_real`. A `tmax` that truncates to a
      negative number makes `np.linspace` raise `ValueError`; one that
      truncates to 0 makes `S[0] = S0` raise `IndexError`. Otherwise the
      trajectory is the reference simulation, the peak day is `np.argmax(I)`,
      the first day of maximal I, the peak value is `int(max(I))` and the reproduction
      number satisfies `R0 * gamma == beta`. */
  method Update(raw: Inputs) returns (out: Result<Report, Exception>)
    ensures ApplyDefaults(raw).tmax < 0 ==> out == Failure(ValueError)
    ensures ApplyDefaults(raw).tmax == 0 ==> out == Failure(IndexError)
    ensures ApplyDefaults(raw).tmax >= 1 ==> out.Success?
    ensures out.Success? ==>
      var p, r := ApplyDefaults(raw), out.value;
      && IsSimulation(p, r.traj) && |r.traj.I| == p.tmax
      && r.peakDay == FirstArgMax(r.traj.I)
      && r.peakValue == Trunc(Max(r.traj.I)) == Trunc(r.traj.I[r.peakDay])
      && r.reproduction * p.gamma == p.beta
  {
    var p := ApplyDefaults(raw);
    if p.tmax < 0 {
      return Failure(ValueError);
    }
    if p.tmax == 0 {
      return Failure(IndexError);
    }
    var traj := Simulate(p);
    var report := Peak(p, traj);
    assert report.reproduction * p.gamma == p.beta;
    out := Success(report);
  }

  /** The page's summary of a simulated trajectory. */
  function Peak(p: Params, traj: Trajectory): (r: Report)
    requires p.gamma != 0.0 && traj.Valid() && |traj.I| >= 1
    ensures r.traj == traj && r.peakDay == FirstArgMax(traj.I)
    ensures r.peakValue == Trunc(Max(traj.I)) == Trunc(traj.I[r.peakDay])
    ensures r.reproduction * p.gamma == p.beta
  {
    ArgMaxAttainsMax(traj.I);
    Report(traj, FirstArgMax(traj.I), Trunc(Max(traj.I)), p.beta / p.gamma)
  }

  /** `reiniciar_simulacion`: the interval output and the seven fields. */
  datatype ResetOutput = ResetOutput(intervalDisabled: bool, fields: Inputs)

  /** The reset button enables the interval and restores the example; the
      `E0` field gets 0, which the defaulting replaces by its default 0, so
      the restored fields give exactly the parameters of an all-empty form. */
  function Reset(): (r: ResetOutput)
    ensures !r.intervalDisabled
    ensures Truthy(r.fields.N) && Truthy(r.fields.beta) && Truthy(r.fields.sigma)
    ensures Truthy(r.fields.gamma) && !Truthy(r.fields.E0) && Truthy(r.fields.I0) && Truthy(r.fields.tmax)
    ensures r.fields == Inputs(Some(1000.0), Some(0.3), Some(0.2), Some(0.1), Some(0.0), Some(1.0), Some(160.0))
    ensures ApplyDefaults(r.fields) == ApplyDefaults(Inputs(None, None, None, None, None, None, None))
  {
    ResetOutput(false, Inputs(Some(1000.0), Some(0.3), Some(0.2), Some(0.1), Some(0.0), Some(1.0), Some(160.0)))
  }

  // ---------------------------------------------------------------------
  // Properties of the reference simulation
  // ---------------------------------------------------------------------

  /** Conservation: every day's compartments add up to N. */
  lemma {:induction false} Conservation(p: Params, k: nat)
    requires p.N != 0.0
    ensures Total(StateAt(p, k)) == p.N
  {
    if k > 0 {
      Conservation(p, k - 1);
    }
  }

  /** Rates that are fractions of a day and a non-negative start inside a
      positive population; the page's example is one. */
  predicate Epidemic(p: Params) {
    && p.N > 0.0
    && 0.0 <= p.beta <= 1.0 && 0.0 <= p.sigma <= 1.0 && 0.0 <= p.gamma <= 1.0
    && 0.0 <= p.E0 && 0.0 <= p.I0 && p.E0 + p.I0 <= p.N
  }

  predicate InRange(p: Params, x: State) {
    0.0 <= x.S && 0.0 <= x.E && 0.0 <= x.I && 0.0 <= x.R && Total(x) == p.N
  }

  /** A day's infections are at most S... */
  lemma IncidenceBounded(p: Params, x: State)
    requires Epidemic(p) && InRange(p, x)
    ensures 0.0 <= Incidence(p.beta, x.S, x.I, p.N) <= x.S
  {
    IncidenceWithinSusceptible(p.beta, x.S, x.I, p.N);
  }

  /** ... its onsets at most E and its recoveries at most I. */
  lemma OutflowsBounded(p: Params, x: State)
    requires Epidemic(p) && InRange(p, x)
    ensures 0.0 <= Outflow(p.sigma, x.E) <= x.E
    ensures 0.0 <= Outflow(p.gamma, x.I) <= x.I
  {
    FractionOf(p.sigma, x.E);
    FractionOf(p.gamma, x.I);
  }

  /** One step keeps every compartment non-negative. */
  lemma StepInRange(p: Params, x: State)
    requires Epidemic(p) && InRange(p, x)
    ensures InRange(p, Step(p, x))
  {
    IncidenceBounded(p, x);
    OutflowsBounded(p, x);
  }

  /** No compartment ever becomes negative (so none exceeds N). */
  lemma {:induction false} StaysInRange(p: Params, k: nat)
    requires Epidemic(p)
    ensures InRange(p, StateAt(p, k))
  {
    if k > 0 {
      StaysInRange(p, k - 1);
      StepInRange(p, StateAt(p, k - 1));
    }
  }

  /** One day: the recovered grow by exactly `gamma * I`, so they never
      decrease when `gamma` and I are non-negative, and the susceptible never
      increase when `beta`, S and I are non-negative and `N > 0`. These hold
      for any parameters and state, inside the epidemic ranges or not. */
  lemma StepMonotone(p: Params, x: State)
    requires p.N != 0.0
    ensures Step(p, x).R - x.R == p.gamma * x.I
    ensures 0.0 <= p.gamma && 0.0 <= x.I ==> x.R <= Step(p, x).R
    ensures 0.0 <= p.beta && 0.0 <= x.S && 0.0 <= x.I && p.N > 0.0 ==> Step(p, x).S <= x.S
  {
    if 0.0 <= p.gamma && 0.0 <= x.I {
      OutflowNonNegative(p.gamma, x.I);
    }
    if 0.0 <= p.beta && 0.0 <= x.S && 0.0 <= x.I && p.N > 0.0 {
      IncidenceNonNegative(p.beta, x.S, x.I, p.N);
    }
  }

  /** Along a simulation inside the epidemic ranges the recovered never
      decrease and the susceptible never increase, from any day to any
      later day. */
  lemma {:induction false} Monotone(p: Params, i: nat, j: nat)
    requires Epidemic(p) && i <= j
    ensures StateAt(p, i).R <= StateAt(p, j).R
    ensures StateAt(p, j).S <= StateAt(p, i).S
  {
    if i < j {
      Monotone(p, i, j - 1);
      StaysInRange(p, j - 1);
      StepMonotone(p, StateAt(p, j - 1));
    }
  }

  /** The exposure phase delays the outbreak: starting with no exposed
      (the page's default), the newly infected of day 1 are all in E and
      day 1 has no new infectious people, only the previous ones minus their
      recoveries, so with non-negative `gamma` and `I0` the infectious do not
      rise on day 1. */
  lemma ExposedDelaysInfection(p: Params)
    requires p.N != 0.0 && p.E0 == 0.0
    ensures StateAt(p, 1).E == Incidence(p.beta, p.N - p.I0, p.I0, p.N)
    ensures StateAt(p, 1).I == p.I0 - Outflow(p.gamma, p.I0)
    ensures 0.0 <= p.gamma && 0.0 <= p.I0 ==> StateAt(p, 1).I <= p.I0
  {
    assert StateAt(p, 0) == State(p.N - p.I0, 0.0, p.I0, 0.0);
    assert Outflow(p.sigma, 0.0) == 0.0;
    if 0.0 <= p.gamma && 0.0 <= p.I0 {
      OutflowNonNegative(p.gamma, p.I0);
    }
  }

  /** Below the threshold (`beta <= gamma`) the number of people carrying
      the infection, exposed or infectious, never rises. */
  lemma SubcriticalDecline(p: Params, k: nat)
    requires Epidemic(p) && p.beta <= p.gamma
    ensures StateAt(p, k + 1).E + StateAt(p, k + 1).I <= StateAt(p, k).E + StateAt(p, k).I
  {
    var x := StateAt(p, k);
    StaysInRange(p, k);
    IncidenceBelowRecovery(p.beta, p.gamma, x.S, x.I, p.N);
  }
}
