/**
 * What the two rumour pages share: the state `(S, I, R)` of ignorant,
 * spreading and stifling people, the sign facts about the terms of their
 * right-hand sides, and the little the model assumes of
 * `scipy.integrate.odeint` itself.
 */
module Ode {
  import opened Arith

  datatype State = State(S: real, I: real, R: real)

  datatype Rates = Rates(dS: real, dI: real, dR: real)

  /** Signs of the contact term `a * S * I` of the rumour systems. */
  lemma ContactSigns(a: real, s: real, i: real)
    ensures 0.0 <= a && 0.0 <= s && 0.0 <= i ==> 0.0 <= a * s * i
    ensures i == 0.0 ==> a * s * i == 0.0
  {
    if 0.0 <= a && 0.0 <= s && 0.0 <= i {
      ScaleLe(a, 0.0, s);
      ScaleLe(a * s, 0.0, i);
    }
  }

  /** Signs of the stifling term `b * I` of the rumour systems. */
  lemma FractionSign(b: real, i: real)
    ensures 0.0 <= b && 0.0 <= i ==> 0.0 <= b * i
    ensures i == 0.0 ==> b * i == 0.0
  {
    if 0.0 <= b && 0.0 <= i {
      ScaleLe(b, 0.0, i);
    }
  }

  /** A right-hand side `f(y, t)` as `odeint` calls it, its extra `args`
      already bound. */
  type Rhs = (State, real) -> Rates

  /** `odeint(f, y0, t)`: the rows of the solution of `f` from `y0`, one per
      grid time. */
  type Solver = (Rhs, State, seq<real>) -> seq<State>

  /** All the model assumes of `odeint`: one row per grid time, the first
      being the initial state, and the rows depend on the right-hand side
      only through its values. The adaptive integration is not modelled. */
  ghost predicate Integrates(odeint: Solver) {
    && (forall f: Rhs, y0, t :: |odeint(f, y0, t)| == |t| && (|t| > 0 ==> odeint(f, y0, t)[0] == y0))
    && (forall f: Rhs, g: Rhs, y0, t :: (forall y, s :: f(y, s) == g(y, s)) ==> odeint(f, y0, t) == odeint(g, y0, t))
  }

  /** One run of a solver: as many rows as grid times, starting at `y0`. */
  lemma SolverRun(odeint: Solver, f: Rhs, y0: State, t: seq<real>)
    requires Integrates(odeint)
    ensures |odeint(f, y0, t)| == |t|
    ensures |t| > 0 ==> odeint(f, y0, t)[0] == y0
  {
  }

  /** Two right-hand sides that agree on every state and time give the same
      rows. */
  lemma SolverAgrees(odeint: Solver, f: Rhs, g: Rhs, y0: State, t: seq<real>)
    requires Integrates(odeint)
    requires forall y, s :: f(y, s) == g(y, s)
    ensures odeint(f, y0, t) == odeint(g, y0, t)
  {
  }

  /** `S, I, R = sol.T`. */
  datatype Columns = Columns(S: seq<real>, I: seq<real>, R: seq<real>)

  function Transpose(sol: seq<State>): (c: Columns)
    ensures |c.S| == |c.I| == |c.R| == |sol|
    ensures forall j :: 0 <= j < |sol| ==> c.S[j] == sol[j].S && c.I[j] == sol[j].I && c.R[j] == sol[j].R
  {
    Columns(seq(|sol|, j requires 0 <= j < |sol| => sol[j].S),
            seq(|sol|, j requires 0 <= j < |sol| => sol[j].I),
            seq(|sol|, j requires 0 <= j < |sol| => sol[j].R))
  }
}
