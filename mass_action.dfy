/**
 * The two flows of the compartment models of the SIR and SEIR pages: the
 * mass-action incidence `beta * S * I / N` and a linear outflow such as
 * `gamma * I`, with the facts about them the compartment proofs use. Each
 * fact is stated over plain reals so that those proofs only instantiate it.
 */
module MassAction {
  import opened Arith

  /** New infections in a day: `beta * S * I / N`. */
  function Incidence(beta: real, s: real, i: real, n: real): real
    requires n != 0.0
  {
    beta * s * i / n
  }

  /** The part `rate * X` of a compartment X that moves on in a day. */
  function Outflow(rate: real, x: real): real {
    rate * x
  }

  /** A rate between 0 and 1 moves at most the whole compartment. */
  lemma FractionOf(rate: real, x: real)
    requires 0.0 <= rate <= 1.0 && 0.0 <= x
    ensures 0.0 <= Outflow(rate, x) <= x
  {
    ScaleLe(x, 0.0, rate);
    ScaleLe(x, rate, 1.0);
    assert Outflow(rate, x) == x * rate;
  }

  /** With non-negative rate, susceptible and infected, infections are
      non-negative. */
  lemma IncidenceNonNegative(beta: real, s: real, i: real, n: real)
    requires n > 0.0 && 0.0 <= beta && 0.0 <= s && 0.0 <= i
    ensures 0.0 <= Incidence(beta, s, i, n)
  {
    ScaleLe(beta, 0.0, s);
    ScaleLe(beta * s, 0.0, i);
    DivideNonNegative(beta * s * i, n);
  }

  /** A non-negative rate of a non-negative compartment is a non-negative
      outflow. */
  lemma OutflowNonNegative(rate: real, x: real)
    requires 0.0 <= rate && 0.0 <= x
    ensures 0.0 <= Outflow(rate, x)
  {
    ScaleLe(rate, 0.0, x);
  }

  /** The product `beta * S * I` lies between 0 and `S * N`. */
  lemma ProductWithin(beta: real, s: real, i: real, n: real)
    requires 0.0 <= beta <= 1.0 && 0.0 <= s && 0.0 <= i <= n
    ensures 0.0 <= beta * s * i <= s * n
  {
    var bi := beta * i;
    assert 0.0 <= bi <= n by {
      FractionOf(beta, i);
    }
    assert beta * s * i == s * bi;
    assert s * bi <= s * n by {
      ScaleLe(s, bi, n);
    }
    assert 0.0 <= s * bi by {
      ScaleLe(s, 0.0, bi);
    }
  }

  /** With `0 <= beta <= 1` and `0 <= I <= N`, a day's new infections are
      between 0 and S. */
  lemma IncidenceWithinSusceptible(beta: real, s: real, i: real, n: real)
    requires n > 0.0 && 0.0 <= beta <= 1.0 && 0.0 <= s && 0.0 <= i <= n
    ensures 0.0 <= Incidence(beta, s, i, n) <= s
  {
    ProductWithin(beta, s, i, n);
    QuotientWithin(beta * s * i, s, n);
  }

  /** With `beta <= gamma` and `S <= N`, new infections never exceed
      recoveries. */
  lemma IncidenceBelowRecovery(beta: real, gamma: real, s: real, i: real, n: real)
    requires n > 0.0 && 0.0 <= beta <= gamma && 0.0 <= s <= n && 0.0 <= i
    ensures Incidence(beta, s, i, n) <= Outflow(gamma, i)
  {
    ScaleLe(beta * i, s, n);
    assert beta * s * i == (beta * i) * s;
    ScaleLe(i, beta, gamma);
    assert (beta * i) * n <= (gamma * i) * n by {
      ScaleLe(n, beta * i, gamma * i);
    }
    DivideLe(beta * s * i, gamma * i, n);
  }

  /** Above the threshold at the start (`beta * (N - I0) / N > gamma`) the
      first day's infections outnumber its recoveries. */
  lemma InitialGrowth(beta: real, gamma: real, n: real, i0: real)
    requires n != 0.0 && i0 > 0.0 && beta * (n - i0) / n > gamma
    ensures Incidence(beta, n - i0, i0, n) > Outflow(gamma, i0)
  {
    var a := beta * (n - i0) / n;
    assert beta * (n - i0) * i0 / n == a * i0;
    assert a * i0 > gamma * i0 by {
      StrictScale(i0, gamma, a);
    }
  }
}
