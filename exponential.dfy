/**
 * The exponential-growth page (`/pagina3`): `sync_all` keeps each slider and
 * its typed field in step, and `actualizar_grafica` sanitises the three
 * parameters, samples `P(t) = P0 * exp(r * t)` on a 15-point grid and places
 * the axis range and the two annotations. `exp` is a parameter: the model
 * only assumes what each property states about it.
 */
module Exponential {
  import opened Values
  import opened Series
  import opened Decimal
  import opened Arith

  /** `try: v = float(x) except: v = d`: a value that parses is kept, zero
      included; anything else falls back to `d`. */
  function ParsedOr(x: Option<real>, d: real): (v: real)
    ensures x.Some? ==> v == x.value
    ensures x.None? ==> v == d
  {
    match x
    case Some(value) => value
    case None => d
  }

  /** The parameters the chart is drawn from. */
  datatype Settings = Settings(P0: real, r: real, tMax: real)

  /** Lines 131-138 of the callback: parse each field or fall back to
      `P0 = 1.0`, `r = 0.1`, `t_max = 10.0`; then a non-positive `t_max`
      becomes `1.0` and a non-positive `P0` becomes `1e-6`. */
  function Sanitize(P0: Option<real>, r: Option<real>, tMax: Option<real>): (s: Settings)
    ensures s.P0 > 0.0 && s.tMax > 0.0
    ensures P0.Some? && P0.value > 0.0 ==> s.P0 == P0.value
    ensures P0.Some? && P0.value <= 0.0 ==> s.P0 == 0.000001
    ensures P0.None? ==> s.P0 == 1.0
    ensures r.Some? ==> s.r == r.value
    ensures r.None? ==> s.r == 0.1
    ensures tMax.Some? && tMax.value > 0.0 ==> s.tMax == tMax.value
    ensures tMax.Some? && tMax.value <= 0.0 ==> s.tMax == 1.0
    ensures tMax.None? ==> s.tMax == 10.0
  {
    var p0 := ParsedOr(P0, 1.0);
    var rate := ParsedOr(r, 0.1);
    var t := ParsedOr(tMax, 10.0);
    var t := if t <= 0.0 then 1.0 else t;
    var p0 := if p0 <= 0.0 then 0.000001 else p0;
    Settings(p0, rate, t)
  }

  /** Sanitising is idempotent: settings that went through it once come back
      unchanged when fed in again. */
  lemma SanitizeIdempotent(P0: Option<real>, r: Option<real>, tMax: Option<real>)
    ensures var s := Sanitize(P0, r, tMax);
      Sanitize(Some(s.P0), Some(s.r), Some(s.tMax)) == s
  {
  }

  /** `np.linspace(0, t_max, 15)`. */
  function Grid(tMax: real): (t: seq<real>)
    requires tMax > 0.0
    ensures |t| == 15 && t[0] == 0.0 && t[14] == tMax
    ensures forall i :: 0 <= i < 14 ==> t[i + 1] - t[i] == tMax / 14.0
  {
    Linspace(0.0, tMax, 15)
  }

  /** The grid is strictly increasing and stays within `[0, t_max]`. */
  lemma {:induction false} GridIncreasing(tMax: real, i: nat, j: nat)
    requires tMax > 0.0 && i < j < 15
    ensures 0.0 <= Grid(tMax)[i] < Grid(tMax)[j] <= tMax
  {
    var t := Grid(tMax);
    assert t[j] - t[j - 1] == tMax / 14.0 > 0.0;
    if i < j - 1 {
      GridIncreasing(tMax, i, j - 1);
    } else {
      LinspaceWithin(0.0, tMax, 15, i);
    }
    LinspaceWithin(0.0, tMax, 15, j);
  }

  /** The population `P0 * exp(r * t)` at time `t`. */
  function Sample(P0: real, r: real, exp: real -> real, t: real): real {
    P0 * exp(r * t)
  }

  /** `P0 * np.exp(r * t)` taken elementwise over the times `ts`. */
  function Samples(P0: real, r: real, exp: real -> real, ts: seq<real>): (P: seq<real>)
    ensures |P| == |ts|
    ensures forall i :: 0 <= i < |ts| ==> P[i] == Sample(P0, r, exp, ts[i])
  {
    if |ts| == 0 then []
    else
      var P := Samples(P0, r, exp, ts[..|ts| - 1]) + [Sample(P0, r, exp, ts[|ts| - 1])];
      assert forall i :: 0 <= i < |ts| - 1 ==> ts[..|ts| - 1][i] == ts[i];
      P
  }

  /** `P = P0 * np.exp(r * t)` on the page's grid; it starts at `P0`. */
  function Curve(s: Settings, exp: real -> real): (P: seq<real>)
    requires s.tMax > 0.0
    ensures |P| == 15
    ensures exp(0.0) == 1.0 ==> P[0] == s.P0
  {
    Samples(s.P0, s.r, exp, Grid(s.tMax))
  }

  /** For an increasing `exp` and a positive `P0`, the population grows with
      time when `r > 0` and decays when `r < 0`. */
  lemma SampleMonotone(P0: real, r: real, exp: real -> real, t1: real, t2: real)
    requires P0 > 0.0 && t1 < t2
    requires forall a, b :: a < b ==> exp(a) < exp(b)
    ensures r > 0.0 ==> Sample(P0, r, exp, t1) < Sample(P0, r, exp, t2)
    ensures r < 0.0 ==> Sample(P0, r, exp, t2) < Sample(P0, r, exp, t1)
  {
    var a, b := r * t1, r * t2;
    if r > 0.0 {
      StrictScale(r, t1, t2);
      assert exp(a) < exp(b);
      StrictScale(P0, exp(a), exp(b));
    } else if r < 0.0 {
      StrictScale(-r, t1, t2);
      assert b < a;
      assert exp(b) < exp(a);
      StrictScale(P0, exp(b), exp(a));
    }
  }

  /** On the page's grid, a positive rate makes the sampled population grow
      from one point to any later one and a negative rate makes it decay. */
  lemma CurveMonotone(s: Settings, exp: real -> real, i: nat, j: nat)
    requires s.tMax > 0.0 && s.P0 > 0.0 && i < j < 15
    requires forall a, b :: a < b ==> exp(a) < exp(b)
    ensures s.r > 0.0 ==> Curve(s, exp)[i] < Curve(s, exp)[j]
    ensures s.r < 0.0 ==> Curve(s, exp)[j] < Curve(s, exp)[i]
  {
    var t := Grid(s.tMax);
    GridIncreasing(s.tMax, i, j);
    SampleMonotone(s.P0, s.r, exp, t[i], t[j]);
  }

  /** With `r = 0` the curve is flat at `P0`. */
  lemma CurveFlat(s: Settings, exp: real -> real, i: nat)
    requires s.tMax > 0.0 && s.r == 0.0 && exp(0.0) == 1.0 && i < 15
    ensures Curve(s, exp)[i] == s.P0
  {
  }

  /** `y_max = float(np.nanmax(P))`, replaced by `1.0` when not positive; the
      y axis then runs up to `y_max * 1.12`, strictly above every sample. */
  function AxisTop(P: seq<real>): (top: real)
    requires |P| > 0
    ensures top > 0.0
    ensures forall j :: 0 <= j < |P| ==> P[j] < top
  {
    var yMax := Max(P);
    var yMax := if yMax <= 0.0 then 1.0 else yMax;
    yMax * 1.12
  }

  /** With positive samples the guard never fires: the axis top is 1.12
      times the largest sample. */
  lemma AxisTopOfPositive(P: seq<real>)
    requires |P| > 0 && forall j :: 0 <= j < |P| ==> P[j] > 0.0
    ensures AxisTop(P) == Max(P) * 1.12
  {
    assert P[0] <= Max(P);
  }

  /** `idx = max(0, min(len(P) - 1, int(len(P) * 0.7)))`: always a valid index
      of a non-empty series. */
  function AnnotationIndex(n: nat): (idx: int)
    ensures 0 <= idx
    ensures n >= 1 ==> idx < n
  {
    var k := Trunc(n as real * 0.7);
    var k := if n - 1 < k then n - 1 else k;
    if 0 < k then k else 0
  }

  /** On the page's 15 samples the rate label sits at the eleventh point. */
  lemma AnnotationIndexOfGrid()
    ensures AnnotationIndex(15) == 10
  {
    assert Trunc(15.0 * 0.7) == 10;
  }

  /** What `actualizar_grafica` draws: the samples, the top of the y axis,
      the `P0` annotation at `(0, P0)` and the rate annotation at sample
      `idx`, with their texts. */
  datatype Chart = Chart(
    settings: Settings, t: seq<real>, P: seq<real>, yTop: real,
    p0At: (real, real), p0Text: string, rateAt: (real, real), rateText: string)

  /** `actualizar_grafica`. */
  function UpdateChart(P0: Option<real>, r: Option<real>, tMax: Option<real>, exp: real -> real): (c: Chart)
    ensures c.settings == Sanitize(P0, r, tMax)
    ensures c.t == Grid(c.settings.tMax) && c.P == Curve(c.settings, exp)
    ensures exp(0.0) == 1.0 ==> c.P[0] == c.settings.P0
    ensures c.yTop == AxisTop(c.P)
    ensures c.yTop > 0.0 && forall j :: 0 <= j < 15 ==> c.P[j] < c.yTop
    ensures c.p0At == (0.0, c.settings.P0) && c.rateAt == (c.t[10], c.P[10])
    ensures c.p0Text == "P₀ = " + FormatFixed(c.settings.P0, 2)
    ensures c.rateText == "r = " + FormatFixed(c.settings.r, 4)
  {
    var s := Sanitize(P0, r, tMax);
    var t := Grid(s.tMax);
    var P := Curve(s, exp);
    var idx := AnnotationIndex(|P|);
    AnnotationIndexOfGrid();
    Chart(s, t, P, AxisTop(P), (0.0, s.P0), "P₀ = " + FormatFixed(s.P0, 2), (t[idx], P[idx]), "r = " + FormatFixed(s.r, 4))
  }

  /** The nine outputs of `sync_all`: for each of `P0`, `r` and `t` the typed
      field's value, the label next to it and the slider's value. */
  datatype SyncOutput = SyncOutput(
    p0: real, p0Label: string, p0Slider: real,
    r: real, rLabel: string, rSlider: real,
    t: real, tLabel: string, tSlider: real)

  /** The ids whose change makes `sync_all` read the typed fields. */
  predicate TypedTrigger(triggered: Option<string>)
    ensures TypedTrigger(triggered) <==>
      triggered == Some("input-p0") || triggered == Some("input-r") || triggered == Some("input-t")
  {
    triggered.Some? && triggered.value in ["input-p0", "input-r", "input-t"]
  }

  /** `fmt_int`: a dash, then `int(x)` with its thousands separated by spaces. */
  function IntLabel(x: real): (s: string)
    ensures |s| > 3 && s[..3] == " — "
    ensures ParseGrouped(s[3..]) == Some(Trunc(x))
  {
    var number := FormatGrouped(Trunc(x));
    FormatGroupedRoundTrip(Trunc(x));
    assert (" — " + number)[3..] == number;
    " — " + number
  }

  /** `fmt_float`: a dash, then `x` with four decimals. */
  function FloatLabel(x: real): (s: string)
    ensures |s| > 3 && s[..3] == " — "
    ensures ParseFixed(s[3..], 4) == Some(RoundTo(x, 10000))
  {
    var number := FormatFixed(x, 4);
    FormatFixedRoundTrip(x, 4);
    assert Pow10(4) == 10000;
    assert (" — " + number)[3..] == number;
    " — " + number
  }

  /** `sync_all`. When a typed field fired, each value is that field's
      number if it parses and the slider's otherwise; when a slider fired (or
      nothing did) the three slider values are taken. Each chosen value goes
      to both its field and its slider, with its label. */
  function Sync(triggered: Option<string>, p0Slider: real, rSlider: real, tSlider: real,
                p0Input: Option<real>, rInput: Option<real>, tInput: Option<real>): (o: SyncOutput)
    ensures TypedTrigger(triggered) ==>
      o.p0 == ParsedOr(p0Input, p0Slider) && o.r == ParsedOr(rInput, rSlider) && o.t == ParsedOr(tInput, tSlider)
    ensures !TypedTrigger(triggered) ==> o.p0 == p0Slider && o.r == rSlider && o.t == tSlider
    ensures o.p0Slider == o.p0 && o.rSlider == o.r && o.tSlider == o.t
    ensures o.p0Label == IntLabel(o.p0) && o.rLabel == FloatLabel(o.r) && o.tLabel == IntLabel(o.t)
  {
    var typed := TypedTrigger(triggered);
    var p0 := if typed then ParsedOr(p0Input, p0Slider) else p0Slider;
    var r := if typed then ParsedOr(rInput, rSlider) else rSlider;
    var t := if typed then ParsedOr(tInput, tSlider) else tSlider;
    SyncOutput(p0, IntLabel(p0), p0, r, FloatLabel(r), r, t, IntLabel(t), t)
  }

  /** Once synchronised, the widgets stay put: feeding the outputs back, with
      any trigger, reproduces them. */
  lemma SyncFixedPoint(triggered: Option<string>, another: Option<string>, p0Slider: real, rSlider: real, tSlider: real,
                       p0Input: Option<real>, rInput: Option<real>, tInput: Option<real>)
    ensures var o := Sync(triggered, p0Slider, rSlider, tSlider, p0Input, rInput, tInput);
      Sync(another, o.p0Slider, o.rSlider, o.tSlider, Some(o.p0), Some(o.r), Some(o.t)) == o
  {
  }
}
