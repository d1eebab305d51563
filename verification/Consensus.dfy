/**
 The self-consensus forecast of src/event_intelligence/consensus.py, over the reals and before
 its final rounding. The fourth root and the square root are parameters; nothing below needs to
 know what they compute.
 */
module SelfConsensus {
  import opened Containers
  import opened Numbers

  datatype Quarter = Quarter(pat: Option<real>, revenue: Option<real>, fiscalQuarter: int)

  datatype Tone = Raised | Cut | Reaffirmed | OtherTone

  /** `delta` is the guided growth in percent, absent also when it is not a number. */
  datatype Guidance = Guidance(tone: Tone, delta: Option<real>)

  datatype EventType = OrderWin | ManagementChange | CreditRating | FinancialResults | OtherEvent

  datatype Event = Event(kind: EventType, urgency: real, short: bool, downgrade: bool, blowout: bool)

  datatype Weights = Weights(trend: real, seasonal: real, momentum: real, guidance: real, event: real)

  const DEFAULT_WEIGHTS := Weights(0.40, 0.25, 0.20, 0.10, 0.05)

  datatype Roots = Roots(fourth: real -> real, square: real -> real)

  datatype Confidence = High | Medium | Low

  datatype Reason = InsufficientHistory | NoValidPat

  datatype Components = Components(base: real, trend: real, seasonal: real, momentum: real, blended: real,
                                   guided: bool, events: bool, quarters: nat, variance: real)

  /** `TypeError`: the fourth root of a negative ratio is complex and cannot be clamped. */
  datatype Forecast = NoEstimate(reason: Reason)
                    | Estimate(expected: real, confidence: Confidence, parts: Components)
                    | TypeError

  // Product and quotient by name, so that equal operands are seen to give equal results.
  function Mul(k: real, x: real): real { k * x }

  function Ratio(a: real, b: real): real
    requires b != 0.0
  {
    a / b
  }

  function Clamp(x: real, limit: real): (r: real)
    requires limit >= 0.0
    ensures -limit <= r <= limit
    ensures -limit <= x <= limit ==> r == x
    ensures (x > limit ==> r == limit) && (x < -limit ==> r == -limit)
  {
    Max(-limit, Min(limit, x))
  }

  // ---------------------------------------------------------------- what each component computes

  function Valid(values: seq<Option<real>>): seq<real> {
    if values == [] then []
    else
      var before := Valid(values[..|values| - 1]);
      if values[|values| - 1].Some? then before + [values[|values| - 1].value] else before
  }

  function Positive(values: seq<Option<real>>): (r: seq<real>)
    ensures forall x <- r :: x > 0.0
  {
    if values == [] then []
    else
      var before, v := Positive(values[..|values| - 1]), values[|values| - 1];
      if v.Some? && v.value > 0.0 then before + [v.value] else before
  }

  function Pats(history: seq<Quarter>): (r: seq<Option<real>>)
    ensures |r| == |history|
  {
    seq(|history|, i requires 0 <= i < |history| => history[i].pat)
  }

  function Revenues(history: seq<Quarter>): (r: seq<Option<real>>)
    ensures |r| == |history|
  {
    seq(|history|, i requires 0 <= i < |history| => history[i].revenue)
  }

  /** The reported PATs of one fiscal quarter. */
  function SameQuarter(history: seq<Quarter>, target: int): seq<real> {
    if history == [] then []
    else
      var before, q := SameQuarter(history[..|history| - 1], target), history[|history| - 1];
      if q.fiscalQuarter == target && q.pat.Some? then before + [q.pat.value] else before
  }

  /** Growth over the last four PATs; `None` when the root would be complex. */
  function Trend(v: seq<real>, roots: Roots): Option<real> {
    if |v| < 4 || v[|v| - 4] <= 0.0 then Some(0.0)
    else if v[|v| - 1] < 0.0 then None
    else Some(Clamp(roots.fourth(Ratio(v[|v| - 1], v[|v| - 4])) - 1.0, 0.5))
  }

  function Seasonal(same: seq<real>): real {
    if |same| < 2 || same[|same| - 2] <= 0.0 then 0.0
    else Clamp(Ratio(same[|same| - 1], same[|same| - 2]) - 1.0, 0.5)
  }

  function Momentum(v: seq<real>): real
    requires forall x <- v :: x > 0.0
  {
    if |v| < 3 then 0.0
    else
      var n := |v|;
      assert v[n - 2] in v && v[n - 3] in v;
      Clamp(Ratio(v[n - 1], v[n - 2]) - Ratio(v[n - 2], v[n - 3]), 0.3)
  }

  function Rates(pats: seq<real>): seq<real> {
    if |pats| < 2 then []
    else
      var n := |pats|;
      var before := Rates(pats[..n - 1]);
      if pats[n - 2] > 0.0 then before + [Ratio(pats[n - 1], pats[n - 2]) - 1.0] else before
  }

  function Sum(s: seq<real>): real {
    if s == [] then 0.0 else Sum(s[..|s| - 1]) + s[|s| - 1]
  }

  function Squares(s: seq<real>, mean: real): (r: seq<real>)
    ensures |r| == |s|
  {
    seq(|s|, i requires 0 <= i < |s| => Mul(s[i] - mean, s[i] - mean))
  }

  function Mean(s: seq<real>): real
    requires s != []
  {
    Sum(s) / |s| as real
  }

  function Variance(s: seq<real>): real
    requires s != []
  {
    Mean(Squares(s, Mean(s)))
  }

  function Deviation(pats: seq<real>, roots: Roots): real {
    if |pats| < 3 || Rates(pats) == [] then 1.0 else roots.square(Variance(Rates(pats)))
  }

  predicate Usable(g: Option<Guidance>) {
    g.Some? && g.value.tone != OtherTone
  }

  function Guided(expected: real, base: real, g: Guidance, w: real): real {
    if g.delta.Some? then expected * (1.0 - w) + base * (1.0 + g.delta.value / 100.0) * w
    else match g.tone
      case Raised => expected * (1.0 + w * 0.1)
      case Cut => expected * (1.0 - w * 0.15)
      case _ => expected
  }

  /** What one event adds. */
  function Effect(e: Event): real {
    match e.kind
    case OrderWin => if e.urgency >= 7.0 then 0.05 else 0.0
    case ManagementChange => if e.short then -0.10 else 0.0
    case CreditRating => if e.downgrade then -0.08 else 0.0
    case FinancialResults => if e.blowout then 0.03 else 0.0
    case OtherEvent => 0.0
  }

  function Effects(events: seq<Event>): real {
    if events == [] then 0.0 else Effects(events[..|events| - 1]) + Effect(events[|events| - 1])
  }

  function Adjusted(expected: real, events: seq<Event>, w: real): real {
    if Effects(events) == 0.0 then expected else expected * (1.0 + w * Effects(events) / 0.05)
  }

  // ---------------------------------------------------------------- the forecast

  function Blend(w: Weights, guided: bool, trend: real, seasonal: real, momentum: real): real {
    (if guided then w.trend else w.trend + w.guidance) * trend + w.seasonal * seasonal + w.momentum * momentum
  }

  function BeforeEvents(base: real, blend: real, g: Option<Guidance>, w: Weights): real {
    var expected := base * (1.0 + blend);
    if Usable(g) then Guided(expected, base, g.value, w.guidance) else expected
  }

  function ConfidenceOf(quarters: nat, variance: real): Confidence {
    if quarters >= 8 && variance < 0.15 then High else if quarters >= 4 then Medium else Low
  }

  function Finish(base: real, expected: real, adjusted: real, parts: Components): Forecast {
    Estimate(adjusted, ConfidenceOf(parts.quarters, parts.variance),
             parts.(base := base, events := adjusted != expected,
                    blended := if base != 0.0 then Ratio(adjusted, base) - 1.0 else 0.0))
  }

  /** The growth rates of a history, which amounts enter only as ratios. */
  function PartsOf(history: seq<Quarter>, target: int, g: Option<Guidance>, roots: Roots): Components
    requires Trend(Valid(Pats(history)), roots).Some?
  {
    var pats := Valid(Pats(history));
    Components(0.0, Trend(pats, roots).value, Seasonal(SameQuarter(history, target)),
               Momentum(Positive(Revenues(history))), 0.0, Usable(g), false, |pats|, Deviation(pats, roots))
  }

  function ForecastFrom(base: real, parts: Components, g: Option<Guidance>, events: seq<Event>,
                        w: Weights): (f: Forecast)
    ensures f.Estimate?
  {
    var expected := BeforeEvents(base, Blend(w, Usable(g), parts.trend, parts.seasonal, parts.momentum), g, w);
    Finish(base, expected, Adjusted(expected, events, w.event), parts)
  }

  function Forecasted(history: seq<Quarter>, target: int, g: Option<Guidance>, events: seq<Event>,
                      w: Weights, roots: Roots): Forecast {
    var pats := Valid(Pats(history));
    if |history| < 4 then NoEstimate(InsufficientHistory)
    else if pats == [] then NoEstimate(NoValidPat)
    else if Trend(pats, roots).None? then TypeError
    else ForecastFrom(pats[|pats| - 1], PartsOf(history, target, g, roots), g, events, w)
  }

  /** `compute_surprise_pct`. */
  function Surprise(actual: real, f: Forecast): Option<real> {
    if !f.Estimate? || f.expected == 0.0 then None
    else Some(Ratio(actual - f.expected, Abs(f.expected)) * 100.0)
  }

  // ---------------------------------------------------------------- when it raises

  /** The forecast raises exactly when the fourth-last reported PAT is a profit and the last one a
      loss. The `except` of line 202 does not cover it: the root itself succeeds. */
  lemma RaisesIff(history: seq<Quarter>, target: int, g: Option<Guidance>, events: seq<Event>, w: Weights, roots: Roots)
    ensures var v := Valid(Pats(history));
            Forecasted(history, target, g, events, w, roots).TypeError? <==>
            |v| >= 4 && v[|v| - 4] > 0.0 && v[|v| - 1] < 0.0
  {
    var v := Valid(Pats(history));
    ValidIsShorter(Pats(history));
    assert Trend(v, roots).None? <==> |v| >= 4 && v[|v| - 4] > 0.0 && v[|v| - 1] < 0.0;
  }

  lemma {:induction false} ValidIsShorter(values: seq<Option<real>>)
    ensures |Valid(values)| <= |values|
  {
    if values != [] {
      ValidIsShorter(values[..|values| - 1]);
    }
  }

  function Plain(pat: real): Quarter {
    Quarter(Some(pat), None, 1)
  }

  /** Three profits and a loss are enough. */
  lemma ProfitsThenLossRaises(target: int, g: Option<Guidance>, events: seq<Event>, w: Weights, roots: Roots)
    ensures Forecasted([Plain(1.0), Plain(1.0), Plain(1.0), Plain(-1.0)], target, g, events, w, roots) == TypeError
  {
    var h := [Plain(1.0), Plain(1.0), Plain(1.0), Plain(-1.0)];
    AllReported([1.0, 1.0, 1.0, -1.0], h);
    RaisesIff(h, target, g, events, w, roots);
  }

  lemma {:induction false} AllReported(pats: seq<real>, history: seq<Quarter>)
    requires |pats| == |history|
    requires forall i | 0 <= i < |pats| :: history[i].pat == Some(pats[i])
    ensures Valid(Pats(history)) == pats
  {
    if pats != [] {
      var n := |pats| - 1;
      AllReported(pats[..n], history[..n]);
      assert Pats(history)[..n] == Pats(history[..n]);
    }
  }

  // ---------------------------------------------------------------- scaling

  function Scaled(s: seq<real>, k: real): (r: seq<real>)
    ensures |r| == |s|
  {
    seq(|s|, i requires 0 <= i < |s| => Mul(k, s[i]))
  }

  function Times(v: Option<real>, k: real): Option<real> {
    if v.Some? then Some(Mul(k, v.value)) else None
  }

  function ScaledOpts(s: seq<Option<real>>, k: real): (r: seq<Option<real>>)
    ensures |r| == |s|
  {
    seq(|s|, i requires 0 <= i < |s| => Times(s[i], k))
  }

  function ScaledHistory(history: seq<Quarter>, k: real, m: real): (r: seq<Quarter>)
    ensures |r| == |history|
  {
    seq(|history|, i requires 0 <= i < |history| =>
      history[i].(pat := Times(history[i].pat, k), revenue := Times(history[i].revenue, m)))
  }

  /** The forecast in another unit of money: amounts change, ratios and the confidence do not. */
  function InUnit(f: Forecast, k: real): Forecast {
    if f.Estimate? then f.(expected := Mul(k, f.expected), parts := f.parts.(base := Mul(k, f.parts.base))) else f
  }

  lemma RatioScaled(a: real, b: real, k: real)
    requires k > 0.0 && b != 0.0
    ensures Mul(k, b) != 0.0 && Ratio(Mul(k, a), Mul(k, b)) == Ratio(a, b)
  {
    var q := a / b;
    assert a == q * b;
    assert k * a == q * (k * b);
  }

  lemma SignScaled(a: real, k: real)
    requires k > 0.0
    ensures Mul(k, a) > 0.0 <==> a > 0.0
    ensures Mul(k, a) < 0.0 <==> a < 0.0
  {
  }

  lemma MulDistributes(k: real, a: real, b: real)
    ensures Mul(k, a) - Mul(k, b) == Mul(k, a - b)
  {
  }

  lemma {:induction false} ValidScaled(values: seq<Option<real>>, k: real)
    ensures Valid(ScaledOpts(values, k)) == Scaled(Valid(values), k)
  {
    if values != [] {
      var n := |values| - 1;
      ValidScaled(values[..n], k);
      assert ScaledOpts(values, k)[..n] == ScaledOpts(values[..n], k);
    }
  }

  lemma {:induction false} PositiveScaled(values: seq<Option<real>>, m: real)
    requires m > 0.0
    ensures Positive(ScaledOpts(values, m)) == Scaled(Positive(values), m)
  {
    if values != [] {
      var n := |values| - 1;
      PositiveScaled(values[..n], m);
      assert ScaledOpts(values, m)[..n] == ScaledOpts(values[..n], m);
      if values[n].Some? {
        SignScaled(values[n].value, m);
      }
    }
  }

  lemma {:induction false} SameQuarterScaled(history: seq<Quarter>, target: int, k: real, m: real)
    ensures SameQuarter(ScaledHistory(history, k, m), target) == Scaled(SameQuarter(history, target), k)
  {
    if history != [] {
      var n := |history| - 1;
      SameQuarterScaled(history[..n], target, k, m);
      assert ScaledHistory(history, k, m)[..n] == ScaledHistory(history[..n], k, m);
    }
  }

  lemma TrendScaled(v: seq<real>, k: real, roots: Roots)
    requires k > 0.0
    ensures Trend(Scaled(v, k), roots) == Trend(v, roots)
  {
    if |v| >= 4 {
      SignScaled(v[|v| - 4], k);
      SignScaled(v[|v| - 1], k);
      if v[|v| - 4] > 0.0 {
        RatioScaled(v[|v| - 1], v[|v| - 4], k);
      }
    }
  }

  lemma SeasonalScaled(same: seq<real>, k: real)
    requires k > 0.0
    ensures Seasonal(Scaled(same, k)) == Seasonal(same)
  {
    if |same| >= 2 {
      SignScaled(same[|same| - 2], k);
      if same[|same| - 2] > 0.0 {
        RatioScaled(same[|same| - 1], same[|same| - 2], k);
      }
    }
  }

  lemma MomentumScaled(v: seq<real>, m: real)
    requires m > 0.0 && (forall x <- v :: x > 0.0) && forall x <- Scaled(v, m) :: x > 0.0
    ensures Momentum(Scaled(v, m)) == Momentum(v)
  {
    if |v| >= 3 {
      var n := |v|;
      assert v[n - 2] in v && v[n - 3] in v;
      RatioScaled(v[n - 1], v[n - 2], m);
      RatioScaled(v[n - 2], v[n - 3], m);
    }
  }

  lemma {:induction false} RatesScaled(pats: seq<real>, k: real)
    requires k > 0.0
    ensures Rates(Scaled(pats, k)) == Rates(pats)
  {
    if |pats| >= 2 {
      var n := |pats|;
      RatesScaled(pats[..n - 1], k);
      assert Scaled(pats, k)[..n - 1] == Scaled(pats[..n - 1], k);
      SignScaled(pats[n - 2], k);
      if pats[n - 2] > 0.0 {
        RatioScaled(pats[n - 1], pats[n - 2], k);
      }
    }
  }

  lemma BeforeEventsScaled(base: real, blend: real, g: Option<Guidance>, w: Weights, k: real)
    ensures BeforeEvents(Mul(k, base), blend, g, w) == Mul(k, BeforeEvents(base, blend, g, w))
  {
    var expected := base * (1.0 + blend);
    assert k * base * (1.0 + blend) == k * expected;
    if Usable(g) {
      GuidedScaled(expected, base, g.value, w.guidance, k);
    }
  }

  lemma GuidedScaled(expected: real, base: real, g: Guidance, w: real, k: real)
    ensures Guided(Mul(k, expected), Mul(k, base), g, w) == Mul(k, Guided(expected, base, g, w))
  {
    if g.delta.Some? {
      var d := 1.0 + g.delta.value / 100.0;
      assert k * base * d * w == k * (base * d * w);
      assert k * expected * (1.0 - w) == k * (expected * (1.0 - w));
    } else {
      assert k * expected * (1.0 + w * 0.1) == k * (expected * (1.0 + w * 0.1));
      assert k * expected * (1.0 - w * 0.15) == k * (expected * (1.0 - w * 0.15));
    }
  }

  lemma AdjustedScaled(expected: real, events: seq<Event>, w: real, k: real)
    ensures Adjusted(Mul(k, expected), events, w) == Mul(k, Adjusted(expected, events, w))
  {
    var f := 1.0 + w * Effects(events) / 0.05;
    assert k * expected * f == k * (expected * f);
  }

  lemma FinishScaled(base: real, expected: real, adjusted: real, parts: Components, k: real)
    requires k > 0.0
    ensures Finish(Mul(k, base), Mul(k, expected), Mul(k, adjusted), parts)
         == InUnit(Finish(base, expected, adjusted, parts), k)
  {
    if base != 0.0 {
      RatioScaled(adjusted, base, k);
    }
    SignScaled(adjusted - expected, k);
    MulDistributes(k, adjusted, expected);
  }

  /** Reporting every PAT in another unit changes the forecast to that unit and nothing else, with
      revenues in any unit, with guidance and events or without, and also when it raises. */
  lemma Homogeneous(history: seq<Quarter>, target: int, g: Option<Guidance>, events: seq<Event>,
                    w: Weights, roots: Roots, k: real, m: real)
    requires k > 0.0 && m > 0.0
    ensures Forecasted(ScaledHistory(history, k, m), target, g, events, w, roots)
         == InUnit(Forecasted(history, target, g, events, w, roots), k)
  {
    var scaled := ScaledHistory(history, k, m);
    var pats := Valid(Pats(history));
    assert Pats(scaled) == ScaledOpts(Pats(history), k);
    ValidScaled(Pats(history), k);
    TrendScaled(pats, k, roots);
    if |history| >= 4 && pats != [] && Trend(pats, roots).Some? {
      PartsScaled(history, target, g, roots, k, m);
      ForecastScaled(pats[|pats| - 1], PartsOf(history, target, g, roots), g, events, w, k);
    }
  }

  lemma PartsScaled(history: seq<Quarter>, target: int, g: Option<Guidance>, roots: Roots, k: real, m: real)
    requires k > 0.0 && m > 0.0 && Trend(Valid(Pats(history)), roots).Some?
    ensures Trend(Valid(Pats(ScaledHistory(history, k, m))), roots).Some?
    ensures PartsOf(ScaledHistory(history, k, m), target, g, roots) == PartsOf(history, target, g, roots)
  {
    var scaled := ScaledHistory(history, k, m);
    assert Pats(scaled) == ScaledOpts(Pats(history), k);
    assert Revenues(scaled) == ScaledOpts(Revenues(history), m);
    ValidScaled(Pats(history), k);
    TrendScaled(Valid(Pats(history)), k, roots);
    RatesScaled(Valid(Pats(history)), k);
    SameQuarterScaled(history, target, k, m);
    SeasonalScaled(SameQuarter(history, target), k);
    PositiveScaled(Revenues(history), m);
    MomentumScaled(Positive(Revenues(history)), m);
  }

  lemma ForecastScaled(base: real, parts: Components, g: Option<Guidance>, events: seq<Event>, w: Weights, k: real)
    requires k > 0.0
    ensures ForecastFrom(Mul(k, base), parts, g, events, w) == InUnit(ForecastFrom(base, parts, g, events, w), k)
  {
    var blend := Blend(w, Usable(g), parts.trend, parts.seasonal, parts.momentum);
    var expected := BeforeEvents(base, blend, g, w);
    BeforeEventsScaled(base, blend, g, w, k);
    AdjustedScaled(expected, events, w.event, k);
    FinishScaled(base, expected, Adjusted(expected, events, w.event), parts, k);
  }

  lemma SurpriseScaled(actual: real, f: Forecast, k: real)
    requires k > 0.0
    ensures Surprise(Mul(k, actual), InUnit(f, k)) == Surprise(actual, f)
  {
    if f.Estimate? {
      SignScaled(f.expected, k);
      if f.expected != 0.0 {
        MulDistributes(k, actual, f.expected);
        AbsScaled(f.expected, k);
        RatioScaled(actual - f.expected, Abs(f.expected), k);
      }
    }
  }

  lemma AbsScaled(x: real, k: real)
    requires k > 0.0
    ensures Abs(Mul(k, x)) == Mul(k, Abs(x))
  {
    SignScaled(x, k);
    MulDistributes(k, 0.0, x);
  }

  /** So a surprise does not depend on the unit that everything is reported in. */
  lemma SurpriseUnitless(history: seq<Quarter>, target: int, g: Option<Guidance>, events: seq<Event>,
                         w: Weights, roots: Roots, k: real, m: real, actual: real)
    requires k > 0.0 && m > 0.0
    ensures Surprise(Mul(k, actual), Forecasted(ScaledHistory(history, k, m), target, g, events, w, roots))
         == Surprise(actual, Forecasted(history, target, g, events, w, roots))
  {
    Homogeneous(history, target, g, events, w, roots, k, m);
    SurpriseScaled(actual, Forecasted(history, target, g, events, w, roots), k);
  }

  // ---------------------------------------------------------------- bounds

  lemma Spread(base: real, blend: real)
    requires -0.435 <= blend <= 0.435
    ensures base >= 0.0 ==> 0.565 * base <= base * (1.0 + blend) <= 1.435 * base
    ensures base <= 0.0 ==> 1.435 * base <= base * (1.0 + blend) <= 0.565 * base
  {
    assert base * (1.0 + blend) == 1.435 * base - base * (0.435 - blend);
    assert base * (1.0 + blend) == 0.565 * base + base * (0.435 + blend);
    if base >= 0.0 {
      NonNegative(base, 0.435 - blend);
      NonNegative(base, 0.435 + blend);
    } else {
      NonNegative(-base, 0.435 - blend);
      NonNegative(-base, 0.435 + blend);
    }
  }

  lemma NonNegative(a: real, b: real)
    requires a >= 0.0 && b >= 0.0
    ensures a * b >= 0.0
  {
  }

  /** With the default weights, and neither usable guidance nor events that count, the forecast is
      at most 43.5 % of the last PAT away from it, whatever the history. */
  lemma WithinBounds(history: seq<Quarter>, target: int, g: Option<Guidance>, events: seq<Event>, roots: Roots)
    requires !Usable(g) && Effects(events) == 0.0
    ensures var f := Forecasted(history, target, g, events, DEFAULT_WEIGHTS, roots);
            f.Estimate? ==>
            && (f.parts.base >= 0.0 ==> 0.565 * f.parts.base <= f.expected <= 1.435 * f.parts.base)
            && (f.parts.base <= 0.0 ==> 1.435 * f.parts.base <= f.expected <= 0.565 * f.parts.base)
            && (f.parts.base != 0.0 ==> -0.435 <= f.parts.blended <= 0.435)
  {
    var pats := Valid(Pats(history));
    if Forecasted(history, target, g, events, DEFAULT_WEIGHTS, roots).Estimate? {
      var parts := PartsOf(history, target, g, roots);
      assert -0.5 <= parts.trend <= 0.5 && -0.5 <= parts.seasonal <= 0.5 && -0.3 <= parts.momentum <= 0.3;
      Bounded(pats[|pats| - 1], parts, g, events);
    }
  }

  lemma Bounded(base: real, parts: Components, g: Option<Guidance>, events: seq<Event>)
    requires !Usable(g) && Effects(events) == 0.0
    requires -0.5 <= parts.trend <= 0.5 && -0.5 <= parts.seasonal <= 0.5 && -0.3 <= parts.momentum <= 0.3
    ensures var f := ForecastFrom(base, parts, g, events, DEFAULT_WEIGHTS);
            && (base >= 0.0 ==> 0.565 * base <= f.expected <= 1.435 * base)
            && (base <= 0.0 ==> 1.435 * base <= f.expected <= 0.565 * base)
            && (base != 0.0 ==> -0.435 <= f.parts.blended <= 0.435)
  {
    var f := ForecastFrom(base, parts, g, events, DEFAULT_WEIGHTS);
    var blend := Blend(DEFAULT_WEIGHTS, false, parts.trend, parts.seasonal, parts.momentum);
    assert -0.435 <= blend <= 0.435;
    assert f.expected == base * (1.0 + blend);
    Spread(base, blend);
    if base != 0.0 {
      QuotientOf(f.expected, base, 1.0 + blend);
    }
  }

  lemma QuotientOf(a: real, b: real, q: real)
    requires b != 0.0 && a == b * q
    ensures Ratio(a, b) == q
  {
  }

  /** The upper bound is reached. */
  lemma BoundReached(roots: Roots)
    requires roots.fourth(16.0) == 2.0
    ensures var h := [Quarter(Some(1.0), Some(1.0), 1), Quarter(Some(1.0), Some(1.0), 2),
                      Quarter(Some(1.0), Some(2.0), 3), Quarter(Some(16.0), None, 1)];
            var f := Forecasted(h, 1, None, [], DEFAULT_WEIGHTS, roots);
            f.Estimate? && f.expected == 1.435 * 16.0
  {
    var h := [Quarter(Some(1.0), Some(1.0), 1), Quarter(Some(1.0), Some(1.0), 2),
              Quarter(Some(1.0), Some(2.0), 3), Quarter(Some(16.0), None, 1)];
    AllReported([1.0, 1.0, 1.0, 16.0], h);
    assert h[..3][..2][..1][..0] == [];
    assert SameQuarter(h, 1) == [1.0, 16.0] by {
      assert h[..1] == h[..3][..2][..1] && h[..2] == h[..3][..2];
      assert SameQuarter(h[..1], 1) == [1.0];
      assert SameQuarter(h[..2], 1) == [1.0];
    }
    var r := Revenues(h);
    assert r == [Some(1.0), Some(1.0), Some(2.0), None];
    assert Positive(r) == [1.0, 1.0, 2.0] by {
      assert r[..1] == r[..3][..2][..1] && r[..2] == r[..3][..2];
      assert Positive(r[..1]) == [1.0];
      assert Positive(r[..2]) == [1.0, 1.0];
    }
  }

  // ---------------------------------------------------------------- events and variance

  lemma {:induction false} EffectsWithout(events: seq<Event>, i: nat)
    requires i < |events|
    ensures Effects(events) == Effects(events[..i] + events[i + 1..]) + Effect(events[i])
  {
    var n := |events| - 1;
    if i < n {
      EffectsWithout(events[..n], i);
      var rest := events[..i] + events[i + 1..];
      assert rest[..n - 1] == events[..n][..i] + events[..n][i + 1..];
      assert rest[n - 1] == events[n];
    } else {
      assert events[..i] + events[i + 1..] == events[..n];
    }
  }

  lemma MultisetWithout(events: seq<Event>, i: nat)
    requires i < |events|
    ensures multiset(events) == multiset(events[..i] + events[i + 1..]) + multiset{events[i]}
  {
    assert events == events[..i] + [events[i]] + events[i + 1..];
  }

  lemma SameWithout(a: seq<Event>, b: seq<Event>, i: nat)
    requires a != [] && i < |b| && b[i] == a[|a| - 1] && multiset(a) == multiset(b)
    ensures multiset(a[..|a| - 1]) == multiset(b[..i] + b[i + 1..])
  {
    var n := |a| - 1;
    MultisetWithout(a, n);
    MultisetWithout(b, i);
    assert a[..n] + a[n + 1..] == a[..n];
    assert multiset(a[..n]) == multiset(a) - multiset{a[n]};
  }

  /** The order of the events does not matter. */
  lemma {:induction false} EventOrderIrrelevant(a: seq<Event>, b: seq<Event>)
    requires multiset(a) == multiset(b)
    ensures Effects(a) == Effects(b)
  {
    if a == [] {
      assert |multiset(b)| == 0;
    } else {
      var n := |a| - 1;
      assert a[n] in multiset(b);
      var i :| 0 <= i < |b| && b[i] == a[n];
      var rest := b[..i] + b[i + 1..];
      SameWithout(a, b, i);
      EffectsWithout(b, i);
      EventOrderIrrelevant(a[..n], rest);
    }
  }

  lemma {:induction false} SumOfSquares(s: seq<real>, m: real)
    ensures Sum(Squares(s, m)) == Sum(Squares(s, 0.0)) - 2.0 * Mul(m, Sum(s)) + Mul(|s| as real, Mul(m, m))
    ensures Sum(Squares(s, m)) >= 0.0
  {
    if s != [] {
      var n := |s| - 1;
      SumOfSquares(s[..n], m);
      assert Squares(s, m)[..n] == Squares(s[..n], m) && Squares(s, 0.0)[..n] == Squares(s[..n], 0.0);
      SquareOfDifference(s[n], m);
      AddMul(m, Sum(s[..n]), s[n]);
      AddMul(Mul(m, m), n as real, 1.0);
    }
  }

  lemma SquareOfDifference(x: real, m: real)
    ensures Mul(x - m, x - m) == Mul(x - 0.0, x - 0.0) - 2.0 * Mul(m, x) + Mul(m, m)
    ensures Mul(x - m, x - m) >= 0.0
  {
  }

  lemma AddMul(k: real, a: real, b: real)
    ensures Mul(k, a + b) == Mul(k, a) + Mul(k, b)
    ensures Mul(a + b, k) == Mul(a, k) + Mul(b, k)
    ensures Mul(1.0, k) == k == Mul(k, 1.0)
  {
  }

  lemma DivideSquares(q: real, n: real, m: real, sum: real)
    requires n > 0.0 && sum == n * m
    ensures (q - 2.0 * Mul(m, sum) + Mul(n, Mul(m, m))) / n == q / n - m * m
  {
    var mm := m * m;
    assert Mul(m, sum) == n * mm;
    assert (q - n * mm) / n == q / n - mm by {
      assert q == (q / n) * n;
      assert q - n * mm == (q / n - mm) * n;
    }
  }

  /** The variance is the mean square less the square of the mean. It is never negative, so its
      root never raises. */
  lemma VarianceIsMeanSquare(s: seq<real>)
    requires s != []
    ensures Variance(s) == Mean(Squares(s, 0.0)) - Mean(s) * Mean(s)
    ensures Variance(s) >= 0.0
  {
    MeanTimes(Sum(s), |s| as real);
    SumOfSquares(s, Mean(s));
    DivideSquares(Sum(Squares(s, 0.0)), |s| as real, Mean(s), Sum(s));
    NotNegative(Sum(Squares(s, Mean(s))), |s| as real);
  }

  lemma MeanTimes(sum: real, n: real)
    requires n > 0.0
    ensures sum == n * (sum / n)
  {
  }

  lemma NotNegative(a: real, n: real)
    requires a >= 0.0 && n > 0.0
    ensures a / n >= 0.0
  {
  }

  /** Guided growth pulls the forecast towards it, for any weight in range. */
  lemma GuidedBetween(expected: real, base: real, g: Guidance, w: real)
    requires g.delta.Some? && 0.0 <= w <= 1.0
    ensures var guided := base * (1.0 + g.delta.value / 100.0);
            && Min(expected, guided) <= Guided(expected, base, g, w) <= Max(expected, guided)
            && Guided(expected, base, g, 0.0) == expected && Guided(expected, base, g, 1.0) == guided
  {
    var guided := base * (1.0 + g.delta.value / 100.0);
    assert Guided(expected, base, g, w) == expected + w * (guided - expected);
    assert Guided(expected, base, g, w) == guided + (1.0 - w) * (expected - guided);
    if guided >= expected {
      NonNegative(w, guided - expected);
      NonNegative(1.0 - w, guided - expected);
    } else {
      NonNegative(w, expected - guided);
      NonNegative(1.0 - w, expected - guided);
    }
  }

  // ---------------------------------------------------------------- which way each part points

  /** The surprise is the percentage of the expected figure's size that leads from it to the actual
      one: positive for a beat, negative for a miss. */
  lemma SurpriseMeans(actual: real, f: Forecast)
    ensures Surprise(actual, f).None? <==> !f.Estimate? || f.expected == 0.0
    ensures Surprise(actual, f).Some? ==>
              var s, e := Surprise(actual, f).value, f.expected;
              && (s > 0.0 <==> actual > e) && (s < 0.0 <==> actual < e)
              && e + (if e < 0.0 then -e else e) * s / 100.0 == actual
  {
    if f.Estimate? && f.expected != 0.0 {
      SharePoints(actual - f.expected, Abs(f.expected));
    }
  }

  lemma SharePoints(gap: real, size: real)
    requires size > 0.0
    ensures var s := Ratio(gap, size) * 100.0;
            (s > 0.0 <==> gap > 0.0) && (s < 0.0 <==> gap < 0.0) && size * s / 100.0 == gap
  {
    var q := Ratio(gap, size);
    assert q * size == gap;
    SignOfProduct(q, size);
    assert size * (q * 100.0) / 100.0 == size * q;
  }

  lemma SignOfProduct(a: real, b: real)
    requires b > 0.0
    ensures (a * b > 0.0 <==> a > 0.0) && (a * b < 0.0 <==> a < 0.0)
  {
    SignScaled(a, b);
    assert Mul(b, a) == a * b;
  }

  lemma RatioAgainst(a: real, b: real)
    requires b > 0.0
    ensures (Ratio(a, b) > 1.0 <==> a > b) && (Ratio(a, b) < 1.0 <==> a < b)
    ensures a >= 0.0 ==> Ratio(a, b) >= 0.0
  {
    var q := Ratio(a, b);
    assert q * b == a;
    SignOfProduct(q - 1.0, b);
    SignOfProduct(q, b);
    assert (q - 1.0) * b == a - b;
  }

  /** What a fourth root is. */
  ghost predicate AreRoots(roots: Roots) {
    forall x: real | x >= 0.0 :: roots.fourth(x) >= 0.0 && Square(Square(roots.fourth(x))) == x
  }

  function Square(x: real): real { x * x }

  lemma SquareAgainstOne(r: real)
    requires r >= 0.0
    ensures (Square(r) > 1.0 <==> r > 1.0) && (Square(r) < 1.0 <==> r < 1.0) && Square(r) >= 0.0
  {
    var p := Mul(r + 1.0, r - 1.0);
    assert Square(r) == p + 1.0;
    SignScaled(r - 1.0, r + 1.0);
    NonNegative(r, r);
  }

  /** The trend is positive exactly when the last reported PAT is above a positive fourth-last one,
      and negative exactly when it is below. */
  lemma TrendSign(v: seq<real>, roots: Roots)
    requires AreRoots(roots) && Trend(v, roots).Some?
    ensures var t, known := Trend(v, roots).value, |v| >= 4 && v[|v| - 4] > 0.0;
            && (t > 0.0 <==> known && v[|v| - 1] > v[|v| - 4])
            && (t < 0.0 <==> known && v[|v| - 1] < v[|v| - 4])
  {
    if |v| >= 4 && v[|v| - 4] > 0.0 {
      var x := Ratio(v[|v| - 1], v[|v| - 4]);
      RatioAgainst(v[|v| - 1], v[|v| - 4]);
      var r := roots.fourth(x);
      assert r >= 0.0 && Square(Square(r)) == x;
      SquareAgainstOne(r);
      SquareAgainstOne(Square(r));
    }
  }

  /** The seasonal growth compares the last two reported PATs of the quarter. */
  lemma SeasonalSign(same: seq<real>)
    ensures var known := |same| >= 2 && same[|same| - 2] > 0.0;
            && (Seasonal(same) > 0.0 <==> known && same[|same| - 1] > same[|same| - 2])
            && (Seasonal(same) < 0.0 <==> known && same[|same| - 1] < same[|same| - 2])
  {
    if |same| >= 2 && same[|same| - 2] > 0.0 {
      RatioAgainst(same[|same| - 1], same[|same| - 2]);
    }
  }

  predicate AllPositive(s: seq<real>) {
    forall x <- s :: x > 0.0
  }

  /** The momentum depends on the last three positive revenues only: it is positive exactly when the
      last growth factor is above the one before it. */
  lemma MomentumSign(v: seq<real>)
    requires forall x <- v :: x > 0.0
    ensures var n := |v|;
            && (Momentum(v) > 0.0 <==> n >= 3 && v[n - 1] * v[n - 3] > v[n - 2] * v[n - 2])
            && (Momentum(v) < 0.0 <==> n >= 3 && v[n - 1] * v[n - 3] < v[n - 2] * v[n - 2])
    ensures |v| >= 3 ==> AllPositive(v[|v| - 3..]) && Momentum(v) == Momentum(v[|v| - 3..])
  {
    if |v| >= 3 {
      var n := |v|;
      assert v[n - 1] in v && v[n - 2] in v && v[n - 3] in v;
      FactorsAgainst(v[n - 3], v[n - 2], v[n - 1]);
    }
  }

  lemma FactorsAgainst(a: real, b: real, c: real)
    requires a > 0.0 && b > 0.0
    ensures (Ratio(c, b) > Ratio(b, a) <==> c * a > b * b) && (Ratio(c, b) < Ratio(b, a) <==> c * a < b * b)
  {
    var p, q := Ratio(c, b), Ratio(b, a);
    assert p * b == c && q * a == b;
    SignOfProduct(b, a);
    SignOfProduct(p - q, b * a);
    assert (p - q) * (b * a) == p * b * a - q * a * b;
  }

  /** The confidence is HIGH exactly with eight reported PATs and a deviation of their growth under
      0.15, and LOW exactly with fewer than four. */
  lemma ConfidenceIff(history: seq<Quarter>, target: int, g: Option<Guidance>, events: seq<Event>, w: Weights,
                      roots: Roots)
    ensures var f, v := Forecasted(history, target, g, events, w, roots), Valid(Pats(history));
            f.Estimate? ==>
            && (f.confidence == High <==> |v| >= 8 && Deviation(v, roots) < 0.15)
            && (f.confidence == Low <==> |v| < 4)
  {
    var v := Valid(Pats(history));
    if Forecasted(history, target, g, events, w, roots).Estimate? {
      var parts := PartsOf(history, target, g, roots);
      assert ForecastFrom(v[|v| - 1], parts, g, events, w).confidence == ConfidenceOf(|v|, Deviation(v, roots));
    }
  }

  /** Steady growth has that growth at every step and no deviation. */
  lemma {:induction false} SteadyGrowth(pats: seq<real>, growth: real, roots: Roots)
    requires forall i | 0 <= i < |pats| :: pats[i] > 0.0
    requires forall i | 0 < i < |pats| :: pats[i] == Mul(1.0 + growth, pats[i - 1])
    ensures |Rates(pats)| == (if pats == [] then 0 else |pats| - 1)
    ensures forall r <- Rates(pats) :: r == growth
    ensures |pats| >= 3 ==> Deviation(pats, roots) == roots.square(0.0)
  {
    if |pats| >= 2 {
      var n := |pats|;
      SteadyGrowth(pats[..n - 1], growth, roots);
      assert pats[n - 1] == Mul(1.0 + growth, pats[n - 2]);
      QuotientOf(pats[n - 1], pats[n - 2], 1.0 + growth);
      ConstantVariance(Rates(pats), growth);
    }
  }

  lemma {:induction false} ConstantSum(s: seq<real>, c: real)
    requires forall r <- s :: r == c
    ensures Sum(s) == Mul(|s| as real, c)
  {
    if s != [] {
      var n := |s| - 1;
      assert forall r <- s[..n] :: r in s;
      ConstantSum(s[..n], c);
      assert s[n] in s;
      AddMul(c, n as real, 1.0);
    }
  }

  lemma ConstantVariance(s: seq<real>, c: real)
    requires s != [] && forall r <- s :: r == c
    ensures Variance(s) == 0.0
  {
    ConstantSum(s, c);
    QuotientOf(Sum(s), |s| as real, c);
    assert Mean(s) == c;
    forall r | r in Squares(s, c) ensures r == 0.0 {
      var i :| 0 <= i < |s| && Squares(s, c)[i] == r;
      assert s[i] in s;
    }
    ConstantSum(Squares(s, c), 0.0);
  }

  /** Guidance counts exactly when it is raised, cut or reaffirmed. A reaffirmation without a figure
      leaves the forecast as it is, and takes from the trend the weight it has without guidance. */
  lemma GuidanceTakesWeight(base: real, trend: real, seasonal: real, momentum: real, w: Weights)
    ensures forall g: Guidance :: Usable(Some(g)) <==> g.tone == Raised || g.tone == Cut || g.tone == Reaffirmed
    ensures !Usable(None)
    ensures var held := Some(Guidance(Reaffirmed, None));
            BeforeEvents(base, Blend(w, Usable(None), trend, seasonal, momentum), None, w)
            - BeforeEvents(base, Blend(w, Usable(held), trend, seasonal, momentum), held, w)
            == base * (w.guidance * trend)
  {
    var rest := w.trend * trend + w.seasonal * seasonal + w.momentum * momentum;
    assert (w.trend + w.guidance) * trend == w.trend * trend + w.guidance * trend;
    assert base * (1.0 + (w.guidance * trend + rest)) - base * (1.0 + rest) == base * (w.guidance * trend);
  }

  /** Without a figure, raised guidance lifts a positive forecast and cut guidance lowers it. */
  lemma ToneMoves(expected: real, base: real, w: real)
    requires expected > 0.0 && w > 0.0
    ensures Guided(expected, base, Guidance(Cut, None), w) < expected
          < Guided(expected, base, Guidance(Raised, None), w)
    ensures Guided(expected, base, Guidance(Reaffirmed, None), w) == expected
  {
    SignOfProduct(expected, w);
    assert expected * (1.0 + w * 0.1) == expected + expected * w * 0.1;
    assert expected * (1.0 - w * 0.15) == expected - expected * w * 0.15;
  }

  /** With the default weight a single event changes the forecast by 5 % for an order win, by -10 %
      for a change of management to the short side, by -8 % for a downgrade and by 3 % for a blowout. */
  lemma SingleEvent(expected: real, e: Event)
    ensures var percent := if e.kind == OrderWin && e.urgency >= 7.0 then 5.0
                           else if e.kind == ManagementChange && e.short then -10.0
                           else if e.kind == CreditRating && e.downgrade then -8.0
                           else if e.kind == FinancialResults && e.blowout then 3.0 else 0.0;
            Adjusted(expected, [e], DEFAULT_WEIGHTS.event) == expected * (1.0 + percent / 100.0)
  {
    assert [e][..0] == [];
    assert Effects([e]) == Effects([]) + Effect(e);
  }

  // ---------------------------------------------------------------- the code

  /** `_last_valid` looks from the end. */
  method LastValid(values: seq<Option<real>>) returns (r: Option<real>)
    ensures var v := Valid(values); r == if v == [] then None else Some(v[|v| - 1])
  {
    var i := |values|;
    assert values[..i] == values;
    while i > 0
      invariant 0 <= i <= |values|
      invariant Valid(values[..i]) == Valid(values)
    {
      i := i - 1;
      assert values[..i + 1][..i] == values[..i];
      if values[i].Some? {
        return values[i];
      }
    }
    return None;
  }

  /** `_compute_revenue_momentum` collects all growth rates and takes the last two. */
  method RevenueMomentum(revenues: seq<Option<real>>) returns (r: real)
    ensures r == Momentum(Positive(revenues))
  {
    var valid := Positive(revenues);
    if |valid| < 3 {
      return 0.0;
    }
    var rates: seq<real> := [];
    for i := 1 to |valid|
      invariant |rates| == i - 1
      invariant forall j | 0 <= j < i - 1 :: valid[j] > 0.0 && rates[j] == Ratio(valid[j + 1], valid[j]) - 1.0
    {
      assert valid[i - 1] in valid;
      rates := rates + [Ratio(valid[i], valid[i - 1]) - 1.0];
    }
    var acceleration := rates[|rates| - 1] - rates[|rates| - 2];
    return Clamp(acceleration, 0.3);
  }

  /** `_growth_variance`. */
  method GrowthVariance(pats: seq<real>, roots: Roots) returns (r: real)
    ensures r == Deviation(pats, roots)
  {
    if |pats| < 3 {
      return 1.0;
    }
    var rates: seq<real> := [];
    for i := 1 to |pats|
      invariant rates == Rates(pats[..i])
    {
      assert pats[..i + 1][..i] == pats[..i];
      if pats[i - 1] > 0.0 {
        rates := rates + [Ratio(pats[i], pats[i - 1]) - 1.0];
      }
    }
    assert pats[..|pats|] == pats;
    if rates == [] {
      return 1.0;
    }
    var mean := Sum(rates) / |rates| as real;
    var variance := Sum(Squares(rates, mean)) / |rates| as real;
    return roots.square(variance);
  }

  /** `_apply_event_chain`. */
  method ApplyEventChain(expected: real, events: seq<Event>, w: real) returns (r: real)
    ensures r == Adjusted(expected, events, w)
  {
    var adjustment := 0.0;
    for i := 0 to |events|
      invariant adjustment == Effects(events[..i])
    {
      var e := events[i];
      assert events[..i + 1][..i] == events[..i];
      if e.kind == OrderWin && e.urgency >= 7.0 {
        adjustment := adjustment + 0.05;
      } else if e.kind == ManagementChange && e.short {
        adjustment := adjustment - 0.10;
      } else if e.kind == CreditRating && e.downgrade {
        adjustment := adjustment - 0.08;
      } else if e.kind == FinancialResults && e.blowout {
        adjustment := adjustment + 0.03;
      }
    }
    assert events[..|events|] == events;
    if adjustment == 0.0 {
      return expected;
    }
    return expected * (1.0 + w * adjustment / 0.05);
  }

  /** The blend of growth rates, and the guidance on top of it. */
  method BlendGrowth(base: real, trend: real, seasonal: real, momentum: real, g: Option<Guidance>, w: Weights)
    returns (expected: real)
    ensures expected == BeforeEvents(base, Blend(w, Usable(g), trend, seasonal, momentum), g, w)
  {
    if Usable(g) {
      var blended := w.trend * trend + w.seasonal * seasonal + w.momentum * momentum;
      expected := Guided(base * (1.0 + blended), base, g.value, w.guidance);
    } else {
      var blended := (w.trend + w.guidance) * trend + w.seasonal * seasonal + w.momentum * momentum;
      expected := base * (1.0 + blended);
    }
  }

  /** `compute_self_consensus`. */
  method ComputeSelfConsensus(history: seq<Quarter>, target: int, g: Option<Guidance>, events: seq<Event>,
                              w: Weights, roots: Roots) returns (f: Forecast)
    ensures f == Forecasted(history, target, g, events, w, roots)
  {
    if |history| < 4 {
      return NoEstimate(InsufficientHistory);
    }
    var last := LastValid(Pats(history));
    if last.None? {
      return NoEstimate(NoValidPat);
    }
    var base, valid := last.value, Valid(Pats(history));
    var trend := Trend(valid, roots);
    if trend.None? {
      return TypeError;
    }
    var seasonal := Seasonal(SameQuarter(history, target));
    var momentum := RevenueMomentum(Revenues(history));
    var expected := BlendGrowth(base, trend.value, seasonal, momentum, g, w);
    var applied := false;
    if events != [] {
      var adjusted := ApplyEventChain(expected, events, w.event);
      if adjusted != expected {
        expected, applied := adjusted, true;
      }
    }
    var variance := GrowthVariance(valid, roots);
    var confidence := ConfidenceOf(|valid|, variance);
    var blended := if base != 0.0 then Ratio(expected, base) - 1.0 else 0.0;
    f := Estimate(expected, confidence,
                  Components(base, trend.value, seasonal, momentum, blended, Usable(g), applied, |valid|, variance));
  }
}
