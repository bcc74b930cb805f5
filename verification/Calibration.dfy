/** From a raw prediction to an order size: isotonic calibration (`pop_calibrator.hpp`) and
    the sizing policies (`pop_sizing_policy.hpp`). */
module Calibration {
  import opened Numbers

  datatype Breakpoint = Breakpoint(x: real, y: real)

  /** The breakpoints are sorted in x, and their y do not decrease. */
  predicate Isotone(bps: seq<Breakpoint>) {
    forall i, j :: 0 <= i < j < |bps| ==> bps[i].x <= bps[j].x && bps[i].y <= bps[j].y
  }

  /** Linear interpolation between two breakpoints. */
  function Line(a: Breakpoint, b: Breakpoint, raw: real): real
    requires a.x < b.x
  {
    a.y + (raw - a.x) / (b.x - a.x) * (b.y - a.y)
  }

  /** The number of breakpoints at or below `raw`. */
  function Below(bps: seq<Breakpoint>, raw: real): (k: nat)
    ensures k <= |bps|
  {
    if bps == [] then 0 else (if bps[|bps| - 1].x <= raw then |bps| else Below(bps[..|bps| - 1], raw))
  }

  lemma {:induction false} BelowIs(bps: seq<Breakpoint>, raw: real, k: nat)
    requires k <= |bps| && (k > 0 ==> bps[k - 1].x <= raw) && forall i :: k <= i < |bps| ==> raw < bps[i].x
    ensures Below(bps, raw) == k
  {
    if k < |bps| {
      BelowIs(bps[..|bps| - 1], raw, k);
    }
  }

  lemma {:induction false} BelowBrackets(bps: seq<Breakpoint>, raw: real)
    ensures var k := Below(bps, raw);
            && (k > 0 ==> bps[k - 1].x <= raw) && (forall i :: k <= i < |bps| ==> raw < bps[i].x)
  {
    if bps != [] {
      BelowBrackets(bps[..|bps| - 1], raw);
    }
  }

  /** Calibration as the piecewise linear function through the breakpoints, constant
      outside of them. */
  function Isotonic(bps: seq<Breakpoint>, raw: real): real {
    if bps == [] then raw
    else
      var k := Below(bps, raw);
      BelowBrackets(bps, raw);
      if k == 0 || raw <= bps[0].x then bps[0].y
      else if k == |bps| then bps[|bps| - 1].y
      else Line(bps[k - 1], bps[k], raw)
  }

  /** `apply_isotonic_`: a binary search for the interval around the prediction, which
      brackets it whatever the order of the breakpoints. */
  method ApplyIsotonic(bps: seq<Breakpoint>, raw: real) returns (r: real)
    ensures Isotone(bps) ==> r == Isotonic(bps, raw)
    ensures |bps| >= 2 && bps[0].x < raw < bps[|bps| - 1].x ==>
              exists lo :: 0 <= lo < |bps| - 1 && bps[lo].x <= raw < bps[lo + 1].x && r == Line(bps[lo], bps[lo + 1], raw)
  {
    hide Line;
    if |bps| == 0 {
      return raw;
    }
    BelowBrackets(bps, raw);
    if |bps| == 1 {
      return bps[0].y;
    }
    if raw <= bps[0].x {
      return bps[0].y;
    }
    if raw >= bps[|bps| - 1].x {
      BelowIs(bps, raw, |bps|);
      return bps[|bps| - 1].y;
    }
    var lo, hi := 0, |bps| - 1;
    while lo < hi - 1
      invariant 0 <= lo < hi < |bps|
      invariant bps[lo].x <= raw < bps[hi].x
    {
      var mid := (lo + hi) / 2;
      if bps[mid].x <= raw {
        lo := mid;
      } else {
        hi := mid;
      }
    }
    if Isotone(bps) {
      BelowIs(bps, raw, hi);
    }
    r := Interpolate(bps[lo], bps[hi], raw);
  }

  method Interpolate(a: Breakpoint, b: Breakpoint, raw: real) returns (r: real)
    requires a.x < b.x
    ensures r == Line(a, b, raw)
  {
    var t := (raw - a.x) / (b.x - a.x);
    r := a.y + t * (b.y - a.y);
  }

  // ------------------------------------------------ bounded and monotone

  lemma UnitFraction(p: real, q: real)
    requires 0.0 <= p <= q && q > 0.0
    ensures 0.0 <= p / q <= 1.0
  {
  }

  lemma FractionMonotone(p: real, r: real, q: real)
    requires p <= r && q > 0.0
    ensures p / q <= r / q
  {
  }

  lemma ScaleBounded(t: real, d: real)
    requires 0.0 <= t <= 1.0 && d >= 0.0
    ensures 0.0 <= t * d <= d
  {
  }

  lemma ScaleMonotone(t: real, u: real, d: real)
    requires t <= u && d >= 0.0
    ensures t * d <= u * d
  {
  }

  lemma LineBounded(a: Breakpoint, b: Breakpoint, raw: real)
    requires a.x < b.x && a.y <= b.y && a.x <= raw <= b.x
    ensures a.y <= Line(a, b, raw) <= b.y
  {
    UnitFraction(raw - a.x, b.x - a.x);
    ScaleBounded((raw - a.x) / (b.x - a.x), b.y - a.y);
  }

  lemma LineMonotone(a: Breakpoint, b: Breakpoint, raw: real, raw': real)
    requires a.x < b.x && a.y <= b.y && raw <= raw'
    ensures Line(a, b, raw) <= Line(a, b, raw')
  {
    FractionMonotone(raw - a.x, raw' - a.x, b.x - a.x);
    ScaleMonotone((raw - a.x) / (b.x - a.x), (raw' - a.x) / (b.x - a.x), b.y - a.y);
  }

  /** Calibration stays within the first and the last y; between two breakpoints it stays
      within theirs. */
  lemma CalibrationBounded(bps: seq<Breakpoint>, raw: real)
    requires Isotone(bps) && bps != []
    ensures bps[0].y <= Isotonic(bps, raw) <= bps[|bps| - 1].y
    ensures var k := Below(bps, raw);
            && (k > 0 ==> bps[k - 1].y <= Isotonic(bps, raw) || raw <= bps[0].x)
            && (k < |bps| ==> Isotonic(bps, raw) <= bps[k].y)
  {
    hide Line;
    BelowBrackets(bps, raw);
    var k := Below(bps, raw);
    if 0 < k < |bps| && raw > bps[0].x {
      LineBounded(bps[k - 1], bps[k], raw);
    }
  }

  /** Calibration is the line through the neighbouring breakpoints, which it meets. */
  lemma CalibrationInterpolates(bps: seq<Breakpoint>, k: nat, raw: real)
    requires Isotone(bps) && k + 1 < |bps| && bps[k].x <= raw < bps[k + 1].x
    ensures (Isotonic(bps, raw) - bps[k].y) * (bps[k + 1].x - bps[k].x) == (raw - bps[k].x) * (bps[k + 1].y - bps[k].y)
            || raw <= bps[0].x
    ensures raw <= bps[0].x ==> Isotonic(bps, raw) == bps[0].y
    ensures Isotonic(bps, bps[|bps| - 1].x + 1.0) == bps[|bps| - 1].y
  {
    hide Line;
    BelowIs(bps, raw, k + 1);
    BelowIs(bps, bps[|bps| - 1].x + 1.0, |bps|);
    LineThrough(bps[k], bps[k + 1], raw);
  }

  /** Without breakpoints calibration leaves the prediction alone, with one it is constant. */
  lemma FewBreakpoints(bp: Breakpoint, raw: real)
    ensures Isotonic([], raw) == raw && Isotonic([bp], raw) == bp.y
  {
  }

  lemma LineThrough(a: Breakpoint, b: Breakpoint, raw: real)
    requires a.x < b.x
    ensures (Line(a, b, raw) - a.y) * (b.x - a.x) == (raw - a.x) * (b.y - a.y)
  {
    var t, d := (raw - a.x) / (b.x - a.x), b.x - a.x;
    DivMul(raw - a.x, d);
    assert (t * (b.y - a.y)) * d == (t * d) * (b.y - a.y);
  }

  /** Calibration does not decrease. */
  lemma CalibrationMonotone(bps: seq<Breakpoint>, raw: real, raw': real)
    requires Isotone(bps) && raw <= raw'
    ensures Isotonic(bps, raw) <= Isotonic(bps, raw')
  {
    hide Line;
    if bps != [] {
      BelowBrackets(bps, raw);
      BelowBrackets(bps, raw');
      var j, k := Below(bps, raw), Below(bps, raw');
      CalibrationBounded(bps, raw);
      CalibrationBounded(bps, raw');
      if raw > bps[0].x {
        assert j <= k;
        if j == k && 0 < k < |bps| {
          LineMonotone(bps[k - 1], bps[k], raw, raw');
        }
      }
    }
  }

  // ------------------------------------------------------- Platt's sigmoid

  /** `exp`, as far as the sigmoid needs it. */
  ghost predicate ExpLike(exp: real -> real) {
    && (forall x :: exp(x) > 0.0 && exp(x) * exp(-x) == 1.0)
    && (forall x, y :: x < y ==> exp(x) < exp(y))
  }

  lemma ExpOrdered(exp: real -> real, f: real, g: real)
    requires ExpLike(exp) && f <= g
    ensures 0.0 < exp(f) <= exp(g) && (f < g ==> exp(f) < exp(g))
  {
  }

  function Logistic(e: real): real
    requires e > 0.0
  {
    1.0 / (1.0 + e)
  }

  lemma LogisticFalls(d: real, e: real)
    requires 0.0 < d <= e
    ensures 0.0 < Logistic(e) <= Logistic(d) < 1.0
    ensures d < e ==> Logistic(e) < Logistic(d)
  {
    var p, q := 1.0 + d, 1.0 + e;
    assert 1.0 / p - 1.0 / q == (q - p) / (p * q) by {
      assert p * q > 0.0;
      assert 1.0 / p == q / (p * q) && 1.0 / q == p / (p * q);
    }
    assert p * q > 0.0;
  }

  /** `apply_platt_`: the branch on the sign keeps the argument of `exp` non-positive. */
  ghost function Platt(exp: real -> real, a: real, b: real, raw: real): real
    requires ExpLike(exp)
  {
    var f := raw * a + b;
    if f >= 0.0 then
      var e := exp(-f);
      e / (1.0 + e)
    else
      1.0 / (1.0 + exp(f))
  }

  /** Both branches compute the same sigmoid, a probability. */
  lemma PlattIsLogistic(exp: real -> real, a: real, b: real, raw: real)
    requires ExpLike(exp)
    ensures Platt(exp, a, b, raw) == Logistic(exp(raw * a + b)) && 0.0 < Platt(exp, a, b, raw) < 1.0
  {
    var f := raw * a + b;
    var e, g := exp(-f), exp(f);
    assert e > 0.0 && g > 0.0 && g * e == 1.0;
    assert e * (1.0 + g) == 1.0 + e;
    assert e / (1.0 + e) == 1.0 / (1.0 + g);
    LogisticFalls(g, g);
  }

  /** It is 1 / (1 + exp(a * raw + b)). */
  lemma PlattIs(exp: real -> real, a: real, b: real, raw: real)
    requires ExpLike(exp)
    ensures Platt(exp, a, b, raw) * (1.0 + exp(raw * a + b)) == 1.0
  {
    hide Platt;
    PlattIsLogistic(exp, a, b, raw);
    var e := exp(raw * a + b);
    assert e > 0.0;
    DivMul(1.0, 1.0 + e);
  }

  /** The sigmoid rises with the prediction exactly when its slope `a` is not positive. */
  lemma PlattRisesIff(exp: real -> real, a: real, b: real)
    requires ExpLike(exp)
    ensures (forall r, s :: r <= s ==> Platt(exp, a, b, r) <= Platt(exp, a, b, s)) <==> a <= 0.0
  {
    if a <= 0.0 {
      forall r, s | r <= s ensures Platt(exp, a, b, r) <= Platt(exp, a, b, s) {
        PlattRises(exp, a, b, r, s);
      }
    } else {
      PlattFalls(exp, a, b, 0.0, 1.0, b, a + b);
      assert Platt(exp, a, b, 0.0) > Platt(exp, a, b, 1.0);
    }
  }

  lemma ProductFalls(a: real, r: real, s: real)
    requires a <= 0.0 && r <= s
    ensures s * a <= r * a
  {
    assert (s - r) * a <= 0.0;
  }

  lemma PlattRises(exp: real -> real, a: real, b: real, r: real, s: real)
    requires ExpLike(exp) && a <= 0.0 && r <= s
    ensures Platt(exp, a, b, r) <= Platt(exp, a, b, s)
  {
    hide Platt, ExpLike;
    var u, v := r * a, s * a;
    ProductFalls(a, r, s);
    PlattFalls(exp, a, b, s, r, v + b, u + b);
  }

  lemma PlattFalls(exp: real -> real, a: real, b: real, r: real, s: real, f: real, g: real)
    requires ExpLike(exp) && f == r * a + b && g == s * a + b && f <= g
    ensures Platt(exp, a, b, s) <= Platt(exp, a, b, r)
    ensures f < g ==> Platt(exp, a, b, s) < Platt(exp, a, b, r)
  {
    hide Platt, Logistic, ExpLike;
    ExpOrdered(exp, f, g);
    PlattIsLogistic(exp, a, b, r);
    PlattIsLogistic(exp, a, b, s);
    LogisticFalls(exp(f), exp(g));
  }

  datatype Calibrator = IsotonicMap(bps: seq<Breakpoint>) | PlattMap(a: real, b: real)

  /** `calibrate`. */
  ghost function Calibrate(c: Calibrator, exp: real -> real, raw: real): real
    requires ExpLike(exp)
  {
    match c
    case IsotonicMap(bps) => Isotonic(bps, raw)
    case PlattMap(a, b) => Platt(exp, a, b, raw)
  }

  /** Calibrators that do not turn the order of predictions around. */
  predicate Rising(c: Calibrator) {
    match c
    case IsotonicMap(bps) => Isotone(bps)
    case PlattMap(a, _) => a <= 0.0
  }

  // ------------------------------------------------------ sizing policies

  datatype SizingMode = Gate | Sizing | Hybrid

  datatype GateVerdict = Pass | Reject | CollectOnly | Disabled

  datatype Decision = Decision(verdict: GateVerdict, finalSize: real)

  /** `pow` with a positive exponent, as far as it matters on probabilities. */
  ghost predicate PowerLike(pow: real -> real) {
    forall p, q :: 0.0 <= p <= q <= 1.0 ==> 0.0 <= pow(p) <= pow(q) <= 1.0
  }

  function Clamp01(p: real): real {
    if p < 0.0 then 0.0 else if p > 1.0 then 1.0 else p
  }

  function Scaled(proposed: real, scale: real): real {
    Min(proposed * scale, proposed)
  }

  function ApplySizing(pow: real -> real, prob: real, proposed: real): Decision {
    Decision(Pass, Scaled(proposed, pow(Clamp01(prob))))
  }

  /** `PopSizingPolicy::apply`. */
  function ApplyPolicy(mode: SizingMode, threshold: real, pow: real -> real, prob: real, proposed: real): Decision {
    match mode
    case Gate => if prob < threshold then Decision(Reject, 0.0) else Decision(Pass, proposed)
    case Sizing => ApplySizing(pow, prob, proposed)
    case Hybrid => if prob < threshold then Decision(Reject, 0.0) else ApplySizing(pow, prob, proposed)
  }

  /** What each mode decides: below the threshold the gate and the hybrid mode reject, with size
      zero, and only there; a gate that passes leaves the size alone; the other sizes are the
      proposed one times the power of the probability, which certainty leaves whole. */
  lemma PolicyDecides(threshold: real, pow: real -> real, prob: real, proposed: real)
    requires PowerLike(pow) && proposed >= 0.0
    ensures forall mode :: var d := ApplyPolicy(mode, threshold, pow, prob, proposed);
              && (d.verdict == Reject <==> mode != Sizing && prob < threshold)
              && (d.verdict == Reject ==> d.finalSize == 0.0) && (d.verdict != Reject ==> d.verdict == Pass)
    ensures prob >= threshold ==> ApplyPolicy(Gate, threshold, pow, prob, proposed).finalSize == proposed
    ensures prob >= threshold ==>
              ApplyPolicy(Hybrid, threshold, pow, prob, proposed) == ApplyPolicy(Sizing, threshold, pow, prob, proposed)
    ensures 0.0 <= prob <= 1.0 ==> ApplyPolicy(Sizing, threshold, pow, prob, proposed).finalSize == pow(prob) * proposed
    ensures prob >= 1.0 && pow(1.0) == 1.0 ==> ApplyPolicy(Sizing, threshold, pow, prob, proposed).finalSize == proposed
    ensures prob <= 0.0 && pow(0.0) == 0.0 ==> ApplyPolicy(Sizing, threshold, pow, prob, proposed).finalSize == 0.0
  {
    var p := Clamp01(prob);
    assert 0.0 <= pow(p) <= pow(p) <= 1.0;
    MulBounded(proposed, pow(p));
  }

  lemma MulBounded(d: real, t: real)
    requires 0.0 <= t <= 1.0 && d >= 0.0
    ensures 0.0 <= d * t <= d
  {
  }

  lemma MulMonotone(d: real, t: real, u: real)
    requires t <= u && d >= 0.0
    ensures d * t <= d * u
  {
  }

  lemma ScaledBounded(proposed: real, s: real)
    requires 0.0 <= s <= 1.0 && proposed >= 0.0
    ensures 0.0 <= Scaled(proposed, s) <= proposed
  {
    MulBounded(proposed, s);
  }

  lemma ScaledMonotone(proposed: real, s: real, t: real)
    requires s <= t && proposed >= 0.0
    ensures Scaled(proposed, s) <= Scaled(proposed, t)
  {
    var u, v := proposed * s, proposed * t;
    assert u <= v by {
      MulMonotone(proposed, s, t);
    }
    assert Scaled(proposed, s) == Min(u, proposed);
    assert Scaled(proposed, t) == Min(v, proposed);
  }

  lemma SizingMonotone(pow: real -> real, p: real, q: real, proposed: real)
    requires PowerLike(pow) && proposed >= 0.0 && p <= q
    ensures 0.0 <= ApplySizing(pow, p, proposed).finalSize <= ApplySizing(pow, q, proposed).finalSize <= proposed
  {
    hide Scaled;
    var c, d := Clamp01(p), Clamp01(q);
    assert 0.0 <= pow(c) <= pow(d) <= 1.0;
    ScaledBounded(proposed, pow(c));
    ScaledBounded(proposed, pow(d));
    ScaledMonotone(proposed, pow(c), pow(d));
  }

  /** In every mode the size decided lies between zero and the size proposed, and it does
      not decrease with the probability. */
  lemma PolicyMonotone(mode: SizingMode, threshold: real, pow: real -> real, p: real, q: real, proposed: real)
    requires PowerLike(pow) && proposed >= 0.0 && p <= q
    ensures 0.0 <= ApplyPolicy(mode, threshold, pow, p, proposed).finalSize
    ensures ApplyPolicy(mode, threshold, pow, p, proposed).finalSize <= ApplyPolicy(mode, threshold, pow, q, proposed).finalSize
    ensures ApplyPolicy(mode, threshold, pow, q, proposed).finalSize <= proposed
  {
    hide ApplySizing;
    SizingMonotone(pow, p, q, proposed);
  }

  /** From raw prediction to size: more confidence never means a smaller order, and no
      order is ever enlarged. */
  lemma CalibratedSizing(c: Calibrator, exp: real -> real, mode: SizingMode, threshold: real, pow: real -> real,
                         raw: real, raw': real, proposed: real)
    requires Rising(c) && ExpLike(exp) && PowerLike(pow) && proposed >= 0.0 && raw <= raw'
    ensures var size := ApplyPolicy(mode, threshold, pow, Calibrate(c, exp, raw), proposed).finalSize;
            var size' := ApplyPolicy(mode, threshold, pow, Calibrate(c, exp, raw'), proposed).finalSize;
            0.0 <= size <= size' <= proposed
  {
    hide Platt, Isotonic, ApplyPolicy;
    match c {
      case IsotonicMap(bps) => CalibrationMonotone(bps, raw, raw');
      case PlattMap(a, b) => PlattRisesIff(exp, a, b);
    }
    PolicyMonotone(mode, threshold, pow, Calibrate(c, exp, raw), Calibrate(c, exp, raw'), proposed);
  }
}
