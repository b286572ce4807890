/**
 * The backend's rule-based classifier (backend/eeg/ai_engine.py,
 * `AIEngine.analyze`): relative band powers decide between focus, relax,
 * fatigue, stress and neutral; a zero total power means "unknown".
 */
module AIEngine {
  import opened Numeric

  /** The `bands` dict in insertion order. */
  type Bands = seq<(string, real)>

  /** `bands.get(key, 0)`. */
  function Get(bands: Bands, key: string): real
  {
    if bands == [] then 0.0
    else if bands[0].0 == key then bands[0].1
    else Get(bands[1..], key)
  }

  /** `sum(bands.values())`: every supplied value, band or not. */
  function Total(bands: Bands): real
  {
    if bands == [] then 0.0 else bands[0].1 + Total(bands[1..])
  }

  /** The explanation, with the truncated percentage the source formats into it. */
  datatype Reason =
    | NoSignal
    | HighBeta(percent: int)
    | DominantAlpha(percent: int)
    | ElevatedTheta(percent: int)
    | GammaSpikes
    | Balanced

  datatype Analysis = Analysis(state: string, confidence: real, reason: Reason)

  const FocusShare: real := 0.4
  const RelaxShare: real := 0.4
  const FatigueShare: real := 0.35
  const StressShare: real := 0.3

  function Analyze(bands: Bands): (r: Analysis)
    ensures 0.0 <= r.confidence <= 1.0
    ensures r.state == "unknown" <==> Total(bands) == 0.0
    ensures r.state == "unknown" ==> r.confidence == 0.0 && r.reason == NoSignal
    ensures r.state in {"unknown", "focus", "relax", "fatigue", "stress", "neutral"}
  {
    if Total(bands) == 0.0 then Analysis("unknown", 0.0, NoSignal)
    else Decide(Share(bands, "alpha"), Share(bands, "beta"), Share(bands, "theta"), Share(bands, "gamma"))
  }

  /** Relative power of `key`: its share of the total. */
  function Share(bands: Bands, key: string): real
    requires Total(bands) != 0.0
  {
    Get(bands, key) / Total(bands)
  }

  /** The rule chain on the relative powers of alpha, beta, theta and gamma. */
  function Decide(relAlpha: real, relBeta: real, relTheta: real, relGamma: real): (r: Analysis)
    ensures 0.5 <= r.confidence <= 1.0
    ensures r.state in {"focus", "relax", "fatigue", "stress", "neutral"}
  {
    if relBeta > FocusShare && relBeta > relAlpha then
      Analysis("focus", MinReal(relBeta * 2.0, 1.0), HighBeta(Trunc(relBeta * 100.0)))
    else if relAlpha > RelaxShare then
      Analysis("relax", MinReal(relAlpha * 2.0, 1.0), DominantAlpha(Trunc(relAlpha * 100.0)))
    else if relTheta > FatigueShare then
      Analysis("fatigue", MinReal(relTheta * 2.5, 1.0), ElevatedTheta(Trunc(relTheta * 100.0)))
    else if relGamma > StressShare then
      Analysis("stress", 0.85, GammaSpikes)
    else
      Analysis("neutral", 0.5, Balanced)
  }

  /**
   * The rule chain stated on the relative powers: which state each region of
   * shares yields, and the confidence attached to it.
   */
  lemma AnalyzeRules(bands: Bands)
    requires Total(bands) != 0.0
    ensures var r, a, b, t, g := Analyze(bands), Share(bands, "alpha"), Share(bands, "beta"),
                                 Share(bands, "theta"), Share(bands, "gamma");
      && (r.state == "focus" <==> b > FocusShare && b > a)
      && (r.state == "focus" ==> r.confidence == MinReal(2.0 * b, 1.0) && r.confidence >= 0.8)
      && (r.state == "relax" <==> !(b > FocusShare && b > a) && a > RelaxShare)
      && (r.state == "relax" ==> r.confidence == MinReal(2.0 * a, 1.0) && r.confidence >= 0.8)
      && (r.state == "fatigue" <==> !(b > FocusShare && b > a) && a <= RelaxShare && t > FatigueShare)
      && (r.state == "fatigue" ==> r.confidence == MinReal(2.5 * t, 1.0) && r.confidence >= 0.875)
      && (r.state == "stress" <==> !(b > FocusShare && b > a) && a <= RelaxShare && t <= FatigueShare && g > StressShare)
      && (r.state == "stress" ==> r.confidence == 0.85)
      && (r.state == "neutral" <==> !(b > FocusShare && b > a) && a <= RelaxShare && t <= FatigueShare && g <= StressShare)
      && (r.state == "neutral" ==> r.confidence == 0.5)
  {
  }

  /** Every value multiplied by `c`. */
  function Scale(bands: Bands, c: real): (r: Bands)
    ensures |r| == |bands|
  {
    if bands == [] then [] else [(bands[0].0, c * bands[0].1)] + Scale(bands[1..], c)
  }

  lemma {:induction false} ScaleGet(bands: Bands, c: real, key: string)
    ensures Get(Scale(bands, c), key) == c * Get(bands, key)
  {
    if bands != [] {
      ScaleGet(bands[1..], c, key);
    }
  }

  lemma {:induction false} ScaleTotal(bands: Bands, c: real)
    ensures Total(Scale(bands, c)) == c * Total(bands)
  {
    if bands != [] {
      ScaleTotal(bands[1..], c);
    }
  }

  /** A share is unchanged when both of its terms are scaled by the same positive factor. */
  lemma ScaleShare(x: real, total: real, c: real, sx: real, stotal: real)
    requires c > 0.0 && total != 0.0 && sx == c * x && stotal == c * total
    ensures stotal != 0.0
    ensures sx / stotal == x / total
  {
    assert total > 0.0 ==> c * total > 0.0;
    assert total < 0.0 ==> c * total < 0.0;
    var q := x / total;
    assert x == q * total;
    assert c * x == q * (c * total);
  }

  lemma ScaleKeepsShare(bands: Bands, c: real, key: string)
    requires c > 0.0 && Total(bands) != 0.0
    ensures Total(Scale(bands, c)) != 0.0
    ensures Share(Scale(bands, c), key) == Share(bands, key)
  {
    ScaleTotal(bands, c);
    ScaleGet(bands, c, key);
    ScaleShare(Get(bands, key), Total(bands), c, Get(Scale(bands, c), key), Total(Scale(bands, c)));
  }

  /**
   * Only relative powers matter: multiplying every supplied value by the
   * same positive factor changes neither the state, nor the confidence, nor
   * the reason.
   */
  lemma ScaleInvariant(bands: Bands, c: real)
    requires c > 0.0
    ensures Analyze(Scale(bands, c)) == Analyze(bands)
  {
    ScaleTotal(bands, c);
    if Total(bands) != 0.0 {
      ScaleKeepsShare(bands, c, "alpha");
      ScaleKeepsShare(bands, c, "beta");
      ScaleKeepsShare(bands, c, "theta");
      ScaleKeepsShare(bands, c, "gamma");
    }
  }
}
