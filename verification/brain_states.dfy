/**
 * The browser's state classifier (js/brain-states.js): a first-match
 * threshold chain over the aggregate's alpha and beta powers, with a base
 * confidence discounted by the aggregate's quality.
 */
module BrainStates {
  import opened Numeric
  import opened SignalAnalyzer

  datatype State = Focus | Relax | Fatigue

  /** The `brain:state` payload. */
  datatype Classification = Classification(state: State, reason: string, confidence: real, safe: bool)

  const BetaHigh: real := 0.18
  const AlphaHigh: real := 0.12
  /** Declared next to the other thresholds and never consulted. */
  const GammaHigh: real := 0.05
  const LowActivity: real := 0.06
  const SafeConfidence: real := 0.25

  const FocusReason: string := "High beta + low alpha"
  const RelaxReason: string := "High alpha"
  const FatigueReason: string := "Low overall activity"

  predicate FocusRule(alpha: real, beta: real) { beta > BetaHigh && alpha < AlphaHigh }
  predicate RelaxRule(alpha: real, beta: real) { alpha > AlphaHigh && beta < BetaHigh }
  predicate FatigueRule(alpha: real, beta: real) { beta < LowActivity && alpha < LowActivity }

  /** The `analyzer:data` handler; returns the `brain:state` payload it dispatches. */
  function Classify(agg: Aggregate): (r: Classification)
    ensures 0.0 <= r.confidence <= 1.0
    ensures r.safe <==> r.confidence > SafeConfidence
  {
    var alpha, beta := agg.bands.alpha, agg.bands.beta;
    var (state, reason, base) :=
      if FocusRule(alpha, beta) then (Focus, FocusReason, 0.8)
      else if RelaxRule(alpha, beta) then (Relax, RelaxReason, 0.75)
      else if FatigueRule(alpha, beta) then (Fatigue, FatigueReason, 0.85)
      else (Relax, "", 0.5);
    var confidence := Clamp(base * agg.quality, 0.0, 1.0);
    Classification(state, reason, confidence, confidence > SafeConfidence)
  }

  /** The base confidence attached to each reason before the quality discount. */
  function BaseConfidence(reason: string): real
  {
    if reason == FocusReason then 0.8
    else if reason == RelaxReason then 0.75
    else if reason == FatigueReason then 0.85
    else 0.5
  }

  /**
   * Each outcome of the chain, stated as a condition on alpha and beta alone:
   * the focus rule wins whenever it holds; the fatigue rule can only fire when
   * neither earlier rule does, so it holds exactly when both powers are low;
   * the default (reason "") is taken exactly when no rule matches; and the
   * confidence is the reason's base confidence times quality, clamped.
   */
  lemma ClassifyRules(agg: Aggregate)
    ensures var r, a, b := Classify(agg), agg.bands.alpha, agg.bands.beta;
      && (r.state == Focus <==> FocusRule(a, b))
      && (r.state == Fatigue <==> FatigueRule(a, b))
      && (r.state == Relax <==> !FocusRule(a, b) && !FatigueRule(a, b))
      && (r.reason == FocusReason <==> FocusRule(a, b))
      && (r.reason == RelaxReason <==> RelaxRule(a, b))
      && (r.reason == FatigueReason <==> FatigueRule(a, b))
      && (r.reason == "" <==> !FocusRule(a, b) && !RelaxRule(a, b) && !FatigueRule(a, b))
      && r.confidence == Clamp(BaseConfidence(r.reason) * agg.quality, 0.0, 1.0)
  {
  }

  /** The classification reads only alpha, beta and quality: theta, delta and gamma never matter. */
  lemma ClassifyIgnoresOtherBands(a1: Aggregate, a2: Aggregate)
    requires a1.bands.alpha == a2.bands.alpha && a1.bands.beta == a2.bands.beta
    requires a1.quality == a2.quality
    ensures Classify(a1) == Classify(a2)
  {
  }

  /** With quality 0 (or below) the confidence is 0 and the result is unsafe, whatever the bands. */
  lemma NoQualityIsUnsafe(agg: Aggregate)
    requires agg.quality <= 0.0
    ensures Classify(agg).confidence == 0.0 && !Classify(agg).safe
  {
  }

  /**
   * Since the largest base confidence is 0.85, a quality of at most 0.29
   * can never yield a safe classification.
   */
  lemma LowQualityIsUnsafe(agg: Aggregate)
    requires agg.quality <= 0.29
    ensures !Classify(agg).safe
  {
    var r := Classify(agg);
    var base := BaseConfidence(r.reason);
    ClassifyRules(agg);
    assert 0.0 < base <= 0.85;
    if agg.quality > 0.0 {
      assert base * agg.quality <= 0.85 * agg.quality;
    }
  }
}
