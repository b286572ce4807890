/**
 * The standalone device simulator's classifier (hardware_simulator.py,
 * `EEGHardwareSimulator.determine_brain_state`): ratio heuristics with the
 * confidence capped at 95.  A division by a zero band raises
 * ZeroDivisionError in the source; that is the `DivisionByZero` outcome here.
 */
module HardwareSimulator {
  import opened Numeric

  /** The dict `calculate_band_powers` returns; all five keys are always present. */
  datatype Bands = Bands(delta: real, theta: real, alpha: real, beta: real, gamma: real)

  datatype Outcome = Determined(state: string, confidence: int) | DivisionByZero

  const ConfidenceCap: int := 95

  predicate FocusRule(b: Bands) { b.beta > b.alpha * 1.2 && b.beta > b.theta }
  predicate FatigueRule(b: Bands) { b.theta > b.alpha * 1.5 }
  predicate RelaxedRule(b: Bands) { b.alpha > b.beta * 1.3 }

  function DetermineBrainState(b: Bands): (r: Outcome)
    ensures r.Determined? ==> r.confidence <= ConfidenceCap
    ensures r.DivisionByZero? ==> b.alpha == 0.0 || b.beta == 0.0
    ensures r.Determined? ==> r.state in {"focus", "fatigue", "relaxed", "neutral"}
  {
    if FocusRule(b) then
      if b.alpha == 0.0 then DivisionByZero
      else Determined("focus", Min(ConfidenceCap, Trunc(b.beta / b.alpha * 50.0)))
    else if FatigueRule(b) then
      if b.alpha == 0.0 then DivisionByZero
      else Determined("fatigue", Min(ConfidenceCap, Trunc(b.theta / b.alpha * 40.0)))
    else if RelaxedRule(b) then
      if b.beta == 0.0 then DivisionByZero
      else Determined("relaxed", Min(ConfidenceCap, Trunc(b.alpha / b.beta * 45.0)))
    else
      Determined("neutral", 50)
  }

  lemma RatioAbove(x: real, y: real, k: real, m: real)
    requires y > 0.0 && k >= 0.0 && m > 0.0 && x > y * k
    ensures x / y * m > k * m
  {
    var q := x / y;
    assert x == q * y;
    assert q * y > k * y;
    assert q > k;
  }

  /**
   * With positive alpha and beta no division fails, and the confidence of
   * every outcome lies between 50 and 95: each ratio rule only fires above
   * its threshold (1.2 * 50 = 60, 1.5 * 40 = 60, 1.3 * 45 = 58.5).
   */
  lemma PositiveBandsDetermined(b: Bands)
    requires b.alpha > 0.0 && b.beta > 0.0
    ensures DetermineBrainState(b).Determined?
    ensures 50 <= DetermineBrainState(b).confidence <= ConfidenceCap
    ensures var r := DetermineBrainState(b);
      && (r.state == "focus" <==> FocusRule(b))
      && (r.state == "fatigue" <==> !FocusRule(b) && FatigueRule(b))
      && (r.state == "relaxed" <==> !FocusRule(b) && !FatigueRule(b) && RelaxedRule(b))
      && (r.state == "neutral" <==> !FocusRule(b) && !FatigueRule(b) && !RelaxedRule(b))
  {
    if FocusRule(b) {
      RatioAbove(b.beta, b.alpha, 1.2, 50.0);
    } else if FatigueRule(b) {
      RatioAbove(b.theta, b.alpha, 1.5, 40.0);
    } else if RelaxedRule(b) {
      RatioAbove(b.alpha, b.beta, 1.3, 45.0);
    }
  }

  /** A zero alpha with beta above both zero and theta reaches the focus division and fails. */
  lemma ZeroAlphaFails(b: Bands)
    requires b.alpha == 0.0 && b.beta > 0.0 && b.beta > b.theta
    ensures DetermineBrainState(b) == DivisionByZero
  {
  }
}
