/**
 * The browser's safety gate (js/safety.js): three persistent flags and the
 * verdicts it emits on a new aggregate, on a new classification and on an
 * emergency toggle.
 */
module Safety {
  import opened Wrappers
  import opened SignalAnalyzer
  import opened BrainStates

  datatype Reason = Ok | Disabled | PoorSignal | FatigueDetected

  /** The `safety:status` payload. */
  datatype Verdict = Verdict(safe: bool, reason: Reason)

  /** Every verdict the gate emits is safe exactly when its reason is "ok". */
  predicate Consistent(v: Verdict)
  {
    v.safe <==> v.reason == Ok
  }

  const DefaultQualityThreshold: real := 0.45

  class SafetyGate {
    var headbandConnected: bool
    var emergency: bool
    var qualityThreshold: real

    constructor ()
      ensures headbandConnected && !emergency && qualityThreshold == DefaultQualityThreshold
    {
      headbandConnected := true;
      emergency := false;
      qualityThreshold := DefaultQualityThreshold;
    }

    /** `evaluate`: safe only while connected and not emergency-stopped; otherwise "disabled". */
    function Evaluate(): (v: Verdict)
      reads this
      ensures Consistent(v)
      ensures v.safe <==> headbandConnected && !emergency
      ensures !v.safe ==> v.reason == Disabled
    {
      var safe := headbandConnected && !emergency;
      Verdict(safe, if safe then Ok else Disabled)
    }

    /**
     * The `analyzer:data` handler: poor quality short-circuits to "poor_signal"
     * without looking at the flags; otherwise the flags decide.  The gate
     * fails closed: a safe verdict needs every condition to hold.
     */
    function OnAnalyzerData(agg: Aggregate): (v: Verdict)
      reads this
      ensures Consistent(v)
      ensures v.safe <==> agg.quality >= qualityThreshold && headbandConnected && !emergency
      ensures agg.quality < qualityThreshold ==> v == Verdict(false, PoorSignal)
      ensures agg.quality >= qualityThreshold ==> v == Evaluate()
    {
      if agg.quality < qualityThreshold then Verdict(false, PoorSignal) else Evaluate()
    }

    /** The `brain:state` handler: only a Fatigue classification emits a verdict. */
    function OnBrainState(c: Classification): (v: Option<Verdict>)
      ensures v.Some? <==> c.state == Fatigue
      ensures v.Some? ==> v.value == Verdict(false, FatigueDetected) && Consistent(v.value)
    {
      if c.state == Fatigue then Some(Verdict(false, FatigueDetected)) else None
    }

    /** `toggleEmergency`: the only writer of the gate's state; re-evaluates the flags. */
    method ToggleEmergency(on: bool) returns (v: Verdict)
      modifies this`emergency
      ensures emergency == on
      ensures v == Evaluate()
    {
      emergency := on;
      v := Evaluate();
    }
  }

  /**
   * Raising and then clearing the emergency stop on a connected headband
   * ends with an "ok" verdict, the first toggle having reported "disabled".
   */
  method EmergencyRoundTrip(g: SafetyGate) returns (first: Verdict, second: Verdict)
    requires g.headbandConnected
    modifies g`emergency
    ensures first == Verdict(false, Disabled)
    ensures second == Verdict(true, Ok)
    ensures !g.emergency
  {
    first := g.ToggleEmergency(true);
    second := g.ToggleEmergency(false);
  }
}
