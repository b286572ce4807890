/**
 * One tick of the browser pipeline: a sample goes through the aggregator;
 * its aggregate goes to the classifier and to the gate; the classification
 * goes to the gate.  The two gate verdicts are kept apart because their
 * relative order depends on the order the scripts register their listeners.
 */
module Pipeline {
  import opened Wrappers
  import opened SignalAnalyzer
  import opened BrainStates
  import opened Safety

  datatype TickOutput = TickOutput(
    aggregate: Aggregate,
    classification: Classification,
    qualityVerdict: Verdict,
    fatigueVerdict: Option<Verdict>)

  method Tick(an: Analyzer, gate: SafetyGate, s: Sample) returns (out: TickOutput)
    requires an.Valid()
    modifies an
    ensures an.Valid() && an.history == old(an.history) + [s]
    ensures out.aggregate == Summarize(an.buffer)
    ensures out.classification == Classify(out.aggregate)
    ensures out.qualityVerdict == gate.OnAnalyzerData(out.aggregate)
    ensures out.fatigueVerdict == gate.OnBrainState(out.classification)
  {
    var agg := an.Ingest(s);
    var c := Classify(agg);
    out := TickOutput(agg, c, gate.OnAnalyzerData(agg), gate.OnBrainState(c));
  }

  /** A sample whose beta and alpha magnitudes are 0.25 and 0.05 and whose quality is 0.9. */
  predicate SteadyFocusSample(s: Sample)
  {
    Magnitude(s, Beta) == 0.25 && Magnitude(s, Alpha) == 0.05 && s.quality == 0.9
  }

  /**
   * A window made only of steady focus samples classifies as Focus with
   * confidence 0.8 * 0.9 = 0.72, which is safe, and the default gate passes it
   * with "ok" and emits no fatigue verdict.
   */
  lemma SteadyFocusWindow(buf: seq<Sample>, gate: SafetyGate)
    requires buf != []
    requires forall i :: 0 <= i < |buf| ==> SteadyFocusSample(buf[i])
    requires gate.headbandConnected && !gate.emergency
    requires gate.qualityThreshold == DefaultQualityThreshold
    ensures Classify(Summarize(buf)) == Classification(Focus, FocusReason, 0.72, true)
    ensures gate.OnAnalyzerData(Summarize(buf)) == Verdict(true, Ok)
    ensures gate.OnBrainState(Classify(Summarize(buf))) == None
  {
    MeanAbsConstant(buf, Beta, 0.25);
    MeanAbsConstant(buf, Alpha, 0.05);
    QualityConstant(buf, 0.9);
  }
}
