/** The BI-RADS risk table of the risk-prediction service. */
module RiskConfig {

  /** One entry of RISK_THRESHOLDS: a risk level and the BI-RADS scores it covers. */
  datatype Threshold = Threshold(level: string, scores: seq<string>)

  /** RISK_THRESHOLDS in declaration order, the order in which a Python dict is iterated. */
  const RISK_THRESHOLDS: seq<Threshold> := [
    Threshold("high", ["4", "5", "6"]),
    Threshold("medium", ["3"]),
    Threshold("low", ["1", "2"]),
    Threshold("needs_assessment", ["0"])
  ]

  /** The BI-RADS scores "0" to "6". */
  const BIRADS_SCORES: set<string> := {"0", "1", "2", "3", "4", "5", "6"}

  /** No score is listed under two levels. */
  lemma ThresholdsDisjoint()
    ensures forall i, j, s :: 0 <= i < j < |RISK_THRESHOLDS| && s in RISK_THRESHOLDS[i].scores ==> s !in RISK_THRESHOLDS[j].scores
  {
  }

  /** The lists together hold exactly the scores "0" to "6". */
  lemma ThresholdsCoverScores()
    ensures forall s :: (exists i :: 0 <= i < |RISK_THRESHOLDS| && s in RISK_THRESHOLDS[i].scores) <==> s in BIRADS_SCORES
  {
    assert RISK_THRESHOLDS[0].scores == ["4", "5", "6"];
    assert RISK_THRESHOLDS[1].scores == ["3"];
    assert RISK_THRESHOLDS[2].scores == ["1", "2"];
    assert RISK_THRESHOLDS[3].scores == ["0"];
  }
}
