/**
 * The four risk buckets and the two threshold policies that map a fraud
 * probability onto them. The heuristic scorer and the ensemble scorer use
 * different boundaries; both policies are kept, under separate names.
 */
module RiskLevels {

  datatype RiskLevel = Low | Medium | High | Critical

  /** Position of a bucket in the order Low < Medium < High < Critical. */
  function Rank(level: RiskLevel): nat
  {
    match level
    case Low => 0
    case Medium => 1
    case High => 2
    case Critical => 3
  }

  /**
   * Bucketing used by the rule-based scorer: lower bounds 0.4, 0.6 and 0.8,
   * each inclusive.
   */
  function HeuristicRiskLevel(score: real): (level: RiskLevel)
    ensures level == Critical <==> 0.8 <= score
    ensures level == High <==> 0.6 <= score < 0.8
    ensures level == Medium <==> 0.4 <= score < 0.6
    ensures level == Low <==> score < 0.4
  {
    if score >= 0.8 then Critical
    else if score >= 0.6 then High
    else if score >= 0.4 then Medium
    else Low
  }

  /** The rule-based bucketing never ranks a lower score above a higher one. */
  lemma HeuristicRiskMonotone(s: real, t: real)
    requires s <= t
    ensures Rank(HeuristicRiskLevel(s)) <= Rank(HeuristicRiskLevel(t))
  {
  }

  /**
   * Bucketing used by the ensemble scorer: upper bounds 0.3, 0.6 and 0.85,
   * each exclusive, so 0.3 is already Medium and 0.85 already Critical.
   */
  function EnsembleRiskLevel(score: real): (level: RiskLevel)
    ensures level == Low <==> score < 0.3
    ensures level == Medium <==> 0.3 <= score < 0.6
    ensures level == High <==> 0.6 <= score < 0.85
    ensures level == Critical <==> 0.85 <= score
  {
    if score < 0.3 then Low
    else if score < 0.6 then Medium
    else if score < 0.85 then High
    else Critical
  }

  /** The ensemble bucketing never ranks a lower score above a higher one. */
  lemma EnsembleRiskMonotone(s: real, t: real)
    requires s <= t
    ensures Rank(EnsembleRiskLevel(s)) <= Rank(EnsembleRiskLevel(t))
  {
  }

  /** The two policies disagree: a score of 0.3 is Low for one and Medium for the other. */
  lemma PoliciesDiffer()
    ensures HeuristicRiskLevel(0.3) == Low && EnsembleRiskLevel(0.3) == Medium
    ensures HeuristicRiskLevel(0.8) == Critical && EnsembleRiskLevel(0.8) == High
  {
  }

  /** The investigation advice attached to each bucket by the rule-based scorer. */
  function Recommendation(level: RiskLevel): (advice: string)
    ensures advice == "Immediate investigation required" <==> level == Critical
    ensures advice == "Requires investigation" <==> level == High
    ensures advice == "Monitor closely" <==> level == Medium
    ensures advice == "Standard processing" <==> level == Low
  {
    match level
    case Critical => "Immediate investigation required"
    case High => "Requires investigation"
    case Medium => "Monitor closely"
    case Low => "Standard processing"
  }
}
