/**
 * The rule-based scorer behind the claim endpoints: fixed increments for
 * amount, age, tenure, witnesses and suspicious wording, a random jitter,
 * a clamp to [0, 1] and the rule-based risk bucketing.
 *
 * The two random draws of the Python service (the jitter and the reported
 * confidence) are parameters here; their `requires` are the ranges the
 * uniform draws come from.
 */
module HeuristicScorer {
  import opened RiskLevels

  /** The fields of a submitted claim that the scorer reads or passes on. */
  datatype ClaimInput = ClaimInput(
    claimAmount: real,
    claimType: string,
    customerAge: int,
    policyTenure: int,
    claimDescription: string,
    location: string,
    witnessCount: int)

  /** What the scorer returns for one claim. */
  datatype Prediction = Prediction(
    fraudProbability: real,
    riskLevel: RiskLevel,
    confidence: real,
    recommendation: string,
    modelVersion: string)

  const ModelVersion := "ensemble_v1.0"

  // ---------------------------------------------------------------------------
  // Text helpers: ASCII lower-casing and substring search

  function LowerChar(c: char): char
  {
    if 'A' <= c <= 'Z' then (c as int - 'A' as int + 'a' as int) as char else c
  }

  /** ASCII lower-casing, character by character. */
  function Lower(s: string): (r: string)
    ensures |r| == |s|
    ensures forall i :: 0 <= i < |s| ==> r[i] == LowerChar(s[i])
    ensures forall i :: 0 <= i < |r| ==> !('A' <= r[i] <= 'Z')
  {
    seq(|s|, i requires 0 <= i < |s| => LowerChar(s[i]))
  }

  /** Lower-casing twice is lower-casing once. */
  lemma LowerIdempotent(s: string)
    ensures Lower(Lower(s)) == Lower(s)
  {
    assert forall i :: 0 <= i < |s| ==> LowerChar(LowerChar(s[i])) == LowerChar(s[i]);
  }

  /** `word in text` in Python: `word` occurs in `text` as a contiguous piece. */
  function Contains(text: string, word: string): bool
    decreases |text|
  {
    word <= text || (|text| > 0 && Contains(text[1..], word))
  }

  /** `word` sits in `text` starting at position `i`. */
  predicate OccursAt(text: string, word: string, i: int)
  {
    0 <= i && i + |word| <= |text| && text[i..i + |word|] == word
  }

  /** `Contains` agrees with the positional definition of a substring, in both directions. */
  lemma {:induction false} ContainsIff(text: string, word: string)
    ensures Contains(text, word) <==> exists i :: OccursAt(text, word, i)
    decreases |text|
  {
    if word <= text {
      assert OccursAt(text, word, 0);
    } else if |text| > 0 {
      ContainsIff(text[1..], word);
      if Contains(text[1..], word) {
        var i :| OccursAt(text[1..], word, i);
        assert OccursAt(text, word, i + 1);
      } else if exists i :: OccursAt(text, word, i) {
        var i :| OccursAt(text, word, i);
        assert OccursAt(text[1..], word, i - 1);
      }
    }
  }

  // ---------------------------------------------------------------------------
  // The individual rules

  /**
   * Amount tier, written with the Python service's `if amount > 50000 / elif amount > 100000`.
   * The second branch can never be taken: every amount above 50000 gets 0.3
   * and no amount ever gets 0.5.
   */
  function AmountRisk(amount: real): (r: real)
    ensures r == 0.3 <==> amount > 50000.0
    ensures r == 0.0 <==> amount <= 50000.0
    ensures r != 0.5
  {
    if amount > 50000.0 then 0.3
    else if amount > 100000.0 then 0.5
    else 0.0
  }

  /** Claims above 100000 still receive the 0.3 of the first tier. */
  lemma UpperAmountTierUnreachable(amount: real)
    requires amount > 100000.0
    ensures AmountRisk(amount) == 0.3
  {
  }

  /** Customers younger than 25 or older than 65 add 0.2; ages 25 and 65 add nothing. */
  function AgeRisk(age: int): (r: real)
    ensures r == 0.2 <==> age < 25 || age > 65
    ensures r == 0.0 <==> 25 <= age <= 65
  {
    if age < 25 || age > 65 then 0.2 else 0.0
  }

  /** Tenure below one year adds 0.3, one or two years add 0.1, three or more add nothing. */
  function TenureRisk(tenure: int): (r: real)
    ensures r == 0.3 <==> tenure < 1
    ensures r == 0.1 <==> 1 <= tenure < 3
    ensures r == 0.0 <==> tenure >= 3
  {
    if tenure < 1 then 0.3
    else if tenure < 3 then 0.1
    else 0.0
  }

  /** A claim without witnesses adds 0.2. */
  function WitnessRisk(witnesses: int): (r: real)
    ensures r == 0.2 <==> witnesses == 0
    ensures r == 0.0 <==> witnesses != 0
  {
    if witnesses == 0 then 0.2 else 0.0
  }

  const SuspiciousWords: seq<string> := ["total loss", "stolen", "fire", "vandalism"]

  /**
   * A description containing any suspicious word, in any letter case, adds 0.1,
   * however many of the words it contains.
   */
  function DescriptionRisk(description: string): (r: real)
    ensures r == 0.1 <==> exists w :: w in SuspiciousWords && Contains(Lower(description), w)
    ensures r == 0.0 || r == 0.1
  {
    var text := Lower(description);
    if exists w :: w in SuspiciousWords && Contains(text, w) then 0.1 else 0.0
  }

  /** A location mentioning "remote" or "parking lot", in any letter case, adds 0.1. */
  function LocationRisk(location: string): (r: real)
    ensures r == 0.1 <==> Contains(Lower(location), "remote") || Contains(Lower(location), "parking lot")
    ensures r == 0.0 || r == 0.1
  {
    var text := Lower(location);
    if Contains(text, "remote") || Contains(text, "parking lot") then 0.1 else 0.0
  }

  /** The keyword rules see only the lower-cased text, so the letter case of the claim does not matter. */
  lemma KeywordRulesIgnoreCase(c: ClaimInput)
    ensures DescriptionRisk(Lower(c.claimDescription)) == DescriptionRisk(c.claimDescription)
    ensures LocationRisk(Lower(c.location)) == LocationRisk(c.location)
  {
    LowerIdempotent(c.claimDescription);
    LowerIdempotent(c.location);
  }

  // ---------------------------------------------------------------------------
  // The score

  /** Sum of the rule increments before jitter; at most 0.3 + 0.2 + 0.3 + 0.2 + 0.1 + 0.1. */
  function BaseScore(c: ClaimInput): (score: real)
    ensures 0.0 <= score <= 1.2
  {
    AmountRisk(c.claimAmount) + AgeRisk(c.customerAge) + TenureRisk(c.policyTenure)
    + WitnessRisk(c.witnessCount) + DescriptionRisk(c.claimDescription) + LocationRisk(c.location)
  }

  /** `max(0.0, min(1.0, x))`. */
  function Clamp(x: real): (r: real)
    ensures 0.0 <= r <= 1.0
    ensures 0.0 <= x <= 1.0 ==> r == x
    ensures x < 0.0 ==> r == 0.0
    ensures x > 1.0 ==> r == 1.0
  {
    if x < 0.0 then 0.0 else if x > 1.0 then 1.0 else x
  }

  /** The clamped score after adding a jitter drawn from [-0.05, 0.05]. */
  function FraudScore(c: ClaimInput, jitter: real): (score: real)
    requires -0.05 <= jitter <= 0.05
    ensures 0.0 <= score <= 1.0
    ensures 0.0 <= BaseScore(c) + jitter <= 1.0 ==> score == BaseScore(c) + jitter
    ensures BaseScore(c) + jitter < 0.0 ==> score == 0.0
    ensures BaseScore(c) + jitter > 1.0 ==> score == 1.0
  {
    Clamp(BaseScore(c) + jitter)
  }

  /**
   * `simple_fraud_detector`: the clamped score, its rule-based bucket and
   * advice, and a confidence that is the injected draw from [0.85, 0.98],
   * unrelated to the score.
   */
  function SimpleFraudDetector(c: ClaimInput, jitter: real, confidence: real): (p: Prediction)
    requires -0.05 <= jitter <= 0.05
    requires 0.85 <= confidence <= 0.98
    ensures p.fraudProbability == FraudScore(c, jitter) && p.confidence == confidence
    ensures 0.0 <= p.fraudProbability <= 1.0
    ensures p.riskLevel == HeuristicRiskLevel(p.fraudProbability)
    ensures p.recommendation == Recommendation(p.riskLevel)
    ensures 0.85 <= p.confidence <= 0.98
    ensures p.modelVersion == "ensemble_v1.0"
  {
    var score := FraudScore(c, jitter);
    var level := HeuristicRiskLevel(score);
    Prediction(score, level, confidence, Recommendation(level), ModelVersion)
  }

  /** With no jitter, a claim scoring at least 0.8 before jitter is Critical. */
  lemma HighBaseScoreIsCritical(c: ClaimInput, confidence: real)
    requires 0.85 <= confidence <= 0.98
    requires BaseScore(c) >= 0.8
    ensures SimpleFraudDetector(c, 0.0, confidence).riskLevel == Critical
    ensures SimpleFraudDetector(c, 0.0, confidence).recommendation == "Immediate investigation required"
  {
  }

  /** The example claim of the request schema scores 0.8 before jitter. */
  lemma ExampleClaimScore()
    ensures BaseScore(ClaimInput(75000.0, "Auto Accident", 25, 2, "Total loss in parking lot", "Remote area", 0)) == 0.8
  {
    var c := ClaimInput(75000.0, "Auto Accident", 25, 2, "Total loss in parking lot", "Remote area", 0);
    assert Lower(c.claimDescription) == "total loss in parking lot";
    assert "total loss" <= Lower(c.claimDescription);
    assert Contains(Lower(c.claimDescription), SuspiciousWords[0]);
    assert Lower(c.location) == "remote area";
    assert "remote" <= Lower(c.location);
    assert Contains(Lower(c.location), "remote");
  }
}
