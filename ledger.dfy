/**
 * The in-memory claim list of the web service and the three operations over
 * it: appending a scored claim, the analytics summary and the dashboard
 * statistics.
 */
module ClaimLedger {
  import opened Results
  import opened RiskLevels
  import opened HeuristicScorer

  /** One stored claim (the creation timestamp is not modelled). */
  datatype ClaimRecord = ClaimRecord(
    claimId: int,
    claimAmount: real,
    fraudScore: real,
    riskLevel: RiskLevel,
    claimType: string,
    customerAge: int,
    recommendation: string)

  /** The summary returned by the analytics endpoint. */
  datatype AnalyticsData = AnalyticsData(
    totalClaims: nat,
    fraudDetected: nat,
    avgFraudScore: real,
    highRiskClaims: nat,
    savingsEstimate: real)

  /** The numbers behind the dashboard statistics (before currency and percent formatting). */
  datatype FraudStats = FraudStats(
    totalClaims: nat,
    fraudDetectionRate: real,
    riskDistribution: map<RiskLevel, nat>,
    averageClaimAmount: real,
    totalClaimsValue: real,
    estimatedFraudPrevented: real)

  /** A claim at or above this score is counted as detected fraud. */
  const FraudThreshold: real := 0.5
  /** Assumed amount saved per detected fraud. */
  const SavingsPerFraud: real := 50000.0

  predicate IsFraud(r: ClaimRecord)
  {
    r.fraudScore >= FraudThreshold
  }

  predicate IsHighRisk(r: ClaimRecord)
  {
    r.riskLevel == High || r.riskLevel == Critical
  }

  /** A stored record carries a clamped score and the bucket and advice the scorer derived from it. */
  predicate Consistent(r: ClaimRecord)
  {
    0.0 <= r.fraudScore <= 1.0
    && r.riskLevel == HeuristicRiskLevel(r.fraudScore)
    && r.recommendation == Recommendation(r.riskLevel)
  }

  /** Ids are 1, 2, ..., n in insertion order, and every record is consistent. */
  predicate WellFormed(db: seq<ClaimRecord>)
  {
    forall i :: 0 <= i < |db| ==> db[i].claimId == i + 1 && Consistent(db[i])
  }

  /** Distinct positions of a well-formed ledger hold distinct ids. */
  lemma IdsUnique(db: seq<ClaimRecord>, i: int, j: int)
    requires WellFormed(db)
    requires 0 <= i < |db| && 0 <= j < |db| && i != j
    ensures db[i].claimId != db[j].claimId
  {
  }

  /** The record `create_claim` builds from a claim and its fraud analysis. */
  function NewRecord(id: int, claim: ClaimInput, analysis: Prediction): ClaimRecord
  {
    ClaimRecord(id, claim.claimAmount, analysis.fraudProbability, analysis.riskLevel,
                claim.claimType, claim.customerAge, analysis.recommendation)
  }

  /** A record built from a scored claim keeps a clamped score with its own bucket and advice. */
  lemma NewRecordConsistent(id: int, claim: ClaimInput, jitter: real, confidence: real)
    requires -0.05 <= jitter <= 0.05
    requires 0.85 <= confidence <= 0.98
    ensures Consistent(NewRecord(id, claim, SimpleFraudDetector(claim, jitter, confidence)))
  {
  }

  /** The module-level claim list and the endpoint that appends to it. */
  class ClaimsDatabase {
    var claims: seq<ClaimRecord>

    ghost predicate Valid()
      reads this
    {
      WellFormed(claims)
    }

    constructor ()
      ensures Valid() && claims == []
    {
      claims := [];
    }

    /**
     * `create_claim`: score the claim, give it id `len + 1` and append it,
     * leaving the earlier records as they were.
     */
    method CreateClaim(claim: ClaimInput, jitter: real, confidence: real)
      returns (claimId: int, analysis: Prediction)
      requires Valid()
      requires -0.05 <= jitter <= 0.05
      requires 0.85 <= confidence <= 0.98
      modifies this
      ensures Valid()
      ensures claimId == |old(claims)| + 1
      ensures analysis == SimpleFraudDetector(claim, jitter, confidence)
      ensures claims == old(claims) + [NewRecord(claimId, claim, analysis)]
    {
      analysis := SimpleFraudDetector(claim, jitter, confidence);
      claimId := |claims| + 1;
      NewRecordConsistent(claimId, claim, jitter, confidence);
      claims := claims + [NewRecord(claimId, claim, analysis)];
    }
  }

  // ---------------------------------------------------------------------------
  // Counting and summing over the ledger

  /** `len([c for c in db if keep(c)])`. */
  function CountWhere(db: seq<ClaimRecord>, keep: ClaimRecord -> bool): (n: nat)
    ensures n <= |db|
  {
    if db == [] then 0
    else CountWhere(db[..|db| - 1], keep) + (if keep(db[|db| - 1]) then 1 else 0)
  }

  /** Positions of the records that satisfy `keep`: the reference definition of a count. */
  ghost function IndicesWhere(db: seq<ClaimRecord>, keep: ClaimRecord -> bool): set<int>
  {
    set i | 0 <= i < |db| && keep(db[i])
  }

  /** The count is the number of positions whose record satisfies `keep`. */
  lemma {:induction false} CountWhereIndices(db: seq<ClaimRecord>, keep: ClaimRecord -> bool)
    ensures CountWhere(db, keep) == |IndicesWhere(db, keep)|
  {
    if db != [] {
      var n := |db| - 1;
      CountWhereIndices(db[..n], keep);
      if keep(db[n]) {
        assert IndicesWhere(db, keep) == IndicesWhere(db[..n], keep) + {n};
      } else {
        assert IndicesWhere(db, keep) == IndicesWhere(db[..n], keep);
      }
    }
  }

  /** A filter that keeps at least what another keeps counts at least as many records. */
  lemma {:induction false} CountWhereMonotone(db: seq<ClaimRecord>, p: ClaimRecord -> bool, q: ClaimRecord -> bool)
    requires forall i :: 0 <= i < |db| && p(db[i]) ==> q(db[i])
    ensures CountWhere(db, p) <= CountWhere(db, q)
  {
    if db != [] {
      CountWhereMonotone(db[..|db| - 1], p, q);
    }
  }

  /** Appending one record raises a count by one exactly when the record satisfies the filter. */
  lemma CountWhereAppend(db: seq<ClaimRecord>, r: ClaimRecord, keep: ClaimRecord -> bool)
    ensures CountWhere(db + [r], keep) == CountWhere(db, keep) + (if keep(r) then 1 else 0)
  {
    assert (db + [r])[..|db|] == db;
  }

  /** Number of records in one risk bucket. */
  function CountLevel(db: seq<ClaimRecord>, level: RiskLevel): (n: nat)
    ensures n <= |db|
  {
    CountWhere(db, (r: ClaimRecord) => r.riskLevel == level)
  }

  /** Every record falls in exactly one bucket, so the four bucket counts add up to the total. */
  lemma {:induction false} LevelCountsSumToTotal(db: seq<ClaimRecord>)
    ensures CountLevel(db, Low) + CountLevel(db, Medium) + CountLevel(db, High) + CountLevel(db, Critical) == |db|
  {
    if db != [] {
      LevelCountsSumToTotal(db[..|db| - 1]);
    }
  }

  /** `sum(c["fraud_score"] for c in db)`. */
  function SumScores(db: seq<ClaimRecord>): (s: real)
    ensures (forall i :: 0 <= i < |db| ==> 0.0 <= db[i].fraudScore <= 1.0) ==> 0.0 <= s <= |db| as real
  {
    if db == [] then 0.0 else SumScores(db[..|db| - 1]) + db[|db| - 1].fraudScore
  }

  /** `sum(c["claim_amount"] for c in db)`. */
  function SumAmounts(db: seq<ClaimRecord>): (s: real)
    ensures (forall i :: 0 <= i < |db| ==> db[i].claimAmount >= 0.0) ==> s >= 0.0
  {
    if db == [] then 0.0 else SumAmounts(db[..|db| - 1]) + db[|db| - 1].claimAmount
  }

  // ---------------------------------------------------------------------------
  // get_analytics

  /**
   * `get_analytics`: all zeros on an empty ledger; otherwise the number of
   * claims, the claims scored at least 0.5, their 50000-per-claim savings,
   * the High or Critical claims, and the mean score.
   */
  function Analytics(db: seq<ClaimRecord>): (a: AnalyticsData)
    ensures db == [] ==> a == AnalyticsData(0, 0, 0.0, 0, 0.0)
    ensures a.totalClaims == |db|
    ensures a.fraudDetected == |set i | 0 <= i < |db| && db[i].fraudScore >= 0.5|
    ensures a.highRiskClaims == |set i | 0 <= i < |db| && db[i].riskLevel in {High, Critical}|
    ensures a.fraudDetected <= a.totalClaims && a.highRiskClaims <= a.totalClaims
    ensures a.savingsEstimate == 50000.0 * a.fraudDetected as real
    ensures db != [] ==> a.avgFraudScore == SumScores(db) / |db| as real
  {
    CountWhereIndices(db, IsFraud);
    CountWhereIndices(db, IsHighRisk);
    assert IndicesWhere(db, IsFraud) == set i | 0 <= i < |db| && db[i].fraudScore >= 0.5;
    assert IndicesWhere(db, IsHighRisk) == set i | 0 <= i < |db| && db[i].riskLevel in {High, Critical};
    if db == [] then
      AnalyticsData(0, 0, 0.0, 0, 0.0)
    else
      var total := |db|;
      var fraud := CountWhere(db, IsFraud);
      AnalyticsData(total, fraud, SumScores(db) / total as real, CountWhere(db, IsHighRisk),
                    fraud as real * SavingsPerFraud)
  }

  /** A total of at most `n` values from [0, 1], divided by `n`, lies in [0, 1]. */
  lemma MeanBound(s: real, n: real)
    requires 0.0 < n && 0.0 <= s <= n
    ensures 0.0 <= s / n <= 1.0
  {
  }

  /** On a well-formed ledger the mean score lies in [0, 1]. */
  lemma AverageScoreInUnitInterval(db: seq<ClaimRecord>)
    requires WellFormed(db)
    ensures 0.0 <= Analytics(db).avgFraudScore <= 1.0
  {
    if db != [] {
      assert Analytics(db).avgFraudScore == SumScores(db) / |db| as real;
      MeanBound(SumScores(db), |db| as real);
    }
  }

  /**
   * A High or Critical claim scored at least 0.6, hence at least 0.5, so on a
   * well-formed ledger every high-risk claim is also counted as detected fraud.
   */
  lemma HighRiskClaimsAreFraud(db: seq<ClaimRecord>)
    requires WellFormed(db)
    ensures Analytics(db).highRiskClaims <= Analytics(db).fraudDetected
  {
    if db != [] {
      CountWhereMonotone(db, IsHighRisk, IsFraud);
    }
  }

  /** Appending a record moves each analytics count by what that one record contributes. */
  lemma AnalyticsAfterAppend(db: seq<ClaimRecord>, r: ClaimRecord)
    ensures Analytics(db + [r]).totalClaims == Analytics(db).totalClaims + 1
    ensures Analytics(db + [r]).fraudDetected == Analytics(db).fraudDetected + (if r.fraudScore >= 0.5 then 1 else 0)
    ensures Analytics(db + [r]).highRiskClaims == Analytics(db).highRiskClaims + (if IsHighRisk(r) then 1 else 0)
  {
    CountWhereAppend(db, r, IsFraud);
    CountWhereAppend(db, r, IsHighRisk);
  }

  // ---------------------------------------------------------------------------
  // fraud_statistics

  /** Count stored for a bucket, zero when the bucket never occurred. */
  function CountIn(m: map<RiskLevel, nat>, level: RiskLevel): nat
  {
    if level in m then m[level] else 0
  }

  /** Sum of the counts of a risk histogram. */
  function DistributionTotal(m: map<RiskLevel, nat>): nat
  {
    CountIn(m, Low) + CountIn(m, Medium) + CountIn(m, High) + CountIn(m, Critical)
  }

  /**
   * The `by_risk` histogram: each bucket that occurs, with its number of
   * claims. Its counts add up to the number of claims.
   */
  function Histogram(db: seq<ClaimRecord>): (h: map<RiskLevel, nat>)
    ensures forall l :: l in h <==> CountLevel(db, l) > 0
    ensures forall l :: l in h ==> h[l] == CountLevel(db, l)
    ensures DistributionTotal(h) == |db|
  {
    LevelCountsSumToTotal(db);
    map l | l in {Low, Medium, High, Critical} && CountLevel(db, l) > 0 :: CountLevel(db, l)
  }

  /**
   * The answer of `fraud_statistics`: nothing for an empty ledger; otherwise
   * the histogram and the aggregate figures over all claims.
   */
  function Statistics(db: seq<ClaimRecord>): (stats: Option<FraudStats>)
    ensures stats.None? <==> db == []
    ensures stats.Some? ==> stats.value.totalClaims == |db|
    ensures stats.Some? ==> stats.value.riskDistribution == Histogram(db)
    ensures stats.Some? ==> stats.value.totalClaimsValue == SumAmounts(db)
    ensures stats.Some? ==> stats.value.averageClaimAmount == SumAmounts(db) / |db| as real
    ensures stats.Some? ==>
              stats.value.fraudDetectionRate == |set i | 0 <= i < |db| && db[i].fraudScore >= 0.5| as real / |db| as real * 100.0
    ensures stats.Some? ==> DistributionTotal(stats.value.riskDistribution) == stats.value.totalClaims
    ensures stats.Some? ==> stats.value.estimatedFraudPrevented == 50000.0 * |set i | 0 <= i < |db| && db[i].fraudScore >= 0.5| as real
  {
    if db == [] then None
    else
      var total := |db|;
      var fraud := CountWhere(db, IsFraud);
      var value := SumAmounts(db);
      CountWhereIndices(db, IsFraud);
      assert IndicesWhere(db, IsFraud) == set i | 0 <= i < |db| && db[i].fraudScore >= 0.5;
      Some(FraudStats(total, fraud as real / total as real * 100.0, Histogram(db),
                      value / total as real, value, fraud as real * SavingsPerFraud))
  }

  /** Recording one more claim adds one to the count of its own bucket only. */
  lemma CountLevelAppend(db: seq<ClaimRecord>, r: ClaimRecord, level: RiskLevel)
    ensures CountLevel(db + [r], level) == CountLevel(db, level) + (if r.riskLevel == level then 1 else 0)
  {
    assert (db + [r])[..|db|] == db;
  }

  /** Recording one more claim adds one to its own bucket of the histogram and leaves the others alone. */
  lemma HistogramStep(db: seq<ClaimRecord>, r: ClaimRecord)
    ensures Histogram(db + [r]) == Histogram(db)[r.riskLevel := CountIn(Histogram(db), r.riskLevel) + 1]
  {
    var after, before := Histogram(db + [r]), Histogram(db);
    var updated := before[r.riskLevel := CountIn(before, r.riskLevel) + 1];
    CountLevelAppend(db, r, Low);
    CountLevelAppend(db, r, Medium);
    CountLevelAppend(db, r, High);
    CountLevelAppend(db, r, Critical);
    assert forall l :: l in after <==> l in updated;
    assert forall l :: l in after ==> after[l] == updated[l];
  }

  /**
   * `fraud_statistics`: on a non-empty ledger, build the histogram one claim
   * at a time, updating the map in place, then add the aggregate figures.
   */
  method FraudStatistics(db: seq<ClaimRecord>) returns (stats: Option<FraudStats>)
    ensures stats == Statistics(db)
  {
    if db == [] {
      return None;
    }
    var total := |db|;
    var byRisk: map<RiskLevel, nat> := map[];
    for i := 0 to |db|
      invariant byRisk == Histogram(db[..i])
    {
      assert db[..i + 1] == db[..i] + [db[i]];
      HistogramStep(db[..i], db[i]);
      var risk := db[i].riskLevel;
      byRisk := byRisk[risk := (if risk in byRisk then byRisk[risk] else 0) + 1];
    }
    assert db[..|db|] == db;
    var fraud := CountWhere(db, IsFraud);
    var value := SumAmounts(db);
    stats := Some(FraudStats(total, fraud as real / total as real * 100.0, byRisk,
                             value / total as real, value, fraud as real * SavingsPerFraud));
  }
}
