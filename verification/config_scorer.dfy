/**
 The simulated-dashboard scorer of Config2.py: it takes the three measurements
 as arguments and scores them against the fixed thresholds 20 (radius),
 100 (perimeter) and 0.1 (concave points), checking them in that order.
 */
module ConfigScorer {
  import opened Tiers
  import opened Scoring
  import AppScorer

  const ConfigThresholds: Thresholds := Thresholds(20.0, 100.0, 0.1)

  /** The scorer: count the strictly exceeded thresholds in argument order,
      then map the count to a tier. */
  function AssessRisk(radiusMean: real, perimeterMean: real, concavePointsMean: real): (r: Tier)
    ensures r == Scoring.AssessRisk(ConfigThresholds, Measurements(radiusMean, perimeterMean, concavePointsMean))
  {
    var cs := [Criterion(radiusMean, 20.0), Criterion(perimeterMean, 100.0), Criterion(concavePointsMean, 0.1)];
    ScoreThree(cs[0], cs[1], cs[2]);
    TierOfScore(Score(cs))
  }

  /** High exactly when radius > 20, perimeter > 100 and concave points > 0.1. */
  lemma HighIff(r: real, p: real, c: real)
    ensures AssessRisk(r, p, c) == High <==> r > 20.0 && p > 100.0 && c > 0.1
  {
  }

  /** Moderate exactly when two of the three comparisons hold. */
  lemma ModerateIff(r: real, p: real, c: real)
    ensures AssessRisk(r, p, c) == Moderate <==> ExactlyTwo(r > 20.0, p > 100.0, c > 0.1)
  {
  }

  /** Low exactly when at most one of the three comparisons holds. */
  lemma LowIff(r: real, p: real, c: real)
    ensures AssessRisk(r, p, c) == Low <==> AtMostOne(r > 20.0, p > 100.0, c > 0.1)
  {
  }

  /** Boundary values contribute nothing: a radius of 20, a perimeter of 100
      or concave points of 0.1 each score like any smaller value. */
  lemma Boundary(r: real, p: real, c: real, x: real)
    ensures x <= 20.0 ==> AssessRisk(20.0, p, c) == AssessRisk(x, p, c)
    ensures x <= 100.0 ==> AssessRisk(r, 100.0, c) == AssessRisk(r, x, c)
    ensures x <= 0.1 ==> AssessRisk(r, p, 0.1) == AssessRisk(r, p, x)
  {
  }

  /** Total over the reals: the count is in 0..3 and the result is one of the
      three labels. */
  lemma ScoreInRange(r: real, p: real, c: real)
    ensures ExceededCount(ConfigThresholds, Measurements(r, p, c)) <= 3
    ensures Label(AssessRisk(r, p, c)) in {"Low Risk", "Moderate Risk", "High Risk"}
  {
    CountIsPatternTrues(ConfigThresholds, Measurements(r, p, c));
  }

  /** The tier is non-decreasing in each argument separately. */
  lemma MonotoneEach(r: real, p: real, c: real, x: real)
    requires x >= 0.0
    ensures Rank(AssessRisk(r, p, c)) <= Rank(AssessRisk(r + x, p, c))
    ensures Rank(AssessRisk(r, p, c)) <= Rank(AssessRisk(r, p + x, c))
    ensures Rank(AssessRisk(r, p, c)) <= Rank(AssessRisk(r, p, c + x))
  {
    var m := Measurements(r, p, c);
    Monotone(ConfigThresholds, m, m.(radiusMean := r + x));
    Monotone(ConfigThresholds, m, m.(perimeterMean := p + x));
    Monotone(ConfigThresholds, m, m.(concavePointsMean := c + x));
  }

  /** The two scorers share the count-to-tier mapping and differ only in their
      thresholds: inputs that exceed the same number of their own scorer's
      thresholds get the same tier from both. */
  lemma SameMappingAsApp(m: Measurements, m': Measurements)
    requires ExceededCount(AppScorer.AppThresholds, m) == ExceededCount(ConfigThresholds, m')
    ensures AppScorer.AssessMeasurements(m) == AssessRisk(m'.radiusMean, m'.perimeterMean, m'.concavePointsMean)
  {
    AppScorer.MatchesReference(m);
  }

  /** Neither scorer is uniformly stricter than the other: some input is
      high for app.py and moderate here, another is low for app.py and high here. */
  lemma VariantsDisagree()
    ensures AppScorer.AssessMeasurements(Measurements(19.0, 130.0, 0.15)) == High
    ensures AssessRisk(19.0, 130.0, 0.15) == Moderate
    ensures AppScorer.AssessMeasurements(Measurements(21.0, 110.0, 0.12)) == Low
    ensures AssessRisk(21.0, 110.0, 0.12) == High
  {
    AppScorer.MatchesReference(Measurements(19.0, 130.0, 0.15));
    AppScorer.MatchesReference(Measurements(21.0, 110.0, 0.12));
  }
}
