/**
 The dashboard scorer of app.py: it reads three measurements out of a
 dictionary keyed by column name and scores them against the fixed
 thresholds 0.1471 (concave points), 17.99 (radius) and 122.8 (perimeter),
 checking concave points first, then radius, then perimeter.
 */
module AppScorer {
  import opened Tiers
  import opened Scoring

  const ConcavePointsThreshold: real := 0.1471
  const RadiusMeanThreshold: real := 17.99
  const PerimeterMeanThreshold: real := 122.8

  const AppThresholds: Thresholds := Thresholds(RadiusMeanThreshold, PerimeterMeanThreshold, ConcavePointsThreshold)

  const ConcavePointsKey: string := "concave_points_mean"
  const RadiusMeanKey: string := "radius_mean"
  const PerimeterMeanKey: string := "perimeter_mean"

  /** The input dictionary: column name to measurement. */
  type Input = map<string, real>

  /** A tier, or the lookup failure Python raises for a missing column. */
  datatype Outcome = Assessed(tier: Tier) | KeyError(key: string)

  predicate HasRequiredKeys(input: Input)
  {
    ConcavePointsKey in input && RadiusMeanKey in input && PerimeterMeanKey in input
  }

  /** The checks in the order the scorer makes them. */
  function Criteria(m: Measurements): seq<Criterion>
  {
    [Criterion(m.concavePointsMean, ConcavePointsThreshold),
     Criterion(m.radiusMean, RadiusMeanThreshold),
     Criterion(m.perimeterMean, PerimeterMeanThreshold)]
  }

  /** The scorer once the three values have been read. */
  function AssessMeasurements(m: Measurements): Tier
  {
    TierOfScore(Score(Criteria(m)))
  }

  /** The measurements the scorer reads out of a complete input. */
  function ReadMeasurements(input: Input): Measurements
    requires HasRequiredKeys(input)
  {
    Measurements(input[RadiusMeanKey], input[PerimeterMeanKey], input[ConcavePointsKey])
  }

  /** The scorer on its dictionary input. Each column is looked up when its
      check runs, so a missing column fails with the first absent key in the
      order concave points, radius, perimeter. */
  function AssessRisk(input: Input): (r: Outcome)
    ensures r.KeyError? <==> !HasRequiredKeys(input)
    ensures r.KeyError? ==> r.key in {ConcavePointsKey, RadiusMeanKey, PerimeterMeanKey}
    ensures r.KeyError? ==> r.key !in input
    ensures r.KeyError? && r.key != ConcavePointsKey ==> ConcavePointsKey in input
    ensures r.KeyError? && r.key == PerimeterMeanKey ==> RadiusMeanKey in input
    ensures r.Assessed? ==> r.tier == Scoring.AssessRisk(AppThresholds, ReadMeasurements(input))
  {
    if ConcavePointsKey !in input then KeyError(ConcavePointsKey)
    else if RadiusMeanKey !in input then KeyError(RadiusMeanKey)
    else if PerimeterMeanKey !in input then KeyError(PerimeterMeanKey)
    else
      var m := ReadMeasurements(input);
      MatchesReference(m);
      Assessed(AssessMeasurements(m))
  }

  /** This scorer is the reference scorer instantiated with its own
      thresholds: checking concave points first, rather than last, is a block
      rotation of the reference order and changes nothing. */
  lemma MatchesReference(m: Measurements)
    ensures AssessMeasurements(m) == Scoring.AssessRisk(AppThresholds, m)
  {
    var c := Criterion(m.concavePointsMean, ConcavePointsThreshold);
    var r := Criterion(m.radiusMean, RadiusMeanThreshold);
    var p := Criterion(m.perimeterMean, PerimeterMeanThreshold);
    assert Criteria(m) == [c] + [r, p];
    assert [r, p] + [c] == [r, p, c];
    ScoreCommutes([c], [r, p]);
    ScoreThree(r, p, c);
  }

  /** High exactly when all three measurements are strictly above 17.99,
      122.8 and 0.1471. */
  lemma HighIff(m: Measurements)
    ensures AssessMeasurements(m) == High <==>
      m.radiusMean > 17.99 && m.perimeterMean > 122.8 && m.concavePointsMean > 0.1471
  {
    MatchesReference(m);
  }

  /** Moderate exactly when two of the three measurements are above their thresholds. */
  lemma ModerateIff(m: Measurements)
    ensures AssessMeasurements(m) == Moderate <==>
      ExactlyTwo(m.radiusMean > 17.99, m.perimeterMean > 122.8, m.concavePointsMean > 0.1471)
  {
    MatchesReference(m);
  }

  /** Low exactly when at most one measurement is above its threshold. */
  lemma LowIff(m: Measurements)
    ensures AssessMeasurements(m) == Low <==>
      AtMostOne(m.radiusMean > 17.99, m.perimeterMean > 122.8, m.concavePointsMean > 0.1471)
  {
    MatchesReference(m);
  }

  /** A measurement equal to its threshold does not count: the tier is the
      same as for any value at or below the threshold. */
  lemma Boundary(m: Measurements, x: real)
    ensures x <= 17.99 ==>
      AssessMeasurements(m.(radiusMean := 17.99)) == AssessMeasurements(m.(radiusMean := x))
    ensures x <= 122.8 ==>
      AssessMeasurements(m.(perimeterMean := 122.8)) == AssessMeasurements(m.(perimeterMean := x))
    ensures x <= 0.1471 ==>
      AssessMeasurements(m.(concavePointsMean := 0.1471)) == AssessMeasurements(m.(concavePointsMean := x))
  {
    MatchesReference(m.(radiusMean := 17.99));
    MatchesReference(m.(radiusMean := x));
    MatchesReference(m.(perimeterMean := 122.8));
    MatchesReference(m.(perimeterMean := x));
    MatchesReference(m.(concavePointsMean := 0.1471));
    MatchesReference(m.(concavePointsMean := x));
  }

  /** The score is 0..3 and the result is always one of the three labels. */
  lemma ScoreInRange(m: Measurements)
    ensures Score(Criteria(m)) <= 3
    ensures Label(AssessMeasurements(m)) in {"Low Risk", "Moderate Risk", "High Risk"}
  {
  }

  /** Raising measurements never lowers the tier. */
  lemma Monotone(m: Measurements, m': Measurements)
    requires m.radiusMean <= m'.radiusMean
    requires m.perimeterMean <= m'.perimeterMean
    requires m.concavePointsMean <= m'.concavePointsMean
    ensures Rank(AssessMeasurements(m)) <= Rank(AssessMeasurements(m'))
  {
    MatchesReference(m);
    MatchesReference(m');
    Scoring.Monotone(AppThresholds, m, m');
  }

  /** Which thresholds are exceeded does not matter, only how many. */
  lemma DependsOnlyOnCount(m: Measurements, m': Measurements)
    requires multiset(Pattern(AppThresholds, m)) == multiset(Pattern(AppThresholds, m'))
    ensures AssessMeasurements(m) == AssessMeasurements(m')
  {
    MatchesReference(m);
    MatchesReference(m');
    TierDependsOnlyOnCount(AppThresholds, m, AppThresholds, m');
  }

  /** Only the three measurement columns are read: inputs that agree on them
      get the same outcome, whatever other columns they carry. */
  lemma ExtraFieldsIgnored(input: Input, input': Input)
    requires forall k :: k in {ConcavePointsKey, RadiusMeanKey, PerimeterMeanKey} ==>
      (k in input <==> k in input') && (k in input ==> input[k] == input'[k])
    ensures AssessRisk(input) == AssessRisk(input')
  {
    assert ConcavePointsKey in {ConcavePointsKey, RadiusMeanKey, PerimeterMeanKey};
    assert RadiusMeanKey in {ConcavePointsKey, RadiusMeanKey, PerimeterMeanKey};
    assert PerimeterMeanKey in {ConcavePointsKey, RadiusMeanKey, PerimeterMeanKey};
  }

  /** A dictionary holding only the concave-points column fails on the radius
      lookup, the next one made. */
  lemma MissingRadiusReported(x: real)
    ensures AssessRisk(map[ConcavePointsKey := x]) == KeyError(RadiusMeanKey)
  {
  }

  /** Two worked inputs: well above every threshold, and well below every one. */
  lemma Examples()
    ensures AssessMeasurements(Measurements(20.0, 130.0, 0.2)) == High
    ensures AssessMeasurements(Measurements(10.0, 50.0, 0.01)) == Low
  {
    HighIff(Measurements(20.0, 130.0, 0.2));
    LowIff(Measurements(10.0, 50.0, 0.01));
  }
}
