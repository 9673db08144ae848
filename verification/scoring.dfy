/**
 The counting core shared by both scorers: a list of threshold checks, the
 number of them that are strictly exceeded, and the tier that number maps to.

 Both variants of the scorer start a counter at zero and add one for every
 measurement strictly above its threshold. `Score` is that count over a list of
 checks, `AccumulateScore` is the running-counter form, and `ExceededCount` /
 `AssessRisk` are the three-measurement reference that the two variants are
 proved to instantiate.
 */
module Scoring {
  import opened Tiers

  /** One threshold check: a measurement and the value it must strictly exceed. */
  datatype Criterion = Criterion(value: real, threshold: real)

  predicate Exceeds(c: Criterion)
  {
    c.value > c.threshold
  }

  /** What one check adds to the running score. */
  function Indicator(c: Criterion): nat
  {
    if Exceeds(c) then 1 else 0
  }

  /** Number of checks whose measurement is strictly above its threshold. */
  function Score(cs: seq<Criterion>): (n: nat)
    ensures n <= |cs|
  {
    if |cs| == 0 then 0
    else Score(cs[..|cs| - 1]) + Indicator(cs[|cs| - 1])
  }

  /** The scorers' running counter: start at zero, and for each check in turn
      add one when the measurement is above its threshold. */
  method AccumulateScore(cs: seq<Criterion>) returns (score: nat)
    ensures score == Score(cs)
    ensures score <= |cs|
  {
    score := 0;
    var i := 0;
    while i < |cs|
      invariant 0 <= i <= |cs|
      invariant score == Score(cs[..i])
    {
      if Exceeds(cs[i]) {
        score := score + 1;
      }
      assert cs[..i + 1][..i] == cs[..i];
      i := i + 1;
    }
    assert cs[..|cs|] == cs;
  }

  /** The score is the full length exactly when every check is exceeded. */
  lemma {:induction false} ScoreAllIff(cs: seq<Criterion>)
    ensures Score(cs) == |cs| <==> forall i :: 0 <= i < |cs| ==> Exceeds(cs[i])
  {
    if |cs| > 0 {
      var init := cs[..|cs| - 1];
      ScoreAllIff(init);
      assert forall i :: 0 <= i < |init| ==> init[i] == cs[i];
    }
  }

  /** The score is zero exactly when no check is exceeded. */
  lemma {:induction false} ScoreNoneIff(cs: seq<Criterion>)
    ensures Score(cs) == 0 <==> forall i :: 0 <= i < |cs| ==> !Exceeds(cs[i])
  {
    if |cs| > 0 {
      var init := cs[..|cs| - 1];
      ScoreNoneIff(init);
      assert forall i :: 0 <= i < |init| ==> init[i] == cs[i];
    }
  }

  /** Scoring two lists of checks one after the other adds their scores. */
  lemma {:induction false} ScoreAppend(a: seq<Criterion>, b: seq<Criterion>)
    ensures Score(a + b) == Score(a) + Score(b)
  {
    if |b| == 0 {
      assert a + b == a;
    } else {
      var b' := b[..|b| - 1];
      assert (a + b)[..|a + b| - 1] == a + b';
      ScoreAppend(a, b');
    }
  }

  /** Moving a block of checks from the front to the back does not change
      the score. */
  lemma ScoreCommutes(a: seq<Criterion>, b: seq<Criterion>)
    ensures Score(a + b) == Score(b + a)
  {
    ScoreAppend(a, b);
    ScoreAppend(b, a);
  }

  /** A check inserted anywhere in a list adds exactly its own contribution. */
  lemma ScoreInsert(pre: seq<Criterion>, x: Criterion, post: seq<Criterion>)
    ensures Score(pre + [x] + post) == Score(pre + post) + Indicator(x)
  {
    ScoreAppend(pre + [x], post);
    ScoreAppend(pre, [x]);
    ScoreAppend(pre, post);
    assert [x][..0] == [];
  }

  /** Taking the check at position j out of the list lowers the score by
      exactly what that check contributed. */
  lemma ScoreRemoveAt(b: seq<Criterion>, j: nat)
    requires j < |b|
    ensures Score(b) == Score(b[..j] + b[j + 1..]) + Indicator(b[j])
  {
    assert b == b[..j] + [b[j]] + b[j + 1..];
    ScoreInsert(b[..j], b[j], b[j + 1..]);
  }

  /** Taking the check at position j out of the list removes one copy of it
      from the multiset of checks. */
  lemma MultisetRemoveAt(b: seq<Criterion>, j: nat)
    requires j < |b|
    ensures multiset(b) == multiset(b[..j] + b[j + 1..]) + multiset{b[j]}
  {
    var pre, x, post := b[..j], b[j], b[j + 1..];
    assert b == pre + [x] + post;
  }

  /** The order in which the checks are made does not change the score: any
      rearrangement of the same checks scores the same. */
  lemma {:induction false} ScorePermutation(a: seq<Criterion>, b: seq<Criterion>)
    requires multiset(a) == multiset(b)
    ensures Score(a) == Score(b)
  {
    if |a| == 0 {
      assert |b| == |multiset(b)| == 0;
    } else {
      var n := |a| - 1;
      var x := a[n];
      assert a == a[..n] + [x];
      assert multiset(a) == multiset(a[..n]) + multiset{x};
      assert x in multiset(b);
      var j :| 0 <= j < |b| && b[j] == x;
      ScoreRemoveAt(b, j);
      MultisetRemoveAt(b, j);
      var b' := b[..j] + b[j + 1..];
      assert multiset(a[..n]) == multiset(b') by {
        MultisetCancel(multiset(a[..n]), multiset(b'), x);
      }
      ScorePermutation(a[..n], b');
    }
  }

  /** Adding the same element to two multisets keeps them equal only if they
      were equal. */
  lemma MultisetCancel<T>(m: multiset<T>, m': multiset<T>, x: T)
    requires m + multiset{x} == m' + multiset{x}
    ensures m == m'
  {
    forall y: T
      ensures m[y] == m'[y]
    {
      assert (m + multiset{x})[y] == (m' + multiset{x})[y];
    }
  }

  /** If every check exceeded in cs is also exceeded in cs', the score of cs'
      is at least that of cs; raising a measurement (or lowering a threshold)
      is the typical way to get there. */
  lemma {:induction false} ScoreMonotone(cs: seq<Criterion>, cs': seq<Criterion>)
    requires |cs| == |cs'|
    requires forall i :: 0 <= i < |cs| ==> Exceeds(cs[i]) ==> Exceeds(cs'[i])
    ensures Score(cs) <= Score(cs')
  {
    if |cs| > 0 {
      var n := |cs| - 1;
      ScoreMonotone(cs[..n], cs'[..n]);
    }
  }

  /** A list of three checks scores the sum of the three indicators. */
  lemma ScoreThree(a: Criterion, b: Criterion, c: Criterion)
    ensures Score([a, b, c]) == Indicator(a) + Indicator(b) + Indicator(c)
  {
    assert [a, b, c][..2] == [a, b];
    assert [a, b][..1] == [a];
    assert [a][..0] == [];
    assert Score([a]) == Indicator(a);
    assert Score([a, b]) == Indicator(a) + Indicator(b);
  }

  /** The three measurements both scorers read. */
  datatype Measurements = Measurements(radiusMean: real, perimeterMean: real, concavePointsMean: real)

  /** One threshold per measurement. */
  datatype Thresholds = Thresholds(radiusMean: real, perimeterMean: real, concavePointsMean: real)

  /** Which of the three thresholds are strictly exceeded, in the order
      radius, perimeter, concave points. */
  function Pattern(t: Thresholds, m: Measurements): seq<bool>
  {
    [m.radiusMean > t.radiusMean, m.perimeterMean > t.perimeterMean, m.concavePointsMean > t.concavePointsMean]
  }

  /** Reference count of exceeded thresholds, written as a plain sum. */
  function ExceededCount(t: Thresholds, m: Measurements): nat
  {
    (if m.radiusMean > t.radiusMean then 1 else 0)
    + (if m.perimeterMean > t.perimeterMean then 1 else 0)
    + (if m.concavePointsMean > t.concavePointsMean then 1 else 0)
  }

  /** Reference scorer, parameterised by its threshold triple. */
  function AssessRisk(t: Thresholds, m: Measurements): Tier
  {
    TierOfScore(ExceededCount(t, m))
  }

  /** The count lies in 0..3 and is the number of `true` entries in the pattern. */
  lemma CountIsPatternTrues(t: Thresholds, m: Measurements)
    ensures ExceededCount(t, m) <= 3
    ensures ExceededCount(t, m) == multiset(Pattern(t, m))[true]
  {
    var p := Pattern(t, m);
    assert p == [p[0]] + [p[1]] + [p[2]];
    assert multiset(p) == multiset{p[0]} + multiset{p[1]} + multiset{p[2]};
  }

  /** High exactly when all three thresholds are strictly exceeded. */
  lemma HighIff(t: Thresholds, m: Measurements)
    ensures AssessRisk(t, m) == High <==>
      m.radiusMean > t.radiusMean && m.perimeterMean > t.perimeterMean && m.concavePointsMean > t.concavePointsMean
  {
  }

  /** Exactly two of the three conditions hold. */
  predicate ExactlyTwo(a: bool, b: bool, c: bool)
  {
    (a && b && !c) || (a && !b && c) || (!a && b && c)
  }

  /** At most one of the three conditions holds. */
  predicate AtMostOne(a: bool, b: bool, c: bool)
  {
    !(a && b) && !(a && c) && !(b && c)
  }

  /** Moderate exactly when two of the three thresholds are strictly exceeded. */
  lemma ModerateIff(t: Thresholds, m: Measurements)
    ensures AssessRisk(t, m) == Moderate <==>
      ExactlyTwo(m.radiusMean > t.radiusMean, m.perimeterMean > t.perimeterMean, m.concavePointsMean > t.concavePointsMean)
  {
  }

  /** Low exactly when at most one threshold is strictly exceeded. */
  lemma LowIff(t: Thresholds, m: Measurements)
    ensures AssessRisk(t, m) == Low <==>
      AtMostOne(m.radiusMean > t.radiusMean, m.perimeterMean > t.perimeterMean, m.concavePointsMean > t.concavePointsMean)
  {
  }

  /** A measurement exactly at its threshold scores like any value at or below
      it: the comparison is strict. */
  lemma AtThresholdNotCounted(t: Thresholds, m: Measurements, x: real)
    ensures x <= t.radiusMean ==>
      AssessRisk(t, m.(radiusMean := t.radiusMean)) == AssessRisk(t, m.(radiusMean := x))
    ensures x <= t.perimeterMean ==>
      AssessRisk(t, m.(perimeterMean := t.perimeterMean)) == AssessRisk(t, m.(perimeterMean := x))
    ensures x <= t.concavePointsMean ==>
      AssessRisk(t, m.(concavePointsMean := t.concavePointsMean)) == AssessRisk(t, m.(concavePointsMean := x))
  {
  }

  /** Raising measurements, each independently, never lowers the tier. */
  lemma Monotone(t: Thresholds, m: Measurements, m': Measurements)
    requires m.radiusMean <= m'.radiusMean
    requires m.perimeterMean <= m'.perimeterMean
    requires m.concavePointsMean <= m'.concavePointsMean
    ensures Rank(AssessRisk(t, m)) <= Rank(AssessRisk(t, m'))
  {
    CountIsPatternTrues(t, m');
    TierOfScoreMonotone(ExceededCount(t, m), ExceededCount(t, m'));
  }

  /** The tier depends only on how many thresholds are exceeded, not on which:
      two inputs whose exceeded-patterns are rearrangements of each other get
      the same tier, whatever the thresholds. */
  lemma TierDependsOnlyOnCount(t: Thresholds, m: Measurements, t': Thresholds, m': Measurements)
    requires multiset(Pattern(t, m)) == multiset(Pattern(t', m'))
    ensures AssessRisk(t, m) == AssessRisk(t', m')
  {
    CountIsPatternTrues(t, m);
    CountIsPatternTrues(t', m');
  }
}
