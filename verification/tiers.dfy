/**
 The three risk tiers both scorers return, their ordering, the strings the
 dashboard displays for them, and the shared mapping from "number of exceeded
 thresholds" to a tier.
 */
module Tiers {

  datatype Tier = Low | Moderate | High

  /** Severity order: Low < Moderate < High. */
  function Rank(t: Tier): nat
  {
    match t
    case Low => 0
    case Moderate => 1
    case High => 2
  }

  /** The string the scorer returns for each tier. */
  function Label(t: Tier): string
  {
    match t
    case Low => "Low Risk"
    case Moderate => "Moderate Risk"
    case High => "High Risk"
  }

  /** The final if/elif/else ladder of both scorers: a score of 3 is high,
      a score of 2 is moderate, and every other score falls to the else branch. */
  function TierOfScore(score: nat): Tier
  {
    if score == 3 then High
    else if score == 2 then Moderate
    else Low
  }

  /** The three labels are pairwise distinct, so the displayed string
      identifies the tier. */
  lemma LabelInjective(a: Tier, b: Tier)
    ensures Label(a) == Label(b) <==> a == b
  {
    if a != b {
      assert Label(a)[0] != Label(b)[0];
    }
  }

  /** On the reachable scores 0..3, the tier rank is the score minus one,
      except that scores 0 and 1 share the lowest tier. */
  lemma TierOfScoreRank(score: nat)
    requires score <= 3
    ensures Rank(TierOfScore(score)) == if score <= 1 then 0 else score - 1
  {
  }

  /** A larger reachable score never yields a lower tier. */
  lemma TierOfScoreMonotone(s: nat, s': nat)
    requires s <= s' <= 3
    ensures Rank(TierOfScore(s)) <= Rank(TierOfScore(s'))
  {
    TierOfScoreRank(s);
    TierOfScoreRank(s');
  }
}
