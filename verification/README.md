# Tumour risk scorer — Dafny model

The breast-cancer dashboard has two versions, `app.py` and `Config2.py`. Each one
has a rule-based risk scorer, `assess_risk`, next to its presentation code. The
scorer compares three tumour measurements with fixed thresholds:

- radius mean;
- perimeter mean;
- concave-points mean.

It counts how many measurements are strictly above their threshold. A count of 3
gives "High Risk", 2 gives "Moderate Risk", and anything else gives "Low Risk".
The two versions differ in three ways:

- **Thresholds.** `app.py` uses 17.99 / 122.8 / 0.1471. `Config2.py` uses 20 / 100 / 0.1.
- **Check order.** `app.py` checks concave points first. `Config2.py` checks radius first.
- **Input.** `app.py` reads the measurements from a dictionary. `Config2.py` takes them as three arguments.

Modules:

- `Tiers` (tiers.dfy): the tier datatype, its severity rank, the displayed
  labels, and the shared count-to-tier ladder `TierOfScore`.
- `Scoring` (scoring.dfy): a threshold check (`Criterion`), the count of
  exceeded checks `Score` and its running-counter form `AccumulateScore`, and a
  reference scorer `Scoring.AssessRisk(thresholds, measurements)`. The
  properties of the reference scorer are proved once, for all thresholds.
- `AppScorer` (app_scorer.dfy): the `app.py` scorer. `AppScorer.AssessRisk`
  takes the dictionary input, a `map<string, real>`. A missing column gives a
  `KeyError` outcome, just as a Python dictionary lookup raises one.
  `AppScorer.AssessMeasurements` is the scoring done once the three values have
  been read. The lemmas about the `app.py` thresholds are stated about it.
- `ConfigScorer` (config_scorer.dfy): the `Config2.py` scorer.

Each variant checks in its own order, and each is proved equal to the reference
scorer with its own thresholds. So once the three values are in hand, the two
versions differ only in their constants, and the order of the checks does not
matter. Reading the values out of a dictionary, with its `KeyError` path, is
specific to `app.py`.

Measurements are Dafny `real`s, so the comparisons are exact. The decimal
thresholds are the exact decimals written in the source.

## Model

| member | source | states |
|---|---|---|
| Tiers.TierOfScoreMonotone | app.py:29-34 | On the reachable scores 0..3, a larger score never gives a lower tier. |
| Tiers.TierOfScoreRank | Config2.py:27-32 | For scores 0..3, the tier rank is the score minus one, except that scores 0 and 1 share the Low tier. |
| Tiers.LabelInjective | app.py:29-34 | The three returned strings are pairwise distinct, so the displayed label identifies the tier. |
| Scoring.Score | app.py:21-27 | The number of strictly exceeded checks never exceeds the number of checks. |
| Scoring.AccumulateScore | Config2.py:19-25 | The running counter (start at 0, add 1 per exceeded check) ends equal to the declarative count of exceeded checks. The count is at most the number of checks. |
| Scoring.ScoreAllIff | app.py:21-30 | The count equals the number of checks exactly when every measurement is strictly above its threshold. |
| Scoring.ScoreNoneIff | app.py:21-27 | The count is zero exactly when no measurement is above its threshold. |
| Scoring.ScoreAppend | app.py:21-27 | Making one group of checks after another adds their counts. |
| Scoring.ScoreCommutes | Config2.py:19-25 | Moving a block of checks from the front to the back does not change the count. |
| Scoring.ScoreInsert | app.py:21-27 | A check inserted anywhere in a list raises the count by exactly that check's 0/1 contribution. |
| Scoring.ScorePermutation | app.py:21-27 | Any rearrangement of the same checks gives the same count, so the order in which the checks are made does not matter. |
| Scoring.ScoreMonotone | app.py:21-27 | If every check exceeded before is still exceeded after, the count does not drop. |
| Scoring.ScoreThree | Config2.py:19-25 | Three checks score the sum of their three 0/1 contributions. |
| Scoring.CountIsPatternTrues | app.py:21-27 | The count lies in 0..3 and equals the number of exceeded thresholds in the true/false pattern. |
| Scoring.HighIff | app.py:29-30 | For any thresholds: High exactly when all three measurements are strictly above their thresholds. |
| Scoring.ModerateIff | app.py:31-32 | For any thresholds: Moderate exactly when exactly two are above their thresholds. |
| Scoring.LowIff | app.py:33-34 | For any thresholds: Low exactly when at most one is above its threshold. |
| Scoring.AtThresholdNotCounted | app.py:22-27 | A measurement equal to its threshold gives the same tier as any value at or below it. |
| Scoring.Monotone | app.py:21-34 | For any thresholds, raising measurements never lowers the tier rank. |
| Scoring.TierDependsOnlyOnCount | app.py:21-34 | Inputs whose exceeded-patterns are rearrangements of each other get the same tier, even under different thresholds. |
| AppScorer.AssessRisk | app.py:20-34 | The dictionary scorer fails exactly when one of the three columns is missing, and it names a missing column. That column is the first one missing in the lookup order: concave points, then radius, then perimeter. Otherwise it returns the reference tier for the thresholds 17.99 / 122.8 / 0.1471. |
| AppScorer.MatchesReference | app.py:15-34 | Checking concave points, then radius, then perimeter gives the reference scorer's tier with the thresholds 17.99 / 122.8 / 0.1471. This order is the reference order with concave points moved from last to first. |
| AppScorer.HighIff | app.py:22-30 | High exactly when radius > 17.99, perimeter > 122.8 and concave points > 0.1471. |
| AppScorer.ModerateIff | app.py:22-32 | Moderate exactly when two of those three comparisons hold. |
| AppScorer.LowIff | app.py:22-34 | Low exactly when at most one of them holds. |
| AppScorer.Boundary | app.py:22-27 | A radius of 17.99, a perimeter of 122.8 or concave points of 0.1471 scores like any smaller value. |
| AppScorer.ScoreInRange | app.py:21-34 | The score lies in 0..3, and the result is one of "Low Risk", "Moderate Risk" and "High Risk". |
| AppScorer.Monotone | app.py:21-34 | Raising any measurements never lowers the tier rank. |
| AppScorer.DependsOnlyOnCount | app.py:21-34 | Only the number of exceeded thresholds matters, not which ones. |
| AppScorer.ExtraFieldsIgnored | app.py:22-27 | Two inputs that agree on the three columns read get the same outcome, whatever other columns they hold. |
| AppScorer.MissingRadiusReported | app.py:22-24 | A dictionary holding only the concave-points column fails with a `KeyError` for the radius column. |
| AppScorer.Examples | app.py:20-34 | Radius 20, perimeter 130 and concave points 0.2 give High. Radius 10, perimeter 50 and concave points 0.01 give Low. |
| ConfigScorer.AssessRisk | Config2.py:17-32 | The positional scorer returns the reference scorer's tier for the thresholds 20 / 100 / 0.1. |
| ConfigScorer.HighIff | Config2.py:20-28 | High exactly when radius > 20, perimeter > 100 and concave points > 0.1. |
| ConfigScorer.ModerateIff | Config2.py:20-30 | Moderate exactly when two of those comparisons hold. |
| ConfigScorer.LowIff | Config2.py:20-32 | Low exactly when at most one holds. |
| ConfigScorer.Boundary | Config2.py:20-25 | A radius of 20, a perimeter of 100 or concave points of 0.1 scores like any smaller value. |
| ConfigScorer.ScoreInRange | Config2.py:19-32 | The count lies in 0..3, and the result is always one of the three labels. |
| ConfigScorer.MonotoneEach | Config2.py:19-32 | Raising any single argument never lowers the tier rank. |
| ConfigScorer.SameMappingAsApp | Config2.py:27-32 | Inputs that exceed the same number of their own scorer's thresholds get the same tier from both scorers. |
| ConfigScorer.VariantsDisagree | Config2.py:20-25 | Neither threshold set is uniformly stricter. (19, 130, 0.15) is High for app.py and Moderate here. (21, 110, 0.12) is Low for app.py and High here. |

## Left out

- The Streamlit presentation: titles, sidebar text, number-input widgets,
  buttons, success messages and charts (app.py:37-152, Config2.py:35-114).
- The widget minimum and maximum values. The scorer does not enforce them, so
  the model takes any real.
- Loading the CSV data and the model through pandas and joblib (app.py:8-12). This is file I/O.
- The pre-trained decision tree: `model.predict`, `feature_importances_` and the
  confusion matrix (app.py:97-111, app.py:132). These are calls into an opaque
  external model.
- `get_random_diagnosis` and the randomly generated risk table (Config2.py:8-14).
  These are nondeterministic.
- Floating-point behaviour. Measurements are exact reals, so NaN and the binary
  rounding of 17.99, 122.8, 0.1471 and 0.1 are not modelled.
- AppScorer.AssessRisk: dictionary values are modelled as reals only. A
  non-numeric value, which would make Python's comparison raise `TypeError`,
  is not modelled.
- ConfigScorer.AssessRisk: its three arguments are modelled as reals only. A
  non-numeric argument, which would make Python's comparison raise `TypeError`,
  is not modelled.
- Tiers.TierOfScoreMonotone: stated only for scores 0..3. The ladder's else
  branch would send a score above 3 to Low, but three checks can never produce
  such a score.
