# Stock analysis core — a Dafny model

This project models the scoring and analysis core of the stock-action backend:

- the analyst-record entity and its five-factor investment score, in module `Stock` (`stock.dfy`);
- the analysis service, in module `Analysis` (`analysis.dfy`). It covers:
  - the broker-prestige table;
  - the one-tier rating-transition rule;
  - the three explanatory indicators;
  - the score-to-recommendation classifier;
  - the batch pipeline `AnalyzeStocks`, which filters stale and invalid records and orders the rest by score;
  - the ranking variant `AnalyzeAllStocks`.

Modelling choices:

- **Pure parts.** The entity and the per-record analysis are pure, so they are datatypes and functions.
- **Loops.** The two service operations that work by loops are methods. `AnalyzeStocks` runs a filtering loop whose invariant ties the accumulated list to the specification function `Survivors`. `AnalyzeAllStocks` runs a nested in-place exchange sort on an array, proved to produce a sorted permutation.
- **Inputs instead of effects.** The repository's `FindAll` result is a parameter of type `Result<seq<Stock>>`. The clock is an explicit `now`, in integer seconds, fixed for a whole run.
- **Numbers.** Amounts and scores are `real`.

## Model

| member | source | states |
|---|---|---|
| Stock.CodesIdentifyErrors | backend/internal/domain/stock/errors.go:14-73 | the eleven domain errors carry pairwise distinct codes, so a code identifies its error |
| Stock.Level | backend/internal/domain/stock/entity.go:103-126 | a label's tier lies in 0..4, and it is 0 exactly for a label outside the twelve-label vocabulary (the zero value of a missing map entry); the transition rule's own level map at backend/internal/domain/analysis/service.go:222-245 is identical, so both use this one function |
| Stock.LevelByTier | backend/internal/domain/stock/entity.go:15-37 | each known label has exactly the level of its tier: Very Positive 4, Positive 3, Neutral 2, Negative 1 |
| Stock.NewStock | backend/internal/domain/stock/entity.go:60-75 | fails exactly when the ticker is empty, with the message "ticker cannot be empty"; otherwise the record carries the given id, ticker, targets and creation time, with empty ratings and brokerage |
| Stock.GrowthFactor | backend/internal/domain/stock/entity.go:80-82 | the growth factor is non-negative exactly when the price target did not fall (it is otherwise unbounded) |
| Stock.RatingLevelFactor | backend/internal/domain/stock/entity.go:84-97 | the rating factor lies in [0, 0.25] |
| Stock.RatingLevelFactorByTier | backend/internal/domain/stock/entity.go:84-97 | the rating factor is determined by the tier of the new rating (0.25, 0.20, 0.15, 0.05), except that Sell earns 0 |
| Stock.ImprovementFactor | backend/internal/domain/stock/entity.go:99-141 | the improvement factor lies in [0, 0.15] and is 0 when the rating did not change |
| Stock.ImprovementPaysForUpgrade | backend/internal/domain/stock/entity.go:128-140 | the improvement factor is positive exactly for a move to a higher tier; it pays 0.08, 0.12 or 0.15 for a rise of 1, 2 or at least 3 tiers |
| Stock.ImprovementWithinOneTier | backend/internal/domain/stock/entity.go:131-140 | between tiers at most one apart, the improvement is at most 0.08 |
| Stock.BrokerageFactor | backend/internal/domain/stock/entity.go:143-167 | the reputation factor lies in [0.05, 0.20]; any brokerage the switch does not list gets 0.05 |
| Stock.TimelinessFactor | backend/internal/domain/stock/entity.go:169-176 | the timeliness factor lies in [0, 0.1] |
| Stock.TimelinessThresholds | backend/internal/domain/stock/entity.go:171-176 | the factor is 0.1 up to 7 days old inclusive, 0.05 above 7 and up to 30 days, and 0 beyond |
| Stock.TimelinessNonIncreasing | backend/internal/domain/stock/entity.go:169-176 | an older record never earns more timeliness than a newer one |
| Stock.RawScore | backend/internal/domain/stock/entity.go:178-179 | the unnormalised sum is the growth factor plus at least 0.05 and at most 0.70 from the other four factors |
| Stock.Clamp | backend/internal/domain/stock/entity.go:181-186 | the result lies in [0,1]; it equals the input inside [0,1], is 1 above and 0 below |
| Stock.InvestmentScore | backend/internal/domain/stock/entity.go:77-189 | the investment score always lies in [0,1] |
| Stock.ScoreMonotoneInTargetTo | backend/internal/domain/stock/entity.go:77-189 | raising the new price target, with everything else fixed, never lowers the score |
| Stock.NoDowngradeScoresPositive | backend/internal/domain/stock/entity.go:77-189 | when the target did not fall, the score is at least 0.05 (the lowest reputation weight) |
| Stock.WorkedExampleScore | backend/internal/domain/stock/entity.go:77-189 | a target raised 100 to 150, Hold to Buy, by Morgan Stanley, issued now, scores 0.73 |
| Analysis.TierScore | backend/internal/domain/analysis/service.go:306-312 | a tier's prestige lies in [0.4, 1.0], and it is 0.4 exactly for Tier C |
| Analysis.PrestigeScore | backend/internal/domain/analysis/service.go:300-313 | prestige lies in [0.4, 1.0], and an unlisted brokerage scores 0.4 (Tier C) rather than failing |
| Analysis.PrestigeByTier | backend/internal/domain/analysis/service.go:42-120 | the prestige of a brokerage is its tier's score: 1.0, 0.8, 0.6 or 0.4 for names listed in tiers S, A, B, C |
| Analysis.BrokerTablesAgree | backend/internal/domain/stock/entity.go:143-167 | the score's reputation switch and the service's prestige table classify every brokerage the same way: the reputation weight (0.20, 0.15, 0.10, 0.05) is that of the tier the prestige table gives it |
| Analysis.Abs | backend/internal/domain/analysis/service.go:255-260 | the result is the input or its negation, and non-negative |
| Analysis.IsValidRatingTransition | backend/internal/domain/analysis/service.go:220-252 | a transition is valid exactly when the two levels differ by at most one, so an unchanged label is always valid and a move from the negative to the very positive tier never is |
| Analysis.TransitionRule | backend/internal/domain/analysis/service.go:220-252 | validity is symmetric in the two labels and every label may stay put |
| Analysis.MultiTierJumpsRejected | backend/internal/domain/analysis/service.go:220-252 | Sell to Strong-Buy, Strong-Buy to Sell and Hold to Strong-Buy are rejected; Hold to Buy is accepted |
| Analysis.UnknownLabelNextToNegative | backend/internal/domain/analysis/service.go:244-251 | an unknown label (level 0) may move only to another unknown label or to a negative-tier label, and back |
| Analysis.PriceTargetGrowth | backend/internal/domain/analysis/service.go:262-264 | growth is positive exactly when the target rose and zero exactly when it is unchanged |
| Analysis.GrowthFactorIsScaledGrowth | backend/internal/domain/analysis/service.go:262-264 | the score's growth factor is the growth indicator (percent) times 0.003 |
| Analysis.RatingScore | backend/internal/domain/analysis/service.go:267-287 | a label has a score exactly when it is in the vocabulary, and that score lies in [0,1] |
| Analysis.RatingScoreWithinTier | backend/internal/domain/analysis/service.go:267-287 | each tier's scores lie in its band: [0.8,1], [0.6,0.7], [0.3,0.5], [0,0.2] |
| Analysis.RatingImpact | backend/internal/domain/analysis/service.go:266-298 | the impact lies in [-1,1]; it is 0 for an unchanged rating and 0 when either label is unknown |
| Analysis.RatingImpactAntisymmetric | backend/internal/domain/analysis/service.go:266-298 | swapping the two ratings negates the impact |
| Analysis.RatingImpactFollowsTier | backend/internal/domain/analysis/service.go:266-298 | between known labels, an upgrade to a higher tier has positive impact and a downgrade negative impact |
| Analysis.ConsistencyScore | backend/internal/domain/analysis/service.go:315-323 | consistency lies in [0.3,1]; it is 1.0 exactly for an unchanged rating, 0.7 exactly for a different but valid move, 0.3 exactly for an invalid jump |
| Analysis.PriceChangeScore | backend/internal/domain/analysis/service.go:325-334 | the bucket is 1.0 exactly for a relative change in [-0.5, 1.0], 0.7 exactly for one in (1.0, 2.0] or [-0.7, -0.5), and 0.3 exactly for one below -0.7 or above 2.0 |
| Analysis.PriceChangeScoreUnimodal | backend/internal/domain/analysis/service.go:325-334 | the bucket rises up to -0.5 and falls from -0.5 on |
| Analysis.RelativeChange | backend/internal/domain/analysis/service.go:339 | the relative change times the original target is the difference of the targets |
| Analysis.BrokerConfidence | backend/internal/domain/analysis/service.go:336-351 | broker confidence lies in [0,1] |
| Analysis.BrokerConfidenceUnclamped | backend/internal/domain/analysis/service.go:342-350 | the weighted sum is always within [0.34, 1], so the clamp never changes it: confidence is exactly 0.4·prestige + 0.3·consistency + 0.3·bucket |
| Analysis.DetermineRecommendation | backend/internal/domain/analysis/service.go:353-366 | each label owns exactly one score band, closed below: Strong Buy ≥ 0.8, Buy [0.6,0.8), Hold [0.4,0.6), Sell [0.2,0.4), Strong Sell < 0.2 |
| Analysis.RecommendationMonotone | backend/internal/domain/analysis/service.go:353-366 | a higher score never yields a lower recommendation |
| Analysis.LabelsDistinct | backend/internal/domain/analysis/service.go:353-366 | the five recommendation labels are distinct strings |
| Analysis.HasRequiredData | backend/internal/domain/analysis/service.go:212-218 | a record is complete when both price targets are positive and both ratings are non-empty (a predicate without a separate contract) |
| Analysis.AnalyzeStock | backend/internal/domain/analysis/service.go:175-218 | succeeds exactly when the data is complete, the transition is valid and the targets differ. The failures come in that order: AnalysisNotPossible, then InvalidRatingTransition, then InvalidPriceTarget. A success carries the record, its investment score (in [0,1]), the indicators, the recommendation for that score and the analysis time |
| Analysis.NewStockNotAnalysable | backend/internal/domain/stock/entity.go:60-75 | a freshly created record (no ratings) is rejected with AnalysisNotPossible |
| Analysis.WorkedExampleAnalysis | backend/internal/domain/analysis/service.go:175-210 | the worked example passes every check, scores 0.73 and is classified Buy |
| Analysis.SellToStrongBuyExcluded | backend/internal/domain/analysis/service.go:184-187 | a complete Sell to Strong-Buy record fails with InvalidRatingTransition |
| Analysis.EqualTargetsExcluded | backend/internal/domain/analysis/service.go:189-192 | a Hold to Buy record whose target stayed at 100 fails with InvalidPriceTarget |
| Analysis.AnalysedImprovementBounded | backend/internal/domain/analysis/service.go:184-187 | every record that passes analysis earns at most 0.08 for rating improvement |
| Analysis.IsFresh | backend/internal/domain/analysis/service.go:139 | a record that is not stale (at most 24 hours old) always earns the full timeliness factor 0.1 |
| Analysis.StalenessBoundary | backend/internal/domain/analysis/service.go:139 | a record exactly 24 hours old is fresh, and one a second older is stale |
| Analysis.SurvivorsAtMostInput | backend/internal/domain/analysis/service.go:136-156 | the pipeline yields at most one analysis per fetched record |
| Analysis.SurvivorsMembership | backend/internal/domain/analysis/service.go:136-156 | an analysis survives exactly when it is the analysis of some fetched record that is fresh and passes every check |
| Analysis.SurvivorIsAdmissible | backend/internal/domain/analysis/service.go:136-156 | every survivor is fresh, complete, has a valid transition and differing targets, has its record's score in [0,1] and the matching recommendation, and comes from an input record |
| Analysis.NothingFreshNothingSurvives | backend/internal/domain/analysis/service.go:137-145 | when every record is stale nothing survives |
| Analysis.AnalyzeStocks | backend/internal/domain/analysis/service.go:122-173 | a fetch error is returned unchanged; an empty batch fails with AnalysisNotPossible; a batch where nothing survives fails with StaleData. Otherwise the result is a permutation of the survivors, ordered by score from highest to lowest, no longer than the input, and every element is admissible |
| Analysis.Swap | backend/internal/domain/analysis/service.go:381 | exchanges the two positions and leaves the rest and the multiset of elements unchanged |
| Analysis.ExchangeSortDescending | backend/internal/domain/analysis/service.go:378-384 | the nested exchange loop leaves the array a permutation of its old contents, sorted from highest to lowest key |
| Analysis.RankedByInvestmentScore | backend/internal/domain/analysis/service.go:374-384 | in a ranked list, no record has a higher investment score than an earlier one |
| Analysis.AnalyzeAllStocks | backend/internal/domain/analysis/service.go:368-387 | a fetch error is returned unchanged; otherwise the result holds the fetched records, as a permutation and without any filtering, ordered by investment score from highest to lowest |

## Left out

- Persistence, the HTTP client, the application services, the web layer, event publication and the frontend are not part of this model. The repository's `FindAll` becomes the input `fetched`.
- Logging and timing measurements in `AnalyzeStocks` and `analyzeStock` are left out; they do not affect any result.
- `context.Context` cancellation is left out. The repository call is the only place it could act, and its outcome is already an input.
- Stock.InvestmentScore: requires a positive original target. The Go code divides by it, and a zero target would give IEEE infinity or NaN, which `real` cannot represent. `AnalyzeStocks` only scores records that passed the completeness check, so it needs no precondition.
- Analysis.AnalyzeAllStocks: requires every fetched record to have a positive original target, for the same reason. The Go code sorts whatever it fetched. With an original target of 0 and a positive new target, the growth term is +Inf, which the clamp turns into 1.0, so such a record ranks first. With both targets 0 the score is NaN, and every comparison with it is false, so the exchange loop never moves it. A negative original target gives a finite score that the model does not cover.
- Analysis.PriceTargetGrowth, Analysis.RelativeChange and Analysis.BrokerConfidence: require a positive original target, for the same reason. They are only reached after the completeness check.
- Floating point: amounts and scores are exact reals, so rounding at the band edges (0.8, 0.6, …) is not modelled.
- Time:
  - timestamps are integer seconds;
  - `time.Now` / `time.Since` become the single instant `now`, so a record's staleness and its timeliness factor use the same clock reading;
  - the analysis time `LastUpdated` is also `now`.
- The record id is a supplied natural number rather than a random UUID.
- The nil-pointer check in `hasRequiredData` is dropped, because a Dafny datatype value is never nil.
- The indicators map with its three string keys is the record `Indicators`.
- The recommendation string is the datatype `Recommendation`, whose `Label()` gives the exact strings.
- Analysis.AnalyzeStocks: Go's `sort.Slice` is not stable and its algorithm is unspecified. It is modelled by the same exchange sort that `AnalyzeAllStocks` spells out, and the contract fixes only sortedness and the permutation, not the order among equal scores. A stable order among ties is not guaranteed by the code, so the model follows the code.
- The error messages of domain errors are not modelled, only their codes.
- A fetch error is an opaque `Error` value that is propagated unchanged.
