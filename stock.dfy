/**
 * The `stock` package: the analyst-record entity, its rating vocabulary, the
 * domain error codes and the five-factor investment score.
 *
 * Amounts and scores are `real` (no IEEE rounding), timestamps are integer
 * seconds, and the clock is the explicit parameter `now`.
 */
module Stock {

  // ---------------------------------------------------------------------
  // Errors
  // ---------------------------------------------------------------------

  /** The domain error values, one constructor per exported error variable. */
  datatype DomainError =
    | InvalidTicker
    | InvalidPrice
    | InvalidRating
    | InvalidPriceTarget
    | InvalidRatingTransition
    | DuplicateAnalysis
    | StockNotFound
    | AnalysisNotPossible
    | InvalidTimeframe
    | TooManyAnalysisRequests
    | StaleData
  {
    /** The machine-readable code carried by the error value. */
    function Code(): string {
      match this
      case InvalidTicker => "INVALID_TICKER"
      case InvalidPrice => "INVALID_PRICE"
      case InvalidRating => "INVALID_RATING"
      case InvalidPriceTarget => "INVALID_PRICE_TARGET"
      case InvalidRatingTransition => "INVALID_RATING_TRANSITION"
      case DuplicateAnalysis => "DUPLICATE_ANALYSIS"
      case StockNotFound => "STOCK_NOT_FOUND"
      case AnalysisNotPossible => "ANALYSIS_NOT_POSSIBLE"
      case InvalidTimeframe => "INVALID_TIMEFRAME"
      case TooManyAnalysisRequests => "TOO_MANY_ANALYSIS_REQUESTS"
      case StaleData => "STALE_DATA"
    }
  }

  /** Every two distinct domain errors carry distinct codes, so a code identifies its error. */
  lemma CodesIdentifyErrors(e1: DomainError, e2: DomainError)
    ensures e1.Code() == e2.Code() <==> e1 == e2
  {
  }

  /**
   * An error value: one of the domain errors, or an ad-hoc error with a message
   * (what `errors.New` builds, and what an upstream collaborator may return).
   */
  datatype Error = Domain(kind: DomainError) | Plain(message: string)

  datatype Result<T> = Success(value: T) | Failure(error: Error)

  // ---------------------------------------------------------------------
  // Rating vocabulary
  // ---------------------------------------------------------------------

  /** A rating label is free text; only the labels below are known to the tables. */
  type Rating = string

  const StrongBuy: Rating := "Strong-Buy"
  const Outperform: Rating := "Outperform"
  const Overweight: Rating := "Overweight"
  const Buy: Rating := "Buy"
  const Positive: Rating := "Positive"
  const Hold: Rating := "Hold"
  const Neutral: Rating := "Neutral"
  const EqualWeight: Rating := "Equal-Weight"
  const MarketPerform: Rating := "Market-Perform"
  const Underweight: Rating := "Underweight"
  const Underperform: Rating := "Underperform"
  const Sell: Rating := "Sell"

  /** The four ordinal tiers of the vocabulary. */
  const VeryPositiveRatings: set<Rating> := {StrongBuy, Outperform, Overweight}
  const PositiveRatings: set<Rating> := {Buy, Positive}
  const NeutralRatings: set<Rating> := {Hold, Neutral, EqualWeight, MarketPerform}
  const NegativeRatings: set<Rating> := {Underweight, Underperform, Sell}

  const Vocabulary: set<Rating> := VeryPositiveRatings + PositiveRatings + NeutralRatings + NegativeRatings

  /**
   * The ordinal tier of a label: Very Positive 4, Positive 3, Neutral 2,
   * Negative 1; a label outside the vocabulary reads as 0 (the zero value of
   * a missing map entry). The score's improvement factor and the analysis's
   * transition rule each build the same level map, so both use this function.
   */
  function Level(r: Rating): (l: int)
    ensures 0 <= l <= 4
    ensures l == 0 <==> r !in Vocabulary
  {
    if r in VeryPositiveRatings then 4
    else if r in PositiveRatings then 3
    else if r in NeutralRatings then 2
    else if r in NegativeRatings then 1
    else 0
  }

  /** The four tiers are pairwise disjoint, so each known label has exactly the level of its tier. */
  lemma LevelByTier(r: Rating)
    ensures Level(r) == 4 <==> r in VeryPositiveRatings
    ensures Level(r) == 3 <==> r in PositiveRatings
    ensures Level(r) == 2 <==> r in NeutralRatings
    ensures Level(r) == 1 <==> r in NegativeRatings
  {
  }

  // ---------------------------------------------------------------------
  // The record
  // ---------------------------------------------------------------------

  datatype Money = Money(amount: real, currency: string)

  datatype TargetPrice = TargetPrice(from: Money, to: Money)

  datatype RatingChange = RatingChange(from: Rating, to: Rating)

  /** One analyst record; `time` is when the rating change was issued, in seconds. */
  datatype Stock = Stock(
    id: nat,
    ticker: string,
    target: TargetPrice,
    company: string,
    action: string,
    brokerage: string,
    rating: RatingChange,
    time: int)

  /**
   * Builds a record from a ticker and two targets; the identifier and the
   * creation instant are supplied. The descriptive fields and both ratings
   * start empty.
   */
  function NewStock(id: nat, ticker: string, targetFrom: Money, targetTo: Money, now: int): (r: Result<Stock>)
    ensures r.Failure? <==> ticker == ""
    ensures r.Failure? ==> r.error == Plain("ticker cannot be empty")
    ensures r.Success? ==> r.value.ticker == ticker && r.value.id == id && r.value.time == now
    ensures r.Success? ==> r.value.target.from == targetFrom && r.value.target.to == targetTo
    ensures r.Success? ==> r.value.rating.from == "" && r.value.rating.to == "" && r.value.brokerage == ""
  {
    if ticker == "" then
      Failure(Plain("ticker cannot be empty"))
    else
      Success(Stock(id, ticker, TargetPrice(targetFrom, targetTo), "", "", "", RatingChange("", ""), now))
  }

  // ---------------------------------------------------------------------
  // Investment score
  // ---------------------------------------------------------------------

  const SecondsPerDay: int := 86400

  /** Factor 1: relative change of the price target, weighted 0.3; unbounded in sign. */
  function GrowthFactor(from: real, to: real): (f: real)
    requires from > 0.0
    ensures f >= 0.0 <==> to >= from
  {
    (to - from) / from * 0.3
  }

  /** Factor 2: the level of the new rating, as the switch on `Rating.To` assigns it. */
  function RatingLevelFactor(to: Rating): (f: real)
    ensures 0.0 <= f <= 0.25
  {
    if to in {StrongBuy, Outperform, Overweight} then 0.25
    else if to in {Buy, Positive} then 0.20
    else if to in {Hold, Neutral, EqualWeight, MarketPerform} then 0.15
    else if to in {Underweight, Underperform} then 0.05
    else 0.0
  }

  /** Factor 3: the improvement between the two rating tiers; a downgrade earns nothing. */
  function ImprovementFactor(from: Rating, to: Rating): (f: real)
    ensures 0.0 <= f <= 0.15
    ensures from == to ==> f == 0.0
  {
    if from == to then 0.0
    else
      var improvement := Level(to) - Level(from);
      if improvement >= 3 then 0.15
      else if improvement == 2 then 0.12
      else if improvement == 1 then 0.08
      else 0.0
  }

  /** The brokerage names the reputation switch lists, tier by tier. */
  const ReputationTierS: set<string> := {
    "The Goldman Sachs Group", "Morgan Stanley", "JPMorgan Chase & Co.", "Bank of America", "Citigroup"}
  const ReputationTierA: set<string> := {
    "Wells Fargo & Company", "UBS Group", "Deutsche Bank Aktiengesellschaft",
    "Barclays", "Royal Bank of Canada", "HSBC", "BNP Paribas",
    "BMO Capital Markets", "Mizuho", "Scotiabank"}
  const ReputationTierB: set<string> := {
    "Jefferies Financial Group", "Raymond James", "Evercore ISI",
    "Piper Sandler", "TD Cowen", "Oppenheimer", "Stifel Nicolaus",
    "Keefe, Bruyette & Woods", "Cantor Fitzgerald", "Truist Financial",
    "Wedbush", "Robert W. Baird", "Sanford C. Bernstein", "CIBC",
    "Macquarie", "Guggenheim", "TD Securities", "Susquehanna"}

  /** Factor 4: broker reputation; every brokerage not listed falls to 0.05. */
  function BrokerageFactor(brokerage: string): (f: real)
    ensures 0.05 <= f <= 0.20
    ensures brokerage !in ReputationTierS + ReputationTierA + ReputationTierB ==> f == 0.05
  {
    if brokerage in ReputationTierS then 0.20
    else if brokerage in ReputationTierA then 0.15
    else if brokerage in ReputationTierB then 0.10
    else 0.05
  }

  /** Factor 5: timeliness by the age of the record in seconds, measured in (fractional) days. */
  function TimelinessFactor(age: int): (f: real)
    ensures 0.0 <= f <= 0.1
  {
    var days := age as real / SecondsPerDay as real;
    if days <= 7.0 then 0.1
    else if days <= 30.0 then 0.05
    else 0.0
  }

  /** Normalisation of the summed factors to [0,1]. */
  function Clamp(x: real): (r: real)
    ensures 0.0 <= r <= 1.0
    ensures 0.0 <= x <= 1.0 ==> r == x
    ensures x > 1.0 ==> r == 1.0
    ensures x < 0.0 ==> r == 0.0
  {
    if x > 1.0 then 1.0 else if x < 0.0 then 0.0 else x
  }

  /**
   * The sum of the five factors before normalisation: the growth factor plus
   * between 0.05 (reputation alone) and 0.70 (every bounded factor at its top).
   */
  function RawScore(s: Stock, now: int): (r: real)
    requires s.target.from.amount > 0.0
    ensures GrowthFactor(s.target.from.amount, s.target.to.amount) + 0.05 <= r
    ensures r <= GrowthFactor(s.target.from.amount, s.target.to.amount) + 0.70
  {
    GrowthFactor(s.target.from.amount, s.target.to.amount)
      + RatingLevelFactor(s.rating.to)
      + ImprovementFactor(s.rating.from, s.rating.to)
      + BrokerageFactor(s.brokerage)
      + TimelinessFactor(now - s.time)
  }

  /** The investment score of a record evaluated at instant `now`. */
  function InvestmentScore(s: Stock, now: int): (r: real)
    requires s.target.from.amount > 0.0
    ensures 0.0 <= r <= 1.0
  {
    Clamp(RawScore(s, now))
  }

  // ---------------------------------------------------------------------
  // Properties of the score
  // ---------------------------------------------------------------------

  /**
   * The rating-level factor is a function of the tier of the new rating,
   * except that Sell, though in the negative tier, earns nothing.
   */
  lemma RatingLevelFactorByTier(to: Rating)
    ensures RatingLevelFactor(to) ==
      if to == Sell then 0.0
      else if Level(to) == 4 then 0.25
      else if Level(to) == 3 then 0.20
      else if Level(to) == 2 then 0.15
      else if Level(to) == 1 then 0.05
      else 0.0
  {
  }

  /** The improvement factor pays exactly for an upgrade to a higher tier. */
  lemma ImprovementPaysForUpgrade(from: Rating, to: Rating)
    ensures ImprovementFactor(from, to) > 0.0 <==> Level(to) > Level(from)
    ensures Level(to) - Level(from) == 1 ==> ImprovementFactor(from, to) == 0.08
    ensures Level(to) - Level(from) == 2 ==> ImprovementFactor(from, to) == 0.12
    ensures Level(to) - Level(from) >= 3 ==> ImprovementFactor(from, to) == 0.15
  {
    if Level(to) > Level(from) {
      assert from != to;
    }
  }

  /** Across tiers at most one apart (a transition the analysis accepts) the improvement is at most 0.08. */
  lemma ImprovementWithinOneTier(from: Rating, to: Rating)
    requires -1 <= Level(from) - Level(to) <= 1
    ensures ImprovementFactor(from, to) <= 0.08
  {
  }

  /** Timeliness thresholds in seconds: up to 7 days, up to 30 days, older. */
  lemma TimelinessThresholds(age: int)
    ensures TimelinessFactor(age) == 0.1 <==> age <= 7 * SecondsPerDay
    ensures TimelinessFactor(age) == 0.05 <==> 7 * SecondsPerDay < age <= 30 * SecondsPerDay
    ensures TimelinessFactor(age) == 0.0 <==> age > 30 * SecondsPerDay
  {
  }

  /** An older record never earns more timeliness than a newer one. */
  lemma TimelinessNonIncreasing(age1: int, age2: int)
    requires age1 <= age2
    ensures TimelinessFactor(age2) <= TimelinessFactor(age1)
  {
    TimelinessThresholds(age1);
    TimelinessThresholds(age2);
  }

  /** Raising the new price target, all else fixed, never lowers the score. */
  lemma ScoreMonotoneInTargetTo(s: Stock, now: int, higher: real)
    requires s.target.from.amount > 0.0
    requires s.target.to.amount <= higher
    ensures InvestmentScore(s, now) <= InvestmentScore(s.(target := s.target.(to := s.target.to.(amount := higher))), now)
  {
    var from := s.target.from.amount;
    var t := s.(target := s.target.(to := s.target.to.(amount := higher)));
    GrowthMonotone(from, s.target.to.amount, higher);
    assert RawScore(s, now) <= RawScore(t, now);
  }

  lemma GrowthMonotone(from: real, to1: real, to2: real)
    requires from > 0.0 && to1 <= to2
    ensures GrowthFactor(from, to1) <= GrowthFactor(from, to2)
  {
    var d := to2 - to1;
    assert (to2 - from) / from == (to1 - from) / from + d / from;
    assert d / from >= 0.0;
  }

  /** A target that did not fall keeps the score at least at the lowest broker weight. */
  lemma NoDowngradeScoresPositive(s: Stock, now: int)
    requires s.target.from.amount > 0.0
    requires s.target.to.amount >= s.target.from.amount
    ensures InvestmentScore(s, now) >= 0.05
  {
  }

  /**
   * The worked example: 100 -> 150, Hold -> Buy, Morgan Stanley, issued now:
   * 0.15 + 0.20 + 0.08 + 0.20 + 0.10.
   */
  lemma WorkedExampleScore(s: Stock, now: int)
    requires s.target.from.amount == 100.0 && s.target.to.amount == 150.0
    requires s.rating == RatingChange(Hold, Buy)
    requires s.brokerage == "Morgan Stanley"
    requires s.time == now
    ensures InvestmentScore(s, now) == 0.73
  {
    assert GrowthFactor(100.0, 150.0) == 0.15;
    assert RatingLevelFactor(Buy) == 0.20;
    assert Level(Buy) == 3 && Level(Hold) == 2;
    assert ImprovementFactor(Hold, Buy) == 0.08;
    assert BrokerageFactor("Morgan Stanley") == 0.20;
    assert TimelinessFactor(0) == 0.1;
  }
}
