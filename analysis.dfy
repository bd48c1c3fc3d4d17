/**
 * The `analysis` package: the broker-prestige table, the rating-transition
 * rule, the explanatory indicators, the recommendation classifier, the
 * batch analysis pipeline and the ranking variant.
 *
 * The repository's `FindAll` result is an input (`Result<seq<Stock>>`), and
 * the clock is the explicit parameter `now`, fixed for a whole run.
 */
module Analysis {
  import Stock

  datatype Option<T> = None | Some(value: T)

  // ---------------------------------------------------------------------
  // Broker prestige
  // ---------------------------------------------------------------------

  datatype BrokerTier = TierS | TierA | TierB | TierC

  /** The brokerage names of the prestige table, tier by tier. */
  const TierSBrokers: set<string> := {
    "The Goldman Sachs Group", "Morgan Stanley", "JPMorgan Chase & Co.", "Bank of America", "Citigroup"}
  const TierABrokers: set<string> := {
    "Wells Fargo & Company", "UBS Group", "Deutsche Bank Aktiengesellschaft", "Barclays",
    "Royal Bank of Canada", "HSBC", "BNP Paribas", "BMO Capital Markets", "Mizuho", "Scotiabank"}
  const TierBBrokers: set<string> := {
    "Jefferies Financial Group", "Raymond James", "Evercore ISI", "Piper Sandler", "TD Cowen",
    "Oppenheimer", "Stifel Nicolaus", "Keefe, Bruyette & Woods", "Cantor Fitzgerald",
    "Truist Financial", "Wedbush", "Robert W. Baird", "Sanford C. Bernstein", "CIBC",
    "Macquarie", "Guggenheim", "TD Securities", "Susquehanna"}
  const TierCBrokers: set<string> := {
    "HC Wainwright", "Stephens", "Roth Mkm", "Northland Securities", "Benchmark",
    "Chardan Capital", "B. Riley", "Canaccord Genuity Group", "Lake Street Capital",
    "Leerink Partners", "Loop Capital", "DZ Bank", "KeyCorp", "DA Davidson", "Lifesci Capital",
    "BWS Financial", "Wolfe Research", "Rosenblatt Securities", "Redburn Atlantic",
    "Telsey Advisory Group", "Craig Hallum", "Maxim Group", "JMP Securities", "Argus",
    "Compass Point", "LADENBURG THALM/SH SH", "Tigress Financial", "Alliance Global Partners",
    "Rodman & Renshaw", "Fox Advisors", "Glj Research", "Westpark Capital", "Hovde Group",
    "Moffett Nathanson", "Cfra", "CJS Securities", "Northcoast Research"}

  /** The prestige table: every listed brokerage mapped to its tier. */
  const BrokerTiers: map<string, BrokerTier> :=
    map b | b in TierSBrokers + TierABrokers + TierBBrokers + TierCBrokers ::
      if b in TierSBrokers then TierS
      else if b in TierABrokers then TierA
      else if b in TierBBrokers then TierB
      else TierC

  /** The prestige of a tier; Tier C, the default for unlisted names, is the floor. */
  function TierScore(t: BrokerTier): (r: real)
    ensures 0.4 <= r <= 1.0
    ensures r == 0.4 <==> t == TierC
  {
    match t
    case TierS => 1.0
    case TierA => 0.8
    case TierB => 0.6
    case TierC => 0.4
  }

  /** The prestige of a brokerage; an unlisted one is scored as Tier C, never an error. */
  function PrestigeScore(brokerage: string): (r: real)
    ensures 0.4 <= r <= 1.0
    ensures brokerage !in BrokerTiers ==> r == 0.4
  {
    if brokerage !in BrokerTiers then 0.4 else TierScore(BrokerTiers[brokerage])
  }

  /** The tier a brokerage is treated as: its listed tier, else Tier C. */
  function TierOf(brokerage: string): BrokerTier {
    if brokerage in BrokerTiers then BrokerTiers[brokerage] else TierC
  }

  /** The prestige of each listed name is that of its tier (the tiers do not overlap). */
  lemma PrestigeByTier(brokerage: string)
    ensures PrestigeScore(brokerage) == TierScore(TierOf(brokerage))
    ensures brokerage in TierSBrokers ==> PrestigeScore(brokerage) == 1.0
    ensures brokerage in TierABrokers ==> PrestigeScore(brokerage) == 0.8
    ensures brokerage in TierBBrokers ==> PrestigeScore(brokerage) == 0.6
    ensures brokerage in TierCBrokers ==> PrestigeScore(brokerage) == 0.4
  {
    TierSDisjointA(); TierSDisjointB(); TierSDisjointC();
    TierADisjointB(); TierADisjointC(); TierBDisjointC();
  }

  /** No brokerage is listed in two tiers (stated pair by pair). */
  lemma TierSDisjointA() ensures TierSBrokers !! TierABrokers {}
  lemma TierSDisjointB() ensures TierSBrokers !! TierBBrokers {}
  lemma TierSDisjointC() ensures TierSBrokers !! TierCBrokers {}
  lemma TierADisjointB() ensures TierABrokers !! TierBBrokers {}
  lemma TierADisjointC() ensures TierABrokers !! TierCBrokers {}
  lemma TierBDisjointC() ensures TierBBrokers !! TierCBrokers {}

  /** The weight the investment score's reputation factor gives each tier. */
  function ReputationWeight(t: BrokerTier): real {
    match t
    case TierS => 0.20
    case TierA => 0.15
    case TierB => 0.10
    case TierC => 0.05
  }

  /**
   * The investment score's own reputation switch and the prestige table
   * agree: for every brokerage, the reputation factor is the weight of the
   * tier the prestige table puts it in.
   */
  lemma BrokerTablesAgree(brokerage: string)
    ensures Stock.BrokerageFactor(brokerage) == ReputationWeight(TierOf(brokerage))
  {
    assert Stock.ReputationTierS == TierSBrokers;
    assert Stock.ReputationTierA == TierABrokers;
    assert Stock.ReputationTierB == TierBBrokers;
  }

  // ---------------------------------------------------------------------
  // Rating transitions
  // ---------------------------------------------------------------------

  function Abs(x: int): (r: nat)
    ensures r == x || r == -x
  {
    if x < 0 then -x else x
  }

  /** A single update may move the rating by at most one tier (unknown labels sit at tier 0). */
  predicate IsValidRatingTransition(from: Stock.Rating, to: Stock.Rating): (ok: bool)
    ensures ok <==> -1 <= Stock.Level(from) - Stock.Level(to) <= 1
    ensures from == to ==> ok
    ensures from in Stock.NegativeRatings && to in Stock.VeryPositiveRatings ==> !ok
  {
    Abs(Stock.Level(from) - Stock.Level(to)) <= 1
  }

  /** The rule holds in both directions and is reflexive. */
  lemma TransitionRule(from: Stock.Rating, to: Stock.Rating)
    ensures IsValidRatingTransition(from, to) <==> IsValidRatingTransition(to, from)
    ensures IsValidRatingTransition(from, from)
  {
  }

  /** Jumps of two or more tiers are rejected, e.g. Sell straight to Strong-Buy. */
  lemma MultiTierJumpsRejected()
    ensures !IsValidRatingTransition(Stock.Sell, Stock.StrongBuy)
    ensures !IsValidRatingTransition(Stock.StrongBuy, Stock.Sell)
    ensures !IsValidRatingTransition(Stock.Hold, Stock.StrongBuy)
    ensures IsValidRatingTransition(Stock.Hold, Stock.Buy)
  {
    assert Stock.Level(Stock.Sell) == 1 && Stock.Level(Stock.StrongBuy) == 4;
    assert Stock.Level(Stock.Hold) == 2 && Stock.Level(Stock.Buy) == 3;
  }

  /** An unknown label sits next to the negative tier, so it may move to or from Sell. */
  lemma UnknownLabelNextToNegative(unknown: Stock.Rating, r: Stock.Rating)
    requires unknown !in Stock.Vocabulary
    ensures IsValidRatingTransition(unknown, r) <==> r !in Stock.Vocabulary || r in Stock.NegativeRatings
  {
    Stock.LevelByTier(r);
  }

  // ---------------------------------------------------------------------
  // Indicators
  // ---------------------------------------------------------------------

  /** Price-target growth in percent. */
  function PriceTargetGrowth(s: Stock.Stock): (r: real)
    requires s.target.from.amount > 0.0
    ensures r > 0.0 <==> s.target.to.amount > s.target.from.amount
    ensures r == 0.0 <==> s.target.to.amount == s.target.from.amount
  {
    (s.target.to.amount - s.target.from.amount) / s.target.from.amount * 100.0
  }

  /** The score's growth factor is the growth indicator scaled from percent by 0.3. */
  lemma GrowthFactorIsScaledGrowth(s: Stock.Stock)
    requires s.target.from.amount > 0.0
    ensures Stock.GrowthFactor(s.target.from.amount, s.target.to.amount) == PriceTargetGrowth(s) * 0.003
  {
  }

  /** The per-label rating score; `None` for a label the table does not list. */
  function RatingScore(r: Stock.Rating): (o: Option<real>)
    ensures o.Some? <==> r in Stock.Vocabulary
    ensures o.Some? ==> 0.0 <= o.value <= 1.0
  {
    if r == Stock.StrongBuy then Some(1.0)
    else if r == Stock.Outperform then Some(0.9)
    else if r == Stock.Overweight then Some(0.8)
    else if r == Stock.Buy then Some(0.7)
    else if r == Stock.Positive then Some(0.6)
    else if r == Stock.Hold then Some(0.5)
    else if r == Stock.Neutral then Some(0.4)
    else if r == Stock.EqualWeight then Some(0.4)
    else if r == Stock.MarketPerform then Some(0.3)
    else if r == Stock.Underweight then Some(0.2)
    else if r == Stock.Underperform then Some(0.1)
    else if r == Stock.Sell then Some(0.0)
    else None
  }

  /** Each tier's scores lie in a band strictly above the bands of the lower tiers. */
  lemma RatingScoreWithinTier(r: Stock.Rating)
    requires r in Stock.Vocabulary
    ensures Stock.Level(r) == 4 ==> 0.8 <= RatingScore(r).value <= 1.0
    ensures Stock.Level(r) == 3 ==> 0.6 <= RatingScore(r).value <= 0.7
    ensures Stock.Level(r) == 2 ==> 0.3 <= RatingScore(r).value <= 0.5
    ensures Stock.Level(r) == 1 ==> 0.0 <= RatingScore(r).value <= 0.2
  {
    Stock.LevelByTier(r);
  }

  /** The rating impact: score(to) - score(from), or 0 when either label is unknown. */
  function RatingImpact(s: Stock.Stock): (r: real)
    ensures -1.0 <= r <= 1.0
    ensures s.rating.from == s.rating.to ==> r == 0.0
    ensures s.rating.from !in Stock.Vocabulary || s.rating.to !in Stock.Vocabulary ==> r == 0.0
  {
    var fromScore := RatingScore(s.rating.from);
    var toScore := RatingScore(s.rating.to);
    if fromScore.None? || toScore.None? then 0.0
    else toScore.value - fromScore.value
  }

  /** Swapping the two ratings negates the impact. */
  lemma RatingImpactAntisymmetric(s: Stock.Stock)
    ensures RatingImpact(s.(rating := Stock.RatingChange(s.rating.to, s.rating.from))) == -RatingImpact(s)
  {
  }

  /** Between known labels, the impact has the sign of the tier change. */
  lemma RatingImpactFollowsTier(s: Stock.Stock)
    requires s.rating.from in Stock.Vocabulary && s.rating.to in Stock.Vocabulary
    ensures Stock.Level(s.rating.to) > Stock.Level(s.rating.from) ==> RatingImpact(s) > 0.0
    ensures Stock.Level(s.rating.to) < Stock.Level(s.rating.from) ==> RatingImpact(s) < 0.0
  {
    RatingScoreWithinTier(s.rating.from);
    RatingScoreWithinTier(s.rating.to);
  }

  /** Consistency of the rating change: unchanged, a valid move, or an invalid jump. */
  function ConsistencyScore(from: Stock.Rating, to: Stock.Rating): (r: real)
    ensures 0.3 <= r <= 1.0
    ensures r == 1.0 <==> from == to
    ensures r == 0.7 <==> from != to && IsValidRatingTransition(from, to)
    ensures r == 0.3 <==> !IsValidRatingTransition(from, to)
  {
    if from == to then 1.0
    else if IsValidRatingTransition(from, to) then 0.7
    else 0.3
  }

  /** The bucket of a relative price change. */
  function PriceChangeScore(priceChange: real): (r: real)
    ensures 0.3 <= r <= 1.0
    ensures r == 1.0 <==> -0.5 <= priceChange <= 1.0
    ensures r == 0.7 <==> (1.0 < priceChange <= 2.0) || (-0.7 <= priceChange < -0.5)
    ensures r == 0.3 <==> priceChange < -0.7 || 2.0 < priceChange
  {
    if -0.5 <= priceChange <= 1.0 then 1.0
    else if (1.0 < priceChange <= 2.0) || (-0.7 <= priceChange < -0.5) then 0.7
    else 0.3
  }

  /** The bucket score peaks on [-0.5, 1.0] and falls off on both sides. */
  lemma PriceChangeScoreUnimodal(x: real, y: real)
    requires x <= y
    ensures y <= -0.5 ==> PriceChangeScore(x) <= PriceChangeScore(y)
    ensures -0.5 <= x ==> PriceChangeScore(x) >= PriceChangeScore(y)
  {
  }

  /** Broker confidence: prestige 0.4, consistency 0.3, price-change bucket 0.3, clamped to [0,1]. */
  function BrokerConfidence(s: Stock.Stock): (r: real)
    requires s.target.from.amount > 0.0
    ensures 0.0 <= r <= 1.0
  {
    Stock.Clamp(
      PrestigeScore(s.brokerage) * 0.4
        + ConsistencyScore(s.rating.from, s.rating.to) * 0.3
        + PriceChangeScore(RelativeChange(s)) * 0.3)
  }

  /** The relative change between the two price targets. */
  function RelativeChange(s: Stock.Stock): (r: real)
    requires s.target.from.amount > 0.0
    ensures r * s.target.from.amount == s.target.to.amount - s.target.from.amount
  {
    (s.target.to.amount - s.target.from.amount) / s.target.from.amount
  }

  /** The weighted sum never leaves [0.34, 1], so the clamp never changes it. */
  lemma BrokerConfidenceUnclamped(s: Stock.Stock)
    requires s.target.from.amount > 0.0
    ensures 0.34 <= BrokerConfidence(s)
    ensures BrokerConfidence(s) ==
      PrestigeScore(s.brokerage) * 0.4
        + ConsistencyScore(s.rating.from, s.rating.to) * 0.3
        + PriceChangeScore(RelativeChange(s)) * 0.3
  {
    WeightedSumRange(PrestigeScore(s.brokerage), ConsistencyScore(s.rating.from, s.rating.to),
      PriceChangeScore(RelativeChange(s)));
  }

  lemma WeightedSumRange(prestige: real, consistency: real, priceChangeScore: real)
    requires 0.4 <= prestige <= 1.0 && 0.3 <= consistency <= 1.0 && 0.3 <= priceChangeScore <= 1.0
    ensures 0.34 <= prestige * 0.4 + consistency * 0.3 + priceChangeScore * 0.3 <= 1.0
  {
  }

  // ---------------------------------------------------------------------
  // Recommendation
  // ---------------------------------------------------------------------

  datatype Recommendation = StrongBuy | Buy | Hold | Sell | StrongSell {
    /** The label reported to callers. */
    function Label(): string {
      match this
      case StrongBuy => "Strong Buy"
      case Buy => "Buy"
      case Hold => "Hold"
      case Sell => "Sell"
      case StrongSell => "Strong Sell"
    }

    /** The position of the label from most negative (0) to most positive (4). */
    function Rank(): nat {
      match this
      case StrongSell => 0
      case Sell => 1
      case Hold => 2
      case Buy => 3
      case StrongBuy => 4
    }
  }

  /** Each label owns one half-open band of scores, inclusive at its lower edge. */
  function DetermineRecommendation(score: real): (r: Recommendation)
    ensures r == StrongBuy <==> 0.8 <= score
    ensures r == Buy <==> 0.6 <= score < 0.8
    ensures r == Hold <==> 0.4 <= score < 0.6
    ensures r == Sell <==> 0.2 <= score < 0.4
    ensures r == StrongSell <==> score < 0.2
  {
    if score >= 0.8 then StrongBuy
    else if score >= 0.6 then Buy
    else if score >= 0.4 then Hold
    else if score >= 0.2 then Sell
    else StrongSell
  }

  /** A higher score never yields a lower recommendation. */
  lemma RecommendationMonotone(lo: real, hi: real)
    requires lo <= hi
    ensures DetermineRecommendation(lo).Rank() <= DetermineRecommendation(hi).Rank()
  {
  }

  /** The five labels are distinct strings. */
  lemma LabelsDistinct(r1: Recommendation, r2: Recommendation)
    ensures r1.Label() == r2.Label() <==> r1 == r2
  {
  }

  // ---------------------------------------------------------------------
  // Per-record analysis
  // ---------------------------------------------------------------------

  datatype Indicators = Indicators(priceTargetGrowth: real, ratingImpact: real, brokerConfidence: real)

  datatype StockAnalysis = StockAnalysis(
    stock: Stock.Stock,
    score: real,
    indicators: Indicators,
    recommendation: Recommendation,
    lastUpdated: int)

  /** Both targets positive and both ratings present. */
  predicate HasRequiredData(s: Stock.Stock) {
    && s.target.from.amount > 0.0
    && s.target.to.amount > 0.0
    && s.rating.from != ""
    && s.rating.to != ""
  }

  /**
   * Analyses one record: the completeness check, then the transition rule,
   * then the target comparison, each failing with its own error; on success
   * the record's score, indicators and recommendation.
   */
  function AnalyzeStock(s: Stock.Stock, now: int): (r: Stock.Result<StockAnalysis>)
    ensures r.Success? <==>
      HasRequiredData(s) && IsValidRatingTransition(s.rating.from, s.rating.to)
        && s.target.from.amount != s.target.to.amount
    ensures !HasRequiredData(s) ==> r == Stock.Failure(Stock.Domain(Stock.AnalysisNotPossible))
    ensures HasRequiredData(s) && !IsValidRatingTransition(s.rating.from, s.rating.to) ==>
      r == Stock.Failure(Stock.Domain(Stock.InvalidRatingTransition))
    ensures (HasRequiredData(s) && IsValidRatingTransition(s.rating.from, s.rating.to)
             && s.target.from.amount == s.target.to.amount) ==>
      r == Stock.Failure(Stock.Domain(Stock.InvalidPriceTarget))
    ensures r.Success? ==>
      && r.value.stock == s
      && r.value.score == Stock.InvestmentScore(s, now)
      && 0.0 <= r.value.score <= 1.0
      && r.value.recommendation == DetermineRecommendation(r.value.score)
      && r.value.indicators == Indicators(PriceTargetGrowth(s), RatingImpact(s), BrokerConfidence(s))
      && r.value.lastUpdated == now
  {
    if !HasRequiredData(s) then
      Stock.Failure(Stock.Domain(Stock.AnalysisNotPossible))
    else
      var score := Stock.InvestmentScore(s, now);
      if !IsValidRatingTransition(s.rating.from, s.rating.to) then
        Stock.Failure(Stock.Domain(Stock.InvalidRatingTransition))
      else if s.target.from.amount == s.target.to.amount then
        Stock.Failure(Stock.Domain(Stock.InvalidPriceTarget))
      else
        var indicators := Indicators(PriceTargetGrowth(s), RatingImpact(s), BrokerConfidence(s));
        Stock.Success(StockAnalysis(s, score, indicators, DetermineRecommendation(score), now))
  }

  /** A record fresh from `NewStock` has no ratings yet, so it cannot be analysed. */
  lemma NewStockNotAnalysable(id: nat, ticker: string, targetFrom: Stock.Money, targetTo: Stock.Money, now: int)
    requires ticker != ""
    ensures Stock.NewStock(id, ticker, targetFrom, targetTo, now).Success?
    ensures AnalyzeStock(Stock.NewStock(id, ticker, targetFrom, targetTo, now).value, now)
      == Stock.Failure(Stock.Domain(Stock.AnalysisNotPossible))
  {
  }

  /** The worked example passes every check, scores 0.73 and is classified Buy. */
  lemma WorkedExampleAnalysis(s: Stock.Stock, now: int)
    requires s.target.from.amount == 100.0 && s.target.to.amount == 150.0
    requires s.rating == Stock.RatingChange(Stock.Hold, Stock.Buy)
    requires s.brokerage == "Morgan Stanley"
    requires s.time == now
    ensures AnalyzeStock(s, now).Success?
    ensures AnalyzeStock(s, now).value.score == 0.73
    ensures AnalyzeStock(s, now).value.recommendation == Buy
  {
    Stock.WorkedExampleScore(s, now);
    MultiTierJumpsRejected();
  }

  /** A Sell to Strong-Buy record with otherwise complete data is excluded as an invalid transition. */
  lemma SellToStrongBuyExcluded(s: Stock.Stock, now: int)
    requires s.target.from.amount > 0.0 && s.target.to.amount > 0.0
    requires s.rating == Stock.RatingChange(Stock.Sell, Stock.StrongBuy)
    ensures AnalyzeStock(s, now) == Stock.Failure(Stock.Domain(Stock.InvalidRatingTransition))
  {
    MultiTierJumpsRejected();
  }

  /** An unchanged price target with an otherwise valid one-tier upgrade is excluded as an invalid target. */
  lemma EqualTargetsExcluded(s: Stock.Stock, now: int)
    requires s.target.from.amount == 100.0 && s.target.to.amount == 100.0
    requires s.rating == Stock.RatingChange(Stock.Hold, Stock.Buy)
    ensures AnalyzeStock(s, now) == Stock.Failure(Stock.Domain(Stock.InvalidPriceTarget))
  {
    MultiTierJumpsRejected();
  }

  /** For an analysable record the improvement factor stays at most 0.08. */
  lemma AnalysedImprovementBounded(s: Stock.Stock, now: int)
    requires AnalyzeStock(s, now).Success?
    ensures Stock.ImprovementFactor(s.rating.from, s.rating.to) <= 0.08
  {
    Stock.ImprovementWithinOneTier(s.rating.from, s.rating.to);
  }

  // ---------------------------------------------------------------------
  // The batch pipeline
  // ---------------------------------------------------------------------

  /** Records older than 24 hours are stale. */
  const StaleAfter: int := 24 * 60 * 60

  /** Not stale at `now`: at most 24 hours old (a record exactly 24 hours old is kept). */
  predicate IsFresh(s: Stock.Stock, now: int): (ok: bool)
    ensures ok ==> Stock.TimelinessFactor(now - s.time) == 0.1
  {
    !(now - s.time > StaleAfter)
  }

  lemma StalenessBoundary(s: Stock.Stock, now: int)
    ensures now - s.time == StaleAfter ==> IsFresh(s, now)
    ensures now - s.time == StaleAfter + 1 ==> !IsFresh(s, now)
  {
  }

  /** A record that reaches the result: fresh and passing every per-record check. */
  predicate Survives(s: Stock.Stock, now: int) {
    IsFresh(s, now) && AnalyzeStock(s, now).Success?
  }

  /** What an analysis in a successful batch result is known to satisfy. */
  predicate Admissible(a: StockAnalysis, now: int) {
    && IsFresh(a.stock, now)
    && HasRequiredData(a.stock)
    && IsValidRatingTransition(a.stock.rating.from, a.stock.rating.to)
    && a.stock.target.from.amount != a.stock.target.to.amount
    && 0.0 <= a.score <= 1.0
    && a.score == Stock.InvestmentScore(a.stock, now)
    && a.recommendation == DetermineRecommendation(a.score)
  }

  /**
   * The elements `f` maps to a value, mapped, in input order: the shape of a
   * loop that appends what passes and skips the rest.
   */
  function FilterMap<T, U>(s: seq<T>, f: T -> Option<U>): seq<U> {
    if s == [] then []
    else
      var rest := FilterMap(s[..|s| - 1], f);
      match f(s[|s| - 1])
      case Some(y) => rest + [y]
      case None => rest
  }

  /** At most one output per input. */
  lemma {:induction false} FilterMapAtMostInput<T, U>(s: seq<T>, f: T -> Option<U>)
    ensures |FilterMap(s, f)| <= |s|
  {
    if s != [] {
      FilterMapAtMostInput(s[..|s| - 1], f);
    }
  }

  /** A value is in the output exactly when some input maps to it. */
  lemma {:induction false} FilterMapMembership<T, U>(s: seq<T>, f: T -> Option<U>, y: U)
    ensures y in FilterMap(s, f) <==> exists k :: 0 <= k < |s| && f(s[k]) == Some(y)
  {
    if s != [] {
      var n := |s| - 1;
      var init := s[..n];
      FilterMapMembership(init, f, y);
      if y in FilterMap(s, f) && y !in FilterMap(init, f) {
        assert f(s[n]) == Some(y);
      }
      if y in FilterMap(init, f) {
        var k :| 0 <= k < n && f(init[k]) == Some(y);
        assert s[k] == init[k];
      }
      if exists k :: 0 <= k < |s| && f(s[k]) == Some(y) {
        var k :| 0 <= k < |s| && f(s[k]) == Some(y);
        if k < n {
          assert init[k] == s[k];
        }
      }
    }
  }

  /** The analysis a record contributes to the batch, if it survives. */
  function Outcome(s: Stock.Stock, now: int): Option<StockAnalysis> {
    if Survives(s, now) then Some(AnalyzeStock(s, now).value) else None
  }

  /** The analyses of the surviving records, in input order. */
  function Survivors(stocks: seq<Stock.Stock>, now: int): seq<StockAnalysis> {
    FilterMap(stocks, (s: Stock.Stock) => Outcome(s, now))
  }

  /** At most one analysis per input record. */
  lemma SurvivorsAtMostInput(stocks: seq<Stock.Stock>, now: int)
    ensures |Survivors(stocks, now)| <= |stocks|
  {
    FilterMapAtMostInput(stocks, (s: Stock.Stock) => Outcome(s, now));
  }

  /** An analysis is in the survivors exactly when it is the analysis of some surviving input record. */
  lemma SurvivorsMembership(stocks: seq<Stock.Stock>, now: int, a: StockAnalysis)
    ensures a in Survivors(stocks, now) <==>
      exists k :: 0 <= k < |stocks| && Survives(stocks[k], now) && AnalyzeStock(stocks[k], now).value == a
  {
    FilterMapMembership(stocks, (s: Stock.Stock) => Outcome(s, now), a);
  }

  /** Every surviving analysis is admissible and belongs to an input record. */
  lemma SurvivorIsAdmissible(stocks: seq<Stock.Stock>, now: int, a: StockAnalysis)
    requires a in Survivors(stocks, now)
    ensures Admissible(a, now)
    ensures a.stock in stocks
  {
    SurvivorsMembership(stocks, now, a);
  }

  /** When every record is stale, nothing survives. */
  lemma NothingFreshNothingSurvives(stocks: seq<Stock.Stock>, now: int)
    requires forall k | 0 <= k < |stocks| :: !IsFresh(stocks[k], now)
    ensures Survivors(stocks, now) == []
  {
    if Survivors(stocks, now) != [] {
      var a := Survivors(stocks, now)[0];
      SurvivorsMembership(stocks, now, a);
    }
  }

  predicate SortedByScore(analyses: seq<StockAnalysis>) {
    forall p, q | 0 <= p < q < |analyses| :: analyses[p].score >= analyses[q].score
  }

  /**
   * The analysis run: propagate a fetch error, reject an empty batch, skip
   * stale records and records failing a check, report `StaleData` when
   * nothing is left, and order the survivors by score, highest first.
   */
  method AnalyzeStocks(fetched: Stock.Result<seq<Stock.Stock>>, now: int)
    returns (r: Stock.Result<seq<StockAnalysis>>)
    ensures fetched.Failure? ==> r == Stock.Failure(fetched.error)
    ensures fetched.Success? && fetched.value == [] ==> r == Stock.Failure(Stock.Domain(Stock.AnalysisNotPossible))
    ensures fetched.Success? && fetched.value != [] && Survivors(fetched.value, now) == [] ==>
      r == Stock.Failure(Stock.Domain(Stock.StaleData))
    ensures fetched.Success? && Survivors(fetched.value, now) != [] ==>
      && r.Success?
      && multiset(r.value) == multiset(Survivors(fetched.value, now))
      && SortedByScore(r.value)
    ensures r.Success? ==> 0 < |r.value| <= |fetched.value|
    ensures r.Success? ==> forall a | a in r.value :: Admissible(a, now)
  {
    if fetched.Failure? {
      return Stock.Failure(fetched.error);
    }
    var stocks := fetched.value;
    if |stocks| == 0 {
      return Stock.Failure(Stock.Domain(Stock.AnalysisNotPossible));
    }

    var analyses: seq<StockAnalysis> := [];
    for i := 0 to |stocks|
      invariant analyses == Survivors(stocks[..i], now)
    {
      assert stocks[..i + 1][..i] == stocks[..i];
      var stk := stocks[i];
      if now - stk.time > StaleAfter {
        continue;
      }
      var analysis := AnalyzeStock(stk, now);
      if analysis.Failure? {
        continue;
      }
      analyses := analyses + [analysis.value];
    }
    assert stocks[..|stocks|] == stocks;

    if |analyses| == 0 {
      return Stock.Failure(Stock.Domain(Stock.StaleData));
    }

    var sorted := new StockAnalysis[|analyses|](k requires 0 <= k < |analyses| => analyses[k]);
    assert sorted[..] == analyses;
    ExchangeSortDescending(sorted, (a: StockAnalysis) => a.score);
    r := Stock.Success(sorted[..]);

    SurvivorsAtMostInput(stocks, now);
    assert |r.value| == |multiset(r.value)| == |multiset(analyses)| == |analyses|;
    forall a | a in r.value
      ensures Admissible(a, now)
    {
      assert a in multiset(analyses);
      SurvivorIsAdmissible(stocks, now, a);
    }
  }

  // ---------------------------------------------------------------------
  // Ranking
  // ---------------------------------------------------------------------

  predicate SortedDescending<T>(s: seq<T>, key: T -> real) {
    forall p, q | 0 <= p < q < |s| :: key(s[p]) >= key(s[q])
  }

  /** Exchanges two elements of an array. */
  method Swap<T>(a: array<T>, i: int, j: int)
    requires 0 <= i < j < a.Length
    modifies a
    ensures a[i] == old(a[j]) && a[j] == old(a[i])
    ensures forall k | 0 <= k < a.Length && k != i && k != j :: a[k] == old(a[k])
    ensures multiset(a[..]) == multiset(old(a[..]))
  {
    a[i], a[j] := a[j], a[i];
  }

  /**
   * The nested exchange sort: for each position in turn, swap in any later
   * element with a higher key, so that the position ends up holding the
   * largest remaining key.
   */
  method ExchangeSortDescending<T>(a: array<T>, key: T -> real)
    modifies a
    ensures multiset(a[..]) == multiset(old(a[..]))
    ensures SortedDescending(a[..], key)
  {
    var n := a.Length;
    var i := 0;
    while i < n - 1
      invariant 0 <= i <= n
      invariant multiset(a[..]) == multiset(old(a[..]))
      invariant forall p, q | 0 <= p < q < n && p < i :: key(a[p]) >= key(a[q])
    {
      var j := i + 1;
      while j < n
        invariant i + 1 <= j <= n
        invariant multiset(a[..]) == multiset(old(a[..]))
        invariant forall p, q | 0 <= p < q < n && p < i :: key(a[p]) >= key(a[q])
        invariant forall q | i < q < j :: key(a[i]) >= key(a[q])
      {
        if key(a[i]) < key(a[j]) {
          Swap(a, i, j);
        }
        j := j + 1;
      }
      i := i + 1;
    }
  }

  /** Every record has a positive original target, so its investment score is defined. */
  predicate AllScorable(stocks: seq<Stock.Stock>) {
    forall s | s in stocks :: s.target.from.amount > 0.0
  }

  /**
   * The ranking key: a record's investment score at instant `now`. The score
   * is only defined for a positive original target; the ranking is only ever
   * applied to such records, so the other branch is never taken.
   */
  function ScoreAt(now: int): Stock.Stock -> real {
    (s: Stock.Stock) => if s.target.from.amount > 0.0 then Stock.InvestmentScore(s, now) else 0.0
  }

  /** In a list ranked by `ScoreAt(now)` no record scores higher than an earlier one. */
  lemma RankedByInvestmentScore(stocks: seq<Stock.Stock>, now: int, p: int, q: int)
    requires AllScorable(stocks)
    requires SortedDescending(stocks, ScoreAt(now))
    requires 0 <= p < q < |stocks|
    ensures Stock.InvestmentScore(stocks[p], now) >= Stock.InvestmentScore(stocks[q], now)
  {
    assert ScoreAt(now)(stocks[p]) >= ScoreAt(now)(stocks[q]);
  }

  /**
   * The ranking variant: propagate a fetch error, otherwise a copy of the
   * fetched records ordered by investment score, highest first, with no
   * filtering.
   */
  method AnalyzeAllStocks(fetched: Stock.Result<seq<Stock.Stock>>, now: int)
    returns (r: Stock.Result<seq<Stock.Stock>>)
    requires fetched.Success? ==> AllScorable(fetched.value)
    ensures fetched.Failure? ==> r == Stock.Failure(fetched.error)
    ensures fetched.Success? ==> r.Success? && multiset(r.value) == multiset(fetched.value)
    ensures fetched.Success? ==> AllScorable(r.value) && SortedDescending(r.value, ScoreAt(now))
  {
    if fetched.Failure? {
      return Stock.Failure(fetched.error);
    }
    var stocks := fetched.value;
    var sorted := new Stock.Stock[|stocks|](k requires 0 <= k < |stocks| => stocks[k]);
    assert sorted[..] == stocks;
    ExchangeSortDescending(sorted, ScoreAt(now));
    r := Stock.Success(sorted[..]);
    forall s | s in r.value
      ensures s.target.from.amount > 0.0
    {
      assert s in multiset(stocks);
    }
  }
}
