/** The decision whether to open an episode (`evaluate_maker_accumulate`). */
module MakerOpening {
  import opened Numbers
  import opened Options
  import opened MakerData

  datatype Portfolio = Portfolio(
    totalExposure: real,
    atRiskExposure: real,
    dailyLoss: real,
    circuitOpen: bool,
    episodesInMarket: int
  )

  datatype Quote = Quote(price: real, joins: bool, queueAhead: real)

  /** The decision: what blocks it before and after quoting, and the order it would place. */
  datatype Opening = Opening(gates: seq<Reason>, blocks: seq<Reason>,
                             outcome: Option<Outcome>, quote: Option<real>, size: real) {
    predicate Accepted() {
      gates == [] && blocks == []
    }

    function Reasons(): seq<Reason> {
      gates + blocks
    }
  }

  function When(condition: bool, reason: Reason): seq<Reason> {
    if condition then [reason] else []
  }

  /** `_append_reason` for a further reason that may already be listed. */
  function WhenNew(reasons: seq<Reason>, condition: bool, reason: Reason): seq<Reason> {
    if condition && reason !in reasons then reasons + [reason] else reasons
  }

  function SideScore(side: BookSide, config: Config): Option<real> {
    var extremity := Abs(side.Midpoint() - 0.5);
    if extremity > config.maxExtremity + EPS then None
    else Some(config.weightExtremity * extremity
              + config.weightImbalance * -side.Imbalance()
              + config.weightRebate * side.bestBid * (1.0 - side.bestBid))
  }

  function SelectLeg1Side(row: Row, config: Config): Option<Outcome> {
    match (SideScore(row.up, config), SideScore(row.down, config))
    case (None, None) => None
    case (Some(_), None) => Some(Up)
    case (None, Some(_)) => Some(Down)
    case (Some(u), Some(d)) =>
      if Abs(u - d) < config.sideMinScoreGap then
        Some(if row.up.bestBidSize >= row.down.bestBidSize then Up else Down)
      else
        Some(if u >= d then Up else Down)
  }

  /** Join the bid on a tight spread, improve by a tick when there is room, never cross. */
  function Leg1Quote(side: BookSide, config: Config): Option<Quote> {
    if side.bestAsk - side.bestBid <= config.maxSpreadToJoin + EPS then
      Some(Quote(RoundPrice(side.bestBid), true, side.bestBidSize))
    else if side.bestBid + config.minTick <= side.bestAsk - config.minTick + EPS
         && config.minTick <= config.maxImproveCost + EPS then
      Some(Quote(RoundPrice(side.bestBid + config.minTick), false, 0.0))
    else None
  }

  function Leg2MaxPrice(leg1Average: real, config: Config): real {
    1.0 - leg1Average - config.bufferPerShare - config.minRealizedMargin
  }

  function FillProbability(queueAhead: real, timeout: real, config: Config): real {
    Min(1.0, config.assumedSellFlow * Max(timeout, 0.0) / 60.0 / Max(queueAhead, 1.0))
  }

  function OrderSize(price: real, config: Config): (size: real)
    requires config.Valid()
    ensures size <= config.maxOrderSize
  {
    var capped := if config.maxNotionalPerMarket > 0.0
                  then Min(config.maxOrderSize, config.maxNotionalPerMarket / Max(price, config.minTick))
                  else config.maxOrderSize;
    (capped * 100000.0).Floor as real / 100000.0
  }

  /** Sizes come in hundred-thousandths of a share. */
  ghost predicate InLots(size: real) {
    exists lots: int :: size == Lots(lots)
  }

  function Lots(lots: int): real {
    lots as real / 100000.0
  }

  /** No order is larger than the order limit, and none costs more than the notional of a market. */
  predicate WithinSizeLimits(size: real, price: real, config: Config) {
    && size <= config.maxOrderSize
    && (config.maxNotionalPerMarket > 0.0 ==> size * Max(price, config.minTick) <= config.maxNotionalPerMarket)
  }

  /** The order placed is the largest number of lots within both limits. */
  lemma OrderSizeIsLargest(price: real, config: Config)
    requires config.Valid()
    ensures var size := OrderSize(price, config);
            && InLots(size) && WithinSizeLimits(size, price, config)
            && !WithinSizeLimits(size + 0.00001, price, config)
  {
    var size, unit := OrderSize(price, config), Max(price, config.minTick);
    var cap := if config.maxNotionalPerMarket > 0.0
               then Min(config.maxOrderSize, config.maxNotionalPerMarket / unit) else config.maxOrderSize;
    assert size == Lots((cap * 100000.0).Floor);
    assert size <= cap < size + 0.00001;
    if config.maxNotionalPerMarket > 0.0 {
      WithinNotional(size, unit, config.maxNotionalPerMarket);
      WithinNotional(size + 0.00001, unit, config.maxNotionalPerMarket);
    }
  }

  lemma WithinNotional(size: real, unit: real, notional: real)
    requires 0.0 < unit
    ensures size <= notional / unit <==> size * unit <= notional
  {
    var limit := notional / unit;
    assert limit * unit == notional;
    if size <= limit {
      assert size * unit <= limit * unit;
    } else {
      assert size * unit > limit * unit;
    }
  }

  function ExpectedMargin(price: real, other: BookSide, config: Config): real {
    1.0 - (price + other.bestBid + config.bufferPerShare)
  }

  function BookReasons(row: Row, config: Config): seq<Reason> {
    var maxAge := config.maxBookAgeMs.At(row.timeframe);
    When(!row.up.snapshot && !row.down.snapshot, BooksNotReady)
    + When(!row.up.snapshot && row.down.snapshot, WaitingUpSnapshot)
    + When(row.up.snapshot && !row.down.snapshot, WaitingDownSnapshot)
    + When(row.up.snapshot && row.up.ageMs > maxAge, UpBookStale)
    + When(row.down.snapshot && row.down.ageMs > maxAge, DownBookStale)
    + When(row.bookSkewMs > config.maxBookSkewMs, BooksNotSynced)
  }

  function MarketReasons(row: Row, config: Config): seq<Reason> {
    var toClose := row.secondsToClose;
    When(!row.feeSchedule, FeeScheduleUnavailable)
    + When(!row.active || !row.tradable, MarketNotTradable)
    + When(toClose <= 0.0, MarketExpired)
    + When(toClose > 0.0 && !(config.windowMinSeconds.At(row.timeframe) <= toClose
                              <= config.windowMaxSeconds.At(row.timeframe)
                              && toClose > config.forceFlattenSeconds.At(row.timeframe)), OutsideTimeWindow)
  }

  function LimitReasons(config: Config, portfolio: Portfolio): seq<Reason> {
    When(portfolio.circuitOpen, CircuitBreakerOpen)
    + When(portfolio.dailyLoss >= config.maxDailyLoss, DailyLossLimitReached)
    + When(portfolio.episodesInMarket >= config.maxEpisodesPerMarket, MaxEpisodesReached)
  }

  /** The gates that do not depend on the quote, in the order they are listed. */
  function GateReasons(row: Row, config: Config, portfolio: Portfolio): seq<Reason> {
    When(row.clockSkewMs.None?, ClockSkewUnavailable)
    + When(row.clockSkewMs.Some? && Abs(row.clockSkewMs.value) > config.maxClockSkewMs, ClockSkewExceeded)
    + BookReasons(row, config) + MarketReasons(row, config) + LimitReasons(config, portfolio)
  }

  function QuoteReasons(row: Row, outcome: Outcome, quote: Quote, config: Config, portfolio: Portfolio): seq<Reason>
    requires config.Valid()
  {
    var side, other := row.Side(outcome), row.Side(outcome.Opposite());
    var depth := if quote.joins then side.bestBidSize else side.bidDepthAtImprove;
    var size := OrderSize(quote.price, config);
    var fee := TakerFeePerShare(other.bestAsk, row.FeeRate(config));
    var hedgeMargin := 1.0 - (quote.price + other.bestAsk + fee + config.bufferPerShare);
    var timeout := config.leg1Timeout.At(row.timeframe);
    var early := When(quote.joins && FillProbability(quote.queueAhead, timeout, config) < config.minFillProbability,
                      QueueTooDeep)
                 + When(depth < config.minBookDepth, DepthInsufficient);
    WhenNew(early, size < row.minOrderSize, DepthInsufficient)
    + When(ExpectedMargin(quote.price, other, config) < config.minExpectedMargin, ExpectedMarginBelowThreshold)
    + When(hedgeMargin < config.minHedgeExitMargin, HedgeMarginBelowThreshold)
    + When(size * config.maxGivebackPerShare > config.maxOrphanLoss, OrphanLossEstimateExceeded)
    + When(portfolio.totalExposure + size * quote.price > config.maxTotalExposure
           || portfolio.atRiskExposure + size * quote.price > config.maxAtRiskExposure, ExposureExceeded)
  }

  function EvaluateOpening(row: Row, config: Config, portfolio: Portfolio): Opening
    requires config.Valid()
  {
    var gates := GateReasons(row, config, portfolio);
    match SelectLeg1Side(row, config)
    case None => Opening(gates, [ExtremityExceeded], None, None, 0.0)
    case Some(outcome) =>
      match Leg1Quote(row.Side(outcome), config)
      case None => Opening(gates, [NoImproveRoom], Some(outcome), None, 0.0)
      case Some(quote) =>
        Opening(gates, QuoteReasons(row, outcome, quote, config, portfolio),
                Some(outcome), Some(quote.price), OrderSize(quote.price, config))
  }

  /** Everything the rest of the machine relies on when an opening is accepted. */
  predicate Admits(row: Row, config: Config, portfolio: Portfolio, opening: Opening) {
    && opening.outcome.Some? && opening.quote.Some?
    && var side, price := row.Side(opening.outcome.value), opening.quote.value;
    && Leg1Quote(side, config).Some? && price == Leg1Quote(side, config).value.price
    && !portfolio.circuitOpen
    && portfolio.dailyLoss < config.maxDailyLoss
    && portfolio.episodesInMarket < config.maxEpisodesPerMarket
    && portfolio.totalExposure + opening.size * price <= config.maxTotalExposure
    && portfolio.atRiskExposure + opening.size * price <= config.maxAtRiskExposure
    && row.minOrderSize <= opening.size <= config.maxOrderSize
    && row.BooksEvaluable(config)
    && !row.Expired() && !row.InFlattenWindow(config)
  }

  /** An accepted opening passed every gate it will be held to. */
  lemma AcceptedOpening(row: Row, config: Config, portfolio: Portfolio)
    requires config.Valid()
    ensures EvaluateOpening(row, config, portfolio).Accepted()
            ==> Admits(row, config, portfolio, EvaluateOpening(row, config, portfolio))
  {
    var side := SelectLeg1Side(row, config);
    if side.Some? {
      var quote := Leg1Quote(row.Side(side.value), config);
      if quote.Some? {
        QuotedOpening(row, config, portfolio, side.value, quote.value);
      }
    }
  }

  lemma QuotedOpening(row: Row, config: Config, portfolio: Portfolio, outcome: Outcome, quote: Quote)
    requires config.Valid() && Leg1Quote(row.Side(outcome), config) == Some(quote)
    ensures var gates := GateReasons(row, config, portfolio);
            var blocks := QuoteReasons(row, outcome, quote, config, portfolio);
            gates == [] && blocks == [] ==>
              Admits(row, config, portfolio,
                     Opening(gates, blocks, Some(outcome), Some(quote.price), OrderSize(quote.price, config)))
  {
    NoGateReasons(row, config, portfolio);
    NoQuoteReasons(row, outcome, quote, config, portfolio);
  }

  lemma NoGateReasons(row: Row, config: Config, portfolio: Portfolio)
    ensures |GateReasons(row, config, portfolio)| == 0 ==>
              && row.BooksEvaluable(config) && !row.Expired() && !row.InFlattenWindow(config)
              && !portfolio.circuitOpen && portfolio.dailyLoss < config.maxDailyLoss
              && portfolio.episodesInMarket < config.maxEpisodesPerMarket
  {
    NoBookReasons(row, config);
    NoMarketReasons(row, config);
    NoLimitReasons(config, portfolio);
  }

  lemma NoQuoteReasons(row: Row, outcome: Outcome, quote: Quote, config: Config, portfolio: Portfolio)
    requires config.Valid()
    ensures var size := OrderSize(quote.price, config);
            |QuoteReasons(row, outcome, quote, config, portfolio)| == 0 ==>
              && portfolio.totalExposure + size * quote.price <= config.maxTotalExposure
              && portfolio.atRiskExposure + size * quote.price <= config.maxAtRiskExposure
              && row.minOrderSize <= size <= config.maxOrderSize
  {
  }

  lemma NoBookReasons(row: Row, config: Config)
    ensures |BookReasons(row, config)| == 0 ==> row.BooksEvaluable(config)
  {
  }

  lemma NoMarketReasons(row: Row, config: Config)
    ensures |MarketReasons(row, config)| == 0 ==> !row.Expired() && !row.InFlattenWindow(config)
  {
  }

  lemma NoLimitReasons(config: Config, portfolio: Portfolio)
    ensures |LimitReasons(config, portfolio)| == 0 ==>
              && !portfolio.circuitOpen && portfolio.dailyLoss < config.maxDailyLoss
              && portfolio.episodesInMarket < config.maxEpisodesPerMarket
  {
  }
}
