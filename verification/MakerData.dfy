/** Configuration, inputs, episodes and audit events of the maker-paired shadow
    strategy. Money, sizes and seconds are exact reals. */
module MakerData {
  import opened Numbers
  import opened Options

  type MarketId = string
  type ConditionId = string

  const EPS := 0.000000001
  const HALF_QUANTUM := 0.000005

  datatype Outcome = Up | Down {
    function Opposite(): Outcome {
      if this == Up then Down else Up
    }
  }

  datatype Timeframe = FiveMinutes | FifteenMinutes | OneHour | FourHours | Unlisted

  /** A per-timeframe setting; an unlisted timeframe reads the four-hour entry. */
  datatype PerTimeframe<T> = PerTimeframe(m5: T, m15: T, h1: T, h4: T) {
    function At(timeframe: Timeframe): T {
      match timeframe
      case FiveMinutes => m5
      case FifteenMinutes => m15
      case OneHour => h1
      case _ => h4
    }
  }

  datatype FillMode = Strict | Queue

  datatype Config = Config(
    minTick: real,
    bufferPerShare: real,
    gasPerShare: real,
    minExpectedMargin: real,
    minHedgeExitMargin: real,
    minRealizedMargin: real,
    defaultFeeRate: real,
    fillMode: FillMode,
    maxSpreadToJoin: real,
    maxImproveCost: real,
    minFillProbability: real,
    maxExtremity: real,
    sideMinScoreGap: real,
    weightExtremity: real,
    weightImbalance: real,
    weightRebate: real,
    assumedSellFlow: real,
    leg1Timeout: PerTimeframe<real>,
    leg2ImproveIntervalMs: PerTimeframe<real>,
    leg2Timeout: PerTimeframe<real>,
    leg2StepTicks: PerTimeframe<int>,
    maxOrphanSeconds: PerTimeframe<real>,
    forceFlattenSeconds: PerTimeframe<real>,
    windowMinSeconds: PerTimeframe<real>,
    windowMaxSeconds: PerTimeframe<real>,
    leg2MaxImproves: int,
    minFillRatio: real,
    maxOrphanLoss: real,
    maxGivebackPerShare: real,
    directionalExitTimeout: real,
    maxBookAgeMs: PerTimeframe<real>,
    maxBookSkewMs: real,
    maxClockSkewMs: real,
    maxOrderSize: real,
    minBookDepth: real,
    maxNotionalPerMarket: real,
    maxTotalExposure: real,
    maxAtRiskExposure: real,
    maxDailyLoss: real,
    maxConsecutiveOrphans: int,
    circuitCooldown: real,
    maxEpisodesPerMarket: int,
    maxLeg1Requotes: int
  ) {
    /** What `__post_init__` enforces, and a tick that a division may use. */
    predicate Valid() {
      && minTick > 0.00001
      && forall timeframe: Timeframe ::
           forceFlattenSeconds.At(timeframe) > maxOrphanSeconds.At(timeframe) + leg2Timeout.At(timeframe)
    }
  }

  datatype BookSide = BookSide(
    bestBid: real,
    bestAsk: real,
    bestBidSize: real,
    bestAskSize: real,
    bidDepthTotal: real,
    askDepthTotal: real,
    bidDepthAtImprove: real,
    ageMs: real,
    snapshot: bool
  ) {
    function Midpoint(): real {
      (bestBid + bestAsk) / 2.0
    }

    function Imbalance(): real {
      var total := bidDepthTotal + askDepthTotal;
      if total <= 0.0 then 0.0 else (bidDepthTotal - askDepthTotal) / total
    }
  }

  /** A session label together with what `int(session)` makes of it. */
  datatype Session = Session(text: string, number: Option<int>)

  datatype Binding = Binding(generation: int, session: Session)

  type Simulator = (Outcome, real) -> Option<real>

  datatype Row = Row(
    market: MarketId,
    condition: ConditionId,
    timeframe: Timeframe,
    binding: Binding,
    timestamp: real,
    up: BookSide,
    down: BookSide,
    bookSkewMs: real,
    secondsToClose: real,
    active: bool,
    tradable: bool,
    feeSchedule: bool,
    feeRate: Option<real>,
    clockSkewMs: Option<real>,
    minOrderSize: real,
    askVwap: Option<Simulator>,
    bidVwap: Option<Simulator>
  ) {
    function Side(outcome: Outcome): BookSide {
      if outcome == Up then up else down
    }

    /** The simulated average price when the simulator answers, else the top of book. */
    function AskVwap(outcome: Outcome, size: real): real {
      if askVwap.Some? then askVwap.value(outcome, size).GetOr(Side(outcome).bestAsk)
      else Side(outcome).bestAsk
    }

    function BidVwap(outcome: Outcome, size: real): real {
      if bidVwap.Some? then bidVwap.value(outcome, size).GetOr(Side(outcome).bestBid)
      else Side(outcome).bestBid
    }

    function FeeRate(config: Config): real {
      if feeRate.Some? && feeRate.value > 0.0 then feeRate.value else config.defaultFeeRate
    }

    predicate BooksEvaluable(config: Config) {
      && up.snapshot && down.snapshot
      && up.ageMs <= config.maxBookAgeMs.At(timeframe)
      && down.ageMs <= config.maxBookAgeMs.At(timeframe)
    }

    predicate Expired() {
      secondsToClose <= 0.0 || !active
    }

    predicate InFlattenWindow(config: Config) {
      0.0 < secondsToClose <= config.forceFlattenSeconds.At(timeframe)
    }
  }

  datatype State =
    | Leg1Working
    | Leg1Filled
    | Leg2Working
    | Complete
    | Leg1Cancelled
    | HedgingDirectionalExit
    | EmergencyFlatten
    | ClosedWithLoss
  {
    predicate Terminal() {
      Complete? || Leg1Cancelled? || ClosedWithLoss?
    }
  }

  datatype ExitPath = MakerComplete | TakerHedge | DirectionalExit | EmergencyExit

  datatype Reason =
    | ClockSkewUnavailable
    | ClockSkewExceeded
    | BooksNotReady
    | WaitingUpSnapshot
    | WaitingDownSnapshot
    | UpBookStale
    | DownBookStale
    | BooksNotSynced
    | FeeScheduleUnavailable
    | MarketNotTradable
    | MarketExpired
    | OutsideTimeWindow
    | CircuitBreakerOpen
    | DailyLossLimitReached
    | MaxEpisodesReached
    | ExtremityExceeded
    | NoImproveRoom
    | QueueTooDeep
    | DepthInsufficient
    | ExpectedMarginBelowThreshold
    | HedgeMarginBelowThreshold
    | OrphanLossEstimateExceeded
    | ExposureExceeded
    | MarginsPass
    | StaleMessageDropped
    | EpisodeWorking
    | SessionChangeRequote
    | Leg1FillReason
    | Leg1Requote
    | Leg1Timeout
    | RequoteLimitExceeded
    | MarketExpiredMidEpisode
    | EmergencyFlattenWindow
    | BooksLostMidEpisode
    | Leg2Opened
    | Leg2FillReason
    | Leg2MaxPriceBelowBid
    | Leg2ImprovesExhausted
    | Leg2Timeout
    | ImproveLoop
    | OrphanSecondsExceeded
    | OrphanLossLimitExceeded
    | TakerHedgeReason
    | DirectionalExitOpened
    | DirectionalExitFilled
    | DirectionalExitTimeout
    | TakerExit
    | PairCompleted

  /** Injective identity of an episode: its binding and a per-binding counter. */
  datatype EpisodeId = EpisodeId(market: MarketId, condition: ConditionId, binding: Binding, sequence: nat)

  datatype Leg = First | Second

  datatype Trade = Buy | Sell

  /** The part of an audit event that says what happened. `fee` is the taker fee in total. */
  datatype EventBody =
    | Opened(outcome: Outcome, price: real, size: real)
    | StateChange(before: State, after: State)
    | LegFilled(leg: Leg, trade: Trade, price: real, size: real, fee: real)
    | QuoteUpdated(leg: Leg, trade: Trade, previous: Option<real>, quote: real)
    | Requoted(count: int)
    | OrderCancelled(filled: real)
    | EpisodeCompleted(pnl: real)
    | EpisodeClosedWithLoss(pnl: real)

  datatype Event =
    | EpisodeEvent(episode: EpisodeId, number: nat, timestamp: real, body: EventBody, reason: Reason)
    | Rejection(condition: ConditionId, timestamp: real, blocking: seq<Reason>)

  /** The value of a `MakerEpisode`, without its audit-only fields. The
      running averages of the source are kept as their numerators `cost1` and `cost2`, the
      sums of price times size. */
  datatype Episode = Episode(
    id: EpisodeId,
    market: MarketId,
    condition: ConditionId,
    binding: Binding,
    state: State,
    openedTs: real,
    leg1: Outcome,
    quote1: real,
    orderSize: real,
    placedTs: real,
    filled1: real,
    cost1: real,
    fillTs: Option<real>,
    requotes: int,
    pendingRequote: bool,
    quote2: Option<real>,
    maxPrice2: Option<real>,
    filled2: real,
    cost2: real,
    startTs2: Option<real>,
    attempts2: int,
    lastImproveTs2: Option<real>,
    hedgeFee: real,
    exitPath: Option<ExitPath>,
    exitQuote: Option<real>,
    exitStartTs: Option<real>,
    terminalReason: Option<Reason>,
    forcedExit: Option<Reason>,
    pnl: real,
    eventSequence: nat
  ) {
    function LockedSize(): real {
      Min(filled1, filled2)
    }

    function Remaining(): real {
      filled1 - filled2
    }

    /** Average prices; the mutable episode keeps them as running averages. */
    function Avg1(): real {
      if filled1 == 0.0 then 0.0 else cost1 / filled1
    }

    function Avg2(): real {
      if filled2 == 0.0 then 0.0 else cost2 / filled2
    }
  }

  /** What `size` shares at `price` cost. */
  function Paid(price: real, size: real): real {
    price * size
  }

  /** `x or default` for an optional number: zero counts as unset. */
  function OrElse(x: Option<real>, default: real): real {
    if x.Some? && x.value != 0.0 then x.value else default
  }

  /** Round to five places, ties to even. */
  function RoundPrice(price: real): (r: real)
    ensures -HALF_QUANTUM <= r - price <= HALF_QUANTUM
    ensures price >= 0.0 || r > -0.00001 ==> r >= 0.0
  {
    NearestEven(price * 100000.0) as real / 100000.0
  }

  /** The taker fee, rounded half up at five places. */
  function TakerFeeTotal(price: real, size: real, rate: real): real {
    if size <= 0.0 || rate <= 0.0 then 0.0
    else (size * rate * price * (1.0 - price) * 100000.0 + 0.5).Floor as real / 100000.0
  }

  function TakerFeePerShare(price: real, rate: real): real {
    if rate <= 0.0 then 0.0 else rate * price * (1.0 - price)
  }
}
