/** The shadow portfolio: positions opened within limits, and ended by a profitable exit, by
    settlement or as orphans. Positions are kept in the order they were opened. */
module ShadowPortfolio {
  import opened Numbers
  import opened Queues
  import opened Options

  const HALF_UNIT := 0.0000000000005
  const SLACK := 0.000000000001
  const MAX_HISTORY: nat := 20000
  const SETTLEMENT_MAX_DELAY_MS := 10000.0

  datatype Strategy = Directional | Lottery | Paired

  datatype Side = Up | Down | Both

  datatype StrategyLimits = StrategyLimits(maxOrderSize: real, maxOpenPositions: int, maxPerCloseWindow: int,
                                           maxOpenNotional: real, maxDailyLoss: real, maxConsecutiveLosses: int)

  datatype ExitMode = Flat | ExpectedValue

  datatype Config = Config(directional: StrategyLimits, lottery: StrategyLimits, combinedMaxPerCloseWindow: int,
                           calibrationMode: bool, orphanAfterSeconds: real,
                           exitMinPnl: real, directionalExit: ExitMode, lotteryExit: ExitMode, exitMargin: real) {
    function LimitsOf(strategy: Strategy): StrategyLimits {
      if strategy == Directional then directional else lottery
    }
  }

  datatype Market = Market(closeTs: Option<real>, openPrice: Option<real>, timeframe: string, source: Option<string>)

  datatype DynamicSize = DynamicSize(size: real, minimumSize: real, allInCost: real)

  datatype ExitQuote = ExitQuote(depthOk: bool, bookFresh: bool, quantity: real, vwap: real, fee: real, buffer: real)

  /** One audit row. `dynamicSize` is there when every sizing field is there, finite and of the
      expected mode; `exitQuote` when the row observes an executable exit. */
  datatype Row = Row(strategy: Strategy, eventId: string, hedged: bool, versionOk: bool, accepted: bool,
                     market: string, asset: string, outcome: Option<Side>, mainOutcome: Option<Side>, ts: real,
                     targetSize: Option<real>, mainSize: Option<real>, hedgeSize: real, totalCost: real,
                     dynamicSize: Option<DynamicSize>, probability: Option<real>, priceToBeat: Option<real>,
                     compatible: bool, exitQuote: Option<ExitQuote>)

  datatype Key = Key(strategy: Strategy, market: string, outcome: Side)

  datatype Position = Position(key: Key, eventId: string, entryTs: real, targetSize: real, mainSize: real,
                               hedgeSize: real, hedged: bool, entryCost: real, probability: Option<real>,
                               closeTs: Option<real>, asset: string, timeframe: string, source: Option<string>,
                               priceToBeat: Option<real>, compatible: bool, pending: bool) {
    /** `float(position.get("close_ts") or 0)`. */
    function Close(): real {
      closeTs.GetOr(0.0)
    }
  }

  datatype Trade = Trade(strategy: Strategy, ts: real, pnl: real, compatible: bool)

  datatype Block =
    | CorrelatedExposure
    | CombinedCloseWindowLimit
    | OrderSizeLimit
    | OpenPositionLimit
    | CloseWindowLimit
    | OpenNotionalLimit
    | DailyLossLimit
    | ConsecutiveLossLimit

  datatype Ending = ProfitExit | Settlement | SampleUnavailable | AnchorUnavailable

  datatype LogEntry =
    | Rejected(eventId: string, reason: Block)
    | Ended(eventId: string, strategy: Strategy, entryCost: real, ending: Ending, payout: real, pnl: real)

  datatype Portfolio = Portfolio(positions: seq<Position>, trades: seq<Trade>,
                                 rejections: map<Key, Block>, log: seq<LogEntry>)

  const NONE := Portfolio([], [], map[], [])

  /** Half to even at twelve places. */
  function Round12(x: real): (r: real)
    ensures -HALF_UNIT <= r - x <= HALF_UNIT
    ensures x >= 0.0 ==> r >= 0.0
  {
    NearestEven(x * 1000000000000.0) as real / 1000000000000.0
  }

  // ---- looking at the open positions ----

  /** Which positions a limit counts. */
  datatype Scope =
    | OfStrategy(strategy: Strategy)
    | OfWindow(strategy: Strategy, close: Option<real>)
    | OfAnyWindow(close: Option<real>)
    | OfEvent(id: string)

  predicate InScope(p: Position, scope: Scope) {
    match scope
    case OfStrategy(s) => p.key.strategy == s
    case OfWindow(s, close) => p.key.strategy == s && p.closeTs == close
    case OfAnyWindow(close) => p.key.strategy != Paired && p.closeTs == close
    case OfEvent(id) => p.eventId == id
  }

  function CountIn(positions: seq<Position>, scope: Scope): nat {
    if positions == [] then 0
    else CountIn(positions[..|positions| - 1], scope) + if InScope(positions[|positions| - 1], scope) then 1 else 0
  }

  function Notional(positions: seq<Position>, strategy: Strategy): real {
    if positions == [] then 0.0
    else
      var last := positions[|positions| - 1];
      Notional(positions[..|positions| - 1], strategy) + if last.key.strategy == strategy then last.entryCost else 0.0
  }

  /** The index of the position with this key, or the length when there is none. */
  function Find(positions: seq<Position>, key: Key): (i: nat)
    ensures i <= |positions|
    ensures i < |positions| ==> positions[i].key == key
    ensures forall j :: 0 <= j < i ==> positions[j].key != key
  {
    if positions == [] then 0
    else if positions[0].key == key then 0
    else
      var i := Find(positions[1..], key) + 1;
      assert forall j :: 0 < j < i ==> positions[j] == positions[1..][j - 1];
      i
  }

  function Without(positions: seq<Position>, i: nat): seq<Position>
    requires i < |positions|
  {
    positions[..i] + positions[i + 1..]
  }

  // ---- whether an entry is blocked ----

  function Day(ts: real): int {
    (ts / 86400.0).Floor
  }

  function DailyLoss(trades: seq<Trade>, strategy: Strategy, day: int): real {
    if trades == [] then 0.0
    else
      var last := trades[|trades| - 1];
      DailyLoss(trades[..|trades| - 1], strategy, day)
      + if last.strategy == strategy && last.compatible && Day(last.ts) == day && last.pnl < 0.0 then -last.pnl else 0.0
  }

  /** Losses in a row at the end of the strategy's compatible trades. */
  function Streak(trades: seq<Trade>, strategy: Strategy): nat {
    if trades == [] then 0
    else
      var earlier, last := trades[..|trades| - 1], trades[|trades| - 1];
      if last.strategy != strategy || !last.compatible then Streak(earlier, strategy)
      else if last.pnl >= 0.0 then 0
      else Streak(earlier, strategy) + 1
  }

  function LossBlock(config: Config, trades: seq<Trade>, strategy: Strategy, now: real): Option<Block> {
    var limits := config.LimitsOf(strategy);
    if DailyLoss(trades, strategy, Day(now)) >= limits.maxDailyLoss then Some(DailyLossLimit)
    else if Streak(trades, strategy) >= limits.maxConsecutiveLosses then Some(ConsecutiveLossLimit)
    else None
  }

  predicate Correlated(positions: seq<Position>, row: Row) {
    exists i :: 0 <= i < |positions| && positions[i].key.market == row.market
                && Some(positions[i].key.outcome) == row.outcome
  }

  function BlockReason(config: Config, p: Portfolio, row: Row, market: Market, entryCost: real,
                       now: real): Option<Block>
  {
    var limits := config.LimitsOf(row.strategy);
    if row.strategy == Paired then None
    else if Correlated(p.positions, row) then Some(CorrelatedExposure)
    else if CountIn(p.positions, OfAnyWindow(market.closeTs)) >= config.combinedMaxPerCloseWindow then
      Some(CombinedCloseWindowLimit)
    else if row.targetSize.GetOr(0.0) > limits.maxOrderSize then Some(OrderSizeLimit)
    else if CountIn(p.positions, OfStrategy(row.strategy)) >= limits.maxOpenPositions then Some(OpenPositionLimit)
    else if CountIn(p.positions, OfWindow(row.strategy, market.closeTs)) >= limits.maxPerCloseWindow then
      Some(CloseWindowLimit)
    else if Notional(p.positions, row.strategy) + entryCost > limits.maxOpenNotional then Some(OpenNotionalLimit)
    else LossBlock(config, p.trades, row.strategy, now)
  }

  // ---- entering ----

  function KeyOf(row: Row): Key {
    Key(row.strategy, row.market, row.mainOutcome.GetOr(row.outcome.GetOr(Both)))
  }

  /** The size and cost of an entry, when the row has them. */
  function Entry(row: Row): Option<(real, real)> {
    if row.hedged then Some((row.mainSize.GetOr(row.targetSize.GetOr(0.0)), row.totalCost))
    else if row.dynamicSize.None? then None
    else
      var d := row.dynamicSize.value;
      if d.size <= 0.0 || d.minimumSize <= 0.0 || d.size + 0.000000001 < d.minimumSize || d.allInCost <= 0.0 then None
      else Some((d.size, d.allInCost))
  }

  function NewPosition(row: Row, market: Market, size: real, cost: real): Position {
    Position(KeyOf(row), row.eventId, row.ts, size, row.mainSize.GetOr(size), row.hedgeSize, row.hedged, Round12(cost),
             row.probability, market.closeTs, row.asset, market.timeframe, market.source, row.priceToBeat,
             row.compatible, false)
  }

  function Reject(p: Portfolio, row: Row, reason: Block): Portfolio {
    var key := KeyOf(row);
    var logged := if Lookup(p.rejections, key) == Some(reason) then p.log else p.log + [Rejected(row.eventId, reason)];
    p.(rejections := p.rejections[key := reason], log := logged)
  }

  predicate Enters(p: Portfolio, row: Row, markets: map<string, Market>) {
    && ((row.hedged && row.strategy != Paired) || row.versionOk)
    && row.accepted && row.market in markets
    && Find(p.positions, KeyOf(row)) == |p.positions| && Entry(row).Some?
  }

  function Enter(config: Config, p: Portfolio, row: Row, market: Market, now: real): Portfolio
    requires Entry(row).Some?
  {
    var (size, cost) := Entry(row).value;
    var block := BlockReason(config, p, row, market, cost, now);
    if block.Some? && !config.calibrationMode then Reject(p, row, block.value)
    else p.(rejections := p.rejections - {KeyOf(row)},
            positions := p.positions + [NewPosition(row, market, size, cost)])
  }

  // ---- leaving ----

  function EndOf(position: Position, ending: Ending, payout: real, pnl: real): LogEntry {
    Ended(position.eventId, position.key.strategy, position.entryCost, ending, payout, pnl)
  }

  /** Take the position at `i` out, recording how it ended. */
  function End(p: Portfolio, i: nat, ending: Ending, payout: real, pnl: real, ts: real): Portfolio
    requires i < |p.positions|
  {
    var position := p.positions[i];
    var log := p.log + [EndOf(position, ending, payout, pnl)];
    if ending in {SampleUnavailable, AnchorUnavailable} then p.(positions := Without(p.positions, i), log := log)
    else
      p.(positions := Without(p.positions, i), log := log,
         trades := KeepLast(p.trades + [Trade(position.key.strategy, ts, pnl, position.compatible)], MAX_HISTORY))
  }

  function ExitProceeds(position: Position, quote: ExitQuote): real {
    Round12(position.targetSize * quote.vwap - quote.fee - quote.buffer)
  }

  /** What holding to settlement is expected to bring. */
  function HoldValue(position: Position): real
    requires position.probability.Some?
  {
    Round12(position.probability.value * position.targetSize)
  }

  /** An observed exit is taken when it sells the whole position at enough profit and, if exits
      are weighed against settlement, for at least what holding is expected to bring. */
  predicate ExitTaken(config: Config, position: Position, row: Row, quote: ExitQuote) {
    var mode := if position.key.strategy == Directional then config.directionalExit else config.lotteryExit;
    var proceeds := ExitProceeds(position, quote);
    && row.strategy != Paired && !position.hedged && row.ts > position.entryTs
    && position.targetSize > 0.0 && quote.depthOk && quote.bookFresh && quote.quantity + SLACK >= position.targetSize
    && quote.vwap > 0.0
    && Round12(proceeds - position.entryCost) + SLACK >= config.exitMinPnl
    && (mode == ExpectedValue ==>
          && position.probability.Some? && position.probability.value >= 0.0
          && proceeds + SLACK >= HoldValue(position) + config.exitMargin)
  }

  /** The position a row exits, if it does. */
  predicate Exits(config: Config, p: Portfolio, row: Row) {
    var i := Find(p.positions, KeyOf(row));
    row.exitQuote.Some? && i < |p.positions| && ExitTaken(config, p.positions[i], row, row.exitQuote.value)
  }

  function Exit(p: Portfolio, row: Row): Portfolio
    requires row.exitQuote.Some? && Find(p.positions, KeyOf(row)) < |p.positions|
  {
    var i := Find(p.positions, KeyOf(row));
    var proceeds := ExitProceeds(p.positions[i], row.exitQuote.value);
    End(p, i, ProfitExit, proceeds, Round12(proceeds - p.positions[i].entryCost), row.ts)
  }

  /** `consume`, for the three strategies that hold positions. */
  function Consume(config: Config, p: Portfolio, row: Row, markets: map<string, Market>, now: real): Portfolio {
    if Exits(config, p, row) then Exit(p, row)
    else if Enters(p, row, markets) then Enter(config, p, row, markets[row.market], now)
    else p
  }

  // ---- settlement ----

  datatype Sample = Sample(timestampMs: real, timeframe: string, price: real)

  type Venue = map<(string, string), seq<Sample>>

  predicate Eligible(position: Position, sample: Sample) {
    && position.Close() * 1000.0 <= sample.timestampMs <= position.Close() * 1000.0 + SETTLEMENT_MAX_DELAY_MS
    && (position.source == Some("binance") ==> sample.timeframe == position.timeframe)
  }

  /** The earliest eligible sample. */
  function Earliest(position: Position, samples: seq<Sample>): (r: Option<Sample>)
    ensures r.Some? ==> r.value in samples && Eligible(position, r.value)
    ensures forall s :: s in samples && Eligible(position, s) ==> r.Some? && r.value.timestampMs <= s.timestampMs
  {
    if samples == [] then None
    else
      var n := |samples| - 1;
      assert samples == samples[..n] + [samples[n]];
      var earlier := Earliest(position, samples[..n]);
      if !Eligible(position, samples[n]) then earlier
      else if earlier.None? || samples[n].timestampMs < earlier.value.timestampMs then Some(samples[n])
      else earlier
  }

  function SettlementSample(position: Position, venue: Venue): Option<Sample> {
    if position.source !in {Some("binance"), Some("chainlink")} then None
    else Earliest(position, Lookup(venue, (position.asset, position.source.value)).GetOr([]))
  }

  datatype Verdict = Hold | Pend | Orphan(ending: Ending) | Settled(payout: real)

  function Payout(position: Position, winner: Side): real {
    if position.key.strategy == Paired then position.targetSize
    else if position.hedged then if position.key.outcome == winner then position.mainSize else position.hedgeSize
    else if position.key.outcome == winner then position.targetSize else 0.0
  }

  /** The price a market started from. */
  function StartPrice(position: Position, markets: map<string, Market>): Option<real> {
    if position.priceToBeat.Some? then position.priceToBeat
    else if position.key.market in markets then markets[position.key.market].openPrice
    else None
  }

  /** The side that won, once the sample and the start price are known. */
  function Winner(position: Position, markets: map<string, Market>, venue: Venue): Option<Side> {
    var sample, start := SettlementSample(position, venue), StartPrice(position, markets);
    if sample.None? then None
    else if position.key.strategy == Paired then Some(Both)
    else if start.None? then None
    else Some(if sample.value.price >= start.value then Up else Down)
  }

  function Judge(config: Config, position: Position, markets: map<string, Market>, venue: Venue, now: real): Verdict {
    var winner := Winner(position, markets, venue);
    if now < position.Close() then Hold
    else if winner.Some? then Settled(Payout(position, winner.value))
    else if now - position.Close() < config.orphanAfterSeconds then Pend
    else Orphan(if SettlementSample(position, venue).None? then SampleUnavailable else AnchorUnavailable)
  }

  /** One position of the settlement pass. */
  function SettleOne(p: Portfolio, i: nat, verdict: Verdict, now: real): Portfolio
    requires i < |p.positions|
  {
    match verdict
    case Hold => p
    case Pend => p.(positions := p.positions[i := p.positions[i].(pending := true)])
    case Orphan(ending) => End(p, i, ending, 0.0, 0.0, now)
    case Settled(payout) => End(p, i, Settlement, payout, Round12(payout - p.positions[i].entryCost), now)
  }

  predicate Stays(verdict: Verdict) {
    verdict.Hold? || verdict.Pend?
  }

  /** The pass from position `i` on. */
  function SettleFrom(config: Config, p: Portfolio, i: nat, markets: map<string, Market>, venue: Venue,
                      now: real): Portfolio
    requires i <= |p.positions|
    decreases |p.positions| - i
  {
    if i == |p.positions| then p
    else
      var verdict := Judge(config, p.positions[i], markets, venue, now);
      SettleFrom(config, SettleOne(p, i, verdict, now), if Stays(verdict) then i + 1 else i, markets, venue, now)
  }

  lemma SettleStep(config: Config, p: Portfolio, i: nat, markets: map<string, Market>, venue: Venue, now: real)
    requires i < |p.positions|
    ensures var verdict := Judge(config, p.positions[i], markets, venue, now);
            var next, k := SettleOne(p, i, verdict, now), if Stays(verdict) then i + 1 else i;
            && k <= |next.positions| && |next.positions| - k < |p.positions| - i
            && SettleFrom(config, p, i, markets, venue, now) == SettleFrom(config, next, k, markets, venue, now)
  {
  }

  function Settle(config: Config, p: Portfolio, markets: map<string, Market>, venue: Venue, now: real): Portfolio {
    SettleFrom(config, p, 0, markets, venue, now)
  }
}
