/** What one row does to one live episode, as functions on values: the
    specification that the mutable machine in `MakerMachine` is proved against. */
module MakerEpisodes {
  import opened Numbers
  import opened Options
  import opened MakerData
  import opened MakerOpening

  /** Audit events in order of emission, the latest outermost. */
  datatype Emitted = Nothing | Then(earlier: Emitted, last: Event) {
    function ToSeq(): seq<Event> {
      if Nothing? then [] else earlier.ToSeq() + [last]
    }
  }

  /** An episode together with the audit events emitted for it so far in this call. */
  datatype Progress = Progress(ep: Episode, events: Emitted) {
    function Emit(row: Row, body: EventBody, reason: Reason): Progress {
      var number := ep.eventSequence + 1;
      Progress(ep.(eventSequence := number),
               Then(events, EpisodeEvent(ep.id, number, row.timestamp, body, reason)))
    }

    function With(ep': Episode): Progress {
      Progress(ep', events)
    }

    function ChangeState(row: Row, after: State, reason: Reason): Progress {
      With(ep.(state := after)).Emit(row, StateChange(ep.state, after), reason)
    }
  }

  predicate BuyFills(mode: FillMode, quote: real, bestAsk: real) {
    match mode
    case Strict => bestAsk < quote - EPS
    case Queue => bestAsk <= quote + EPS
  }

  predicate SellFills(mode: FillMode, quote: real, bestBid: real) {
    match mode
    case Strict => bestBid > quote + EPS
    case Queue => bestBid >= quote - EPS
  }

  /** What the code may read without a check: a working second leg has a quote and
      its clock, a directional exit has a price and a start. */
  predicate Readable(ep: Episode) {
    && (ep.state == Leg2Working ==> ep.quote2.Some? && ep.lastImproveTs2.Some? && ep.filled2 < ep.filled1)
    && (ep.state == Leg1Filled ==> ep.forcedExit.Some?)
    && (ep.state == HedgingDirectionalExit ==>
          ep.exitQuote.Some? && ep.exitStartTs.Some? && ep.terminalReason.Some?)
    && (ep.state == Leg1Working ==> ep.filled2 == 0.0 <= ep.filled1)
  }

  // ---- terminal accounting ----

  function CompletionPnl(config: Config, ep: Episode): real {
    var size := ep.LockedSize();
    size * (1.0 - (ep.Avg1() + ep.Avg2())) - ep.hedgeFee - size * 2.0 * config.gasPerShare
  }

  function ClosingPnl(config: Config, ep: Episode, price: real, fee: real): real {
    var locked := ep.LockedSize();
    var lockedPnl := if locked > 0.0 then locked * (1.0 - ep.Avg1() - ep.Avg2()) else 0.0;
    var exitPnl := ep.Remaining() * (price - ep.Avg1());
    lockedPnl + exitPnl - fee - ep.hedgeFee - (ep.filled1 + ep.filled2) * config.gasPerShare
  }

  function CompleteWith(row: Row, p: Progress, pnl: real): Progress {
    var reason := p.ep.terminalReason.GetOr(PairCompleted);
    p.With(p.ep.(exitPath := Some(p.ep.exitPath.GetOr(MakerComplete)), terminalReason := Some(reason), pnl := pnl))
     .ChangeState(row, Complete, reason)
     .Emit(row, EpisodeCompleted(pnl), reason)
  }

  function CompleteMaker(config: Config, row: Row, p: Progress): Progress {
    CompleteWith(row, p, CompletionPnl(config, p.ep))
  }

  function CloseWith(row: Row, p: Progress, reason: Reason, pnl: real): Progress {
    p.With(p.ep.(pnl := pnl))
     .ChangeState(row, ClosedWithLoss, reason)
     .Emit(row, EpisodeClosedWithLoss(pnl), reason)
  }

  function CloseWithLoss(config: Config, row: Row, p: Progress, reason: Reason, price: real, fee: real): Progress {
    CloseWith(row, p, reason, ClosingPnl(config, p.ep, price, fee))
  }

  /** Sell what the second leg does not cover, as taker, and close. */
  function SellRest(config: Config, row: Row, p: Progress, reason: Reason, path: ExitPath, price: real,
                    fee: real): Progress
  {
    var sold := p.With(p.ep.(exitPath := Some(path), terminalReason := Some(reason)))
                 .Emit(row, LegFilled(First, Sell, price, p.ep.Remaining(), fee), TakerExit);
    CloseWithLoss(config, row, sold, reason, price, fee)
  }

  function FlattenTaker(config: Config, row: Row, p: Progress, reason: Reason, path: ExitPath): Progress {
    var remaining := p.ep.Remaining();
    var price := row.BidVwap(p.ep.leg1, Max(remaining, EPS));
    SellRest(config, row, p, reason, path, price, TakerFeeTotal(price, remaining, row.FeeRate(config)))
  }

  function Flatten(config: Config, row: Row, p: Progress, reason: Reason): Progress {
    var marked := p.With(p.ep.(exitPath := Some(EmergencyExit), terminalReason := Some(reason)));
    FlattenTaker(config, row, marked.ChangeState(row, EmergencyFlatten, reason), reason, EmergencyExit)
  }

  // ---- second leg ----

  function HedgeMargin(config: Config, row: Row, ep: Episode): real
    requires ep.Remaining() > 0.0
  {
    var price := row.AskVwap(ep.leg1.Opposite(), ep.Remaining());
    var fee := TakerFeeTotal(price, ep.Remaining(), row.FeeRate(config));
    1.0 - (ep.Avg1() + price + fee / ep.Remaining() + config.bufferPerShare)
  }

  /** Buy the missing second leg as taker and complete the pair. */
  function HedgeAt(config: Config, row: Row, p: Progress, reason: Reason, price: real, fee: real): Progress {
    var ep := p.ep;
    var hedged := ep.(cost2 := ep.cost2 + Paid(price, ep.Remaining()),
                      filled2 := ep.filled2 + ep.Remaining(),
                      hedgeFee := fee,
                      exitPath := Some(TakerHedge),
                      terminalReason := Some(reason));
    CompleteMaker(config, row,
                  p.With(hedged).Emit(row, LegFilled(Second, Buy, price, ep.Remaining(), fee), TakerHedgeReason))
  }

  function TakerHedgeNow(config: Config, row: Row, p: Progress, reason: Reason): Progress {
    var price := row.AskVwap(p.ep.leg1.Opposite(), p.ep.Remaining());
    HedgeAt(config, row, p, reason, price, TakerFeeTotal(price, p.ep.Remaining(), row.FeeRate(config)))
  }

  function OpenDirectionalExit(config: Config, row: Row, p: Progress, reason: Reason): Progress {
    var ep := p.ep;
    var floor := ep.Avg1() - config.maxGivebackPerShare;
    var quote := RoundPrice(Max(floor, row.Side(ep.leg1).bestBid + config.minTick));
    p.With(ep.(exitPath := Some(DirectionalExit), terminalReason := Some(reason),
               exitQuote := Some(quote), exitStartTs := Some(row.timestamp)))
     .ChangeState(row, HedgingDirectionalExit, reason)
     .Emit(row, QuoteUpdated(First, Sell, None, quote), DirectionalExitOpened)
  }

  /** Hedge as taker when the margin allows, otherwise start selling the first leg. */
  function AbandonLeg2(config: Config, row: Row, p: Progress, reason: Reason): (q: Progress)
    requires p.ep.Remaining() > 0.0
    ensures q.ep.state == Complete <==> HedgeMargin(config, row, p.ep) >= config.minHedgeExitMargin
    ensures q.ep.state == Complete || q == OpenDirectionalExit(config, row, p, reason)
  {
    if HedgeMargin(config, row, p.ep) >= config.minHedgeExitMargin
    then TakerHedgeNow(config, row, p, reason)
    else OpenDirectionalExit(config, row, p, reason)
  }

  function Leg2Quote(config: Config, side: BookSide, ticks: real, maxPrice: real): (quote: real)
    ensures quote <= maxPrice + HALF_QUANTUM
  {
    RoundPrice(Min(Min(side.bestBid + ticks * config.minTick, side.bestAsk - config.minTick), maxPrice))
  }

  function OpenLeg2(config: Config, row: Row, p: Progress): Progress
    requires p.ep.Remaining() > 0.0
  {
    var other := row.Side(p.ep.leg1.Opposite());
    var maxPrice := Leg2MaxPrice(p.ep.Avg1(), config);
    var working := p.With(p.ep.(maxPrice2 := Some(maxPrice), startTs2 := Some(row.timestamp),
                               lastImproveTs2 := Some(row.timestamp), attempts2 := 0))
                   .ChangeState(row, Leg2Working, Leg2Opened);
    if maxPrice <= other.bestBid + EPS then
      AbandonLeg2(config, row, working, Leg2MaxPriceBelowBid)
    else
      var quote := Leg2Quote(config, other, 1.0, maxPrice);
      working.With(working.ep.(quote2 := Some(quote)))
            .Emit(row, QuoteUpdated(Second, Buy, None, quote), Leg2Opened)
  }

  function OrphanLoss(row: Row, ep: Episode): real {
    if ep.filled1 > ep.filled2
    then ep.Remaining() * Max(0.0, ep.Avg1() - row.Side(ep.leg1).bestBid)
    else 0.0
  }

  /** Second-leg quotes only go up. */
  function RaiseQuote(row: Row, p: Progress, quote: real): Progress
    requires p.ep.quote2.Some?
  {
    if quote > p.ep.quote2.value + EPS then
      p.With(p.ep.(quote2 := Some(quote)))
       .Emit(row, QuoteUpdated(Second, Buy, p.ep.quote2, quote), ImproveLoop)
    else p
  }

  /** One improvement attempt, already counted. */
  function TryImprove(config: Config, row: Row, p: Progress): Progress
    requires p.ep.quote2.Some? && p.ep.Remaining() > 0.0
  {
    var side := row.Side(p.ep.leg1.Opposite());
    var maxPrice := Leg2MaxPrice(p.ep.Avg1(), config);
    var capped := p.With(p.ep.(maxPrice2 := Some(maxPrice)));
    if p.ep.attempts2 > config.leg2MaxImproves then
      AbandonLeg2(config, row, p, Leg2ImprovesExhausted)
    else if maxPrice <= side.bestBid + EPS then
      AbandonLeg2(config, row, capped, Leg2MaxPriceBelowBid)
    else
      RaiseQuote(row, capped, Leg2Quote(config, side, config.leg2StepTicks.At(row.timeframe) as real, maxPrice))
  }

  function ImproveLeg2(config: Config, row: Row, p: Progress): Progress
    requires p.ep.quote2.Some? && p.ep.lastImproveTs2.Some? && p.ep.Remaining() > 0.0
  {
    if (row.timestamp - p.ep.lastImproveTs2.value) * 1000.0 < config.leg2ImproveIntervalMs.At(row.timeframe) then
      p
    else
      TryImprove(config, row, p.With(p.ep.(attempts2 := p.ep.attempts2 + 1, lastImproveTs2 := Some(row.timestamp))))
  }

  /** The size a maker buy would take on this row; nothing is bought unless it is positive. */
  function FillSize(config: Config, quote: real, side: BookSide, wanted: real): (size: real)
    ensures size <= 0.0 || size <= wanted
  {
    if BuyFills(config.fillMode, quote, side.bestAsk) then Min(wanted, side.bestAskSize) else 0.0
  }

  function FillLeg2(config: Config, row: Row, p: Progress): Progress
    requires p.ep.quote2.Some? && 0.0 <= p.ep.filled2
  {
    var ep := p.ep;
    var price := ep.quote2.value;
    var size := FillSize(config, price, row.Side(ep.leg1.Opposite()), ep.Remaining());
    if size > 0.0 then
      p.With(ep.(cost2 := ep.cost2 + Paid(price, size), filled2 := ep.filled2 + size))
       .Emit(row, LegFilled(Second, Buy, price, size, 0.0), Leg2FillReason)
    else p
  }

  function WorkLeg2(config: Config, row: Row, p: Progress): Progress
    requires p.ep.quote2.Some? && p.ep.lastImproveTs2.Some?
    requires 0.0 <= p.ep.filled2 < p.ep.filled1
  {
    var ep := p.ep;
    var orphanSeconds := row.timestamp - OrElse(ep.fillTs, row.timestamp);
    var elapsed := row.timestamp - OrElse(ep.startTs2, row.timestamp);
    if OrphanLoss(row, ep) > config.maxOrphanLoss then
      Flatten(config, row, p, OrphanLossLimitExceeded)
    else if orphanSeconds > config.maxOrphanSeconds.At(row.timeframe) then
      AbandonLeg2(config, row, p, OrphanSecondsExceeded)
    else if elapsed > config.leg2Timeout.At(row.timeframe) then
      AbandonLeg2(config, row, p, Reason.Leg2Timeout)
    else
      var filled := FillLeg2(config, row, p);
      if filled.ep.filled2 > ep.filled2 && filled.ep.filled2 >= ep.filled1 - EPS then
        CompleteMaker(config, row, filled)
      else
        ImproveLeg2(config, row, filled)
  }

  function WorkDirectionalExit(config: Config, row: Row, p: Progress): Progress
    requires p.ep.exitQuote.Some? && p.ep.exitStartTs.Some? && p.ep.terminalReason.Some?
  {
    var ep := p.ep;
    if row.timestamp - ep.exitStartTs.value > config.directionalExitTimeout then
      FlattenTaker(config, row, p, DirectionalExitTimeout, DirectionalExit)
    else if !SellFills(config.fillMode, ep.exitQuote.value, row.Side(ep.leg1).bestBid) || ep.Remaining() <= 0.0 then
      p
    else
      var price := ep.exitQuote.value;
      var sold := p.Emit(row, LegFilled(First, Sell, price, ep.Remaining(), 0.0), DirectionalExitFilled);
      CloseWithLoss(config, row, sold, ep.terminalReason.value, price, 0.0)
  }

  // ---- first leg ----

  function CancelLeg1(row: Row, p: Progress, reason: Reason): Progress {
    p.With(p.ep.(terminalReason := Some(reason)))
     .Emit(row, OrderCancelled(p.ep.filled1), reason)
     .ChangeState(row, Leg1Cancelled, reason)
  }

  function RequoteLeg1(config: Config, row: Row, p: Progress): Progress {
    var ep := p.ep;
    var other := row.Side(ep.leg1.Opposite());
    match Leg1Quote(row.Side(ep.leg1), config)
    case None => CancelLeg1(row, p, NoImproveRoom)
    case Some(quote) =>
      if ExpectedMargin(quote.price, other, config) < config.minExpectedMargin then
        CancelLeg1(row, p, ExpectedMarginBelowThreshold)
      else
        p.With(ep.(quote1 := quote.price, placedTs := row.timestamp, pendingRequote := false))
         .Emit(row, QuoteUpdated(First, Buy, Some(ep.quote1), quote.price), Leg1Requote)
  }

  /** Enough of the first leg to start the second: all of it, or the minimum ratio. */
  predicate FilledEnough(config: Config, filled: real, orderSize: real) {
    filled >= orderSize - EPS || filled / Max(orderSize, EPS) >= config.minFillRatio
  }

  function BuyLeg1(row: Row, p: Progress, size: real): Progress {
    var ep := p.ep;
    p.With(ep.(cost1 := ep.cost1 + Paid(ep.quote1, size), filled1 := ep.filled1 + size))
     .Emit(row, LegFilled(First, Buy, ep.quote1, size, 0.0), Leg1FillReason)
  }

  /** The first leg is done: hold it and quote the second. */
  function StartPair(config: Config, row: Row, p: Progress): Progress
    requires p.ep.Remaining() > 0.0
  {
    OpenLeg2(config, row, p.With(p.ep.(fillTs := Some(row.timestamp))).ChangeState(row, Leg1Filled, Leg1FillReason))
  }

  /** A fill starts the pair once it is enough, and otherwise leaves the order working. */
  function AfterBuy(config: Config, row: Row, bought: Progress): Progress
    requires bought.ep.Remaining() > 0.0
  {
    if FilledEnough(config, bought.ep.filled1, bought.ep.orderSize) then StartPair(config, row, bought) else bought
  }

  function TakeFill(config: Config, row: Row, p: Progress, size: real): Progress
    requires p.ep.filled2 == 0.0 <= p.ep.filled1
  {
    if size <= 0.0 then p else AfterBuy(config, row, BuyLeg1(row, p, size))
  }

  function FillLeg1(config: Config, row: Row, p: Progress): Progress
    requires p.ep.filled2 == 0.0 <= p.ep.filled1
  {
    var ep := p.ep;
    TakeFill(config, row, p, FillSize(config, ep.quote1, row.Side(ep.leg1), ep.orderSize - ep.filled1))
  }

  function WorkLeg1(config: Config, row: Row, p: Progress): Progress
    requires p.ep.filled2 == 0.0 <= p.ep.filled1
  {
    var ep := p.ep;
    if row.timestamp - ep.placedTs > config.leg1Timeout.At(row.timeframe) then
      CancelLeg1(row, p, Reason.Leg1Timeout)
    else if !row.BooksEvaluable(config) then p
    else if ep.pendingRequote then RequoteLeg1(config, row, p)
    else if ExpectedMargin(ep.quote1, row.Side(ep.leg1.Opposite()), config) < config.minExpectedMargin then
      CancelLeg1(row, p, ExpectedMarginBelowThreshold)
    else FillLeg1(config, row, p)
  }

  // ---- one row ----

  /** Why a held position must be flattened on this row, if it must. A pending forced exit
      waits for usable books; inside the closing window it yields to the window only
      once the directional exit is under way. */
  function FlattenReason(config: Config, row: Row, ep: Episode): Option<Reason> {
    if row.Expired() then Some(MarketExpiredMidEpisode)
    else if row.InFlattenWindow(config) && (ep.state == HedgingDirectionalExit || ep.forcedExit.None?
                                            || !row.BooksEvaluable(config)) then
      Some(EmergencyFlattenWindow)
    else if row.BooksEvaluable(config) then ep.forcedExit
    else None
  }

  /** `_episode_path`. */
  function EpisodePath(config: Config, row: Row, p: Progress): Progress
    requires Readable(p.ep) && 0.0 <= p.ep.filled2
  {
    var ep := p.ep;
    if ep.state == Leg1Working then
      if ep.forcedExit.Some? then CancelLeg1(row, p, ep.forcedExit.value)
      else if row.Expired() then CancelLeg1(row, p, MarketExpiredMidEpisode)
      else if row.InFlattenWindow(config) then CancelLeg1(row, p, EmergencyFlattenWindow)
      else WorkLeg1(config, row, p)
    else if ep.state !in {Leg1Filled, Leg2Working, HedgingDirectionalExit} then p
    else
      match FlattenReason(config, row, ep)
      case Some(reason) => Flatten(config, row, p, reason)
      case None =>
        if !row.BooksEvaluable(config) then p
        else if ep.state == HedgingDirectionalExit then WorkDirectionalExit(config, row, p)
        else WorkLeg2(config, row, p)
  }

  /** A live episode whose market moved to another binding: an unfilled first leg is
      re-quoted within its budget, anything held is forced out. */
  function Rebind(config: Config, row: Row, p: Progress): Progress {
    var ep := p.ep;
    if row.binding == ep.binding then p
    else if ep.state != Leg1Working then
      p.With(ep.(forcedExit := Some(BooksLostMidEpisode), binding := row.binding))
    else if ep.filled1 > EPS then
      p.With(ep.(forcedExit := Some(BooksLostMidEpisode), binding := row.binding))
       .ChangeState(row, Leg1Filled, BooksLostMidEpisode)
    else if ep.requotes >= config.maxLeg1Requotes then
      CancelLeg1(row, p, RequoteLimitExceeded)
    else
      p.With(ep.(binding := row.binding, requotes := ep.requotes + 1, pendingRequote := true))
       .Emit(row, Requoted(ep.requotes + 1), SessionChangeRequote)
  }

  /** Everything an accepted row does to a live episode. */
  function EpisodeStep(config: Config, row: Row, bindingChanged: bool, ep: Episode): Progress
    requires Readable(ep) && 0.0 <= ep.filled2
  {
    var start := Progress(ep, Nothing);
    var bound := if bindingChanged then Rebind(config, row, start) else start;
    if bound.ep.state.Terminal() then bound else EpisodePath(config, row, bound)
  }
}
