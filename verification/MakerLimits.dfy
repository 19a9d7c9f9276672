/** What one live episode can still cost: its first-leg commitment never grows but by a
    re-quote, and its result never falls below the worst case of that commitment. */
module MakerLimits {
  import opened Numbers
  import opened Options
  import opened MakerData
  import opened MakerOpening
  import opened MakerEpisodes
  import opened MakerResting
  import opened MakerFloors

  predicate UnitPrice(price: real) {
    0.0 <= price <= 1.0
  }

  /** Prices are probabilities, the fee rate is bounded, and order sizes are not negative. */
  ghost predicate Fair(config: Config, maxRate: real, row: Row) {
    && (forall outcome: Outcome :: UnitPrice(row.Side(outcome).bestBid) && UnitPrice(row.Side(outcome).bestAsk))
    && (forall outcome: Outcome, size: real :: UnitPrice(row.AskVwap(outcome, size)))
    && (forall outcome: Outcome, size: real :: UnitPrice(row.BidVwap(outcome, size)))
    && row.FeeRate(config) <= maxRate
    && 0.0 <= row.minOrderSize
  }

  /** Gas and order sizes are not negative and the margins cover the rounding of a quote. */
  predicate Prudent(config: Config, maxRate: real) {
    && config.Valid() && 0.0 <= config.gasPerShare && 0.0 <= maxRate && 0.0 <= config.maxOrderSize
    && config.bufferPerShare + config.minRealizedMargin >= HALF_QUANTUM
  }

  /** First-leg money: spent, and promised by a working order. */
  function Commitment(ep: Episode): real {
    ep.cost1 + if ep.state == Leg1Working then (ep.orderSize - ep.filled1) * ep.quote1 else 0.0
  }

  /** The largest taker fee on `size` shares, and gas on both legs. */
  function Overhead(config: Config, maxRate: real, size: real): real {
    size * maxRate / 4.0 + HALF_QUANTUM + 2.0 * (size * config.gasPerShare)
  }

  function WorstLoss(config: Config, maxRate: real, ep: Episode): real {
    Commitment(ep) + Overhead(config, maxRate, ep.orderSize)
  }

  /** A result that loses no more than `money` and the overhead of `size` shares. */
  predicate Tolerable(config: Config, maxRate: real, money: real, size: real, pnl: real) {
    -pnl <= money + Overhead(config, maxRate, size)
  }

  predicate Sized(config: Config, ep: Episode) {
    && 0.0 <= ep.orderSize <= config.maxOrderSize
    && 0.0 <= ep.quote1 && 0.0 <= ep.cost1 && 0.0 <= ep.cost2
    && (ep.quote2.Some? && ep.quote2.value > -0.00001 ==> ep.quote2.value >= 0.0)
    && (ep.exitQuote.Some? ==> 0.0 <= ep.exitQuote.value)
  }

  predicate Bounded(config: Config, ep: Episode) {
    Sized(config, ep) && Capped(config, ep)
  }

  /** The rise in first-leg quotes that the events report. */
  function RiseOf(event: Event): real {
    if event.EpisodeEvent? && event.body.QuoteUpdated? && event.body.leg == First && event.body.trade == Buy
       && event.body.previous.Some?
    then Max(0.0, event.body.quote - event.body.previous.value)
    else 0.0
  }

  function QuoteRise(events: Emitted): real {
    if events.Nothing? then 0.0 else QuoteRise(events.earlier) + RiseOf(events.last)
  }

  /** A held episode: still sized with the same first-leg cost, or ended tolerably, and no
      first-leg quote rose on the way. */
  predicate Within(config: Config, maxRate: real, p: Progress, q: Progress) {
    && QuoteRise(q.events) == QuoteRise(p.events)
    && if q.ep.state.Terminal() then Tolerable(config, maxRate, p.ep.cost1, p.ep.orderSize, q.ep.pnl)
       else Sized(config, q.ep) && q.ep.state != Leg1Working && q.ep.cost1 == p.ep.cost1
  }

  /** An episode's commitment after some steps, given how far their events raised its quote. */
  predicate Committed(config: Config, maxRate: real, ep: Episode, q: Progress, before: real) {
    && before <= QuoteRise(q.events)
    && if q.ep.state.Terminal() then Tolerable(config, maxRate, Commitment(ep), ep.orderSize, q.ep.pnl)
       else Sized(config, q.ep)
            && Commitment(q.ep) <= Commitment(ep) + config.maxOrderSize * (QuoteRise(q.events) - before)
  }

  // ---- arithmetic ----

  lemma VarianceBounded(price: real)
    ensures price * (1.0 - price) <= 0.25
  {
    assert 0.25 - price * (1.0 - price) == (0.5 - price) * (0.5 - price);
  }

  lemma RawFeeBounded(price: real, size: real, rate: real, maxRate: real)
    requires rate <= maxRate && 0.0 < size && 0.0 < rate
    ensures size * rate * price * (1.0 - price) <= size * maxRate / 4.0
  {
    VarianceBounded(price);
    var weight, variance := size * rate, price * (1.0 - price);
    assert weight * variance <= weight * 0.25;
    ProductMonotone(rate, maxRate, size);
    assert size * rate * price * (1.0 - price) == weight * variance;
  }

  lemma FeeBounded(price: real, size: real, rate: real, maxRate: real)
    requires rate <= maxRate && 0.0 <= size && 0.0 <= maxRate
    ensures TakerFeeTotal(price, size, rate) <= size * maxRate / 4.0 + HALF_QUANTUM
  {
    if size > 0.0 && rate > 0.0 {
      RawFeeBounded(price, size, rate, maxRate);
    } else {
      assert size * maxRate >= 0.0;
    }
  }

  lemma ProductMonotone(size: real, limit: real, unit: real)
    requires size <= limit && 0.0 <= unit
    ensures size * unit <= limit * unit
  {
  }

  /** Pairs never lose on price; what is sold loses at most what it cost. */
  lemma ClosingArithmetic(f1: real, f2: real, a1: real, a2: real, cost1: real, price: real)
    requires 0.0 <= f2 <= f1 && 0.0 <= a1 && 0.0 <= price && cost1 == f1 * a1
    requires f2 > 0.0 ==> a1 + a2 <= 1.0
    ensures (if f2 > 0.0 then f2 * (1.0 - a1 - a2) else 0.0) + (f1 - f2) * (price - a1) >= -cost1
  {
    if f2 > 0.0 {
      assert f2 * (1.0 - a1 - a2) >= 0.0;
    }
    assert (f1 - f2) * price >= 0.0;
    assert f2 * a1 >= 0.0;
    assert (f1 - f2) * (price - a1) == (f1 - f2) * price - f1 * a1 + f2 * a1;
  }

  lemma HedgeLossArithmetic(f2: real, rest: real, a1: real, cost1: real, cost2: real, ceiling: real, price: real)
    requires 0.0 <= f2 && 0.0 < rest && 0.0 <= a1 && cost1 == (f2 + rest) * a1
    requires cost2 <= f2 * ceiling && a1 + ceiling <= 1.0 && price <= 1.0
    ensures (f2 + rest) * (1.0 - a1) - (cost2 + price * rest) >= -cost1
  {
    assert f2 * (1.0 - a1 - ceiling) >= 0.0;
    assert rest * (1.0 - price) >= 0.0;
    assert f2 * a1 >= 0.0;
    assert (f2 + rest) * (1.0 - a1) == f2 + rest - f2 * a1 - rest * a1;
  }

  lemma AverageBounds(config: Config, ep: Episode)
    requires Costed(ep) && Bounded(config, ep) && 0.0 <= ep.filled2 <= ep.filled1
    ensures 0.0 <= ep.Avg1() && ep.cost1 == ep.filled1 * ep.Avg1()
    ensures ep.filled2 > 0.0 ==> ep.Avg2() <= PriceCeiling(config, ep)
  {
    if ep.filled2 > 0.0 {
      PairFloor(ep.filled2, ep.Avg1(), ep.Avg2(), ep.cost2, PriceCeiling(config, ep));
    }
  }

  // ---- ends ----

  lemma EndingIsQuiet(row: Row, p: Progress, reason: Reason, pnl: real)
    ensures QuoteRise(CloseWith(row, p, reason, pnl).events) == QuoteRise(p.events)
    ensures QuoteRise(CompleteWith(row, p, pnl).events) == QuoteRise(p.events)
  {
  }

  lemma SellLoss(config: Config, maxRate: real, row: Row, p: Progress, reason: Reason, path: ExitPath, price: real,
                 fee: real)
    requires Prudent(config, maxRate) && Costed(p.ep) && Bounded(config, p.ep) && p.ep.hedgeFee == 0.0
    requires 0.0 <= p.ep.filled2 <= p.ep.filled1 <= p.ep.orderSize && 0.0 <= price
    requires fee <= p.ep.Remaining() * maxRate / 4.0 + HALF_QUANTUM
    ensures var q := SellRest(config, row, p, reason, path, price, fee);
            q.ep.state == ClosedWithLoss && Within(config, maxRate, p, q)
  {
    var sold := p.With(p.ep.(exitPath := Some(path), terminalReason := Some(reason)))
                 .Emit(row, LegFilled(First, Sell, price, p.ep.Remaining(), fee), TakerExit);
    ClosingLoss(config, maxRate, p.ep, price, fee);
    ClosingPnlDependsOnFills(config, p.ep, sold.ep, price, fee);
    EndingIsQuiet(row, sold, reason, ClosingPnl(config, sold.ep, price, fee));
  }

  lemma ClosingPnlDependsOnFills(config: Config, a: Episode, b: Episode, price: real, fee: real)
    requires a.filled1 == b.filled1 && a.cost1 == b.cost1 && a.filled2 == b.filled2 && a.cost2 == b.cost2
    requires a.hedgeFee == b.hedgeFee
    ensures ClosingPnl(config, a, price, fee) == ClosingPnl(config, b, price, fee)
  {
    assert a.Avg1() == b.Avg1() && a.Avg2() == b.Avg2();
  }

  /** The closing result before fees and gas. */
  function ClosingGain(ep: Episode, price: real): real {
    (if ep.filled2 > 0.0 then ep.filled2 * (1.0 - ep.Avg1() - ep.Avg2()) else 0.0)
      + (ep.filled1 - ep.filled2) * (price - ep.Avg1())
  }

  lemma ClosingPnlIsGain(config: Config, ep: Episode, price: real, fee: real)
    requires 0.0 <= ep.filled2 <= ep.filled1 && ep.hedgeFee == 0.0
    ensures ClosingPnl(config, ep, price, fee)
            == ClosingGain(ep, price) - fee - (ep.filled1 + ep.filled2) * config.gasPerShare
  {
  }

  lemma ClosingCovers(config: Config, maxRate: real, rest: real, bought: real, size: real, fee: real)
    requires Prudent(config, maxRate) && rest <= size && bought <= 2.0 * size
    requires fee <= rest * maxRate / 4.0 + HALF_QUANTUM
    ensures fee + bought * config.gasPerShare <= Overhead(config, maxRate, size)
  {
    CoversBoth(rest, bought, size, maxRate, config.gasPerShare, fee);
  }

  lemma CoversBoth(rest: real, bought: real, size: real, rate: real, gas: real, fee: real)
    requires rest <= size && bought <= 2.0 * size && 0.0 <= rate && 0.0 <= gas
    requires fee <= rest * rate / 4.0 + HALF_QUANTUM
    ensures fee + bought * gas <= size * rate / 4.0 + HALF_QUANTUM + 2.0 * (size * gas)
  {
    ProductMonotone(rest, size, rate);
    ProductMonotone(bought, 2.0 * size, gas);
    Doubled(size, gas);
    BothAdded(rest * rate, size * rate, bought * gas, size * gas, fee);
  }

  lemma Doubled(x: real, y: real)
    ensures (2.0 * x) * y == 2.0 * (x * y)
  {
  }

  lemma BothAdded(a: real, b: real, c: real, d: real, fee: real)
    requires a <= b && c <= 2.0 * d && fee <= a / 4.0 + HALF_QUANTUM
    ensures fee + c <= b / 4.0 + HALF_QUANTUM + 2.0 * d
  {
  }

  lemma ClosingLoss(config: Config, maxRate: real, ep: Episode, price: real, fee: real)
    requires Prudent(config, maxRate) && Costed(ep) && Bounded(config, ep) && ep.hedgeFee == 0.0
    requires 0.0 <= ep.filled2 <= ep.filled1 <= ep.orderSize && 0.0 <= price
    requires fee <= ep.Remaining() * maxRate / 4.0 + HALF_QUANTUM
    ensures Tolerable(config, maxRate, ep.cost1, ep.orderSize, ClosingPnl(config, ep, price, fee))
  {
    AverageBounds(config, ep);
    ClosingArithmetic(ep.filled1, ep.filled2, ep.Avg1(), ep.Avg2(), ep.cost1, price);
    ClosingCovers(config, maxRate, ep.Remaining(), ep.filled1 + ep.filled2, ep.orderSize, fee);
    ClosingPnlIsGain(config, ep, price, fee);
    Affordable(config, maxRate, ep.cost1, ep.orderSize, ClosingGain(ep, price), fee,
               (ep.filled1 + ep.filled2) * config.gasPerShare);
  }

  lemma CompletionLoss(config: Config, maxRate: real, ep: Episode)
    requires Prudent(config, maxRate) && Costed(ep) && Bounded(config, ep) && ep.hedgeFee == 0.0
    requires 0.0 < ep.filled2 <= ep.filled1 <= ep.orderSize
    ensures Tolerable(config, maxRate, ep.cost1, ep.orderSize, CompletionPnl(config, ep))
  {
    AverageBounds(config, ep);
    var margin := 1.0 - (ep.Avg1() + ep.Avg2());
    assert margin >= 0.0;
    assert ep.filled2 * margin >= 0.0;
    ProductMonotone(ep.filled2, ep.orderSize, config.gasPerShare);
    assert ep.filled2 * 2.0 * config.gasPerShare == 2.0 * (ep.filled2 * config.gasPerShare);
    assert ep.orderSize * maxRate >= 0.0;
  }

  lemma HedgeLoss(config: Config, maxRate: real, row: Row, p: Progress, reason: Reason, price: real, fee: real)
    requires Prudent(config, maxRate) && Costed(p.ep) && Bounded(config, p.ep)
    requires HalfDone(config, p.ep) && UnitPrice(price)
    requires fee <= p.ep.Remaining() * maxRate / 4.0 + HALF_QUANTUM
    ensures var q := HedgeAt(config, row, p, reason, price, fee);
            q.ep.state == Complete && Within(config, maxRate, p, q)
  {
    var ep := p.ep;
    var hedged := p.With(ep.(cost2 := ep.cost2 + Paid(price, ep.Remaining()), filled2 := ep.filled2 + ep.Remaining(),
                             hedgeFee := fee, exitPath := Some(TakerHedge), terminalReason := Some(reason)))
                   .Emit(row, LegFilled(Second, Buy, price, ep.Remaining(), fee), TakerHedgeReason);
    EndingIsQuiet(row, hedged, reason, CompletionPnl(config, hedged.ep));
    HedgeEndTolerable(config, maxRate, row, p, reason, price, fee);
  }

  lemma HedgeEndTolerable(config: Config, maxRate: real, row: Row, p: Progress, reason: Reason, price: real, fee: real)
    requires Prudent(config, maxRate) && Costed(p.ep) && Bounded(config, p.ep)
    requires HalfDone(config, p.ep) && UnitPrice(price)
    requires fee <= p.ep.Remaining() * maxRate / 4.0 + HALF_QUANTUM
    ensures var q := HedgeAt(config, row, p, reason, price, fee).ep;
            q.state == Complete && Tolerable(config, maxRate, p.ep.cost1, p.ep.orderSize, q.pnl)
  {
    HedgePnl(config, row, p, reason, price, fee);
    HedgeTolerable(config, maxRate, p.ep, price, fee);
  }

  lemma HedgeTolerable(config: Config, maxRate: real, ep: Episode, price: real, fee: real)
    requires Prudent(config, maxRate) && Costed(ep) && Bounded(config, ep)
    requires HalfDone(config, ep) && UnitPrice(price)
    requires fee <= ep.Remaining() * maxRate / 4.0 + HALF_QUANTUM
    ensures Tolerable(config, maxRate, ep.cost1, ep.orderSize,
                      ep.filled1 * (1.0 - ep.Avg1()) - (ep.cost2 + price * ep.Remaining()) - fee
                      - ep.filled1 * 2.0 * config.gasPerShare)
  {
    var gain := ep.filled1 * (1.0 - ep.Avg1()) - (ep.cost2 + price * ep.Remaining());
    HedgeGain(config, ep, price);
    OverheadCovers(config, maxRate, ep.Remaining(), ep.filled1, ep.orderSize, fee);
    Affordable(config, maxRate, ep.cost1, ep.orderSize, gain, fee, ep.filled1 * 2.0 * config.gasPerShare);
  }

  lemma Affordable(config: Config, maxRate: real, money: real, size: real, gain: real, fee: real, gas: real)
    requires gain >= -money && fee + gas <= Overhead(config, maxRate, size)
    ensures Tolerable(config, maxRate, money, size, gain - fee - gas)
  {
  }

  lemma HedgeGain(config: Config, ep: Episode, price: real)
    requires Costed(ep) && Bounded(config, ep) && HalfDone(config, ep) && price <= 1.0
    requires config.bufferPerShare + config.minRealizedMargin >= HALF_QUANTUM
    ensures ep.filled1 * (1.0 - ep.Avg1()) - (ep.cost2 + price * ep.Remaining()) >= -ep.cost1
  {
    AverageBounds(config, ep);
    assert ep.filled2 + ep.Remaining() == ep.filled1;
    HedgeLossArithmetic(ep.filled2, ep.Remaining(), ep.Avg1(), ep.cost1, ep.cost2, PriceCeiling(config, ep), price);
  }

  lemma OverheadCovers(config: Config, maxRate: real, rest: real, filled: real, size: real, fee: real)
    requires Prudent(config, maxRate) && rest <= size && filled <= size
    requires fee <= rest * maxRate / 4.0 + HALF_QUANTUM
    ensures fee + filled * 2.0 * config.gasPerShare <= Overhead(config, maxRate, size)
  {
    ProductMonotone(rest, size, maxRate);
    ProductMonotone(filled, size, config.gasPerShare);
    assert filled * 2.0 * config.gasPerShare == 2.0 * (filled * config.gasPerShare);
  }

  // ---- one row ----

  lemma FlattenTakerWithin(config: Config, maxRate: real, row: Row, p: Progress, reason: Reason, path: ExitPath)
    requires Prudent(config, maxRate) && Fair(config, maxRate, row)
    requires Costed(p.ep) && Bounded(config, p.ep) && p.ep.hedgeFee == 0.0
    requires 0.0 <= p.ep.filled2 <= p.ep.filled1 <= p.ep.orderSize
    ensures Within(config, maxRate, p, FlattenTaker(config, row, p, reason, path))
  {
    var price := row.BidVwap(p.ep.leg1, Max(p.ep.Remaining(), EPS));
    var fee := TakerFeeTotal(price, p.ep.Remaining(), row.FeeRate(config));
    FeeBounded(price, p.ep.Remaining(), row.FeeRate(config), maxRate);
    SellLoss(config, maxRate, row, p, reason, path, price, fee);
  }

  lemma FlattenWithin(config: Config, maxRate: real, row: Row, p: Progress, reason: Reason)
    requires Prudent(config, maxRate) && Fair(config, maxRate, row)
    requires Costed(p.ep) && Bounded(config, p.ep) && p.ep.hedgeFee == 0.0
    requires 0.0 <= p.ep.filled2 <= p.ep.filled1 <= p.ep.orderSize
    ensures Within(config, maxRate, p, Flatten(config, row, p, reason))
  {
    var marked := p.With(p.ep.(exitPath := Some(EmergencyExit), terminalReason := Some(reason)));
    FlattenTakerWithin(config, maxRate, row, marked.ChangeState(row, EmergencyFlatten, reason), reason, EmergencyExit);
  }

  lemma HedgeNowWithin(config: Config, maxRate: real, row: Row, p: Progress, reason: Reason)
    requires Prudent(config, maxRate) && Fair(config, maxRate, row)
    requires Costed(p.ep) && Bounded(config, p.ep) && HalfDone(config, p.ep)
    ensures Within(config, maxRate, p, TakerHedgeNow(config, row, p, reason))
  {
    var price := row.AskVwap(p.ep.leg1.Opposite(), p.ep.Remaining());
    var fee := TakerFeeTotal(price, p.ep.Remaining(), row.FeeRate(config));
    FeeBounded(price, p.ep.Remaining(), row.FeeRate(config), maxRate);
    HedgeLoss(config, maxRate, row, p, reason, price, fee);
  }

  lemma ExitQuoteWithin(config: Config, maxRate: real, row: Row, p: Progress, reason: Reason)
    requires Prudent(config, maxRate) && Fair(config, maxRate, row) && Sized(config, p.ep)
    ensures Within(config, maxRate, p, OpenDirectionalExit(config, row, p, reason))
  {
    assert row.Side(p.ep.leg1).bestBid >= 0.0;
  }

  lemma AbandonWithin(config: Config, maxRate: real, row: Row, p: Progress, reason: Reason)
    requires Prudent(config, maxRate) && Fair(config, maxRate, row)
    requires Costed(p.ep) && Bounded(config, p.ep) && HalfDone(config, p.ep)
    ensures Within(config, maxRate, p, AbandonLeg2(config, row, p, reason))
  {
    if HedgeMargin(config, row, p.ep) >= config.minHedgeExitMargin {
      HedgeNowWithin(config, maxRate, row, p, reason);
    } else {
      ExitQuoteWithin(config, maxRate, row, p, reason);
    }
  }

  lemma OpenLeg2Within(config: Config, maxRate: real, row: Row, p: Progress)
    requires Prudent(config, maxRate) && Fair(config, maxRate, row)
    requires p.ep.filled2 == 0.0 < p.ep.filled1 <= p.ep.orderSize && p.ep.fillTs.Some?
    requires FilledEnough(config, p.ep.filled1, p.ep.orderSize) && Costed(p.ep) && Sized(config, p.ep)
             && p.ep.quote2.None?
    ensures Within(config, maxRate, p, OpenLeg2(config, row, p))
  {
    var ep := p.ep;
    var maxPrice := Leg2MaxPrice(ep.Avg1(), config);
    if maxPrice <= row.Side(ep.leg1.Opposite()).bestBid + EPS {
      var marked := p.With(ep.(maxPrice2 := Some(maxPrice), startTs2 := Some(row.timestamp),
                               lastImproveTs2 := Some(row.timestamp), attempts2 := 0));
      AbandonWithin(config, maxRate, row, marked.ChangeState(row, Leg2Working, Leg2Opened), Leg2MaxPriceBelowBid);
    }
  }

  /** Filling moves money from promised to spent. */
  lemma BuyLeg1Commits(row: Row, p: Progress, size: real)
    requires p.ep.state == Leg1Working && size <= p.ep.orderSize - p.ep.filled1 && 0.0 <= p.ep.quote1 && 0.0 <= size
    ensures Commitment(BuyLeg1(row, p, size).ep) == Commitment(p.ep)
    ensures p.ep.cost1 <= BuyLeg1(row, p, size).ep.cost1 <= Commitment(p.ep)
  {
    PromiseKept(p.ep.orderSize, p.ep.filled1, size, p.ep.quote1, Paid(p.ep.quote1, size));
  }

  lemma PromiseKept(order: real, filled: real, size: real, quote: real, paid: real)
    requires 0.0 <= size <= order - filled && 0.0 <= quote && paid == quote * size
    ensures paid + (order - (filled + size)) * quote == (order - filled) * quote
    ensures 0.0 <= paid <= (order - filled) * quote
  {
    ProductMonotone(size, order - filled, quote);
  }

  lemma StartPairWithin(config: Config, maxRate: real, row: Row, p: Progress, ep: Episode)
    requires Prudent(config, maxRate) && Fair(config, maxRate, row)
    requires p.ep.filled2 == 0.0 < p.ep.filled1 <= p.ep.orderSize && FilledEnough(config, p.ep.filled1, p.ep.orderSize)
    requires Costed(p.ep) && Sized(config, p.ep) && p.ep.quote2.None?
    requires p.ep.cost1 <= Commitment(ep) && p.ep.orderSize == ep.orderSize
    ensures Committed(config, maxRate, ep, StartPair(config, row, p), QuoteRise(p.events))
  {
    var held := p.With(p.ep.(fillTs := Some(row.timestamp))).ChangeState(row, Leg1Filled, Leg1FillReason);
    OpenLeg2Within(config, maxRate, row, held);
    WithinIsCommitted(config, maxRate, ep, held, OpenLeg2(config, row, held));
  }

  /** What matters here of a working first leg. */
  predicate WorkingShape(ep: Episode) {
    && ep.state == Leg1Working && Costed(ep) && 0.0 <= ep.filled1 && ep.filled2 == 0.0 && ep.quote2.None?
  }

  lemma RestingShape(config: Config, ep: Episode)
    requires Resting(config, ep) && ep.state == Leg1Working
    ensures WorkingShape(ep)
  {
  }

  lemma BuyLeg1Sized(config: Config, row: Row, p: Progress, size: real)
    requires WorkingShape(p.ep) && Sized(config, p.ep)
    requires 0.0 < size <= p.ep.orderSize - p.ep.filled1
    ensures var q := BuyLeg1(row, p, size);
            && Costed(q.ep) && Sized(config, q.ep) && Commitment(q.ep) == Commitment(p.ep)
            && q.ep.cost1 <= Commitment(p.ep) && QuoteRise(q.events) == QuoteRise(p.events)
            && q.ep.filled1 == p.ep.filled1 + size && q.ep.filled2 == 0.0 && q.ep.quote2.None?
            && q.ep.orderSize == p.ep.orderSize && q.ep.state == Leg1Working
  {
    BuyLeg1Commits(row, p, size);
  }

  lemma SteadyIsCommitted(config: Config, maxRate: real, ep: Episode, p: Progress, q: Progress)
    requires Sized(config, q.ep) && !q.ep.state.Terminal() && Commitment(q.ep) == Commitment(ep)
    requires QuoteRise(q.events) == QuoteRise(p.events)
    ensures Committed(config, maxRate, ep, q, QuoteRise(p.events))
  {
  }

  lemma FillLeg1Within(config: Config, maxRate: real, row: Row, p: Progress)
    requires Prudent(config, maxRate) && Fair(config, maxRate, row)
    requires WorkingShape(p.ep) && Sized(config, p.ep)
    ensures Committed(config, maxRate, p.ep, FillLeg1(config, row, p), QuoteRise(p.events))
  {
    var ep := p.ep;
    var size := FillSize(config, ep.quote1, row.Side(ep.leg1), ep.orderSize - ep.filled1);
    var filled := TakeFill(config, row, p, size);
    assert FillLeg1(config, row, p) == filled;
    TakeFillWithin(config, maxRate, row, p, size);
    assert Committed(config, maxRate, ep, filled, QuoteRise(p.events));
  }

  lemma TakeFillWithin(config: Config, maxRate: real, row: Row, p: Progress, size: real)
    requires Prudent(config, maxRate) && Fair(config, maxRate, row)
    requires WorkingShape(p.ep) && Sized(config, p.ep) && (size <= 0.0 || size <= p.ep.orderSize - p.ep.filled1)
    ensures Committed(config, maxRate, p.ep, TakeFill(config, row, p, size), QuoteRise(p.events))
  {
    if size > 0.0 {
      BuyLeg1Sized(config, row, p, size);
      BoughtWithin(config, maxRate, row, BuyLeg1(row, p, size), p.ep);
    } else {
      SteadyIsCommitted(config, maxRate, p.ep, p, p);
    }
  }

  /** After a fill the pair starts or the order goes on working. */
  lemma BoughtWithin(config: Config, maxRate: real, row: Row, bought: Progress, ep: Episode)
    requires Prudent(config, maxRate) && Fair(config, maxRate, row)
    requires bought.ep.filled2 == 0.0 < bought.ep.filled1 <= bought.ep.orderSize && bought.ep.state == Leg1Working
    requires Costed(bought.ep) && Sized(config, bought.ep) && bought.ep.quote2.None?
    requires bought.ep.cost1 <= Commitment(ep) == Commitment(bought.ep) && bought.ep.orderSize == ep.orderSize
    ensures Committed(config, maxRate, ep, AfterBuy(config, row, bought), QuoteRise(bought.events))
  {
    if FilledEnough(config, bought.ep.filled1, ep.orderSize) {
      StartPairWithin(config, maxRate, row, bought, ep);
    } else {
      SteadyIsCommitted(config, maxRate, ep, bought, bought);
    }
  }

  lemma WithinIsCommitted(config: Config, maxRate: real, ep: Episode, p: Progress, q: Progress)
    requires Within(config, maxRate, p, q) && p.ep.cost1 <= Commitment(ep) && p.ep.orderSize == ep.orderSize
    ensures Committed(config, maxRate, ep, q, QuoteRise(p.events))
  {
  }

  lemma RequoteShape(config: Config, maxRate: real, row: Row, p: Progress)
    requires Prudent(config, maxRate) && Fair(config, maxRate, row) && Sized(config, p.ep)
    requires p.ep.state == Leg1Working
    ensures var q := RequoteLeg1(config, row, p);
            if q.ep.state.Terminal() then q.ep.pnl == p.ep.pnl && QuoteRise(q.events) == QuoteRise(p.events)
            else Sized(config, q.ep) && q.ep.cost1 == p.ep.cost1 && q.ep.filled1 == p.ep.filled1
                 && q.ep.state == p.ep.state && q.ep.orderSize == p.ep.orderSize
                 && QuoteRise(q.events) == QuoteRise(p.events) + Max(0.0, q.ep.quote1 - p.ep.quote1)
  {
    assert row.Side(p.ep.leg1).bestBid >= 0.0;
  }

  /** Only a re-quote raises a commitment, and by no more than the order times the rise. */
  lemma RequoteWithin(config: Config, maxRate: real, row: Row, p: Progress)
    requires Prudent(config, maxRate) && Fair(config, maxRate, row)
    requires Resting(config, p.ep) && Sized(config, p.ep) && p.ep.state == Leg1Working
    ensures var q := RequoteLeg1(config, row, p);
            && QuoteRise(p.events) <= QuoteRise(q.events)
            && if q.ep.state.Terminal() then q.ep.pnl == 0.0
               else Committed(config, maxRate, p.ep, q, QuoteRise(p.events))
  {
    RequoteShape(config, maxRate, row, p);
    var q := RequoteLeg1(config, row, p);
    if !q.ep.state.Terminal() {
      RepricedIsCommitted(config, maxRate, p, q);
    }
  }

  lemma RepricedIsCommitted(config: Config, maxRate: real, p: Progress, q: Progress)
    requires 0.0 <= p.ep.filled1 <= p.ep.orderSize <= config.maxOrderSize
    requires Sized(config, q.ep) && p.ep.state == q.ep.state == Leg1Working
    requires q.ep.cost1 == p.ep.cost1 && q.ep.filled1 == p.ep.filled1 && q.ep.orderSize == p.ep.orderSize
    requires QuoteRise(q.events) == QuoteRise(p.events) + Max(0.0, q.ep.quote1 - p.ep.quote1)
    ensures Committed(config, maxRate, p.ep, q, QuoteRise(p.events))
  {
    var rise := Max(0.0, q.ep.quote1 - p.ep.quote1);
    RepricedCommitment(p.ep.orderSize - p.ep.filled1, config.maxOrderSize, p.ep.quote1, q.ep.quote1);
    assert QuoteRise(q.events) - QuoteRise(p.events) == rise;
  }

  lemma RepricedCommitment(open: real, limit: real, before: real, after: real)
    requires 0.0 <= open <= limit
    ensures open * after <= open * before + limit * Max(0.0, after - before)
  {
    var rise := Max(0.0, after - before);
    assert open * (after - before) <= open * rise;
    ProductMonotone(open, limit, rise);
  }

  lemma TryImproveWithin(config: Config, maxRate: real, row: Row, p: Progress)
    requires Prudent(config, maxRate) && Fair(config, maxRate, row)
    requires Resting(config, p.ep) && Bounded(config, p.ep) && p.ep.state == Leg2Working
    ensures Within(config, maxRate, p, TryImprove(config, row, p))
  {
    var maxPrice := Leg2MaxPrice(p.ep.Avg1(), config);
    if p.ep.attempts2 > config.leg2MaxImproves {
      AbandonWithin(config, maxRate, row, p, Leg2ImprovesExhausted);
    } else if maxPrice <= row.Side(p.ep.leg1.Opposite()).bestBid + EPS {
      AbandonWithin(config, maxRate, row, p.With(p.ep.(maxPrice2 := Some(maxPrice))), Leg2MaxPriceBelowBid);
    }
  }

  lemma ImproveWithin(config: Config, maxRate: real, row: Row, p: Progress)
    requires Prudent(config, maxRate) && Fair(config, maxRate, row)
    requires Resting(config, p.ep) && Bounded(config, p.ep) && p.ep.state == Leg2Working
    ensures Within(config, maxRate, p, ImproveLeg2(config, row, p))
  {
    var tried := p.With(p.ep.(attempts2 := p.ep.attempts2 + 1, lastImproveTs2 := Some(row.timestamp)));
    TryImproveWithin(config, maxRate, row, tried);
    assert ImproveLeg2(config, row, p) in {p, TryImprove(config, row, tried)};
  }

  lemma WorkLeg2Within(config: Config, maxRate: real, row: Row, p: Progress)
    requires Prudent(config, maxRate) && Fair(config, maxRate, row)
    requires Resting(config, p.ep) && Bounded(config, p.ep) && p.ep.state == Leg2Working
    ensures Within(config, maxRate, p, WorkLeg2(config, row, p))
  {
    var ep := p.ep;
    if OrphanLoss(row, ep) > config.maxOrphanLoss {
      FlattenWithin(config, maxRate, row, p, OrphanLossLimitExceeded);
    } else if row.timestamp - OrElse(ep.fillTs, row.timestamp) > config.maxOrphanSeconds.At(row.timeframe) {
      AbandonWithin(config, maxRate, row, p, OrphanSecondsExceeded);
    } else if row.timestamp - OrElse(ep.startTs2, row.timestamp) > config.leg2Timeout.At(row.timeframe) {
      AbandonWithin(config, maxRate, row, p, Reason.Leg2Timeout);
    } else {
      FillLeg2Rests(config, row, p);
      FillLeg2Capped(config, row, p);
      var filled := FillLeg2(config, row, p);
      FillLeg2Leaves(config, maxRate, row, p);
      if filled.ep.filled2 > ep.filled2 && filled.ep.filled2 >= ep.filled1 - EPS {
        CompletionLoss(config, maxRate, filled.ep);
      } else {
        ImproveWithin(config, maxRate, row, filled);
      }
    }
  }

  lemma FillLeg2Leaves(config: Config, maxRate: real, row: Row, p: Progress)
    requires Fair(config, maxRate, row) && Resting(config, p.ep) && p.ep.state == Leg2Working
    ensures var q := FillLeg2(config, row, p);
            && q.ep.cost1 == p.ep.cost1 && (Sized(config, p.ep) ==> Sized(config, q.ep))
            && q.ep.hedgeFee == 0.0 && Costed(q.ep) && QuoteRise(q.events) == QuoteRise(p.events)
  {
    var ep := p.ep;
    var size := FillSize(config, ep.quote2.value, row.Side(ep.leg1.Opposite()), ep.Remaining());
    if size > 0.0 && Sized(config, ep) {
      assert ep.quote2.value >= 0.0;
      assert ep.quote2.value * size >= 0.0;
    }
  }

  lemma NoFee(config: Config, maxRate: real, ep: Episode, price: real)
    requires Prudent(config, maxRate) && Costed(ep) && Bounded(config, ep) && ep.hedgeFee == 0.0
    requires 0.0 <= ep.filled2 <= ep.filled1 <= ep.orderSize && 0.0 <= price
    ensures Tolerable(config, maxRate, ep.cost1, ep.orderSize, ClosingPnl(config, ep, price, 0.0))
  {
    assert ep.Remaining() * maxRate >= 0.0;
    ClosingLoss(config, maxRate, ep, price, 0.0);
  }

  lemma SellQuoted(config: Config, maxRate: real, row: Row, p: Progress)
    requires Prudent(config, maxRate)
    requires Resting(config, p.ep) && Bounded(config, p.ep) && p.ep.state == HedgingDirectionalExit
    ensures var sold := p.Emit(row, LegFilled(First, Sell, p.ep.exitQuote.value, p.ep.Remaining(), 0.0),
                               DirectionalExitFilled);
            Within(config, maxRate, p,
                   CloseWithLoss(config, row, sold, p.ep.terminalReason.value, p.ep.exitQuote.value, 0.0))
  {
    var price := p.ep.exitQuote.value;
    var sold := p.Emit(row, LegFilled(First, Sell, price, p.ep.Remaining(), 0.0), DirectionalExitFilled);
    NoFee(config, maxRate, sold.ep, price);
    EndingIsQuiet(row, sold, p.ep.terminalReason.value, ClosingPnl(config, sold.ep, price, 0.0));
  }

  lemma ExitWithin(config: Config, maxRate: real, row: Row, p: Progress)
    requires Prudent(config, maxRate) && Fair(config, maxRate, row)
    requires Resting(config, p.ep) && Bounded(config, p.ep) && p.ep.state == HedgingDirectionalExit
    ensures Within(config, maxRate, p, WorkDirectionalExit(config, row, p))
  {
    FlattenTakerWithin(config, maxRate, row, p, DirectionalExitTimeout, DirectionalExit);
    SellQuoted(config, maxRate, row, p);
  }

  lemma CommitmentIsPositive(config: Config, ep: Episode)
    requires Resting(config, ep) && Sized(config, ep)
    ensures 0.0 <= ep.cost1 <= Commitment(ep)
  {
    if ep.state == Leg1Working {
      assert ep.orderSize - ep.filled1 >= 0.0;
      assert (ep.orderSize - ep.filled1) * ep.quote1 >= 0.0;
    }
  }

  lemma OverheadIsPositive(config: Config, maxRate: real, size: real)
    requires Prudent(config, maxRate) && 0.0 <= size
    ensures 0.0 <= Overhead(config, maxRate, size)
  {
    assert size * maxRate >= 0.0;
    assert size * config.gasPerShare >= 0.0;
  }

  lemma NoLossIsTolerable(config: Config, maxRate: real, ep: Episode)
    requires Prudent(config, maxRate) && Resting(config, ep) && Sized(config, ep)
    ensures Tolerable(config, maxRate, Commitment(ep), ep.orderSize, 0.0)
  {
    CommitmentIsPositive(config, ep);
    OverheadIsPositive(config, maxRate, ep.orderSize);
  }

  lemma CancelWithin(config: Config, maxRate: real, row: Row, p: Progress, reason: Reason)
    requires Prudent(config, maxRate) && Resting(config, p.ep) && Sized(config, p.ep)
    ensures Committed(config, maxRate, p.ep, CancelLeg1(row, p, reason), QuoteRise(p.events))
  {
    NoLossIsTolerable(config, maxRate, p.ep);
  }

  lemma WorkLeg1Within(config: Config, maxRate: real, row: Row, p: Progress)
    requires Prudent(config, maxRate) && Fair(config, maxRate, row)
    requires Resting(config, p.ep) && Sized(config, p.ep) && p.ep.state == Leg1Working
    ensures Committed(config, maxRate, p.ep, WorkLeg1(config, row, p), QuoteRise(p.events))
  {
    CancelWithin(config, maxRate, row, p, Reason.Leg1Timeout);
    CancelWithin(config, maxRate, row, p, ExpectedMarginBelowThreshold);
    SteadyIsCommitted(config, maxRate, p.ep, p, p);
    NoLossIsTolerable(config, maxRate, p.ep);
    RequoteWithin(config, maxRate, row, p);
    RestingShape(config, p.ep);
    FillLeg1Within(config, maxRate, row, p);
    var q := WorkLeg1(config, row, p);
    assert q in {CancelLeg1(row, p, Reason.Leg1Timeout), CancelLeg1(row, p, ExpectedMarginBelowThreshold), p,
                 RequoteLeg1(config, row, p), FillLeg1(config, row, p)};
  }

  lemma PathWithin(config: Config, maxRate: real, row: Row, p: Progress)
    requires Prudent(config, maxRate) && Fair(config, maxRate, row)
    requires Resting(config, p.ep) && Bounded(config, p.ep)
    ensures Readable(p.ep) && 0.0 <= p.ep.filled2
    ensures Committed(config, maxRate, p.ep, EpisodePath(config, row, p), QuoteRise(p.events))
  {
    RestingIsReadable(config, p.ep);
    CommitmentIsPositive(config, p.ep);
    OverheadIsPositive(config, maxRate, p.ep.orderSize);
    var forced := FlattenReason(config, row, p.ep);
    if p.ep.state == Leg1Working {
      WorkLeg1Within(config, maxRate, row, p);
    } else {
      if forced.Some? {
        FlattenWithin(config, maxRate, row, p, forced.value);
      } else if p.ep.state == Leg2Working && row.BooksEvaluable(config) {
        WorkLeg2Within(config, maxRate, row, p);
      } else if p.ep.state == HedgingDirectionalExit && row.BooksEvaluable(config) {
        ExitWithin(config, maxRate, row, p);
      }
      WithinIsCommitted(config, maxRate, p.ep, p, EpisodePath(config, row, p));
    }
  }

  lemma RebindWithin(config: Config, row: Row, p: Progress)
    requires Resting(config, p.ep) && Bounded(config, p.ep)
    ensures var q := Rebind(config, row, p);
            && QuoteRise(q.events) == QuoteRise(p.events)
            && if q.ep.state.Terminal() then q.ep.pnl == 0.0
               else Bounded(config, q.ep) && Commitment(q.ep) <= Commitment(p.ep) && q.ep.orderSize == p.ep.orderSize
  {
    CommitmentIsPositive(config, p.ep);
  }

  /** One row: a live episode stays bounded and commits no more than before but for the rise
      it reports; an ended one lost no more than the worst case before the row. */
  lemma StepWithin(config: Config, maxRate: real, row: Row, bindingChanged: bool, ep: Episode)
    requires Prudent(config, maxRate) && Fair(config, maxRate, row)
    requires Resting(config, ep) && Bounded(config, ep)
    ensures Readable(ep) && 0.0 <= ep.filled2
    ensures var q := EpisodeStep(config, row, bindingChanged, ep);
            && Committed(config, maxRate, ep, q, 0.0)
            && (!q.ep.state.Terminal() ==> Bounded(config, q.ep))
  {
    StepEarns(config, row, bindingChanged, ep);
    CommitmentIsPositive(config, ep);
    OverheadIsPositive(config, maxRate, ep.orderSize);
    var start := Progress(ep, Nothing);
    var bound := if bindingChanged then Rebind(config, row, start) else start;
    RebindRests(config, row, start);
    RebindWithin(config, row, start);
    if !bound.ep.state.Terminal() {
      PathWithin(config, maxRate, row, bound);
    }
  }
}
