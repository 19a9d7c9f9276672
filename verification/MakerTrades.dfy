/** What the audit events of a row trade and quote: first-leg fills are bought at the quote
    in force, first-leg quotes follow the book, second-leg quotes only rise. */
module MakerTrades {
  import opened Numbers
  import opened Options
  import opened MakerData
  import opened MakerOpening
  import opened MakerEpisodes
  import opened MakerResting
  import opened MakerStory
  import opened MakerRuns
  import opened MakerLedger

  /** The price a first-leg order is re-quoted at on this row. */
  predicate Requotes(config: Config, row: Row, ep: Episode, price: real) {
    var quote := Leg1Quote(row.Side(ep.leg1), config);
    quote.Some? && price == quote.value.price
  }

  /** What an event about `ep` may trade or quote on this row. */
  predicate OwnEvent(config: Config, row: Row, ep: Episode, event: Event) {
    event.EpisodeEvent? && !event.body.Opened?
    && match event.body
       case LegFilled(First, Buy, price, size, _) => price == ep.quote1 && 0.0 < size
       case QuoteUpdated(First, Buy, previous, quote) => ep.pendingRequote && Requotes(config, row, ep, quote)
       case QuoteUpdated(Second, Buy, Some(previous), quote) => quote > previous + EPS
       case _ => true
  }

  predicate AllOwn(config: Config, row: Row, ep: Episode, events: Emitted) {
    events.Nothing? || (AllOwn(config, row, ep, events.earlier) && OwnEvent(config, row, ep, events.last))
  }

  /** The first leg of `q` is that of `ep` with the quote kept, or replaced by what the book says. */
  predicate Kept(config: Config, row: Row, ep: Episode, q: Episode) {
    && (q.quote1 == ep.quote1 || Requotes(config, row, ep, q.quote1))
    && (q.pendingRequote ==> ep.pendingRequote)
  }

  predicate Trades(config: Config, row: Row, ep: Episode, q: Progress) {
    Kept(config, row, ep, q.ep) && AllOwn(config, row, ep, q.events)
  }

  // ---- ends ----

  lemma ChangeTrades(config: Config, row: Row, ep: Episode, p: Progress, after: State, reason: Reason)
    requires Trades(config, row, ep, p)
    ensures Trades(config, row, ep, p.ChangeState(row, after, reason))
  {
  }

  lemma CompletionTrades(config: Config, row: Row, ep: Episode, p: Progress)
    requires Trades(config, row, ep, p)
    ensures Trades(config, row, ep, CompleteMaker(config, row, p))
  {
    var reason := p.ep.terminalReason.GetOr(PairCompleted);
    var marked := p.With(p.ep.(exitPath := Some(p.ep.exitPath.GetOr(MakerComplete)), terminalReason := Some(reason),
                               pnl := CompletionPnl(config, p.ep)));
    ChangeTrades(config, row, ep, marked, Complete, reason);
  }

  lemma CloseTrades(config: Config, row: Row, ep: Episode, p: Progress, reason: Reason, price: real, fee: real)
    requires Trades(config, row, ep, p)
    ensures Trades(config, row, ep, CloseWithLoss(config, row, p, reason, price, fee))
  {
    var marked := p.With(p.ep.(pnl := ClosingPnl(config, p.ep, price, fee)));
    ChangeTrades(config, row, ep, marked, ClosedWithLoss, reason);
  }

  lemma SellTrades(config: Config, row: Row, ep: Episode, p: Progress, reason: Reason, path: ExitPath)
    requires Trades(config, row, ep, p)
    ensures Trades(config, row, ep, FlattenTaker(config, row, p, reason, path))
  {
    var price := row.BidVwap(p.ep.leg1, Max(p.ep.Remaining(), EPS));
    var fee := TakerFeeTotal(price, p.ep.Remaining(), row.FeeRate(config));
    var sold := p.With(p.ep.(exitPath := Some(path), terminalReason := Some(reason)))
                 .Emit(row, LegFilled(First, Sell, price, p.ep.Remaining(), fee), TakerExit);
    CloseTrades(config, row, ep, sold, reason, price, fee);
  }

  lemma FlattenTrades(config: Config, row: Row, ep: Episode, p: Progress, reason: Reason)
    requires Trades(config, row, ep, p)
    ensures Trades(config, row, ep, Flatten(config, row, p, reason))
  {
    var marked := p.With(p.ep.(exitPath := Some(EmergencyExit), terminalReason := Some(reason)));
    SellTrades(config, row, ep, marked.ChangeState(row, EmergencyFlatten, reason), reason, EmergencyExit);
  }

  lemma HedgeTrades(config: Config, row: Row, ep: Episode, p: Progress, reason: Reason)
    requires Trades(config, row, ep, p)
    ensures Trades(config, row, ep, TakerHedgeNow(config, row, p, reason))
  {
    var price := row.AskVwap(p.ep.leg1.Opposite(), p.ep.Remaining());
    var fee := TakerFeeTotal(price, p.ep.Remaining(), row.FeeRate(config));
    var hedged := p.With(p.ep.(cost2 := p.ep.cost2 + Paid(price, p.ep.Remaining()),
                               filled2 := p.ep.filled2 + p.ep.Remaining(), hedgeFee := fee,
                               exitPath := Some(TakerHedge), terminalReason := Some(reason)));
    CompletionTrades(config, row, ep,
                     hedged.Emit(row, LegFilled(Second, Buy, price, p.ep.Remaining(), fee), TakerHedgeReason));
  }

  // ---- second leg ----

  lemma AbandonTrades(config: Config, row: Row, ep: Episode, p: Progress, reason: Reason)
    requires Trades(config, row, ep, p) && p.ep.Remaining() > 0.0
    ensures Trades(config, row, ep, AbandonLeg2(config, row, p, reason))
  {
    if HedgeMargin(config, row, p.ep) >= config.minHedgeExitMargin {
      HedgeTrades(config, row, ep, p, reason);
    } else {
      DirectionalTrades(config, row, ep, p, reason);
    }
  }

  lemma DirectionalTrades(config: Config, row: Row, ep: Episode, p: Progress, reason: Reason)
    requires Trades(config, row, ep, p)
    ensures Trades(config, row, ep, OpenDirectionalExit(config, row, p, reason))
  {
    var floor := p.ep.Avg1() - config.maxGivebackPerShare;
    var quote := RoundPrice(Max(floor, row.Side(p.ep.leg1).bestBid + config.minTick));
    var marked := p.With(p.ep.(exitPath := Some(DirectionalExit), terminalReason := Some(reason),
                               exitQuote := Some(quote), exitStartTs := Some(row.timestamp)));
    ChangeTrades(config, row, ep, marked, HedgingDirectionalExit, reason);
  }

  lemma OpenLeg2Trades(config: Config, row: Row, ep: Episode, p: Progress)
    requires Trades(config, row, ep, p) && p.ep.Remaining() > 0.0
    ensures Trades(config, row, ep, OpenLeg2(config, row, p))
  {
    var maxPrice := Leg2MaxPrice(p.ep.Avg1(), config);
    var marked := p.With(p.ep.(maxPrice2 := Some(maxPrice), startTs2 := Some(row.timestamp),
                               lastImproveTs2 := Some(row.timestamp), attempts2 := 0));
    ChangeTrades(config, row, ep, marked, Leg2Working, Leg2Opened);
    AbandonTrades(config, row, ep, marked.ChangeState(row, Leg2Working, Leg2Opened), Leg2MaxPriceBelowBid);
  }

  lemma TryImproveTrades(config: Config, row: Row, ep: Episode, p: Progress)
    requires Trades(config, row, ep, p) && p.ep.quote2.Some? && p.ep.Remaining() > 0.0
    ensures Trades(config, row, ep, TryImprove(config, row, p))
  {
    var capped := p.With(p.ep.(maxPrice2 := Some(Leg2MaxPrice(p.ep.Avg1(), config))));
    AbandonTrades(config, row, ep, p, Leg2ImprovesExhausted);
    AbandonTrades(config, row, ep, capped, Leg2MaxPriceBelowBid);
  }

  lemma ImproveTrades(config: Config, row: Row, ep: Episode, p: Progress)
    requires Trades(config, row, ep, p)
    requires p.ep.quote2.Some? && p.ep.lastImproveTs2.Some? && p.ep.Remaining() > 0.0
    ensures Trades(config, row, ep, ImproveLeg2(config, row, p))
  {
    var tried := p.With(p.ep.(attempts2 := p.ep.attempts2 + 1, lastImproveTs2 := Some(row.timestamp)));
    TryImproveTrades(config, row, ep, tried);
    assert ImproveLeg2(config, row, p) in {p, TryImprove(config, row, tried)};
  }

  lemma FillLeg2Trades(config: Config, row: Row, ep: Episode, p: Progress)
    requires Trades(config, row, ep, p) && p.ep.quote2.Some? && 0.0 <= p.ep.filled2
    ensures Trades(config, row, ep, FillLeg2(config, row, p))
  {
  }

  lemma WorkLeg2Trades(config: Config, row: Row, p: Progress)
    requires Trades(config, row, p.ep, p) && Resting(config, p.ep) && p.ep.state == Leg2Working
    ensures Trades(config, row, p.ep, WorkLeg2(config, row, p))
  {
    var ep := p.ep;
    if OrphanLoss(row, ep) > config.maxOrphanLoss {
      FlattenTrades(config, row, ep, p, OrphanLossLimitExceeded);
    } else if row.timestamp - OrElse(ep.fillTs, row.timestamp) > config.maxOrphanSeconds.At(row.timeframe) {
      AbandonTrades(config, row, ep, p, OrphanSecondsExceeded);
    } else if row.timestamp - OrElse(ep.startTs2, row.timestamp) > config.leg2Timeout.At(row.timeframe) {
      AbandonTrades(config, row, ep, p, Reason.Leg2Timeout);
    } else {
      FillLeg2Rests(config, row, p);
      FillLeg2Trades(config, row, ep, p);
      var filled := FillLeg2(config, row, p);
      if filled.ep.filled2 > ep.filled2 && filled.ep.filled2 >= ep.filled1 - EPS {
        CompletionTrades(config, row, ep, filled);
      } else {
        ImproveTrades(config, row, ep, filled);
      }
    }
  }

  lemma ExitTrades(config: Config, row: Row, p: Progress)
    requires Trades(config, row, p.ep, p) && Resting(config, p.ep) && p.ep.state == HedgingDirectionalExit
    ensures Trades(config, row, p.ep, WorkDirectionalExit(config, row, p))
  {
    var ep := p.ep;
    var price := ep.exitQuote.value;
    SellTrades(config, row, ep, p, DirectionalExitTimeout, DirectionalExit);
    CloseTrades(config, row, ep, p.Emit(row, LegFilled(First, Sell, price, ep.Remaining(), 0.0), DirectionalExitFilled),
                ep.terminalReason.value, price, 0.0);
  }

  // ---- first leg ----

  lemma CancelTrades(config: Config, row: Row, ep: Episode, p: Progress, reason: Reason)
    requires Trades(config, row, ep, p)
    ensures Trades(config, row, ep, CancelLeg1(row, p, reason))
  {
    var cancelled := p.With(p.ep.(terminalReason := Some(reason))).Emit(row, OrderCancelled(p.ep.filled1), reason);
    ChangeTrades(config, row, ep, cancelled, Leg1Cancelled, reason);
  }

  lemma RequoteTrades(config: Config, row: Row, p: Progress)
    requires Trades(config, row, p.ep, p) && p.ep.pendingRequote
    ensures Trades(config, row, p.ep, RequoteLeg1(config, row, p))
  {
    CancelTrades(config, row, p.ep, p, NoImproveRoom);
    CancelTrades(config, row, p.ep, p, ExpectedMarginBelowThreshold);
  }

  lemma AfterBuyTrades(config: Config, row: Row, ep: Episode, bought: Progress)
    requires Trades(config, row, ep, bought) && bought.ep.Remaining() > 0.0
    ensures Trades(config, row, ep, AfterBuy(config, row, bought))
  {
    var held := bought.With(bought.ep.(fillTs := Some(row.timestamp))).ChangeState(row, Leg1Filled, Leg1FillReason);
    OpenLeg2Trades(config, row, ep, held);
  }

  lemma FillLeg1Trades(config: Config, row: Row, p: Progress)
    requires Trades(config, row, p.ep, p) && p.ep.filled2 == 0.0 <= p.ep.filled1
    ensures Trades(config, row, p.ep, FillLeg1(config, row, p))
  {
    var size := FillSize(config, p.ep.quote1, row.Side(p.ep.leg1), p.ep.orderSize - p.ep.filled1);
    if size > 0.0 {
      AfterBuyTrades(config, row, p.ep, BuyLeg1(row, p, size));
    }
  }

  lemma WorkLeg1Trades(config: Config, row: Row, p: Progress)
    requires Trades(config, row, p.ep, p) && Resting(config, p.ep) && p.ep.state == Leg1Working
    ensures Trades(config, row, p.ep, WorkLeg1(config, row, p))
  {
    CancelTrades(config, row, p.ep, p, Reason.Leg1Timeout);
    CancelTrades(config, row, p.ep, p, ExpectedMarginBelowThreshold);
    if p.ep.pendingRequote {
      RequoteTrades(config, row, p);
    }
    FillLeg1Trades(config, row, p);
  }

  lemma PathTrades(config: Config, row: Row, p: Progress)
    requires Trades(config, row, p.ep, p) && Resting(config, p.ep)
    ensures Readable(p.ep) && 0.0 <= p.ep.filled2
    ensures Trades(config, row, p.ep, EpisodePath(config, row, p))
  {
    RestingIsReadable(config, p.ep);
    var forced := FlattenReason(config, row, p.ep);
    if p.ep.state == Leg1Working {
      CancelTrades(config, row, p.ep, p, MarketExpiredMidEpisode);
      CancelTrades(config, row, p.ep, p, EmergencyFlattenWindow);
      WorkLeg1Trades(config, row, p);
    } else if forced.Some? {
      FlattenTrades(config, row, p.ep, p, forced.value);
    } else if p.ep.state == Leg2Working {
      WorkLeg2Trades(config, row, p);
    } else if p.ep.state == HedgingDirectionalExit {
      ExitTrades(config, row, p);
    }
  }

  /** The episode a row works on: after a session change a first leg may await a re-quote. */
  function Bound(config: Config, row: Row, bindingChanged: bool, ep: Episode): Progress {
    var start := Progress(ep, Nothing);
    if bindingChanged then Rebind(config, row, start) else start
  }

  lemma BoundTrades(config: Config, row: Row, bindingChanged: bool, ep: Episode)
    ensures var bound := Bound(config, row, bindingChanged, ep);
            && Trades(config, row, bound.ep, bound)
            && bound.ep.quote1 == ep.quote1 && bound.ep.leg1 == ep.leg1
            && (bound.ep.pendingRequote ==> ep.pendingRequote || bindingChanged)
  {
    var start := Progress(ep, Nothing);
    var bound := Bound(config, row, bindingChanged, ep);
    if bound == CancelLeg1(row, start, RequoteLimitExceeded) {
      CancelTrades(config, row, bound.ep, start, RequoteLimitExceeded);
    } else if bound.events.Then? {
      assert bound.events.earlier.Nothing?;
      assert OwnEvent(config, row, bound.ep, bound.events.last);
    }
  }

  /** Everything a row does to a live episode trades and quotes by these rules. */
  lemma StepTrades(config: Config, row: Row, bindingChanged: bool, ep: Episode)
    requires Resting(config, ep)
    ensures Readable(ep) && 0.0 <= ep.filled2
    ensures Trades(config, row, Bound(config, row, bindingChanged, ep).ep, EpisodeStep(config, row, bindingChanged, ep))
  {
    RestingIsReadable(config, ep);
    BoundTrades(config, row, bindingChanged, ep);
    RebindRests(config, row, Progress(ep, Nothing));
    var bound := Bound(config, row, bindingChanged, ep);
    if !bound.ep.state.Terminal() {
      PathTrades(config, row, bound);
    }
  }

  // ---- whole runs ----

  /** What is known of prices: nothing, that they are not negative, that they are positive. */
  datatype Pricing = Unpriced | NotNegative | Positive

  predicate Priced(pricing: Pricing, price: real) {
    match pricing
    case Unpriced => true
    case NotNegative => 0.0 <= price
    case Positive => 0.0 < price
  }

  /** A row whose bids are quoted at such prices; rounding keeps a sign but may reach zero. */
  predicate Quotable(pricing: Pricing, row: Row) {
    match pricing
    case Unpriced => true
    case NotNegative => 0.0 <= row.up.bestBid && 0.0 <= row.down.bestBid
    case Positive => HALF_QUANTUM < row.up.bestBid && HALF_QUANTUM < row.down.bestBid
  }

  /** First-leg shares are bought at such prices, second-leg quotes are raised. */
  predicate Sound(pricing: Pricing, event: Event) {
    event.EpisodeEvent? ==>
      match event.body
      case LegFilled(First, Buy, price, size, _) => Priced(pricing, price) && 0.0 < size
      case QuoteUpdated(Second, Buy, Some(previous), quote) => quote > previous + EPS
      case _ => true
  }

  predicate AllSound(pricing: Pricing, events: seq<Event>) {
    forall i :: 0 <= i < |events| ==> Sound(pricing, events[i])
  }

  ghost predicate AllPriced(pricing: Pricing, m: Machine) {
    forall c :: c in m.episodes ==> Priced(pricing, m.episodes[c].quote1)
  }

  lemma QuoteIsPriced(config: Config, pricing: Pricing, row: Row, outcome: Outcome)
    requires config.Valid() && Quotable(pricing, row)
    ensures var quote := Leg1Quote(row.Side(outcome), config); quote.Some? ==> Priced(pricing, quote.value.price)
  {
  }

  lemma {:induction false} OwnIsSound(config: Config, pricing: Pricing, row: Row, ep: Episode, events: Emitted)
    requires AllOwn(config, row, ep, events) && Priced(pricing, ep.quote1)
    ensures AllSound(pricing, events.ToSeq())
  {
    if events.Then? {
      OwnIsSound(config, pricing, row, ep, events.earlier);
    }
  }

  lemma StepSound(config: Config, pricing: Pricing, row: Row, bindingChanged: bool, ep: Episode)
    requires config.Valid() && Quotable(pricing, row) && Resting(config, ep) && Priced(pricing, ep.quote1)
    ensures Readable(ep) && 0.0 <= ep.filled2
    ensures var q := EpisodeStep(config, row, bindingChanged, ep);
            Priced(pricing, q.ep.quote1) && AllSound(pricing, q.events.ToSeq())
  {
    StepTrades(config, row, bindingChanged, ep);
    BoundTrades(config, row, bindingChanged, ep);
    OwnIsSound(config, pricing, row, Bound(config, row, bindingChanged, ep).ep,
               EpisodeStep(config, row, bindingChanged, ep).events);
    QuoteIsPriced(config, pricing, row, ep.leg1);
  }

  lemma SettledPriced(config: Config, pricing: Pricing, m: Machine, row: Row, q: Progress)
    requires AllPriced(pricing, m) && Priced(pricing, q.ep.quote1)
    ensures AllPriced(pricing, Settled(config, m, row, q).machine)
  {
    if q.ep.state.Terminal() {
      FinalizeShape(config, m, row, q.ep);
    }
  }

  lemma OpeningSound(config: Config, pricing: Pricing, m: Machine, row: Row)
    requires config.Valid() && Quotable(pricing, row) && AllResting(config, m) && AllPriced(pricing, m)
    ensures var r := OpenPath(config, m, row); AllPriced(pricing, r.machine) && AllSound(pricing, r.events)
  {
    var opening := EvaluateOpening(row, config, View(m, row));
    AcceptedOpening(row, config, View(m, row));
    if opening.Accepted() {
      QuoteIsPriced(config, pricing, row, opening.outcome.value);
    }
    OpenedSound(pricing, m, row, opening);
  }

  lemma OpenedSound(pricing: Pricing, m: Machine, row: Row, opening: Opening)
    requires AllPriced(pricing, m)
    requires opening.Accepted() ==> opening.outcome.Some? && opening.quote.Some? && Priced(pricing, opening.quote.value)
    ensures var r := OpenWith(m, row, opening); AllPriced(pricing, r.machine) && AllSound(pricing, r.events)
  {
  }

  lemma RowSound(config: Config, pricing: Pricing, m: Machine, row: Row)
    requires config.Valid() && Quotable(pricing, row) && AllResting(config, m) && AllPriced(pricing, m)
    ensures var r := Evaluate(config, m, row); AllPriced(pricing, r.machine) && AllSound(pricing, r.events)
  {
    if !Dropped(m, row) {
      var noted := NoteBinding(m, row);
      if row.condition in m.episodes {
        StepSound(config, pricing, row, BindingChanged(m, row), m.episodes[row.condition]);
        SettledPriced(config, pricing, noted, row,
                      EpisodeStep(config, row, BindingChanged(m, row), m.episodes[row.condition]));
      } else {
        OpeningSound(config, pricing, noted, row);
      }
    }
  }

  /** Every run buys its first legs at the prices its rows are quoted at. */
  lemma {:induction false} RunSound(config: Config, pricing: Pricing, rows: seq<Row>)
    requires config.Valid() && forall row :: row in rows ==> Quotable(pricing, row)
    ensures var w := Run(config, rows); AllPriced(pricing, w.machine) && AllSound(pricing, w.log)
  {
    if rows != [] {
      RunSound(config, pricing, rows[..|rows| - 1]);
      RowSound(config, pricing, Run(config, rows[..|rows| - 1]).machine, rows[|rows| - 1]);
    }
  }

  // ---- what the stories of a run then say ----

  /** What was bought first cost something, unless it came for nothing. */
  predicate Costly(pricing: Pricing, size: real, cost: real) {
    && 0.0 <= size && 0.0 <= cost && (size == 0.0 ==> cost == 0.0)
    && (pricing == Positive && 0.0 < size ==> 0.0 < cost)
  }

  lemma BuyIsCostly(pricing: Pricing, size: real, cost: real, price: real, more: real)
    requires Costly(pricing, size, cost) && Priced(pricing, price) && pricing != Unpriced && 0.0 < more
    ensures Costly(pricing, size + more, cost + Paid(price, more))
  {
    assert Paid(price, more) >= 0.0;
    assert pricing == Positive ==> Paid(price, more) > 0.0;
  }

  lemma TellCostly(pricing: Pricing, s: Story, event: Event)
    requires pricing != Unpriced && Sound(pricing, event)
    requires s.Story? ==> Costly(pricing, s.size1, s.cost1)
    ensures Tell(s, event).Story? ==> Costly(pricing, Tell(s, event).size1, Tell(s, event).cost1)
  {
    if s.Story? && event.EpisodeEvent? && event.body.LegFilled? && event.body.leg == First && event.body.trade == Buy {
      BuyIsCostly(pricing, s.size1, s.cost1, event.body.price, event.body.size);
    }
  }

  lemma {:induction false} HistoryCostly(pricing: Pricing, log: seq<Event>, id: EpisodeId)
    requires pricing != Unpriced && AllSound(pricing, log)
    ensures var s := History(log, id); s.Story? ==> Costly(pricing, s.size1, s.cost1)
  {
    if log != [] {
      var earlier, last := log[..|log| - 1], log[|log| - 1];
      assert log == earlier + [last];
      HistoryCostly(pricing, earlier, id);
      HistoryMore(earlier, last, id);
      TellCostly(pricing, History(earlier, id), last);
    }
  }

  predicate SecondQuote(event: Event, id: EpisodeId) {
    && About(event, id)
    && event.body.QuoteUpdated? && event.body.leg == Second && event.body.trade == Buy
  }

  /** Telling a further event never lowers the second-leg quote. */
  lemma QuoteNeverFalls(s: Story, event: Event)
    requires Sound(Unpriced, event) && s.Story? && s.quote2.Some? && Tell(s, event).Story?
    ensures Tell(s, event).quote2.Some? && s.quote2.value <= Tell(s, event).quote2.value
    ensures SecondQuote(event, s.id) ==> s.quote2.value < event.body.quote
  {
  }

  lemma {:induction false} QuotesBounded(log: seq<Event>, i: nat, id: EpisodeId)
    requires AllSound(Unpriced, log) && i < |log| && SecondQuote(log[i], id) && History(log, id).Story?
    ensures History(log, id).quote2.Some? && log[i].body.quote <= History(log, id).quote2.value
  {
    var earlier, last := log[..|log| - 1], log[|log| - 1];
    assert log == earlier + [last];
    HistoryMore(earlier, last, id);
    if i < |earlier| {
      NumbersBounded(earlier, i, id);
      QuotesBounded(earlier, i, id);
      if About(last, id) {
        QuoteNeverFalls(History(earlier, id), last);
      }
    }
  }

  lemma {:induction false} QuotesRise(log: seq<Event>, i: nat, j: nat, id: EpisodeId)
    requires AllSound(Unpriced, log) && i < j < |log| && SecondQuote(log[i], id) && SecondQuote(log[j], id)
    requires History(log, id).Story?
    ensures log[i].body.quote < log[j].body.quote
  {
    var earlier, last := log[..|log| - 1], log[|log| - 1];
    assert log == earlier + [last];
    HistoryMore(earlier, last, id);
    NumbersBounded(earlier, i, id);
    if j < |earlier| {
      QuotesRise(earlier, i, j, id);
    } else {
      QuotesBounded(earlier, i, id);
      QuoteNeverFalls(History(earlier, id), last);
    }
  }

  /** In the log of any run, the second-leg quotes of one episode strictly rise. */
  lemma SecondQuotesRise(config: Config, rows: seq<Row>, i: nat, j: nat, id: EpisodeId)
    requires config.Valid() && i < j < |Run(config, rows).log|
    requires SecondQuote(Run(config, rows).log[i], id) && SecondQuote(Run(config, rows).log[j], id)
    ensures Run(config, rows).log[i].body.quote < Run(config, rows).log[j].body.quote
  {
    var log := Run(config, rows).log;
    RunRecorded(config, rows);
    RunSound(config, Unpriced, rows);
    NumbersBounded(log, i, id);
    QuotesRise(log, i, j, id);
  }
}
