/** Replaying an episode's audit events. The fold below knows nothing of the machine: it
    rebuilds state, quotes, sizes and money from the log, and the lemmas show that what it
    rebuilds is the episode, and that the recorded result is the cash that moved. */
module MakerStory {
  import opened Numbers
  import opened Options
  import opened MakerData
  import opened MakerOpening
  import opened MakerEpisodes
  import opened MakerResting

  datatype Story =
    | Untold
    | Garbled
    | Story(id: EpisodeId, state: State, outcome: Outcome, orderSize: real,
            quote1: real, quote2: Option<real>, exitQuote: Option<real>, requotes: int,
            size1: real, cost1: real, size2: real, cost2: real,
            sold: real, proceeds: real, fees: real, result: Option<real>, number: nat)

  /** Add one event. It must be about the same episode, carry the next number, start from the state reached and
      replace the quote in force; otherwise the story is garbled for good. */
  function Tell(story: Story, event: Event): Story {
    if !event.EpisodeEvent? then Garbled
    else if event.body.Opened? then
      if story != Untold || event.number != 1 then Garbled
      else Story(event.episode, Leg1Working, event.body.outcome, event.body.size, event.body.price, None, None, 0,
                 0.0, 0.0, 0.0, 0.0, 0.0, 0.0, 0.0, None, 1)
    else if !story.Story? || event.episode != story.id || event.number != story.number + 1 then Garbled
    else TellBody(story.(number := event.number), event.body)
  }

  function TellBody(s: Story, body: EventBody): Story
    requires s.Story?
  {
    match body
    case Opened(_, _, _) => Garbled
    case StateChange(before, after) => if before == s.state then s.(state := after) else Garbled
    case LegFilled(leg, trade, price, size, fee) =>
      var paid := s.(fees := s.fees + fee);
      if trade == Sell then
        if leg == First then paid.(sold := s.sold + size, proceeds := s.proceeds + Paid(price, size)) else Garbled
      else if leg == First then paid.(size1 := s.size1 + size, cost1 := s.cost1 + Paid(price, size))
      else paid.(size2 := s.size2 + size, cost2 := s.cost2 + Paid(price, size))
    case QuoteUpdated(leg, trade, previous, quote) =>
      if leg == First && trade == Buy && previous == Some(s.quote1) then s.(quote1 := quote)
      else if leg == Second && trade == Buy && previous == s.quote2 then s.(quote2 := Some(quote))
      else if leg == First && trade == Sell && previous == s.exitQuote then s.(exitQuote := Some(quote))
      else Garbled
    case Requoted(count) => if count == s.requotes + 1 then s.(requotes := count) else Garbled
    case OrderCancelled(filled) => if filled == s.size1 then s else Garbled
    case EpisodeCompleted(pnl) => s.(result := Some(pnl))
    case EpisodeClosedWithLoss(pnl) => s.(result := Some(pnl))
  }

  function TellAll(start: Story, events: seq<Event>): Story {
    if events == [] then start
    else Tell(TellAll(start, events[..|events| - 1]), events[|events| - 1])
  }

  function TellEmitted(start: Story, events: Emitted): Story {
    if events.Nothing? then start else Tell(TellEmitted(start, events.earlier), events.last)
  }

  lemma TellMore(start: Story, events: seq<Event>, event: Event)
    ensures TellAll(start, events + [event]) == Tell(TellAll(start, events), event)
  {
    assert (events + [event])[..|events|] == events;
  }

  lemma {:induction false} TellInTwo(start: Story, a: seq<Event>, b: seq<Event>)
    ensures TellAll(start, a + b) == TellAll(TellAll(start, a), b)
  {
    if b == [] {
      assert a + b == a;
    } else {
      var n := |b| - 1;
      assert (a + b)[..|a + b| - 1] == a + b[..n];
      TellInTwo(start, a, b[..n]);
    }
  }

  lemma {:induction false} TellEmittedIsTellAll(start: Story, events: Emitted)
    ensures TellEmitted(start, events) == TellAll(start, events.ToSeq())
  {
    if events.Then? {
      var earlier := events.earlier.ToSeq();
      TellEmittedIsTellAll(start, events.earlier);
      TellMore(start, earlier, events.last);
      assert events.ToSeq() == earlier + [events.last];
    }
  }

  // ---- the story an episode should have ----

  function StoryOf(ep: Episode, sold: real, proceeds: real, fees: real, result: Option<real>): Story {
    Story(ep.id, ep.state, ep.leg1, ep.orderSize, ep.quote1, ep.quote2, ep.exitQuote, ep.requotes,
          ep.filled1, ep.cost1, ep.filled2, ep.cost2, sold, proceeds, fees, result, ep.eventSequence)
  }

  function LiveStory(ep: Episode): Story {
    StoryOf(ep, 0.0, 0.0, 0.0, None)
  }

  /** One dollar per completed pair, plus sales, less purchases, fees and gas per share bought. */
  function Cash(config: Config, s: Story): real
    requires s.Story?
  {
    s.size2 + s.proceeds - s.cost1 - s.cost2 - s.fees - (s.size1 + s.size2) * config.gasPerShare
  }

  /** A sold-out or completed episode: what was bought first is paired or sold, and the
      result is the cash, but for the cost of at most `EPS` shares written off on completion. */
  predicate EndedStory(config: Config, s: Story, ep: Episode) {
    match ep.state
    case Leg1Cancelled => s == LiveStory(ep)
    case Complete =>
      && s == StoryOf(ep, 0.0, 0.0, ep.hedgeFee, Some(ep.pnl))
      && ep.pnl == Cash(config, s) + (s.size1 - s.size2) * (ep.Avg1() + config.gasPerShare)
    case ClosedWithLoss =>
      && s.Story?
      && s == StoryOf(ep, s.size1 - s.size2, s.proceeds, s.fees, Some(ep.pnl))
      && ep.pnl == Cash(config, s)
    case _ => false
  }

  predicate Recounts(config: Config, start: Story, p: Progress) {
    var s := TellEmitted(start, p.events);
    if p.ep.state.Terminal() then EndedStory(config, s, p.ep) else s == LiveStory(p.ep)
  }

  lemma AverageTimesSize(ep: Episode)
    requires Costed(ep)
    ensures ep.filled1 * ep.Avg1() == ep.cost1 && ep.filled2 * ep.Avg2() == ep.cost2
  {
  }

  lemma PairCash(a1: real, a2: real, f1: real, f2: real, fee: real, gas: real)
    ensures f2 * (1.0 - (a1 + a2)) - fee - f2 * 2.0 * gas
            == f2 - f1 * a1 - f2 * a2 - fee - (f1 + f2) * gas + (f1 - f2) * (a1 + gas)
  {
  }

  lemma ExitCash(a1: real, a2: real, f1: real, f2: real, price: real, fee: real, gas: real)
    ensures f2 * (1.0 - a1 - a2) + (f1 - f2) * (price - a1) - fee - (f1 + f2) * gas
            == f2 + price * (f1 - f2) - f1 * a1 - f2 * a2 - fee - (f1 + f2) * gas
  {
  }

  /** What completing records is the cash of the pairs, but for the unpaired remainder. */
  lemma CompletionPnlIsCash(config: Config, ep: Episode, s: Story)
    requires Costed(ep) && ep.filled2 <= ep.filled1
    requires s.Story? && s.size1 == ep.filled1 && s.size2 == ep.filled2 && s.cost1 == ep.cost1 && s.cost2 == ep.cost2
    requires s.proceeds == 0.0 && s.fees == ep.hedgeFee
    ensures CompletionPnl(config, ep) == Cash(config, s) + (s.size1 - s.size2) * (ep.Avg1() + config.gasPerShare)
  {
    AverageTimesSize(ep);
    PairCash(ep.Avg1(), ep.Avg2(), ep.filled1, ep.filled2, ep.hedgeFee, config.gasPerShare);
  }

  /** What closing records is exactly the cash of pairs and sales. */
  lemma ClosingPnlIsCash(config: Config, ep: Episode, price: real, fee: real, s: Story)
    requires Costed(ep) && 0.0 <= ep.filled2 <= ep.filled1 && ep.hedgeFee == 0.0
    requires s.Story? && s.size1 == ep.filled1 && s.size2 == ep.filled2 && s.cost1 == ep.cost1 && s.cost2 == ep.cost2
    requires s.proceeds == Paid(price, ep.Remaining()) && s.fees == fee
    ensures ClosingPnl(config, ep, price, fee) == Cash(config, s)
  {
    AverageTimesSize(ep);
    ExitCash(ep.Avg1(), ep.Avg2(), ep.filled1, ep.filled2, price, fee, config.gasPerShare);
  }

  lemma CompletionTells(config: Config, row: Row, start: Story, p: Progress)
    requires TellEmitted(start, p.events) == StoryOf(p.ep, 0.0, 0.0, p.ep.hedgeFee, None)
    requires Costed(p.ep) && p.ep.filled2 <= p.ep.filled1
    ensures Recounts(config, start, CompleteMaker(config, row, p))
  {
    var pnl := CompletionPnl(config, p.ep);
    CompletionPnlIsCash(config, p.ep, StoryOf(CompleteWith(row, p, pnl).ep, 0.0, 0.0, p.ep.hedgeFee, Some(pnl)));
  }

  lemma CloseTells(config: Config, row: Row, start: Story, p: Progress, reason: Reason, price: real, fee: real)
    requires TellEmitted(start, p.events) == StoryOf(p.ep, p.ep.Remaining(), Paid(price, p.ep.Remaining()), fee, None)
    requires Costed(p.ep) && 0.0 <= p.ep.filled2 <= p.ep.filled1 && p.ep.hedgeFee == 0.0
    ensures Recounts(config, start, CloseWithLoss(config, row, p, reason, price, fee))
  {
    var ep := p.ep;
    var pnl, proceeds := ClosingPnl(config, ep, price, fee), Paid(price, ep.Remaining());
    ClosingPnlIsCash(config, ep, price, fee,
                     StoryOf(CloseWith(row, p, reason, pnl).ep, ep.Remaining(), proceeds, fee, Some(pnl)));
  }

  lemma SellTells(config: Config, row: Row, start: Story, p: Progress, reason: Reason, path: ExitPath, price: real,
                  fee: real)
    requires TellEmitted(start, p.events) == LiveStory(p.ep)
    requires Costed(p.ep) && 0.0 <= p.ep.filled2 <= p.ep.filled1 && p.ep.hedgeFee == 0.0
    ensures Recounts(config, start, SellRest(config, row, p, reason, path, price, fee))
  {
    var marked := p.With(p.ep.(exitPath := Some(path), terminalReason := Some(reason)));
    CloseTells(config, row, start, marked.Emit(row, LegFilled(First, Sell, price, p.ep.Remaining(), fee), TakerExit),
               reason, price, fee);
  }

  lemma FlattenTakerTells(config: Config, row: Row, start: Story, p: Progress, reason: Reason, path: ExitPath)
    requires TellEmitted(start, p.events) == LiveStory(p.ep)
    requires Costed(p.ep) && 0.0 <= p.ep.filled2 <= p.ep.filled1 && p.ep.hedgeFee == 0.0
    ensures Recounts(config, start, FlattenTaker(config, row, p, reason, path))
  {
    var price := row.BidVwap(p.ep.leg1, Max(p.ep.Remaining(), EPS));
    SellTells(config, row, start, p, reason, path, price,
              TakerFeeTotal(price, p.ep.Remaining(), row.FeeRate(config)));
  }

  lemma FlattenTells(config: Config, row: Row, start: Story, p: Progress, reason: Reason)
    requires TellEmitted(start, p.events) == LiveStory(p.ep)
    requires Costed(p.ep) && 0.0 <= p.ep.filled2 <= p.ep.filled1 && p.ep.hedgeFee == 0.0
    ensures Recounts(config, start, Flatten(config, row, p, reason))
  {
    var marked := p.With(p.ep.(exitPath := Some(EmergencyExit), terminalReason := Some(reason)));
    FlattenTakerTells(config, row, start, marked.ChangeState(row, EmergencyFlatten, reason), reason, EmergencyExit);
  }

  lemma HedgeTells(config: Config, row: Row, start: Story, p: Progress, reason: Reason, price: real, fee: real)
    requires TellEmitted(start, p.events) == LiveStory(p.ep)
    requires Costed(p.ep) && HalfDone(config, p.ep)
    ensures Recounts(config, start, HedgeAt(config, row, p, reason, price, fee))
  {
    var ep := p.ep;
    var hedged := p.With(ep.(cost2 := ep.cost2 + Paid(price, ep.Remaining()),
                             filled2 := ep.filled2 + ep.Remaining(), hedgeFee := fee,
                             exitPath := Some(TakerHedge), terminalReason := Some(reason)));
    CompletionTells(config, row, start,
                    hedged.Emit(row, LegFilled(Second, Buy, price, ep.Remaining(), fee), TakerHedgeReason));
  }

  lemma AbandonTells(config: Config, row: Row, start: Story, p: Progress, reason: Reason)
    requires TellEmitted(start, p.events) == LiveStory(p.ep)
    requires Costed(p.ep) && HalfDone(config, p.ep) && p.ep.state == Leg2Working && p.ep.exitQuote.None?
    ensures Recounts(config, start, AbandonLeg2(config, row, p, reason))
  {
    if HedgeMargin(config, row, p.ep) >= config.minHedgeExitMargin {
      var price := row.AskVwap(p.ep.leg1.Opposite(), p.ep.Remaining());
      HedgeTells(config, row, start, p, reason, price, TakerFeeTotal(price, p.ep.Remaining(), row.FeeRate(config)));
    } else {
      DirectionalTells(config, row, start, p, reason);
    }
  }

  lemma DirectionalTells(config: Config, row: Row, start: Story, p: Progress, reason: Reason)
    requires TellEmitted(start, p.events) == LiveStory(p.ep)
    requires p.ep.state == Leg2Working && p.ep.exitQuote.None?
    ensures Recounts(config, start, OpenDirectionalExit(config, row, p, reason))
  {
  }

  lemma OpenLeg2Tells(config: Config, row: Row, start: Story, p: Progress)
    requires TellEmitted(start, p.events) == LiveStory(p.ep)
    requires p.ep.filled2 == 0.0 < p.ep.filled1 <= p.ep.orderSize && p.ep.fillTs.Some?
    requires FilledEnough(config, p.ep.filled1, p.ep.orderSize)
    requires Costed(p.ep) && p.ep.quote2.None? && p.ep.exitQuote.None?
    ensures Recounts(config, start, OpenLeg2(config, row, p))
  {
    var ep := p.ep;
    var maxPrice := Leg2MaxPrice(ep.Avg1(), config);
    if maxPrice <= row.Side(ep.leg1.Opposite()).bestBid + EPS {
      var marked := p.With(ep.(maxPrice2 := Some(maxPrice), startTs2 := Some(row.timestamp),
                               lastImproveTs2 := Some(row.timestamp), attempts2 := 0));
      AbandonTells(config, row, start, marked.ChangeState(row, Leg2Working, Leg2Opened), Leg2MaxPriceBelowBid);
    }
  }

  lemma CancelTells(config: Config, row: Row, start: Story, p: Progress, reason: Reason)
    requires TellEmitted(start, p.events) == LiveStory(p.ep)
    ensures Recounts(config, start, CancelLeg1(row, p, reason))
  {
  }

  lemma BuyLeg1Tells(row: Row, start: Story, p: Progress, size: real)
    requires TellEmitted(start, p.events) == LiveStory(p.ep)
    ensures var q := BuyLeg1(row, p, size); TellEmitted(start, q.events) == LiveStory(q.ep)
  {
  }

  lemma FillLeg1Tells(config: Config, row: Row, start: Story, p: Progress)
    requires TellEmitted(start, p.events) == LiveStory(p.ep)
    requires Resting(config, p.ep) && p.ep.state == Leg1Working
    ensures Recounts(config, start, FillLeg1(config, row, p))
  {
    var ep := p.ep;
    var size := FillSize(config, ep.quote1, row.Side(ep.leg1), ep.orderSize - ep.filled1);
    var filled := TakeFill(config, row, p, size);
    assert FillLeg1(config, row, p) == filled;
    TakeFillTells(config, row, start, p, size);
    assert Recounts(config, start, filled);
  }

  lemma TakeFillTells(config: Config, row: Row, start: Story, p: Progress, size: real)
    requires TellEmitted(start, p.events) == LiveStory(p.ep)
    requires Resting(config, p.ep) && p.ep.state == Leg1Working
             && (size <= 0.0 || size <= p.ep.orderSize - p.ep.filled1)
    ensures p.ep.filled2 == 0.0 <= p.ep.filled1
    ensures Recounts(config, start, TakeFill(config, row, p, size))
  {
    if size > 0.0 {
      BuyLeg1Tells(row, start, p, size);
      BoughtTells(config, row, start, BuyLeg1(row, p, size));
    }
  }

  lemma BoughtTells(config: Config, row: Row, start: Story, bought: Progress)
    requires TellEmitted(start, bought.events) == LiveStory(bought.ep) && bought.ep.state == Leg1Working
    requires bought.ep.filled2 == 0.0 < bought.ep.filled1 <= bought.ep.orderSize && Costed(bought.ep)
    requires bought.ep.quote2.None? && bought.ep.exitQuote.None?
    ensures Recounts(config, start, AfterBuy(config, row, bought))
  {
    if FilledEnough(config, bought.ep.filled1, bought.ep.orderSize) {
      StartPairTells(config, row, start, bought);
    }
  }

  lemma StartPairTells(config: Config, row: Row, start: Story, p: Progress)
    requires TellEmitted(start, p.events) == LiveStory(p.ep)
    requires p.ep.filled2 == 0.0 < p.ep.filled1 <= p.ep.orderSize && FilledEnough(config, p.ep.filled1, p.ep.orderSize)
    requires Costed(p.ep) && p.ep.quote2.None? && p.ep.exitQuote.None?
    ensures Recounts(config, start, StartPair(config, row, p))
  {
    OpenLeg2Tells(config, row, start,
                  p.With(p.ep.(fillTs := Some(row.timestamp))).ChangeState(row, Leg1Filled, Leg1FillReason));
  }

  lemma WorkLeg1Tells(config: Config, row: Row, start: Story, p: Progress)
    requires TellEmitted(start, p.events) == LiveStory(p.ep)
    requires Resting(config, p.ep) && p.ep.state == Leg1Working
    ensures Recounts(config, start, WorkLeg1(config, row, p))
  {
    CancelTells(config, row, start, p, Reason.Leg1Timeout);
    CancelTells(config, row, start, p, ExpectedMarginBelowThreshold);
    RequoteTells(config, row, start, p);
    FillLeg1Tells(config, row, start, p);
    assert WorkLeg1(config, row, p)
           in {CancelLeg1(row, p, Reason.Leg1Timeout), CancelLeg1(row, p, ExpectedMarginBelowThreshold), p,
               RequoteLeg1(config, row, p), FillLeg1(config, row, p)};
  }

  lemma RequoteTells(config: Config, row: Row, start: Story, p: Progress)
    requires TellEmitted(start, p.events) == LiveStory(p.ep)
    requires Resting(config, p.ep) && p.ep.state == Leg1Working
    ensures Recounts(config, start, RequoteLeg1(config, row, p))
  {
  }

  lemma RaiseTells(config: Config, row: Row, start: Story, p: Progress, quote: real)
    requires TellEmitted(start, p.events) == LiveStory(p.ep)
    requires p.ep.state == Leg2Working && p.ep.quote2.Some?
    ensures Recounts(config, start, RaiseQuote(row, p, quote))
  {
  }

  lemma TryImproveTells(config: Config, row: Row, start: Story, p: Progress)
    requires TellEmitted(start, p.events) == LiveStory(p.ep)
    requires Resting(config, p.ep) && p.ep.state == Leg2Working
    ensures Recounts(config, start, TryImprove(config, row, p))
  {
    var maxPrice := Leg2MaxPrice(p.ep.Avg1(), config);
    var side := row.Side(p.ep.leg1.Opposite());
    var capped := p.With(p.ep.(maxPrice2 := Some(maxPrice)));
    if p.ep.attempts2 > config.leg2MaxImproves {
      AbandonTells(config, row, start, p, Leg2ImprovesExhausted);
    } else if maxPrice <= side.bestBid + EPS {
      AbandonTells(config, row, start, capped, Leg2MaxPriceBelowBid);
    } else {
      RaiseTells(config, row, start, capped,
                 Leg2Quote(config, side, config.leg2StepTicks.At(row.timeframe) as real, maxPrice));
    }
  }

  lemma ImproveTells(config: Config, row: Row, start: Story, p: Progress)
    requires TellEmitted(start, p.events) == LiveStory(p.ep)
    requires Resting(config, p.ep) && p.ep.state == Leg2Working
    ensures Recounts(config, start, ImproveLeg2(config, row, p))
  {
    var tried := p.With(p.ep.(attempts2 := p.ep.attempts2 + 1, lastImproveTs2 := Some(row.timestamp)));
    TryImproveTells(config, row, start, tried);
    assert ImproveLeg2(config, row, p) in {p, TryImprove(config, row, tried)};
  }

  lemma FillLeg2Tells(config: Config, row: Row, start: Story, p: Progress)
    requires TellEmitted(start, p.events) == LiveStory(p.ep)
    requires Resting(config, p.ep) && p.ep.state == Leg2Working
    ensures var q := FillLeg2(config, row, p); TellEmitted(start, q.events) == LiveStory(q.ep)
  {
  }

  lemma WorkLeg2Tells(config: Config, row: Row, start: Story, p: Progress)
    requires TellEmitted(start, p.events) == LiveStory(p.ep)
    requires Resting(config, p.ep) && p.ep.state == Leg2Working
    ensures Recounts(config, start, WorkLeg2(config, row, p))
  {
    var ep := p.ep;
    if OrphanLoss(row, ep) > config.maxOrphanLoss {
      FlattenTells(config, row, start, p, OrphanLossLimitExceeded);
    } else if row.timestamp - OrElse(ep.fillTs, row.timestamp) > config.maxOrphanSeconds.At(row.timeframe) {
      AbandonTells(config, row, start, p, OrphanSecondsExceeded);
    } else if row.timestamp - OrElse(ep.startTs2, row.timestamp) > config.leg2Timeout.At(row.timeframe) {
      AbandonTells(config, row, start, p, Reason.Leg2Timeout);
    } else {
      FillLeg2Rests(config, row, p);
      FillLeg2Tells(config, row, start, p);
      var filled := FillLeg2(config, row, p);
      if filled.ep.filled2 > ep.filled2 && filled.ep.filled2 >= ep.filled1 - EPS {
        CompletionTells(config, row, start, filled);
      } else {
        ImproveTells(config, row, start, filled);
      }
    }
  }

  lemma ExitTells(config: Config, row: Row, start: Story, p: Progress)
    requires TellEmitted(start, p.events) == LiveStory(p.ep)
    requires Resting(config, p.ep) && p.ep.state == HedgingDirectionalExit
    ensures Recounts(config, start, WorkDirectionalExit(config, row, p))
  {
    var ep := p.ep;
    var price := ep.exitQuote.value;
    FlattenTakerTells(config, row, start, p, DirectionalExitTimeout, DirectionalExit);
    CloseTells(config, row, start,
               p.Emit(row, LegFilled(First, Sell, price, ep.Remaining(), 0.0), DirectionalExitFilled),
               ep.terminalReason.value, price, 0.0);
  }

  lemma PathTells(config: Config, row: Row, start: Story, p: Progress)
    requires TellEmitted(start, p.events) == LiveStory(p.ep)
    requires Resting(config, p.ep)
    ensures Recounts(config, start, EpisodePath(config, row, p))
  {
    RestingIsReadable(config, p.ep);
    var forced := FlattenReason(config, row, p.ep);
    if p.ep.state == Leg1Working {
      CancelTells(config, row, start, p, MarketExpiredMidEpisode);
      CancelTells(config, row, start, p, EmergencyFlattenWindow);
      WorkLeg1Tells(config, row, start, p);
    } else if forced.Some? {
      FlattenTells(config, row, start, p, forced.value);
    } else if p.ep.state == Leg2Working {
      WorkLeg2Tells(config, row, start, p);
    } else if p.ep.state == HedgingDirectionalExit {
      ExitTells(config, row, start, p);
    }
  }

  lemma RebindTells(config: Config, row: Row, start: Story, p: Progress)
    requires TellEmitted(start, p.events) == LiveStory(p.ep)
    requires Resting(config, p.ep)
    ensures Recounts(config, start, Rebind(config, row, p))
  {
  }

  /** One row extends the story of a live episode to exactly the episode it leaves behind. */
  lemma StepTells(config: Config, row: Row, bindingChanged: bool, ep: Episode)
    requires Resting(config, ep)
    ensures Readable(ep) && 0.0 <= ep.filled2
    ensures Recounts(config, LiveStory(ep), EpisodeStep(config, row, bindingChanged, ep))
  {
    RestingIsReadable(config, ep);
    var start := Progress(ep, Nothing);
    var bound := if bindingChanged then Rebind(config, row, start) else start;
    RebindRests(config, row, start);
    RebindTells(config, row, LiveStory(ep), start);
    if !bound.ep.state.Terminal() {
      PathTells(config, row, LiveStory(ep), bound);
    }
  }
}
