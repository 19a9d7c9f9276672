/** The shape every live episode has between two rows, and every ended one has for
    good. It is inductive: one row takes a resting episode to a resting or an ended one. */
module MakerResting {
  import opened Options
  import opened MakerData
  import opened MakerOpening
  import opened MakerEpisodes

  /** A first leg still too small to start the second. */
  predicate Unready(config: Config, ep: Episode) {
    ep.filled2 == 0.0 && (ep.filled1 == 0.0
                          || (0.0 < ep.filled1 && !FilledEnough(config, ep.filled1, ep.orderSize)))
  }

  /** A first leg large enough, not yet matched by the second. */
  predicate HalfDone(config: Config, ep: Episode) {
    && 0.0 <= ep.filled2 < ep.filled1 <= ep.orderSize
    && FilledEnough(config, ep.filled1, ep.orderSize)
    && ep.fillTs.Some? && ep.startTs2.Some?
  }

  /** Nothing bought costs nothing. */
  predicate Costed(ep: Episode) {
    (ep.filled1 == 0.0 ==> ep.cost1 == 0.0) && (ep.filled2 == 0.0 ==> ep.cost2 == 0.0)
  }

  predicate Resting(config: Config, ep: Episode) {
    && Costed(ep)
    && ep.hedgeFee == 0.0 && ep.pnl == 0.0 && 0 <= ep.requotes
    && ep.requotes <= (if config.maxLeg1Requotes < 0 then 0 else config.maxLeg1Requotes)
    && match ep.state
       case Leg1Working =>
         && Unready(config, ep)
         && ep.quote2.None? && ep.fillTs.None? && ep.exitPath.None? && ep.forcedExit.None?
         && ep.exitQuote.None? && ep.terminalReason.None?
       case Leg1Filled =>
         && Unready(config, ep) && ep.filled1 > EPS
         && ep.quote2.None? && ep.fillTs.None? && ep.exitPath.None? && ep.forcedExit.Some?
         && ep.exitQuote.None? && ep.terminalReason.None?
       case Leg2Working =>
         && HalfDone(config, ep)
         && ep.quote2.Some? && ep.lastImproveTs2.Some?
         && ep.maxPrice2 == Some(Leg2MaxPrice(ep.Avg1(), config))
         && ep.quote2.value <= Leg2MaxPrice(ep.Avg1(), config) + HALF_QUANTUM
         && ep.exitPath.None? && ep.exitQuote.None? && ep.terminalReason.None?
       case HedgingDirectionalExit =>
         && HalfDone(config, ep)
         && ep.exitPath == Some(DirectionalExit)
         && ep.exitQuote.Some? && ep.exitStartTs.Some? && ep.terminalReason.Some?
       case _ => false
  }

  predicate Ended(config: Config, ep: Episode) {
    match ep.state
    case Leg1Cancelled => Costed(ep) && Unready(config, ep) && ep.pnl == 0.0 && ep.exitPath.None?
    case Complete =>
      && ep.exitPath in {Some(MakerComplete), Some(TakerHedge)}
      && FilledEnough(config, ep.filled1, ep.orderSize)
      && 0.0 < ep.filled2 <= ep.filled1 <= ep.orderSize
      && ep.filled1 <= ep.filled2 + EPS
      && (ep.exitPath == Some(TakerHedge) ==> ep.filled1 == ep.filled2)
    case ClosedWithLoss =>
      && ep.exitPath in {Some(DirectionalExit), Some(EmergencyExit)}
      && (HalfDone(config, ep) || (Unready(config, ep) && ep.filled1 > EPS))
    case _ => false
  }

  predicate RestingOrEnded(config: Config, ep: Episode) {
    Resting(config, ep) || Ended(config, ep)
  }

  /** What no row changes about an episode. */
  predicate SameEpisode(a: Episode, b: Episode) {
    && a.id == b.id && a.market == b.market && a.condition == b.condition
    && a.leg1 == b.leg1 && a.orderSize == b.orderSize && a.openedTs == b.openedTs
  }

  predicate SameIdentity(a: Episode, b: Episode) {
    SameEpisode(a, b) && a.binding == b.binding
  }

  lemma RestingIsReadable(config: Config, ep: Episode)
    requires Resting(config, ep)
    ensures Readable(ep) && 0.0 <= ep.filled2 && !ep.state.Terminal()
  {
  }

  lemma FlattenEnds(config: Config, row: Row, p: Progress, reason: Reason)
    requires Resting(config, p.ep) && p.ep.filled1 > p.ep.filled2
    requires p.ep.state != Leg1Working
    ensures var q := Flatten(config, row, p, reason);
            Ended(config, q.ep) && q.ep.state == ClosedWithLoss && SameIdentity(p.ep, q.ep)
  {
  }

  /** The state, exit path and sizes an ended pair is left with. */
  lemma CompletionEnds(config: Config, row: Row, p: Progress)
    ensures var q := CompleteMaker(config, row, p).ep;
            && q.state == Complete && q.exitPath == Some(p.ep.exitPath.GetOr(MakerComplete))
            && q.filled1 == p.ep.filled1 && q.filled2 == p.ep.filled2 && SameIdentity(p.ep, q)
  {
  }

  lemma HedgeEnds(config: Config, row: Row, p: Progress, reason: Reason, price: real, fee: real)
    requires HalfDone(config, p.ep)
    ensures var q := HedgeAt(config, row, p, reason, price, fee).ep;
            Ended(config, q) && SameIdentity(p.ep, q) && q.state == Complete
  {
  }

  lemma AbandonRests(config: Config, row: Row, p: Progress, reason: Reason)
    requires HalfDone(config, p.ep) && p.ep.state == Leg2Working
    requires Costed(p.ep) && p.ep.hedgeFee == 0.0 && p.ep.pnl == 0.0 && 0 <= p.ep.requotes
    requires p.ep.requotes <= (if config.maxLeg1Requotes < 0 then 0 else config.maxLeg1Requotes)
    ensures var q := AbandonLeg2(config, row, p, reason);
            RestingOrEnded(config, q.ep) && SameIdentity(p.ep, q.ep)
            && q.ep.state in {Complete, HedgingDirectionalExit}
  {
    var price := row.AskVwap(p.ep.leg1.Opposite(), p.ep.Remaining());
    HedgeEnds(config, row, p, reason, price, TakerFeeTotal(price, p.ep.Remaining(), row.FeeRate(config)));
  }

  lemma OpenLeg2Rests(config: Config, row: Row, p: Progress)
    requires p.ep.state == Leg1Filled && p.ep.fillTs.Some?
    requires p.ep.filled2 == 0.0 < p.ep.filled1 <= p.ep.orderSize
    requires FilledEnough(config, p.ep.filled1, p.ep.orderSize)
    requires Costed(p.ep) && p.ep.hedgeFee == 0.0 && p.ep.pnl == 0.0 && 0 <= p.ep.requotes
    requires p.ep.requotes <= (if config.maxLeg1Requotes < 0 then 0 else config.maxLeg1Requotes)
    requires p.ep.exitPath.None? && p.ep.exitQuote.None? && p.ep.terminalReason.None?
    ensures var q := OpenLeg2(config, row, p);
            RestingOrEnded(config, q.ep) && SameIdentity(p.ep, q.ep)
  {
  }

  lemma FillLeg1Rests(config: Config, row: Row, p: Progress)
    requires Resting(config, p.ep) && p.ep.state == Leg1Working
    ensures var q := FillLeg1(config, row, p);
            RestingOrEnded(config, q.ep) && SameIdentity(p.ep, q.ep)
  {
    var ep := p.ep;
    var size := FillSize(config, ep.quote1, row.Side(ep.leg1), ep.orderSize - ep.filled1);
    var filled := TakeFill(config, row, p, size);
    assert FillLeg1(config, row, p) == filled;
    TakeFillRests(config, row, p, size);
    assert RestingOrEnded(config, filled.ep) && SameIdentity(ep, filled.ep);
  }

  lemma TakeFillRests(config: Config, row: Row, p: Progress, size: real)
    requires Resting(config, p.ep) && p.ep.state == Leg1Working
             && (size <= 0.0 || size <= p.ep.orderSize - p.ep.filled1)
    ensures p.ep.filled2 == 0.0 <= p.ep.filled1
    ensures var q := TakeFill(config, row, p, size);
            RestingOrEnded(config, q.ep) && SameIdentity(p.ep, q.ep)
  {
    if size > 0.0 {
      AfterBuyRests(config, row, p, size);
    }
  }

  lemma AfterBuyRests(config: Config, row: Row, p: Progress, size: real)
    requires Resting(config, p.ep) && p.ep.state == Leg1Working && 0.0 < size <= p.ep.orderSize - p.ep.filled1
    ensures p.ep.filled2 == 0.0 <= p.ep.filled1
    ensures var q := AfterBuy(config, row, BuyLeg1(row, p, size));
            RestingOrEnded(config, q.ep) && SameIdentity(p.ep, q.ep)
  {
    var bought := BuyLeg1(row, p, size);
    if FilledEnough(config, bought.ep.filled1, bought.ep.orderSize) {
      StartPairRests(config, row, bought);
    } else {
      BoughtRests(config, p.ep, bought.ep);
    }
  }

  lemma StartPairRests(config: Config, row: Row, p: Progress)
    requires p.ep.filled2 == 0.0 < p.ep.filled1 <= p.ep.orderSize && Costed(p.ep)
    requires FilledEnough(config, p.ep.filled1, p.ep.orderSize) && p.ep.state == Leg1Working
    requires p.ep.hedgeFee == 0.0 && p.ep.pnl == 0.0 && p.ep.exitPath.None? && p.ep.exitQuote.None?
    requires p.ep.terminalReason.None?
             && 0 <= p.ep.requotes <= (if config.maxLeg1Requotes < 0 then 0 else config.maxLeg1Requotes)
    ensures var q := StartPair(config, row, p);
            RestingOrEnded(config, q.ep) && SameIdentity(p.ep, q.ep)
  {
    OpenLeg2Rests(config, row,
                  p.With(p.ep.(fillTs := Some(row.timestamp))).ChangeState(row, Leg1Filled, Leg1FillReason));
  }

  /** A partial fill too small to start the pair leaves the order working. */
  lemma BoughtRests(config: Config, ep: Episode, bought: Episode)
    requires Resting(config, ep) && ep.state == Leg1Working && bought.filled1 > 0.0
    requires !FilledEnough(config, bought.filled1, bought.orderSize)
    requires bought == ep.(cost1 := bought.cost1, filled1 := bought.filled1, eventSequence := bought.eventSequence)
    ensures Resting(config, bought) && SameIdentity(ep, bought)
  {
  }

  lemma RequoteRests(config: Config, row: Row, p: Progress)
    requires Resting(config, p.ep) && p.ep.state == Leg1Working
    ensures var q := RequoteLeg1(config, row, p);
            RestingOrEnded(config, q.ep) && SameIdentity(p.ep, q.ep)
  {
  }

  lemma WorkLeg1Rests(config: Config, row: Row, p: Progress)
    requires Resting(config, p.ep) && p.ep.state == Leg1Working
    ensures var q := WorkLeg1(config, row, p);
            RestingOrEnded(config, q.ep) && SameIdentity(p.ep, q.ep)
  {
    if p.ep.pendingRequote {
      RequoteRests(config, row, p);
    } else {
      FillLeg1Rests(config, row, p);
    }
  }

  lemma TryImproveRests(config: Config, row: Row, p: Progress)
    requires Resting(config, p.ep) && p.ep.state == Leg2Working
    ensures var q := TryImprove(config, row, p);
            RestingOrEnded(config, q.ep) && SameIdentity(p.ep, q.ep)
  {
    var maxPrice := Leg2MaxPrice(p.ep.Avg1(), config);
    if p.ep.attempts2 > config.leg2MaxImproves {
      AbandonRests(config, row, p, Leg2ImprovesExhausted);
    } else if maxPrice <= row.Side(p.ep.leg1.Opposite()).bestBid + EPS {
      AbandonRests(config, row, p.With(p.ep.(maxPrice2 := Some(maxPrice))), Leg2MaxPriceBelowBid);
    }
  }

  lemma ImproveRests(config: Config, row: Row, p: Progress)
    requires Resting(config, p.ep) && p.ep.state == Leg2Working
    ensures var q := ImproveLeg2(config, row, p);
            RestingOrEnded(config, q.ep) && SameIdentity(p.ep, q.ep)
  {
    var tried := p.With(p.ep.(attempts2 := p.ep.attempts2 + 1, lastImproveTs2 := Some(row.timestamp)));
    TryImproveRests(config, row, tried);
    assert ImproveLeg2(config, row, p) in {p, TryImprove(config, row, tried)};
  }

  lemma FillLeg2Rests(config: Config, row: Row, p: Progress)
    requires Resting(config, p.ep) && p.ep.state == Leg2Working
    ensures var q := FillLeg2(config, row, p);
            && SameIdentity(p.ep, q.ep) && p.ep.filled2 <= q.ep.filled2 <= p.ep.filled1
            && (q.ep.filled2 < q.ep.filled1 ==> Resting(config, q.ep)) && q.ep.filled1 == p.ep.filled1
            && q.ep.state == Leg2Working && q.ep.exitPath.None? && FilledEnough(config, q.ep.filled1, q.ep.orderSize)
            && (q.ep.filled2 == p.ep.filled2 ==> q == p)
  {
  }

  lemma WorkLeg2Rests(config: Config, row: Row, p: Progress)
    requires Resting(config, p.ep) && p.ep.state == Leg2Working
    ensures var q := WorkLeg2(config, row, p);
            RestingOrEnded(config, q.ep) && SameIdentity(p.ep, q.ep)
  {
    var ep := p.ep;
    if OrphanLoss(row, ep) > config.maxOrphanLoss {
      FlattenEnds(config, row, p, OrphanLossLimitExceeded);
    } else if row.timestamp - OrElse(ep.fillTs, row.timestamp) > config.maxOrphanSeconds.At(row.timeframe) {
      AbandonRests(config, row, p, OrphanSecondsExceeded);
    } else if row.timestamp - OrElse(ep.startTs2, row.timestamp) > config.leg2Timeout.At(row.timeframe) {
      AbandonRests(config, row, p, Reason.Leg2Timeout);
    } else {
      FillLeg2Rests(config, row, p);
      var filled := FillLeg2(config, row, p);
      if filled.ep.filled2 > ep.filled2 && filled.ep.filled2 >= ep.filled1 - EPS {
        CompletionEnds(config, row, filled);
      } else {
        ImproveRests(config, row, filled);
      }
    }
  }

  lemma RebindRests(config: Config, row: Row, p: Progress)
    requires Resting(config, p.ep)
    ensures var q := Rebind(config, row, p);
            && RestingOrEnded(config, q.ep) && SameEpisode(p.ep, q.ep)
            && (!q.ep.state.Terminal() ==> q.ep.binding == row.binding && Resting(config, q.ep))
            && q.ep.filled1 == p.ep.filled1 && q.ep.filled2 == p.ep.filled2
  {
  }

  lemma ExitRests(config: Config, row: Row, p: Progress)
    requires Resting(config, p.ep) && p.ep.state == HedgingDirectionalExit
    ensures var q := WorkDirectionalExit(config, row, p);
            RestingOrEnded(config, q.ep) && SameIdentity(p.ep, q.ep)
  {
  }

  lemma PathRests(config: Config, row: Row, p: Progress)
    requires Resting(config, p.ep)
    ensures var q := EpisodePath(config, row, p);
            RestingOrEnded(config, q.ep) && SameIdentity(p.ep, q.ep)
  {
    RestingIsReadable(config, p.ep);
    var forced := FlattenReason(config, row, p.ep);
    if p.ep.state == Leg1Working {
      WorkLeg1Rests(config, row, p);
    } else if forced.Some? {
      FlattenEnds(config, row, p, forced.value);
    } else if p.ep.state == Leg2Working {
      WorkLeg2Rests(config, row, p);
    } else if p.ep.state == HedgingDirectionalExit {
      ExitRests(config, row, p);
    }
  }

  /** One row takes a resting episode to a resting or an ended one. */
  lemma StepRests(config: Config, row: Row, bindingChanged: bool, ep: Episode)
    requires Resting(config, ep)
    ensures Readable(ep) && 0.0 <= ep.filled2
    ensures var q := EpisodeStep(config, row, bindingChanged, ep);
            && RestingOrEnded(config, q.ep) && SameEpisode(ep, q.ep)
            && (q.ep.state.Terminal() <==> Ended(config, q.ep))
            && (!q.ep.state.Terminal() ==> q.ep.binding == if bindingChanged then row.binding else ep.binding)
  {
    RestingIsReadable(config, ep);
    var start := Progress(ep, Nothing);
    var bound := if bindingChanged then Rebind(config, row, start) else start;
    RebindRests(config, row, start);
    if !bound.ep.state.Terminal() {
      PathRests(config, row, bound);
    }
  }
}
