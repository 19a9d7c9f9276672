/** What a completed pair is guaranteed to earn. */
module MakerFloors {
  import opened Options
  import opened MakerData
  import opened MakerOpening
  import opened MakerEpisodes
  import opened MakerResting

  /** The most a maker share of the second leg may cost: the cap, and the rounding of a quote. */
  function PriceCeiling(config: Config, ep: Episode): real {
    Leg2MaxPrice(ep.Avg1(), config) + HALF_QUANTUM
  }

  /** The second leg so far cost no more than its ceiling, and is quoted no higher. */
  predicate Capped(config: Config, ep: Episode) {
    && ep.cost2 <= ep.filled2 * PriceCeiling(config, ep)
    && (ep.state == Leg2Working && ep.quote2.Some? ==> ep.quote2.value <= PriceCeiling(config, ep))
  }

  /** The guaranteed result per share of a maker pair, and of a taker-hedged one. */
  function MakerFloor(config: Config): real {
    config.bufferPerShare + config.minRealizedMargin - 2.0 * config.gasPerShare - HALF_QUANTUM
  }

  function HedgeFloor(config: Config): real {
    config.bufferPerShare + config.minHedgeExitMargin - 2.0 * config.gasPerShare
  }

  /** Of the pairs of `ep`, `maker` were completed as maker and the rest by the taker hedge. */
  predicate EarnsFloor(config: Config, ep: Episode, maker: real) {
    && 0.0 <= maker <= ep.filled2
    && ep.pnl >= maker * MakerFloor(config) + (ep.filled2 - maker) * HedgeFloor(config)
    && (ep.exitPath == Some(MakerComplete) ==> maker == ep.filled2)
  }

  /** Capped while it lasts; on completion the floor holds for the pairs made as maker. */
  ghost predicate CappedOrEarned(config: Config, q: Episode) {
    && (!q.state.Terminal() ==> Capped(config, q))
    && (q.state == Complete ==> exists maker :: EarnsFloor(config, q, maker))
  }

  lemma FillKeepsCeiling(cost: real, filled: real, ceiling: real, quote: real, size: real)
    requires cost <= filled * ceiling && quote <= ceiling && size >= 0.0
    ensures cost + quote * size <= (filled + size) * ceiling
  {
    assert quote * size <= ceiling * size;
  }

  lemma CompletionEarns(config: Config, row: Row, p: Progress)
    requires Costed(p.ep) && Capped(config, p.ep) && p.ep.hedgeFee == 0.0 && p.ep.exitPath.None?
    requires 0.0 < p.ep.filled2 <= p.ep.filled1
    ensures EarnsFloor(config, CompleteMaker(config, row, p).ep, p.ep.filled2)
  {
    var ep := p.ep;
    PairFloor(ep.filled2, ep.Avg1(), ep.Avg2(), ep.cost2, PriceCeiling(config, ep));
    var q := CompleteMaker(config, row, p).ep;
    assert q.pnl == CompletionPnl(config, ep) && q.filled2 == ep.filled2;
    assert (q.filled2 - ep.filled2) * HedgeFloor(config) == 0.0;
    FloorArithmetic(ep.filled2, ep.Avg1(), ep.Avg2(), config);
  }

  lemma PairFloor(f2: real, a1: real, a2: real, cost2: real, ceiling: real)
    requires 0.0 < f2 && a2 == cost2 / f2 && cost2 <= f2 * ceiling
    ensures a2 <= ceiling
  {
  }

  lemma FloorArithmetic(f2: real, a1: real, a2: real, config: Config)
    requires 0.0 < f2 && a2 <= Leg2MaxPrice(a1, config) + HALF_QUANTUM
    ensures f2 * (1.0 - (a1 + a2)) - 0.0 - f2 * 2.0 * config.gasPerShare >= f2 * MakerFloor(config)
  {
    var margin := 1.0 - (a1 + a2) - 2.0 * config.gasPerShare;
    assert margin >= MakerFloor(config);
    assert f2 * margin >= f2 * MakerFloor(config);
  }

  /** The taker hedge spends at most the hedge margin allows on the rest. */
  lemma HedgeArithmetic(f2: real, rest: real, a1: real, cost2: real, price: real, fee: real, config: Config)
    requires 0.0 <= f2 && 0.0 < rest
    requires cost2 <= f2 * (Leg2MaxPrice(a1, config) + HALF_QUANTUM)
    requires 1.0 - (a1 + price + fee / rest + config.bufferPerShare) >= config.minHedgeExitMargin
    ensures (f2 + rest) * (1.0 - a1) - (cost2 + price * rest) - fee - (f2 + rest) * 2.0 * config.gasPerShare
            >= f2 * MakerFloor(config) + rest * HedgeFloor(config)
  {
    var gas := config.gasPerShare;
    var hedged := 1.0 - a1 - price - fee / rest - 2.0 * gas;
    assert hedged >= HedgeFloor(config);
    assert rest * hedged >= rest * HedgeFloor(config);
    assert rest * (fee / rest) == fee;
    assert rest * hedged == rest * (1.0 - a1) - price * rest - fee - rest * 2.0 * gas;
    var made := 1.0 - a1 - 2.0 * gas - (Leg2MaxPrice(a1, config) + HALF_QUANTUM);
    assert made == MakerFloor(config);
    assert f2 * made == f2 * (1.0 - a1) - f2 * 2.0 * gas - f2 * (Leg2MaxPrice(a1, config) + HALF_QUANTUM);
  }

  lemma PairPnl(f: real, a1: real, cost2: real, fee: real, gas: real)
    requires f != 0.0
    ensures f * (1.0 - (a1 + cost2 / f)) - fee - f * 2.0 * gas == f * (1.0 - a1) - cost2 - fee - f * 2.0 * gas
  {
    assert f * (cost2 / f) == cost2;
  }

  lemma HedgePnl(config: Config, row: Row, p: Progress, reason: Reason, price: real, fee: real)
    requires 0.0 <= p.ep.filled2 < p.ep.filled1
    ensures var ep, q := p.ep, HedgeAt(config, row, p, reason, price, fee).ep;
            && q.state == Complete && q.filled2 == ep.filled1 && q.exitPath == Some(TakerHedge)
            && q.pnl == ep.filled1 * (1.0 - ep.Avg1()) - (ep.cost2 + price * ep.Remaining()) - fee
                        - ep.filled1 * 2.0 * config.gasPerShare
  {
    PairPnl(p.ep.filled1, p.ep.Avg1(), p.ep.cost2 + price * p.ep.Remaining(), fee, config.gasPerShare);
  }

  lemma HedgeEarns(config: Config, row: Row, p: Progress, reason: Reason, price: real, fee: real)
    requires HalfDone(config, p.ep) && Capped(config, p.ep)
    requires 1.0 - (p.ep.Avg1() + price + fee / p.ep.Remaining() + config.bufferPerShare) >= config.minHedgeExitMargin
    ensures EarnsFloor(config, HedgeAt(config, row, p, reason, price, fee).ep, p.ep.filled2)
  {
    var ep := p.ep;
    var rest := ep.Remaining();
    HedgeArithmetic(ep.filled2, rest, ep.Avg1(), ep.cost2, price, fee, config);
    HedgePnl(config, row, p, reason, price, fee);
    assert ep.filled2 + rest == ep.filled1;
  }

  lemma AbandonEarns(config: Config, row: Row, p: Progress, reason: Reason)
    requires HalfDone(config, p.ep) && Capped(config, p.ep) && p.ep.state == Leg2Working
    ensures CappedOrEarned(config, AbandonLeg2(config, row, p, reason).ep)
  {
    if HedgeMargin(config, row, p.ep) >= config.minHedgeExitMargin {
      HedgeNowEarns(config, row, p, reason);
    } else {
      ExitStaysCapped(config, row, p, reason);
    }
  }

  lemma HedgeNowEarns(config: Config, row: Row, p: Progress, reason: Reason)
    requires HalfDone(config, p.ep) && Capped(config, p.ep)
    requires HedgeMargin(config, row, p.ep) >= config.minHedgeExitMargin
    ensures CappedOrEarned(config, TakerHedgeNow(config, row, p, reason).ep)
  {
    var price := row.AskVwap(p.ep.leg1.Opposite(), p.ep.Remaining());
    HedgeEarns(config, row, p, reason, price, TakerFeeTotal(price, p.ep.Remaining(), row.FeeRate(config)));
  }

  lemma ExitStaysCapped(config: Config, row: Row, p: Progress, reason: Reason)
    requires Capped(config, p.ep)
    ensures CappedOrEarned(config, OpenDirectionalExit(config, row, p, reason).ep)
  {
  }

  lemma OpenLeg2Earns(config: Config, row: Row, p: Progress)
    requires p.ep.filled2 == 0.0 < p.ep.filled1 <= p.ep.orderSize && p.ep.fillTs.Some?
    requires FilledEnough(config, p.ep.filled1, p.ep.orderSize) && Costed(p.ep) && p.ep.quote2.None?
    ensures CappedOrEarned(config, OpenLeg2(config, row, p).ep)
  {
    var ep := p.ep;
    var maxPrice := Leg2MaxPrice(ep.Avg1(), config);
    if maxPrice <= row.Side(ep.leg1.Opposite()).bestBid + EPS {
      var marked := p.With(ep.(maxPrice2 := Some(maxPrice), startTs2 := Some(row.timestamp),
                               lastImproveTs2 := Some(row.timestamp), attempts2 := 0));
      AbandonEarns(config, row, marked.ChangeState(row, Leg2Working, Leg2Opened), Leg2MaxPriceBelowBid);
    }
  }

  lemma FillLeg1Earns(config: Config, row: Row, p: Progress)
    requires Resting(config, p.ep) && p.ep.state == Leg1Working
    ensures CappedOrEarned(config, FillLeg1(config, row, p).ep)
  {
    var ep := p.ep;
    var size := FillSize(config, ep.quote1, row.Side(ep.leg1), ep.orderSize - ep.filled1);
    var filled := TakeFill(config, row, p, size);
    assert FillLeg1(config, row, p) == filled;
    TakeFillEarns(config, row, p, size);
    assert CappedOrEarned(config, filled.ep);
  }

  lemma TakeFillEarns(config: Config, row: Row, p: Progress, size: real)
    requires Resting(config, p.ep) && p.ep.state == Leg1Working
             && (size <= 0.0 || size <= p.ep.orderSize - p.ep.filled1)
    ensures p.ep.filled2 == 0.0 <= p.ep.filled1
    ensures CappedOrEarned(config, TakeFill(config, row, p, size).ep)
  {
    if size > 0.0 {
      BoughtEarns(config, row, BuyLeg1(row, p, size));
    }
  }

  lemma BoughtEarns(config: Config, row: Row, bought: Progress)
    requires bought.ep.filled2 == 0.0 < bought.ep.filled1 <= bought.ep.orderSize && bought.ep.state == Leg1Working
    requires Costed(bought.ep) && bought.ep.quote2.None?
    ensures CappedOrEarned(config, AfterBuy(config, row, bought).ep)
  {
    if FilledEnough(config, bought.ep.filled1, bought.ep.orderSize) {
      OpenLeg2Earns(config, row, bought.With(bought.ep.(fillTs := Some(row.timestamp)))
                                       .ChangeState(row, Leg1Filled, Leg1FillReason));
    }
  }

  lemma FillLeg2Capped(config: Config, row: Row, p: Progress)
    requires Resting(config, p.ep) && Capped(config, p.ep) && p.ep.state == Leg2Working
    ensures Capped(config, FillLeg2(config, row, p).ep)
  {
    var ep := p.ep;
    var size := FillSize(config, ep.quote2.value, row.Side(ep.leg1.Opposite()), ep.Remaining());
    if size > 0.0 {
      FillKeepsCeiling(ep.cost2, ep.filled2, PriceCeiling(config, ep), ep.quote2.value, size);
    }
  }

  /** Improving never lowers the quote. */
  lemma TryImproveEarns(config: Config, row: Row, p: Progress)
    requires Resting(config, p.ep) && Capped(config, p.ep) && p.ep.state == Leg2Working
    ensures var q := TryImprove(config, row, p).ep;
            && CappedOrEarned(config, q)
            && (q.state == Leg2Working ==> q.quote2.Some? && q.quote2.value >= p.ep.quote2.value)
  {
    var maxPrice := Leg2MaxPrice(p.ep.Avg1(), config);
    if p.ep.attempts2 > config.leg2MaxImproves {
      AbandonEarns(config, row, p, Leg2ImprovesExhausted);
    } else if maxPrice <= row.Side(p.ep.leg1.Opposite()).bestBid + EPS {
      AbandonEarns(config, row, p.With(p.ep.(maxPrice2 := Some(maxPrice))), Leg2MaxPriceBelowBid);
    }
  }

  lemma WorkLeg2Earns(config: Config, row: Row, p: Progress)
    requires Resting(config, p.ep) && Capped(config, p.ep) && p.ep.state == Leg2Working
    ensures var q := WorkLeg2(config, row, p).ep;
            && CappedOrEarned(config, q)
            && (q.state == Leg2Working ==> q.quote2.Some? && q.quote2.value >= p.ep.quote2.value)
  {
    var ep := p.ep;
    if OrphanLoss(row, ep) > config.maxOrphanLoss {
    } else if row.timestamp - OrElse(ep.fillTs, row.timestamp) > config.maxOrphanSeconds.At(row.timeframe) {
      AbandonEarns(config, row, p, OrphanSecondsExceeded);
    } else if row.timestamp - OrElse(ep.startTs2, row.timestamp) > config.leg2Timeout.At(row.timeframe) {
      AbandonEarns(config, row, p, Reason.Leg2Timeout);
    } else {
      FillLeg2Rests(config, row, p);
      FillLeg2Capped(config, row, p);
      var filled := FillLeg2(config, row, p);
      assert filled.ep.quote2 == ep.quote2;
      if filled.ep.filled2 > ep.filled2 && filled.ep.filled2 >= ep.filled1 - EPS {
        CompletionEarns(config, row, filled);
      } else {
        var tried := filled.With(filled.ep.(attempts2 := filled.ep.attempts2 + 1,
                                            lastImproveTs2 := Some(row.timestamp)));
        TryImproveEarns(config, row, tried);
        assert ImproveLeg2(config, row, filled) in {filled, TryImprove(config, row, tried)};
      }
    }
  }

  lemma WorkLeg1Earns(config: Config, row: Row, p: Progress)
    requires Resting(config, p.ep) && Capped(config, p.ep) && p.ep.state == Leg1Working
    ensures CappedOrEarned(config, WorkLeg1(config, row, p).ep)
  {
    if !p.ep.pendingRequote {
      FillLeg1Earns(config, row, p);
    }
  }

  lemma PathEarns(config: Config, row: Row, p: Progress)
    requires Resting(config, p.ep) && Capped(config, p.ep)
    ensures Readable(p.ep) && 0.0 <= p.ep.filled2
    ensures var q := EpisodePath(config, row, p).ep;
            && CappedOrEarned(config, q)
            && (p.ep.state == Leg2Working && q.state == Leg2Working ==>
                  q.quote2.Some? && q.quote2.value >= p.ep.quote2.value)
  {
    RestingIsReadable(config, p.ep);
    var forced := FlattenReason(config, row, p.ep);
    if p.ep.state == Leg1Working {
      WorkLeg1Earns(config, row, p);
    } else if forced.Some? {
      FlattenEnds(config, row, p, forced.value);
    } else if p.ep.state == Leg2Working {
      WorkLeg2Earns(config, row, p);
    } else if p.ep.state == HedgingDirectionalExit {
      ExitRests(config, row, p);
    }
  }

  /** Whatever happens to a capped episode, its second-leg quote never falls while it works,
      and if the pair completes it earns its floor. */
  lemma StepEarns(config: Config, row: Row, bindingChanged: bool, ep: Episode)
    requires Resting(config, ep) && Capped(config, ep)
    ensures Readable(ep) && 0.0 <= ep.filled2
    ensures var q := EpisodeStep(config, row, bindingChanged, ep).ep;
            && CappedOrEarned(config, q)
            && (ep.state == Leg2Working && q.state == Leg2Working ==>
                  q.quote2.Some? && q.quote2.value >= ep.quote2.value)
  {
    RestingIsReadable(config, ep);
    var start := Progress(ep, Nothing);
    var bound := if bindingChanged then Rebind(config, row, start) else start;
    RebindRests(config, row, start);
    RebindCapped(config, row, start);
    if !bound.ep.state.Terminal() {
      PathEarns(config, row, bound);
    }
  }

  lemma RebindCapped(config: Config, row: Row, p: Progress)
    requires Resting(config, p.ep) && Capped(config, p.ep)
    ensures var q := Rebind(config, row, p).ep;
            Capped(config, q) && q.state != Complete && q.quote2 == p.ep.quote2
            && (p.ep.state == Leg2Working ==> q.state == Leg2Working)
  {
  }
}
