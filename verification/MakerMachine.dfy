/** The machine as it is written: an object that updates its episodes in place. Every method
    is proved to do to the fields what the functions of `MakerEpisodes` and `MakerRuns` say. */
module MakerMachine {
  import opened Numbers
  import opened Options
  import opened MakerData
  import opened MakerOpening
  import opened MakerEpisodes
  import opened MakerResting
  import opened MakerRuns
  import opened MapSums

  /** The audit list handed down through one evaluation. */
  class EventList {
    var items: seq<Event>
    ghost var emitted: Emitted

    ghost predicate Valid()
      reads this
    {
      items == emitted.ToSeq()
    }

    constructor ()
      ensures Valid() && items == [] && emitted == Nothing
    {
      items := [];
      emitted := Nothing;
    }
  }

  /** The completion result in terms of the running averages kept. */
  function CompletionOf(size: real, gross: real, hedgeFee: real, gas: real): real {
    size * (1.0 - gross) - hedgeFee - size * 2.0 * gas
  }

  lemma CompletionFormula(config: Config, ep: Episode, gross: real)
    requires gross == ep.Avg1() + ep.Avg2()
    ensures CompletionPnl(config, ep)
            == CompletionOf(Min(ep.filled1, ep.filled2), gross, ep.hedgeFee, config.gasPerShare)
  {
  }

  /** The closing result likewise. */
  function ClosingOf(filled1: real, filled2: real, avg1: real, avg2: real, price: real, fee: real, hedgeFee: real,
                     gas: real): real
  {
    var locked := Min(filled1, filled2);
    var atRisk := filled1 - filled2;
    var lockedPnl := if locked > 0.0 then locked * (1.0 - avg1 - avg2) else 0.0;
    var exitPnl := atRisk * (price - avg1);
    lockedPnl + exitPnl - fee - hedgeFee - (filled1 + filled2) * gas
  }

  lemma ClosingFormula(config: Config, ep: Episode, avg1: real, avg2: real, price: real, fee: real)
    requires avg1 == ep.Avg1() && avg2 == ep.Avg2()
    ensures ClosingPnl(config, ep, price, fee)
            == ClosingOf(ep.filled1, ep.filled2, avg1, avg2, price, fee, ep.hedgeFee, config.gasPerShare)
  {
  }

  class MakerEpisode {
    const id: EpisodeId
    const market: MarketId
    const condition: ConditionId
    const openedTs: real
    const leg1: Outcome
    const orderSize: real
    var binding: Binding
    var state: State
    var quote1: real
    var placedTs: real
    var filled1: real
    var avg1: real
    var fillTs: Option<real>
    var requotes: int
    var pendingRequote: bool
    var quote2: Option<real>
    var maxPrice2: Option<real>
    var filled2: real
    var avg2: real
    var startTs2: Option<real>
    var attempts2: int
    var lastImproveTs2: Option<real>
    var hedgeFee: real
    var exitPath: Option<ExitPath>
    var exitQuote: Option<real>
    var exitStartTs: Option<real>
    var terminalReason: Option<Reason>
    var forcedExit: Option<Reason>
    var pnl: real
    var eventSequence: nat
    ghost var cost1: real
    ghost var cost2: real

    ghost function View(): Episode
      reads this
    {
      Episode(id, market, condition, binding, state, openedTs, leg1, quote1, orderSize, placedTs,
              filled1, cost1, fillTs, requotes, pendingRequote, quote2, maxPrice2, filled2, cost2,
              startTs2, attempts2, lastImproveTs2, hedgeFee, exitPath, exitQuote, exitStartTs,
              terminalReason, forcedExit, pnl, eventSequence)
    }

    /** The running averages are the averages of what was bought. */
    ghost predicate Valid()
      reads this
    {
      avg1 == View().Avg1() && avg2 == View().Avg2() && Costed(View())
    }

    constructor (id: EpisodeId, row: Row, leg1: Outcome, quote: real, size: real)
      ensures Valid()
      ensures View() == Episode(id, row.market, row.condition, row.binding, Leg1Working, row.timestamp, leg1, quote,
                                size, row.timestamp, 0.0, 0.0, None, 0, false, None, None, 0.0, 0.0, None, 0, None,
                                0.0, None, None, None, None, None, 0.0, 0)
    {
      this.id, market, condition, binding := id, row.market, row.condition, row.binding;
      state, openedTs, placedTs := Leg1Working, row.timestamp, row.timestamp;
      this.leg1, quote1, orderSize := leg1, quote, size;
      filled1, avg1, cost1, fillTs := 0.0, 0.0, 0.0, None;
      requotes, pendingRequote := 0, false;
      quote2, maxPrice2, filled2, avg2, cost2 := None, None, 0.0, 0.0, 0.0;
      startTs2, attempts2, lastImproveTs2, hedgeFee := None, 0, None, 0.0;
      exitPath, exitQuote, exitStartTs := None, None, None;
      terminalReason, forcedExit, pnl, eventSequence := None, None, 0.0, 0;
    }

    method Emit(row: Row, body: EventBody, reason: Reason, events: EventList)
      requires events.Valid()
      modifies `eventSequence, events
      ensures events.Valid() && (old(Valid()) ==> Valid())
      ensures Now(this, events) == old(Now(this, events)).Emit(row, body, reason)
    {
      eventSequence := eventSequence + 1;
      var event := EpisodeEvent(id, eventSequence, row.timestamp, body, reason);
      events.items := events.items + [event];
      events.emitted := Then(events.emitted, event);
    }

    method ChangeState(row: Row, after: State, reason: Reason, events: EventList)
      requires events.Valid()
      modifies `eventSequence, `state, events
      ensures events.Valid() && (old(Valid()) ==> Valid())
      ensures Now(this, events) == old(Now(this, events)).ChangeState(row, after, reason)
    {
      var before := state;
      state := after;
      Emit(row, StateChange(before, after), reason, events);
    }

    method NoteExit(path: Option<ExitPath>, reason: Option<Reason>)
      requires Valid()
      modifies `exitPath, `terminalReason
      ensures Valid() && View() == old(View()).(exitPath := path, terminalReason := reason)
    {
      exitPath := path;
      terminalReason := reason;
    }

    method NoteHedge(fee: real, reason: Reason)
      requires Valid()
      modifies `hedgeFee, `exitPath, `terminalReason
      ensures Valid() && View() == old(View()).(hedgeFee := fee, exitPath := Some(TakerHedge),
                                                terminalReason := Some(reason))
    {
      hedgeFee := fee;
      exitPath := Some(TakerHedge);
      terminalReason := Some(reason);
    }

    method StartSecond(maxPrice: real, now: real)
      requires Valid()
      modifies `maxPrice2, `startTs2, `lastImproveTs2, `attempts2
      ensures Valid() && View() == old(View()).(maxPrice2 := Some(maxPrice), startTs2 := Some(now),
                                     lastImproveTs2 := Some(now), attempts2 := 0)
    {
      maxPrice2 := Some(maxPrice);
      startTs2 := Some(now);
      lastImproveTs2 := Some(now);
      attempts2 := 0;
    }

    method ForceOut(binding: Binding)
      requires Valid()
      modifies `forcedExit, `binding
      ensures Valid() && View() == old(View()).(forcedExit := Some(BooksLostMidEpisode), binding := binding)
    {
      forcedExit := Some(BooksLostMidEpisode);
      this.binding := binding;
    }

    method AskRequote(binding: Binding)
      requires Valid()
      modifies `binding, `requotes, `pendingRequote
      ensures Valid()
      ensures View() == old(View()).(binding := binding, requotes := old(requotes) + 1, pendingRequote := true)
    {
      this.binding := binding;
      requotes := requotes + 1;
      pendingRequote := true;
    }

    method QuoteFirst(price: real, now: real)
      requires Valid()
      modifies `quote1, `placedTs, `pendingRequote
      ensures Valid() && View() == old(View()).(quote1 := price, placedTs := now, pendingRequote := false)
    {
      quote1 := price;
      placedTs := now;
      pendingRequote := false;
    }

    method QuoteExit(quote: real, now: real)
      requires Valid()
      modifies `exitQuote, `exitStartTs
      ensures Valid() && View() == old(View()).(exitQuote := Some(quote), exitStartTs := Some(now))
    {
      exitQuote := Some(quote);
      exitStartTs := Some(now);
    }

    method CountImprovement(now: real)
      requires Valid()
      modifies `attempts2, `lastImproveTs2
      ensures Valid() && View() == old(View()).(attempts2 := old(attempts2) + 1, lastImproveTs2 := Some(now))
    {
      attempts2 := attempts2 + 1;
      lastImproveTs2 := Some(now);
    }

    method Cap(price: real)
      requires Valid()
      modifies `maxPrice2
      ensures Valid() && View() == old(View()).(maxPrice2 := Some(price))
    {
      maxPrice2 := Some(price);
    }

    method QuoteSecond(quote: real)
      requires Valid()
      modifies `quote2
      ensures Valid() && View() == old(View()).(quote2 := Some(quote))
    {
      quote2 := Some(quote);
    }

    /** The result of a completed pair. */
    method BookCompletion(config: Config)
      requires Valid()
      modifies `pnl
      ensures Valid() && View() == old(View()).(pnl := CompletionPnl(config, old(View())))
    {
      ghost var was := View();
      assert avg1 == was.Avg1() && avg2 == was.Avg2();
      pnl := CompletionOf(Min(filled1, filled2), avg1 + avg2, hedgeFee, config.gasPerShare);
      CompletionFormula(config, was, avg1 + avg2);
    }

    /** The result of pairs made and the rest sold at `price` for `fee`. */
    method BookClosing(config: Config, price: real, fee: real)
      requires Valid()
      modifies `pnl
      ensures Valid() && View() == old(View()).(pnl := ClosingPnl(config, old(View()), price, fee))
    {
      ghost var was := View();
      assert avg1 == was.Avg1() && avg2 == was.Avg2();
      pnl := ClosingOf(filled1, filled2, avg1, avg2, price, fee, hedgeFee, config.gasPerShare);
      ClosingFormula(config, was, avg1, avg2, price, fee);
    }

    method BuyFirst(price: real, size: real)
      requires Valid() && filled1 + size != 0.0
      modifies `avg1, `filled1, `cost1
      ensures View() == old(View()).(cost1 := old(cost1) + Paid(price, size), filled1 := old(filled1) + size)
      ensures Valid()
    {
      RunningAverage(avg1, filled1, cost1, price, size);
      avg1 := (avg1 * filled1 + price * size) / (filled1 + size);
      filled1 := filled1 + size;
      cost1 := cost1 + Paid(price, size);
    }

    method Exposures() returns (exposure: real, atRisk: real)
      requires Valid()
      ensures exposure == Exposure(View()) && atRisk == AtRisk(View())
    {
      ExposureFormula(View(), avg1, avg2);
      exposure := filled1 * avg1 + filled2 * avg2;
      if state == Leg1Working {
        exposure := exposure + (orderSize - filled1) * quote1;
      }
      atRisk := (filled1 - filled2) * avg1;
    }

    method BuySecond(price: real, size: real)
      requires Valid() && filled2 + size != 0.0
      modifies `avg2, `filled2, `cost2
      ensures View() == old(View()).(cost2 := old(cost2) + Paid(price, size), filled2 := old(filled2) + size)
      ensures Valid()
    {
      RunningAverage(avg2, filled2, cost2, price, size);
      avg2 := (avg2 * filled2 + price * size) / (filled2 + size);
      filled2 := filled2 + size;
      cost2 := cost2 + Paid(price, size);
    }
  }

  ghost function Now(episode: MakerEpisode, events: EventList): Progress
    reads episode, events
  {
    Progress(episode.View(), events.emitted)
  }

  /** Averaging the average with a new fill is averaging all fills. */
  lemma RunningAverage(average: real, size: real, cost: real, price: real, added: real)
    requires size + added != 0.0
    requires average == (if size == 0.0 then 0.0 else cost / size) && (size == 0.0 ==> cost == 0.0)
    ensures (average * size + price * added) / (size + added) == (cost + price * added) / (size + added)
  {
    assert average * size == cost;
  }

  /** The part of the machine that ending an episode touches. */
  datatype Ledger = Ledger(
    episodes: map<ConditionId, MakerEpisode>,
    completed: seq<Record>,
    consecutiveOrphans: int,
    circuitOpenUntil: Option<real>
  )

  ghost function Closed(config: Config, ledger: Ledger, row: Row, ep: Episode): Ledger {
    if !ep.state.Terminal() then ledger
    else
      var orphans := ledger.consecutiveOrphans + 1;
      Ledger(ledger.episodes - {row.condition}, ledger.completed + [RecordOf(row, ep)],
             if ep.state == ClosedWithLoss then orphans
             else if ep.state == Complete then 0 else ledger.consecutiveOrphans,
             if ep.state == ClosedWithLoss && orphans >= config.maxConsecutiveOrphans
             then Some(row.timestamp + config.circuitCooldown) else ledger.circuitOpenUntil)
  }

  class MakerAccumulateStateMachine {
    const config: Config
    var episodes: map<ConditionId, MakerEpisode>
    var completed: seq<Record>
    var consecutiveOrphans: int
    var circuitOpenUntil: Option<real>
    var episodeSequences: map<EpisodeKey, nat>
    var episodesPerMarket: map<MarketId, int>
    var lastBinding: map<MarketId, Binding>
    var seenBindings: map<MarketId, set<Binding>>
    var lastRejectReason: map<ConditionId, Reason>

    ghost function Books(): Ledger
      reads this
    {
      Ledger(episodes, completed, consecutiveOrphans, circuitOpenUntil)
    }

    /** What a method did to an episode, and to the ledger if the episode ended. */
    twostate predicate Did(row: Row, episode: MakerEpisode, events: EventList, p: Progress)
      reads this, episode, events
    {
      && episode.Valid() && events.Valid()
      && Now(episode, events) == p
      && Books() == Closed(config, old(Books()), row, p.ep)
    }

    // ---- terminal accounting ----

    method Finalize(row: Row, episode: MakerEpisode)
      requires episode.state.Terminal()
      modifies `episodes, `completed, `consecutiveOrphans, `circuitOpenUntil
      ensures Books() == Closed(config, old(Books()), row, episode.View())
    {
      episodes := episodes - {row.condition};
      completed := completed + [Record(episode.id, episode.market, episode.condition, episode.state, episode.exitPath,
                                       episode.terminalReason, episode.pnl, row.timestamp)];
      if episode.state == ClosedWithLoss {
        consecutiveOrphans := consecutiveOrphans + 1;
        if consecutiveOrphans >= config.maxConsecutiveOrphans {
          circuitOpenUntil := Some(row.timestamp + config.circuitCooldown);
        }
      } else if episode.state == Complete {
        consecutiveOrphans := 0;
      }
    }

    method CompleteMaker(row: Row, episode: MakerEpisode, events: EventList)
      requires episode.Valid() && events.Valid()
      modifies `episodes, `completed, `consecutiveOrphans, `circuitOpenUntil, episode, events
      ensures Did(row, episode, events, MakerEpisodes.CompleteMaker(config, row, old(Now(episode, events))))
    {
      var reason := episode.terminalReason.GetOr(PairCompleted);
      episode.BookCompletion(config);
      episode.NoteExit(Some(episode.exitPath.GetOr(MakerComplete)), Some(reason));
      episode.ChangeState(row, Complete, reason, events);
      episode.Emit(row, EpisodeCompleted(episode.pnl), reason, events);
      Finalize(row, episode);
    }

    method CloseWithLoss(row: Row, episode: MakerEpisode, events: EventList, reason: Reason, price: real, fee: real)
      requires episode.Valid() && events.Valid()
      modifies `episodes, `completed, `consecutiveOrphans, `circuitOpenUntil, episode, events
      ensures Did(row, episode, events,
                  MakerEpisodes.CloseWithLoss(config, row, old(Now(episode, events)), reason, price, fee))
    {
      episode.BookClosing(config, price, fee);
      episode.ChangeState(row, ClosedWithLoss, reason, events);
      episode.Emit(row, EpisodeClosedWithLoss(episode.pnl), reason, events);
      Finalize(row, episode);
    }

    method FlattenTaker(row: Row, episode: MakerEpisode, events: EventList, reason: Reason, path: ExitPath)
      requires episode.Valid() && events.Valid()
      modifies `episodes, `completed, `consecutiveOrphans, `circuitOpenUntil, episode, events
      ensures Did(row, episode, events,
                  MakerEpisodes.FlattenTaker(config, row, old(Now(episode, events)), reason, path))
    {
      var remaining := episode.filled1 - episode.filled2;
      var price := row.BidVwap(episode.leg1, Max(remaining, EPS));
      var fee := TakerFeeTotal(price, remaining, row.FeeRate(config));
      episode.NoteExit(Some(path), Some(reason));
      episode.Emit(row, LegFilled(First, Sell, price, remaining, fee), TakerExit, events);
      CloseWithLoss(row, episode, events, reason, price, fee);
    }

    method EmergencyFlatten(row: Row, episode: MakerEpisode, events: EventList, reason: Reason)
      requires episode.Valid() && events.Valid() && episode.state != State.EmergencyFlatten
      modifies `episodes, `completed, `consecutiveOrphans, `circuitOpenUntil, episode, events
      ensures Did(row, episode, events, MakerEpisodes.Flatten(config, row, old(Now(episode, events)), reason))
    {
      episode.NoteExit(Some(EmergencyExit), Some(reason));
      if episode.state != State.EmergencyFlatten {
        episode.ChangeState(row, State.EmergencyFlatten, reason, events);
      }
      FlattenTaker(row, episode, events, reason, EmergencyExit);
    }

    // ---- second leg ----

    method HedgeNow(row: Row, episode: MakerEpisode, events: EventList, reason: Reason, price: real, fee: real)
      requires episode.Valid() && events.Valid() && episode.filled1 != 0.0
      modifies `episodes, `completed, `consecutiveOrphans, `circuitOpenUntil, episode, events
      ensures Did(row, episode, events, HedgeAt(config, row, old(Now(episode, events)), reason, price, fee))
    {
      var remaining := episode.filled1 - episode.filled2;
      episode.BuySecond(price, remaining);
      episode.NoteHedge(fee, reason);
      episode.Emit(row, LegFilled(Second, Buy, price, remaining, fee), TakerHedgeReason, events);
      CompleteMaker(row, episode, events);
    }

    method OpenDirectionalExit(row: Row, episode: MakerEpisode, events: EventList, reason: Reason)
      requires episode.Valid() && events.Valid()
      modifies episode, events
      ensures Did(row, episode, events,
                  MakerEpisodes.OpenDirectionalExit(config, row, old(Now(episode, events)), reason))
    {
      episode.NoteExit(Some(DirectionalExit), Some(reason));
      var floor := episode.avg1 - config.maxGivebackPerShare;
      var quote := RoundPrice(Max(floor, row.Side(episode.leg1).bestBid + config.minTick));
      episode.QuoteExit(quote, row.timestamp);
      episode.ChangeState(row, HedgingDirectionalExit, reason, events);
      episode.Emit(row, QuoteUpdated(First, Sell, None, quote), DirectionalExitOpened, events);
    }

    method AbandonLeg2(row: Row, episode: MakerEpisode, events: EventList, reason: Reason)
      requires episode.Valid() && events.Valid() && episode.filled2 < episode.filled1 && episode.filled1 != 0.0
      modifies `episodes, `completed, `consecutiveOrphans, `circuitOpenUntil, episode, events
      ensures Did(row, episode, events, MakerEpisodes.AbandonLeg2(config, row, old(Now(episode, events)), reason))
    {
      ghost var was := episode.View();
      var remaining := episode.filled1 - episode.filled2;
      var price := row.AskVwap(episode.leg1.Opposite(), remaining);
      var fee := TakerFeeTotal(price, remaining, row.FeeRate(config));
      var perShare := if remaining > 0.0 then fee / remaining else 0.0;
      var hedgeMargin := 1.0 - (episode.avg1 + price + perShare + config.bufferPerShare);
      assert hedgeMargin == HedgeMargin(config, row, was);
      if remaining > 0.0 && hedgeMargin >= config.minHedgeExitMargin {
        HedgeNow(row, episode, events, reason, price, fee);
      } else {
        OpenDirectionalExit(row, episode, events, reason);
      }
    }

    method OpenLeg2(row: Row, episode: MakerEpisode, events: EventList)
      requires episode.Valid() && events.Valid() && episode.filled2 < episode.filled1 && episode.filled1 != 0.0
      modifies `episodes, `completed, `consecutiveOrphans, `circuitOpenUntil, episode, events
      ensures Did(row, episode, events, MakerEpisodes.OpenLeg2(config, row, old(Now(episode, events))))
    {
      var other := row.Side(episode.leg1.Opposite());
      var maxPrice := Leg2MaxPrice(episode.avg1, config);
      episode.StartSecond(maxPrice, row.timestamp);
      episode.ChangeState(row, Leg2Working, Leg2Opened, events);
      if maxPrice <= other.bestBid + EPS {
        AbandonLeg2(row, episode, events, Leg2MaxPriceBelowBid);
      } else {
        var quote := Leg2Quote(config, other, 1.0, maxPrice);
        episode.QuoteSecond(quote);
        episode.Emit(row, QuoteUpdated(Second, Buy, None, quote), Leg2Opened, events);
      }
    }

    method ImproveLeg2(row: Row, episode: MakerEpisode, events: EventList)
      requires episode.Valid() && events.Valid() && episode.quote2.Some? && episode.lastImproveTs2.Some?
      requires episode.filled2 < episode.filled1 && episode.filled1 != 0.0 && !episode.state.Terminal()
      modifies `episodes, `completed, `consecutiveOrphans, `circuitOpenUntil, episode, events
      ensures Did(row, episode, events, MakerEpisodes.ImproveLeg2(config, row, old(Now(episode, events))))
    {
      if (row.timestamp - episode.lastImproveTs2.value) * 1000.0 < config.leg2ImproveIntervalMs.At(row.timeframe) {
        return;
      }
      ghost var start := Now(episode, events);
      episode.CountImprovement(row.timestamp);
      assert MakerEpisodes.ImproveLeg2(config, row, start)
          == MakerEpisodes.TryImprove(config, row, Now(episode, events));
      TryImprove(row, episode, events);
    }

    method TryImprove(row: Row, episode: MakerEpisode, events: EventList)
      requires episode.Valid() && events.Valid() && episode.quote2.Some?
      requires episode.filled2 < episode.filled1 && episode.filled1 != 0.0 && !episode.state.Terminal()
      modifies `episodes, `completed, `consecutiveOrphans, `circuitOpenUntil, episode, events
      ensures Did(row, episode, events, MakerEpisodes.TryImprove(config, row, old(Now(episode, events))))
    {
      if episode.attempts2 > config.leg2MaxImproves {
        AbandonLeg2(row, episode, events, Leg2ImprovesExhausted);
        return;
      }
      var side := row.Side(episode.leg1.Opposite());
      var maxPrice := Leg2MaxPrice(episode.avg1, config);
      episode.Cap(maxPrice);
      if maxPrice <= side.bestBid + EPS {
        AbandonLeg2(row, episode, events, Leg2MaxPriceBelowBid);
        return;
      }
      var quote := Leg2Quote(config, side, config.leg2StepTicks.At(row.timeframe) as real, maxPrice);
      if quote > episode.quote2.value + EPS {
        var previous := episode.quote2;
        episode.QuoteSecond(quote);
        episode.Emit(row, QuoteUpdated(Second, Buy, previous, quote), ImproveLoop, events);
      }
    }

    method WorkLeg2(row: Row, episode: MakerEpisode, events: EventList)
      requires episode.Valid() && events.Valid() && episode.quote2.Some? && episode.lastImproveTs2.Some?
      requires 0.0 <= episode.filled2 < episode.filled1 && !episode.state.Terminal()
      requires episode.state != State.EmergencyFlatten
      modifies `episodes, `completed, `consecutiveOrphans, `circuitOpenUntil, episode, events
      ensures Did(row, episode, events, MakerEpisodes.WorkLeg2(config, row, old(Now(episode, events))))
    {
      ghost var start := Now(episode, events);
      var holding := episode.filled1 > episode.filled2;
      var drop := Max(0.0, episode.avg1 - row.Side(episode.leg1).bestBid);
      var orphanLoss := if holding then (episode.filled1 - episode.filled2) * drop else 0.0;
      assert orphanLoss == OrphanLoss(row, start.ep);
      if orphanLoss > config.maxOrphanLoss {
        assert MakerEpisodes.WorkLeg2(config, row, start) == Flatten(config, row, start, OrphanLossLimitExceeded);
        EmergencyFlatten(row, episode, events, OrphanLossLimitExceeded);
        return;
      }
      if row.timestamp - OrElse(episode.fillTs, row.timestamp) > config.maxOrphanSeconds.At(row.timeframe) {
        assert MakerEpisodes.WorkLeg2(config, row, start)
               == MakerEpisodes.AbandonLeg2(config, row, start, OrphanSecondsExceeded);
        AbandonLeg2(row, episode, events, OrphanSecondsExceeded);
        return;
      }
      if row.timestamp - OrElse(episode.startTs2, row.timestamp) > config.leg2Timeout.At(row.timeframe) {
        assert MakerEpisodes.WorkLeg2(config, row, start)
               == MakerEpisodes.AbandonLeg2(config, row, start, Reason.Leg2Timeout);
        AbandonLeg2(row, episode, events, Reason.Leg2Timeout);
        return;
      }
      var filled := FillLeg2(row, episode, events);
      ghost var after := Now(episode, events);
      if filled && episode.filled2 >= episode.filled1 - EPS {
        assert MakerEpisodes.WorkLeg2(config, row, start) == MakerEpisodes.CompleteMaker(config, row, after);
        CompleteMaker(row, episode, events);
        return;
      }
      assert MakerEpisodes.WorkLeg2(config, row, start) == MakerEpisodes.ImproveLeg2(config, row, after);
      ImproveLeg2(row, episode, events);
    }

    method FillLeg2(row: Row, episode: MakerEpisode, events: EventList) returns (filled: bool)
      requires episode.Valid() && events.Valid() && episode.quote2.Some?
      requires 0.0 <= episode.filled2 < episode.filled1
      modifies episode, events
      ensures episode.Valid() && events.Valid()
      ensures Now(episode, events) == MakerEpisodes.FillLeg2(config, row, old(Now(episode, events)))
      ensures filled <==> episode.filled2 > old(episode.filled2)
    {
      var side := row.Side(episode.leg1.Opposite());
      var price := episode.quote2.value;
      if !BuyFills(config.fillMode, price, side.bestAsk) {
        return false;
      }
      var size := Min(episode.filled1 - episode.filled2, side.bestAskSize);
      if size <= 0.0 {
        return false;
      }
      episode.BuySecond(price, size);
      episode.Emit(row, LegFilled(Second, Buy, price, size, 0.0), Leg2FillReason, events);
      return true;
    }

    method WorkDirectionalExit(row: Row, episode: MakerEpisode, events: EventList)
      requires episode.Valid() && events.Valid() && !episode.state.Terminal()
      requires episode.exitQuote.Some? && episode.exitStartTs.Some? && episode.terminalReason.Some?
      modifies `episodes, `completed, `consecutiveOrphans, `circuitOpenUntil, episode, events
      ensures Did(row, episode, events, MakerEpisodes.WorkDirectionalExit(config, row, old(Now(episode, events))))
    {
      var remaining := episode.filled1 - episode.filled2;
      if row.timestamp - episode.exitStartTs.value > config.directionalExitTimeout {
        FlattenTaker(row, episode, events, DirectionalExitTimeout, DirectionalExit);
        return;
      }
      var price := episode.exitQuote.value;
      if !SellFills(config.fillMode, price, row.Side(episode.leg1).bestBid) || remaining <= 0.0 {
        return;
      }
      episode.Emit(row, LegFilled(First, Sell, price, remaining, 0.0), DirectionalExitFilled, events);
      CloseWithLoss(row, episode, events, episode.terminalReason.value, price, 0.0);
    }

    // ---- first leg ----

    method CancelLeg1(row: Row, episode: MakerEpisode, events: EventList, reason: Reason)
      requires episode.Valid() && events.Valid()
      modifies `episodes, `completed, `consecutiveOrphans, `circuitOpenUntil, episode, events
      ensures Did(row, episode, events, MakerEpisodes.CancelLeg1(row, old(Now(episode, events)), reason))
    {
      episode.terminalReason := Some(reason);
      episode.Emit(row, OrderCancelled(episode.filled1), reason, events);
      episode.ChangeState(row, Leg1Cancelled, reason, events);
      Finalize(row, episode);
    }

    method RequoteLeg1(row: Row, episode: MakerEpisode, events: EventList)
      requires episode.Valid() && events.Valid() && !episode.state.Terminal()
      modifies `episodes, `completed, `consecutiveOrphans, `circuitOpenUntil, episode, events
      ensures Did(row, episode, events, MakerEpisodes.RequoteLeg1(config, row, old(Now(episode, events))))
    {
      var quote := Leg1Quote(row.Side(episode.leg1), config);
      if quote.None? {
        CancelLeg1(row, episode, events, NoImproveRoom);
        return;
      }
      var price := quote.value.price;
      if ExpectedMargin(price, row.Side(episode.leg1.Opposite()), config) < config.minExpectedMargin {
        CancelLeg1(row, episode, events, ExpectedMarginBelowThreshold);
        return;
      }
      var previous := episode.quote1;
      episode.QuoteFirst(price, row.timestamp);
      episode.Emit(row, QuoteUpdated(First, Buy, Some(previous), price), Leg1Requote, events);
    }

    method WorkLeg1(row: Row, episode: MakerEpisode, events: EventList)
      requires episode.Valid() && events.Valid() && !episode.state.Terminal()
      requires episode.filled2 == 0.0 <= episode.filled1
      modifies `episodes, `completed, `consecutiveOrphans, `circuitOpenUntil, episode, events
      ensures Did(row, episode, events, MakerEpisodes.WorkLeg1(config, row, old(Now(episode, events))))
    {
      if row.timestamp - episode.placedTs > config.leg1Timeout.At(row.timeframe) {
        CancelLeg1(row, episode, events, Reason.Leg1Timeout);
        return;
      }
      if !row.BooksEvaluable(config) {
        return;
      }
      if episode.pendingRequote {
        RequoteLeg1(row, episode, events);
        return;
      }
      if ExpectedMargin(episode.quote1, row.Side(episode.leg1.Opposite()), config) < config.minExpectedMargin {
        CancelLeg1(row, episode, events, ExpectedMarginBelowThreshold);
        return;
      }
      FillLeg1(row, episode, events);
    }

    method FillLeg1(row: Row, episode: MakerEpisode, events: EventList)
      requires episode.Valid() && events.Valid() && !episode.state.Terminal()
      requires episode.filled2 == 0.0 <= episode.filled1
      modifies `episodes, `completed, `consecutiveOrphans, `circuitOpenUntil, episode, events
      ensures Did(row, episode, events, MakerEpisodes.FillLeg1(config, row, old(Now(episode, events))))
    {
      var side := row.Side(episode.leg1);
      var size := Offered(episode.quote1, side, episode.orderSize - episode.filled1);
      assert MakerEpisodes.FillLeg1(config, row, Now(episode, events))
          == MakerEpisodes.TakeFill(config, row, Now(episode, events), size);
      TakeFill(row, episode, events, size);
    }

    /** What a maker buy at `quote` takes from a side, at most what is wanted. */
    method Offered(quote: real, side: BookSide, wanted: real) returns (size: real)
      ensures size == FillSize(config, quote, side, wanted)
    {
      if !BuyFills(config.fillMode, quote, side.bestAsk) {
        return 0.0;
      }
      return Min(wanted, side.bestAskSize);
    }

    method TakeFill(row: Row, episode: MakerEpisode, events: EventList, size: real)
      requires episode.Valid() && events.Valid() && !episode.state.Terminal()
      requires episode.filled2 == 0.0 <= episode.filled1
      modifies `episodes, `completed, `consecutiveOrphans, `circuitOpenUntil, episode, events
      ensures Did(row, episode, events, MakerEpisodes.TakeFill(config, row, old(Now(episode, events)), size))
    {
      if size <= 0.0 {
        return;
      }
      BuyLeg1(row, episode, events, size);
      AfterBuy(row, episode, events);
    }

    method AfterBuy(row: Row, episode: MakerEpisode, events: EventList)
      requires episode.Valid() && events.Valid() && !episode.state.Terminal()
      requires episode.filled2 < episode.filled1 && episode.filled1 != 0.0
      modifies `episodes, `completed, `consecutiveOrphans, `circuitOpenUntil, episode, events
      ensures Did(row, episode, events, MakerEpisodes.AfterBuy(config, row, old(Now(episode, events))))
    {
      var ratio := episode.filled1 / Max(episode.orderSize, EPS);
      assert FilledEnough(config, episode.filled1, episode.orderSize)
             <==> !(episode.filled1 < episode.orderSize - EPS && ratio < config.minFillRatio);
      if episode.filled1 < episode.orderSize - EPS && ratio < config.minFillRatio {
        return;
      }
      StartPair(row, episode, events);
    }

    method BuyLeg1(row: Row, episode: MakerEpisode, events: EventList, size: real)
      requires episode.Valid() && events.Valid() && episode.filled1 + size != 0.0
      modifies episode, events
      ensures episode.Valid() && events.Valid()
      ensures Now(episode, events) == MakerEpisodes.BuyLeg1(row, old(Now(episode, events)), size)
    {
      episode.BuyFirst(episode.quote1, size);
      episode.Emit(row, LegFilled(First, Buy, episode.quote1, size, 0.0), Leg1FillReason, events);
    }

    method StartPair(row: Row, episode: MakerEpisode, events: EventList)
      requires episode.Valid() && events.Valid() && episode.filled2 < episode.filled1 && episode.filled1 != 0.0
      modifies `episodes, `completed, `consecutiveOrphans, `circuitOpenUntil, episode, events
      ensures Did(row, episode, events, MakerEpisodes.StartPair(config, row, old(Now(episode, events))))
    {
      episode.fillTs := Some(row.timestamp);
      episode.ChangeState(row, Leg1Filled, Leg1FillReason, events);
      OpenLeg2(row, episode, events);
    }

    // ---- one live episode, one row ----

    method EpisodePath(row: Row, episode: MakerEpisode, events: EventList)
      requires episode.Valid() && events.Valid() && Readable(episode.View()) && 0.0 <= episode.filled2
      requires !episode.state.Terminal()
      modifies `episodes, `completed, `consecutiveOrphans, `circuitOpenUntil, episode, events
      ensures Did(row, episode, events, MakerEpisodes.EpisodePath(config, row, old(Now(episode, events))))
    {
      var expired := row.secondsToClose <= 0.0 || !row.active;
      var inWindow := row.InFlattenWindow(config);
      var evaluable := row.BooksEvaluable(config);
      if episode.state == Leg1Working {
        if episode.forcedExit.Some? {
          CancelLeg1(row, episode, events, episode.forcedExit.value);
        } else if expired {
          CancelLeg1(row, episode, events, MarketExpiredMidEpisode);
        } else if inWindow {
          CancelLeg1(row, episode, events, EmergencyFlattenWindow);
        } else {
          WorkLeg1(row, episode, events);
        }
      } else if episode.state == Leg1Filled || episode.state == Leg2Working {
        if expired {
          EmergencyFlatten(row, episode, events, MarketExpiredMidEpisode);
        } else if episode.forcedExit.Some? && evaluable {
          EmergencyFlatten(row, episode, events, episode.forcedExit.value);
        } else if inWindow {
          EmergencyFlatten(row, episode, events, EmergencyFlattenWindow);
        } else if evaluable {
          WorkLeg2(row, episode, events);
        }
      } else if episode.state == HedgingDirectionalExit {
        if expired || inWindow {
          EmergencyFlatten(row, episode, events, if expired then MarketExpiredMidEpisode else EmergencyFlattenWindow);
        } else if episode.forcedExit.Some? && evaluable {
          EmergencyFlatten(row, episode, events, episode.forcedExit.value);
        } else if evaluable {
          WorkDirectionalExit(row, episode, events);
        }
      }
    }

    /** A live episode whose market has moved to the row's binding. */
    method Rebind(row: Row, episode: MakerEpisode, events: EventList)
      requires episode.Valid() && events.Valid() && !episode.state.Terminal()
      modifies `episodes, `completed, `consecutiveOrphans, `circuitOpenUntil, episode, events
      ensures Did(row, episode, events, MakerEpisodes.Rebind(config, row, old(Now(episode, events))))
    {
      if row.binding == episode.binding {
        return;
      }
      if episode.state != Leg1Working {
        episode.ForceOut(row.binding);
      } else if episode.filled1 > EPS {
        episode.ForceOut(row.binding);
        episode.ChangeState(row, Leg1Filled, BooksLostMidEpisode, events);
      } else if episode.requotes >= config.maxLeg1Requotes {
        CancelLeg1(row, episode, events, RequoteLimitExceeded);
      } else {
        episode.AskRequote(row.binding);
        episode.Emit(row, Requoted(episode.requotes), SessionChangeRequote, events);
      }
    }

    // ---- the whole machine ----

    ghost function Views(): map<ConditionId, Episode>
      reads `episodes, episodes.Values
    {
      map c | c in episodes :: episodes[c].View()
    }

    ghost function View(): Machine
      reads this, episodes.Values
    {
      Machine(Views(), completed, consecutiveOrphans, circuitOpenUntil,
              episodeSequences, episodesPerMarket, lastBinding, seenBindings, lastRejectReason)
    }

    /** Every condition has its own episode object, and its averages are right. */
    ghost predicate Sound()
      reads `episodes, episodes.Values
    {
      && (forall c :: c in episodes ==> episodes[c].Valid())
      && (forall c, d :: c in episodes && d in episodes && c != d ==> episodes[c] != episodes[d])
    }

    ghost predicate Valid()
      reads this, episodes.Values
    {
      config.Valid() && Sound() && AllResting(config, View())
    }

    constructor (config: Config)
      requires config.Valid()
      ensures Valid() && this.config == config && View() == EMPTY && episodes == map[]
    {
      this.config := config;
      episodes, completed, consecutiveOrphans, circuitOpenUntil := map[], [], 0, None;
      episodeSequences, episodesPerMarket := map[], map[];
      lastBinding, seenBindings, lastRejectReason := map[], map[], map[];
    }

    /** The day's loss, summed over the records. */
    method SumDailyLoss(day: int) returns (loss: real)
      ensures loss == DailyLoss(completed, day)
    {
      loss := 0.0;
      for i := 0 to |completed|
        invariant loss == DailyLoss(completed[..i], day)
      {
        assert completed[..i + 1][..i] == completed[..i];
        if Day(completed[i].ts) == day {
          loss := loss + Max(0.0, -completed[i].pnl);
        }
      }
      assert completed[..|completed|] == completed;
    }

    /** Exposure and money at risk, summed over the live episodes in any order. */
    method SumEpisodes(ghost views: map<ConditionId, Episode>) returns (exposure: real, atRisk: real)
      requires Sound() && views == Views()
      ensures exposure == TotalExposure(views) && atRisk == TotalAtRisk(views)
    {
      exposure, atRisk := 0.0, 0.0;
      var rest := episodes.Keys;
      assert Only(views, rest) == views;
      while rest != {}
        invariant rest <= episodes.Keys
        invariant exposure + TotalExposure(Only(views, rest)) == TotalExposure(views)
        invariant atRisk + TotalAtRisk(Only(views, rest)) == TotalAtRisk(views)
        decreases rest
      {
        var c :| c in rest;
        var episode := episodes[c];
        var own, ownRisk := episode.Exposures();
        exposure := exposure + own;
        atRisk := atRisk + ownRisk;
        OneFewer(views, rest, c);
        rest := rest - {c};
      }
      assert Only(views, {}) == map[];
    }

    /** A lapsed circuit breaker closes. */
    method ResetBreaker(now: real)
      requires Sound()
      modifies `circuitOpenUntil, `consecutiveOrphans
      ensures Sound() && View() == ResetCircuit(old(View()), now)
    {
      if circuitOpenUntil.Some? && now >= circuitOpenUntil.value {
        circuitOpenUntil := None;
        consecutiveOrphans := 0;
      }
    }

    method ReadPortfolio(row: Row, ghost was: Machine) returns (portfolio: Portfolio)
      requires Sound() && was == View()
      ensures portfolio == MakerRuns.View(was, row)
    {
      var exposure, atRisk := SumEpisodes(was.episodes);
      var loss := SumDailyLoss(Day(row.timestamp));
      portfolio := Portfolio(exposure, Max(0.0, atRisk), loss,
                             circuitOpenUntil.Some? && row.timestamp < circuitOpenUntil.value,
                             Lookup(episodesPerMarket, row.market).GetOr(0));
    }

    /** The portfolio as the opening decision sees it, and the breaker reset once read. */
    method PortfolioView(row: Row) returns (portfolio: Portfolio)
      requires Sound()
      modifies `circuitOpenUntil, `consecutiveOrphans
      ensures Sound() && portfolio == MakerRuns.View(old(View()), row)
      ensures View() == ResetCircuit(old(View()), row.timestamp)
    {
      ghost var was := View();
      portfolio := ReadPortfolio(row, was);
      ResetBreaker(row.timestamp);
    }

    /** The new episode object and the event that announces it. */
    method Open(row: Row, opening: Opening) returns (episode: MakerEpisode, events: seq<Event>)
      requires opening.outcome.Some? && opening.quote.Some?
      ensures fresh(episode) && episode.Valid()
      ensures episode.View() == NewEpisode(View(), row, opening) && events == [OpenedEvent(episode.View())]
    {
      var key := EpisodeKey(row.market, row.condition, row.binding);
      var sequence := Lookup(episodeSequences, key).GetOr(0) + 1;
      var id := EpisodeId(row.market, row.condition, row.binding, sequence);
      episode := new MakerEpisode(id, row, opening.outcome.value, opening.quote.value, opening.size);
      var list := new EventList();
      episode.Emit(row, Opened(episode.leg1, episode.quote1, episode.orderSize), MarginsPass, list);
      events := list.items;
      assert list.emitted.earlier.ToSeq() == [];
    }

    method Enroll(row: Row, episode: MakerEpisode)
      requires Sound() && row.condition !in episodes && episode !in episodes.Values && episode.Valid()
      modifies `lastRejectReason, `episodeSequences, `episodes, `episodesPerMarket
      ensures Sound() && episodes == old(episodes)[row.condition := episode]
      ensures View() == Register(old(View()), row, episode.View())
    {
      lastRejectReason := lastRejectReason - {row.condition};
      episodeSequences := episodeSequences[EpisodeKey(row.market, row.condition, row.binding) := episode.id.sequence];
      episodes := episodes[row.condition := episode];
      episodesPerMarket := episodesPerMarket[row.market := Lookup(episodesPerMarket, row.market).GetOr(0) + 1];
      AddedIsRegistered(row, episode);
    }

    /** Put a new episode on the books. */
    method Admit(row: Row, opening: Opening) returns (events: seq<Event>)
      requires Sound() && row.condition !in episodes && opening.outcome.Some? && opening.quote.Some?
      modifies this
      ensures Sound() && fresh(episodes.Values - old(episodes.Values))
      ensures View() == Register(old(View()), row, NewEpisode(old(View()), row, opening))
      ensures events == [OpenedEvent(NewEpisode(old(View()), row, opening))]
    {
      var episode;
      episode, events := Open(row, opening);
      Enroll(row, episode);
    }

    /** Adding one fresh episode object is registering its value. */
    twostate lemma AddedIsRegistered(row: Row, new episode: MakerEpisode)
      requires old(Sound()) && row.condition !in old(episodes) && episode !in old(episodes.Values) && episode.Valid()
      requires episodes == old(episodes)[row.condition := episode]
      requires forall e :: e in old(episodes.Values) ==> unchanged(e)
      ensures Sound()
      ensures Views() == old(Views())[row.condition := episode.View()]
    {
      forall c | c in old(episodes)
        ensures old(episodes)[c] in old(episodes.Values) && episodes[c] == old(episodes)[c]
      {
      }
      assert Views().Keys == old(Views()).Keys + {row.condition};
    }

    method Reject(row: Row, reasons: seq<Reason>) returns (decision: Decision, events: seq<Event>)
      requires Sound() && reasons != []
      modifies `lastRejectReason
      ensures Sound()
      ensures Evaluation(View(), decision, events) == MakerRuns.Reject(old(View()), row, reasons)
    {
      decision, events := Decision(Rejected, reasons[0]), [];
      if Lookup(lastRejectReason, row.condition) != Some(reasons[0]) {
        lastRejectReason := lastRejectReason[row.condition := reasons[0]];
        events := [Rejection(row.condition, row.timestamp, reasons)];
      }
    }

    method OpenPath(row: Row) returns (decision: Decision, events: seq<Event>)
      requires Valid() && row.condition !in episodes
      modifies this
      ensures Sound() && fresh(episodes.Values - old(episodes.Values))
      ensures Evaluation(View(), decision, events) == MakerRuns.OpenPath(config, old(View()), row)
    {
      var portfolio := PortfolioView(row);
      var opening := EvaluateOpening(row, config, portfolio);
      AcceptedOpening(row, config, portfolio);
      if opening.Accepted() {
        events := Admit(row, opening);
        decision := Decision(Accepted, MarginsPass);
      } else {
        decision, events := Reject(row, opening.Reasons());
      }
    }

    /** One live episode through one row, on its own. */
    method StepEpisode(row: Row, bindingChanged: bool, episode: MakerEpisode, events: EventList, ghost ep: Episode)
      requires Resting(config, ep) && ep == episode.View()
      requires episode.Valid() && events.Valid() && events.emitted == Nothing
      modifies `episodes, `completed, `consecutiveOrphans, `circuitOpenUntil, episode, events
      ensures Readable(ep) && 0.0 <= ep.filled2
      ensures Did(row, episode, events, EpisodeStep(config, row, bindingChanged, ep))
    {
      RestingIsReadable(config, ep);
      RebindRests(config, row, Progress(ep, Nothing));
      if bindingChanged {
        Rebind(row, episode, events);
      }
      if !episode.state.Terminal() {
        EpisodePath(row, episode, events);
      }
    }

    /** Of the episodes in `was` only the one has changed, and of the machine only the ledger. */
    twostate predicate OnlyLedgerAnd(episode: MakerEpisode, was: map<ConditionId, MakerEpisode>)
      reads this, was.Values
    {
      && (forall other :: other in was.Values && other != episode ==> unchanged(other))
      && episodeSequences == old(episodeSequences) && episodesPerMarket == old(episodesPerMarket)
      && lastBinding == old(lastBinding) && seenBindings == old(seenBindings)
      && lastRejectReason == old(lastRejectReason)
    }

    /** Changing one episode object and closing its books is settling the machine. */
    twostate lemma ClosedIsSettled(row: Row, new episode: MakerEpisode, new was: map<ConditionId, MakerEpisode>)
      requires was == old(episodes) && old(Sound()) && row.condition in was && was[row.condition] == episode
      requires episode.Valid() && OnlyLedgerAnd(episode, was)
      requires Books() == Closed(config, old(Books()), row, episode.View())
      ensures Sound() && episodes.Values <= was.Values
      ensures View() == Settle(config, old(View()), row, episode.View())
    {
      StillSound(row, episode, was);
      ViewsSettled(row, episode, was);
      SettledMachine(config, old(View()), View(), old(Books()), Books(), row, episode.View());
    }

    static lemma SettledMachine(config: Config, before: Machine, after: Machine, was: Ledger, books: Ledger, row: Row,
                                ep: Episode)
      requires was.completed == before.completed && was.consecutiveOrphans == before.consecutiveOrphans
      requires was.circuitOpenUntil == before.circuitOpenUntil && books == Closed(config, was, row, ep)
      requires after.episodes == if ep.state.Terminal() then before.episodes - {row.condition}
                                 else before.episodes[row.condition := ep]
      requires after == before.(episodes := after.episodes, completed := books.completed,
                                consecutiveOrphans := books.consecutiveOrphans,
                                circuitOpenUntil := books.circuitOpenUntil)
      ensures after == Settle(config, before, row, ep)
    {
    }

    twostate lemma StillSound(row: Row, new episode: MakerEpisode, new was: map<ConditionId, MakerEpisode>)
      requires was == old(episodes) && old(Sound()) && row.condition in was && was[row.condition] == episode
      requires episode.Valid() && OnlyLedgerAnd(episode, was)
      requires episodes == if episode.state.Terminal() then was - {row.condition} else was
      ensures Sound() && episodes.Values <= was.Values
    {
      forall c | c in episodes
        ensures episodes[c].Valid()
      {
        assert episodes[c] == was[c] && was[c] in was.Values;
        assert c != row.condition ==> was[c] != episode;
      }
    }

    static lemma SettledViews(before: map<ConditionId, Episode>, after: map<ConditionId, Episode>, c: ConditionId,
                              ep: Episode)
      requires c in before && after.Keys == if ep.state.Terminal() then before.Keys - {c} else before.Keys
      requires forall d :: d in after ==> after[d] == if d == c then ep else before[d]
      ensures after == if ep.state.Terminal() then before - {c} else before[c := ep]
    {
    }

    twostate lemma ViewsSettled(row: Row, new episode: MakerEpisode, new was: map<ConditionId, MakerEpisode>)
      requires was == old(episodes) && old(Sound()) && row.condition in was && was[row.condition] == episode
      requires OnlyLedgerAnd(episode, was)
      requires episodes == if episode.state.Terminal() then was - {row.condition} else was
      ensures var before, ep := old(Views()), episode.View();
              Views() == if ep.state.Terminal() then before - {row.condition} else before[row.condition := ep]
    {
      var before, after := old(Views()), Views();
      forall c | c in episodes && c != row.condition
        ensures after[c] == before[c]
      {
        assert was[c] in was.Values && was[c] != episode;
      }
      SettledViews(before, after, row.condition, episode.View());
    }

    /** Write the outcome of a row for a live episode into the decision. */
    method Conclude(row: Row, episode: MakerEpisode, list: EventList, ghost was: Machine)
      returns (decision: Decision, events: seq<Event>)
      requires list.Valid() && View() == Settle(config, was, row, episode.View())
      ensures Evaluation(View(), decision, events) == Settled(config, was, row, Now(episode, list))
    {
      events := list.items;
      decision := Decision(if episode.state.Terminal() then Finished else Working,
                           episode.terminalReason.GetOr(EpisodeWorking));
    }

    /** Step the row's episode and settle the machine. */
    method StepRow(row: Row, bindingChanged: bool, episode: MakerEpisode, list: EventList,
                   ghost was: Machine, ghost ep: Episode)
      requires Sound() && row.condition in episodes && episode == episodes[row.condition]
      requires was == View() && ep == episode.View() && Resting(config, ep)
      requires list.Valid() && list.emitted == Nothing
      modifies `episodes, `completed, `consecutiveOrphans, `circuitOpenUntil, episode, list
      ensures Sound() && list.Valid() && episodes.Values <= old(episodes.Values)
      ensures Readable(ep) && 0.0 <= ep.filled2
      ensures Now(episode, list) == EpisodeStep(config, row, bindingChanged, ep)
      ensures View() == Settle(config, was, row, episode.View())
    {
      StepEpisode(row, bindingChanged, episode, list, ep);
      ClosedIsSettled(row, episode, old(episodes));
    }

    method LiveRow(row: Row, bindingChanged: bool) returns (decision: Decision, events: seq<Event>)
      requires Valid() && row.condition in episodes
      modifies `episodes, `completed, `consecutiveOrphans, `circuitOpenUntil, episodes.Values
      ensures Sound() && episodes.Values <= old(episodes.Values)
      ensures Evaluation(View(), decision, events) == LivePath(config, old(View()), row, bindingChanged)
    {
      var episode := episodes[row.condition];
      ghost var was := View();
      var list := new EventList();
      StepRow(row, bindingChanged, episode, list, was, was.episodes[row.condition]);
      decision, events := Conclude(row, episode, list, was);
    }

    /** The row's binding is its market's last and has been seen. */
    method Note(row: Row)
      requires Valid()
      modifies `lastBinding, `seenBindings
      ensures Valid() && View() == NoteBinding(old(View()), row)
    {
      var seen := Lookup(seenBindings, row.market).GetOr({});
      seenBindings := seenBindings[row.market := seen + {row.binding}];
      lastBinding := lastBinding[row.market := row.binding];
    }

    /** `_evaluate`: the machine moves exactly as the specification says, and stays valid. */
    method Evaluate(row: Row) returns (decision: Decision, events: seq<Event>)
      requires Valid()
      modifies this, episodes.Values
      ensures Valid() && fresh(episodes.Values - old(episodes.Values))
      ensures Evaluation(View(), decision, events) == MakerRuns.Evaluate(config, old(View()), row)
    {
      var last := Lookup(lastBinding, row.market);
      var seen := Lookup(seenBindings, row.market).GetOr({});
      if last != Some(row.binding) && BindingIsStale(row.binding, last, seen) {
        return Decision(Rejected, StaleMessageDropped), [];
      }
      var bindingChanged := last.Some? && last.value != row.binding;
      Note(row);
      if row.condition in episodes {
        decision, events := LiveRow(row, bindingChanged);
      } else {
        decision, events := OpenPath(row);
      }
    }
  }

  ghost function Only(m: map<ConditionId, Episode>, keys: set<ConditionId>): map<ConditionId, Episode> {
    map c | c in m && c in keys :: m[c]
  }

  lemma OneFewer(m: map<ConditionId, Episode>, keys: set<ConditionId>, c: ConditionId)
    requires keys <= m.Keys && c in keys
    ensures TotalExposure(Only(m, keys)) == Exposure(m[c]) + TotalExposure(Only(m, keys - {c}))
    ensures TotalAtRisk(Only(m, keys)) == AtRisk(m[c]) + TotalAtRisk(Only(m, keys - {c}))
  {
    TotalAt(Only(m, keys), Exposure, c);
    TotalAt(Only(m, keys), AtRisk, c);
    assert Only(m, keys) - {c} == Only(m, keys - {c});
  }

  lemma TotalAt(m: map<ConditionId, Episode>, amount: Episode -> real, c: ConditionId)
    requires c in m
    ensures Total(m, amount) == amount(m[c]) + Total(m - {c}, amount)
  {
    var values := map d | d in m :: amount(m[d]);
    var rest := m - {c};
    SumAt(values, c);
    assert (map d | d in rest :: amount(rest[d])) == values - {c};
  }

  lemma AverageIsCost(ep: Episode)
    requires Costed(ep)
    ensures ep.filled1 * ep.Avg1() == ep.cost1 && ep.filled2 * ep.Avg2() == ep.cost2
  {
  }

  /** The exposures in terms of the running averages kept. */
  lemma ExposureFormula(ep: Episode, avg1: real, avg2: real)
    requires Costed(ep) && avg1 == ep.Avg1() && avg2 == ep.Avg2()
    ensures Exposure(ep) == ep.filled1 * avg1 + ep.filled2 * avg2
                            + if ep.state == Leg1Working then (ep.orderSize - ep.filled1) * ep.quote1 else 0.0
    ensures AtRisk(ep) == (ep.filled1 - ep.filled2) * avg1
  {
    AverageIsCost(ep);
  }
}
