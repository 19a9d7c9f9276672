/** The shadow lifecycle as it runs: one object holding the open positions, the trades, the
    rejections and the log. */
module ShadowLifecycle {
  import opened Queues
  import opened Options
  import opened ShadowPortfolio

  class StrategyShadowLifecycle {
    const config: Config
    var positions: seq<Position>
    var completedTrades: seq<Trade>
    var portfolioRejections: map<Key, Block>
    var log: seq<LogEntry>

    constructor (config: Config)
      ensures Value() == NONE && this.config == config
    {
      this.config := config;
      positions, completedTrades, portfolioRejections, log := [], [], map[], [];
    }

    function Value(): Portfolio
      reads this
    {
      Portfolio(positions, completedTrades, portfolioRejections, log)
    }

    /** A position is logged once when it ends, and deleted. */
    method EndPosition(i: nat, ending: Ending, payout: real, pnl: real, ts: real)
      requires i < |positions|
      modifies this
      ensures Value() == End(old(Value()), i, ending, payout, pnl, ts)
    {
      var position := positions[i];
      log := log + [EndOf(position, ending, payout, pnl)];
      if ending == ProfitExit || ending == Settlement {
        var trade := Trade(position.key.strategy, ts, pnl, position.compatible);
        completedTrades := KeepLast(completedTrades + [trade], MAX_HISTORY);
      }
      positions := positions[..i] + positions[i + 1..];
    }

    method ExitAllowed(position: Position, row: Row, quote: ExitQuote) returns (ok: bool)
      ensures ok == ExitTaken(config, position, row, quote)
    {
      if row.strategy == Paired || position.hedged || row.ts <= position.entryTs {
        return false;
      }
      if position.targetSize <= 0.0 || !quote.depthOk || !quote.bookFresh
         || quote.quantity + SLACK < position.targetSize || quote.vwap <= 0.0 {
        return false;
      }
      var proceeds := ExitProceeds(position, quote);
      if Round12(proceeds - position.entryCost) + SLACK < config.exitMinPnl {
        return false;
      }
      var mode := if position.key.strategy == Directional then config.directionalExit else config.lotteryExit;
      if mode == Flat {
        return true;
      }
      if position.probability.None? || position.probability.value < 0.0 {
        return false;
      }
      return proceeds + SLACK >= HoldValue(position) + config.exitMargin;
    }

    method TryProfitExit(row: Row) returns (exited: bool)
      modifies this
      ensures exited == Exits(config, old(Value()), row)
      ensures Value() == if exited then Exit(old(Value()), row) else old(Value())
    {
      if row.exitQuote.None? {
        return false;
      }
      var i := Find(positions, KeyOf(row));
      if i == |positions| {
        return false;
      }
      var position, quote := positions[i], row.exitQuote.value;
      exited := ExitAllowed(position, row, quote);
      if exited {
        var proceeds := ExitProceeds(position, quote);
        EndPosition(i, ProfitExit, proceeds, Round12(proceeds - position.entryCost), row.ts);
      }
    }

    method RejectRow(row: Row, reason: Block)
      modifies `portfolioRejections, `log
      ensures Value() == Reject(old(Value()), row, reason)
    {
      var key := KeyOf(row);
      if Lookup(portfolioRejections, key) != Some(reason) {
        log := log + [Rejected(row.eventId, reason)];
      }
      portfolioRejections := portfolioRejections[key := reason];
    }

    method ConsumeRow(row: Row, markets: map<string, Market>, now: real)
      modifies this
      ensures Value() == Consume(config, old(Value()), row, markets, now)
    {
      var exited := TryProfitExit(row);
      if exited {
        return;
      }
      if (!row.hedged || row.strategy == Paired) && !row.versionOk {
        return;
      }
      if !row.accepted || row.market !in markets {
        return;
      }
      if Find(positions, KeyOf(row)) < |positions| {
        return;
      }
      var entry := Entry(row);
      if entry.None? {
        return;
      }
      var (size, cost) := entry.value;
      var market := markets[row.market];
      var block := BlockReason(config, Value(), row, market, cost, now);
      if block.Some? && !config.calibrationMode {
        RejectRow(row, block.value);
        return;
      }
      portfolioRejections := portfolioRejections - {KeyOf(row)};
      positions := positions + [NewPosition(row, market, size, cost)];
    }

    /** What a verdict makes of one position; true if it stays. */
    method SettlePosition(i: nat, verdict: Verdict, now: real) returns (stays: bool)
      requires i < |positions|
      modifies this
      ensures Value() == SettleOne(old(Value()), i, verdict, now) && stays == Stays(verdict)
    {
      stays := false;
      match verdict {
        case Hold =>
          stays := true;
        case Pend =>
          positions := positions[i := positions[i].(pending := true)];
          stays := true;
        case Orphan(ending) =>
          EndPosition(i, ending, 0.0, 0.0, now);
        case Settled(payout) =>
          EndPosition(i, Settlement, payout, Round12(payout - positions[i].entryCost), now);
      }
    }

    method Settle(markets: map<string, Market>, venue: Venue, now: real)
      modifies this
      ensures Value() == ShadowPortfolio.Settle(config, old(Value()), markets, venue, now)
    {
      var i := 0;
      while i < |positions|
        invariant i <= |positions|
        invariant SettleFrom(config, Value(), i, markets, venue, now)
                  == ShadowPortfolio.Settle(config, old(Value()), markets, venue, now)
        decreases |positions| - i
      {
        ghost var before := Value();
        var verdict := Judge(config, positions[i], markets, venue, now);
        var stays := SettlePosition(i, verdict, now);
        SettleStep(config, before, i, markets, venue, now);
        if stays {
          i := i + 1;
        }
      }
    }
  }
}
