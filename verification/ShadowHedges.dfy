/** Settlements over whole runs: each realises what its position was opened for. */
module ShadowHedges {
  import opened Options
  import opened ShadowPortfolio
  import opened ShadowLimits
  import opened HedgeSizing

  /** The position a step opens. */
  function OpenedAt(step: Step): Position
    requires step.ConsumeRow? && step.row.market in step.markets && Entry(step.row).Some?
  {
    var (size, cost) := Entry(step.row).value;
    NewPosition(step.row, step.markets[step.row.market], size, cost)
  }

  /** The `j`th step opened `position`, which may have been marked since. */
  predicate OpenedBy(config: Config, steps: seq<Step>, j: nat, position: Position) {
    && j < |steps| && steps[j].ConsumeRow?
    && Opens(config, Run(config, steps[..j]), steps[j].row, steps[j].markets, steps[j].now)
    && position.(pending := false) == OpenedAt(steps[j])
  }

  /** `entry` is the settlement, in the `k`th step, of what the `j`th step opened, for the side that won by the
      sample and the start price the `k`th step found. */
  predicate Settles(config: Config, steps: seq<Step>, j: nat, k: nat, winner: Side, entry: LogEntry) {
    && j < k < |steps| && steps[j].ConsumeRow? && steps[k].SettleAll?
    && Opens(config, Run(config, steps[..j]), steps[j].row, steps[j].markets, steps[j].now)
    && var position := OpenedAt(steps[j]);
       && position.Close() <= steps[k].now && Winner(position, steps[k].markets, steps[k].venue) == Some(winner)
       && entry == SettlementOf(position, winner)
  }

  function SettlementOf(position: Position, winner: Side): LogEntry {
    var payout := Payout(position, winner);
    EndOf(position, Settlement, payout, Round12(payout - position.entryCost))
  }

  ghost predicate PositionBacked(config: Config, steps: seq<Step>, position: Position) {
    exists j: nat :: OpenedBy(config, steps, j, position)
  }

  ghost predicate EntryBacked(config: Config, steps: seq<Step>, entry: LogEntry) {
    entry.Ended? && entry.ending == Settlement ==>
      exists j: nat, k: nat, winner :: Settles(config, steps, j, k, winner, entry)
  }

  ghost predicate Backed(config: Config, steps: seq<Step>, p: Portfolio) {
    && (forall i :: 0 <= i < |p.positions| ==> PositionBacked(config, steps, p.positions[i]))
    && (forall i :: 0 <= i < |p.log| ==> EntryBacked(config, steps, p.log[i]))
  }

  lemma BackedLater(config: Config, steps: seq<Step>, step: Step, p: Portfolio)
    requires Backed(config, steps, p)
    ensures Backed(config, steps + [step], p)
  {
    var more := steps + [step];
    forall j | 0 <= j < |steps|
      ensures more[..j] == steps[..j] && more[j] == steps[j]
    {
    }
    forall i | 0 <= i < |p.positions|
      ensures PositionBacked(config, more, p.positions[i])
    {
      var j: nat :| OpenedBy(config, steps, j, p.positions[i]);
      assert OpenedBy(config, more, j, p.positions[i]);
    }
    forall i | 0 <= i < |p.log|
      ensures EntryBacked(config, more, p.log[i])
    {
      if p.log[i].Ended? && p.log[i].ending == Settlement {
        var j: nat, k: nat, winner :| Settles(config, steps, j, k, winner, p.log[i]);
        assert Settles(config, more, j, k, winner, p.log[i]);
      }
    }
  }

  lemma OneLogged(config: Config, steps: seq<Step>, p: Portfolio, i: nat, q: Portfolio, entry: LogEntry)
    requires Backed(config, steps, p) && i < |p.positions| && EntryBacked(config, steps, entry)
    requires q.positions == Without(p.positions, i) && q.log == p.log + [entry]
    ensures Backed(config, steps, q)
  {
  }

  lemma EndBacked(config: Config, steps: seq<Step>, p: Portfolio, i: nat, ending: Ending, payout: real, pnl: real,
                  ts: real)
    requires Backed(config, steps, p) && i < |p.positions|
    requires EntryBacked(config, steps, EndOf(p.positions[i], ending, payout, pnl))
    ensures Backed(config, steps, End(p, i, ending, payout, pnl, ts))
  {
  }

  lemma {:induction false} EarliestUnmarked(position: Position, samples: seq<Sample>)
    ensures Earliest(position.(pending := false), samples) == Earliest(position, samples)
  {
    if samples != [] {
      EarliestUnmarked(position, samples[..|samples| - 1]);
    }
  }

  /** Nothing about a settlement depends on whether it was pending. */
  lemma SettlesUnmarked(position: Position, markets: map<string, Market>, venue: Venue, winner: Side)
    ensures var unmarked := position.(pending := false);
            && Winner(unmarked, markets, venue) == Winner(position, markets, venue)
            && SettlementOf(unmarked, winner) == SettlementOf(position, winner)
            && unmarked.Close() == position.Close()
  {
    if position.source.Some? {
      EarliestUnmarked(position, Lookup(venue, (position.asset, position.source.value)).GetOr([]));
    }
  }

  /** The last step settles a position opened before it. */
  lemma SettlementBacked(config: Config, steps: seq<Step>, position: Position, winner: Side)
    requires steps != [] && steps[|steps| - 1].SettleAll? && PositionBacked(config, steps, position)
    requires var step := steps[|steps| - 1];
             position.Close() <= step.now && Winner(position, step.markets, step.venue) == Some(winner)
    ensures EntryBacked(config, steps, SettlementOf(position, winner))
  {
    var j: nat :| OpenedBy(config, steps, j, position);
    SettlesUnmarked(position, steps[|steps| - 1].markets, steps[|steps| - 1].venue, winner);
    assert Settles(config, steps, j, |steps| - 1, winner, SettlementOf(position, winner));
  }

  lemma PendBacked(config: Config, steps: seq<Step>, p: Portfolio, i: nat)
    requires Backed(config, steps, p) && i < |p.positions|
    ensures Backed(config, steps, p.(positions := p.positions[i := p.positions[i].(pending := true)]))
  {
    var position := p.positions[i];
    var j: nat :| OpenedBy(config, steps, j, position);
    assert OpenedBy(config, steps, j, position.(pending := true));
  }

  lemma SettledBacked(config: Config, steps: seq<Step>, p: Portfolio, i: nat, winner: Side, now: real)
    requires steps != [] && steps[|steps| - 1].SettleAll? && Backed(config, steps, p) && i < |p.positions|
    requires var step, position := steps[|steps| - 1], p.positions[i];
             position.Close() <= step.now && Winner(position, step.markets, step.venue) == Some(winner)
    ensures Backed(config, steps, SettleOne(p, i, Settled(Payout(p.positions[i], winner)), now))
  {
    var entry, q := SettlementOf(p.positions[i], winner), SettleOne(p, i, Settled(Payout(p.positions[i], winner)), now);
    SettlementBacked(config, steps, p.positions[i], winner);
    assert q.positions == Without(p.positions, i) && q.log == p.log + [entry];
    OneLogged(config, steps, p, i, q, entry);
  }

  lemma SettleOneBacked(config: Config, steps: seq<Step>, p: Portfolio, i: nat, markets: map<string, Market>,
                        venue: Venue, now: real)
    requires steps != [] && steps[|steps| - 1] == SettleAll(markets, venue, now)
    requires Backed(config, steps, p) && i < |p.positions|
    ensures Backed(config, steps, SettleOne(p, i, Judge(config, p.positions[i], markets, venue, now), now))
  {
    var position := p.positions[i];
    match Judge(config, position, markets, venue, now) {
      case Hold =>
      case Pend => PendBacked(config, steps, p, i);
      case Orphan(ending) =>
        EndBacked(config, steps, p, i, ending, 0.0, 0.0, now);
      case Settled(_) => SettledBacked(config, steps, p, i, Winner(position, markets, venue).value, now);
    }
  }

  lemma {:induction false} SettleBacked(config: Config, steps: seq<Step>, p: Portfolio, i: nat,
                                        markets: map<string, Market>, venue: Venue, now: real)
    requires steps != [] && steps[|steps| - 1] == SettleAll(markets, venue, now)
    requires Backed(config, steps, p) && i <= |p.positions|
    ensures Backed(config, steps, SettleFrom(config, p, i, markets, venue, now))
    decreases |p.positions| - i
  {
    if i < |p.positions| {
      var verdict := Judge(config, p.positions[i], markets, venue, now);
      SettleOneBacked(config, steps, p, i, markets, venue, now);
      SettleBacked(config, steps, SettleOne(p, i, verdict, now),
                   if Stays(verdict) then i + 1 else i, markets, venue, now);
    }
  }

  lemma ConsumeBacked(config: Config, steps: seq<Step>, p: Portfolio, step: Step)
    requires step.ConsumeRow? && p == Run(config, steps) && Backed(config, steps + [step], p)
    ensures Backed(config, steps + [step], Next(config, p, step))
  {
    var row, more := step.row, steps + [step];
    if Exits(config, p, row) {
      var i := Find(p.positions, KeyOf(row));
      var proceeds := ExitProceeds(p.positions[i], row.exitQuote.value);
      EndBacked(config, more, p, i, ProfitExit, proceeds, Round12(proceeds - p.positions[i].entryCost), row.ts);
    } else if Opens(config, p, row, step.markets, step.now) {
      assert more[..|steps|] == steps;
      assert OpenedBy(config, more, |steps|, OpenedAt(step));
    }
  }

  /** In every run each open position, and each settlement logged, goes back to a row that opened it. */
  lemma {:induction false} RunBacked(config: Config, steps: seq<Step>)
    ensures Backed(config, steps, Run(config, steps))
  {
    if steps != [] {
      var before, step := steps[..|steps| - 1], steps[|steps| - 1];
      assert steps == before + [step];
      RunBacked(config, before);
      BackedLater(config, before, step, Run(config, before));
      match step
      case ConsumeRow(_, _, _) => ConsumeBacked(config, before, Run(config, before), step);
      case SettleAll(markets, venue, now) => SettleBacked(config, steps, Run(config, before), 0, markets, venue, now);
    }
  }

  // ---- hedges ----

  /** A hedged row carries the size and cost of a hedge accepted on these terms. */
  predicate Audited(row: Row, t: AuditTerms) {
    && row.hedged && row.strategy != Paired && AuditHedge(t).Accepted?
    && row.mainSize == Some(t.size)
    && row.hedgeSize == AuditHedge(t).hedgeSize && row.totalCost == AuditHedge(t).totalCost
  }

  /** Settling realises the result the hedge was accepted for, to rounding: a win, or exactly the loss allowed. */
  predicate Realises(t: AuditTerms, won: bool, pnl: real) {
    if won then AuditHedge(t).Accepted? && AuditHedge(t).mainWin - SLACK <= pnl <= AuditHedge(t).mainWin + SLACK
    else -t.maxLoss - SLACK <= pnl <= -t.maxLoss + SLACK
  }

  lemma HedgePays(config: Config, steps: seq<Step>, j: nat, k: nat, winner: Side, entry: LogEntry, t: AuditTerms)
    requires Settles(config, steps, j, k, winner, entry) && Audited(steps[j].row, t)
    ensures Realises(t, winner == KeyOf(steps[j].row).outcome, entry.pnl)
  {
    var position := OpenedAt(steps[j]);
    AuditLosesTheMaximum(t, 0.0);
    assert position.mainSize == t.size && position.hedgeSize == AuditHedge(t).hedgeSize && position.hedged;
  }

  /** Every settlement logged in a run is made in a later step than that whose row opened its position, for the
      side the sample found there decides; and where the row carried an accepted hedge, a win realises the win it
      was accepted for and a reversal exactly the loss allowed. */
  lemma SettlementRealisesTheHedge(config: Config, steps: seq<Step>, i: nat)
    requires i < |Run(config, steps).log|
    requires Run(config, steps).log[i].Ended? && Run(config, steps).log[i].ending == Settlement
    ensures exists j: nat, k: nat, winner ::
              && Settles(config, steps, j, k, winner, Run(config, steps).log[i])
              && forall t: AuditTerms :: Audited(steps[j].row, t) ==>
                   Realises(t, winner == KeyOf(steps[j].row).outcome, Run(config, steps).log[i].pnl)
  {
    var entry := Run(config, steps).log[i];
    RunBacked(config, steps);
    assert EntryBacked(config, steps, entry);
    var j: nat, k: nat, winner :| Settles(config, steps, j, k, winner, entry);
    forall t: AuditTerms | Audited(steps[j].row, t)
      ensures Realises(t, winner == KeyOf(steps[j].row).outcome, entry.pnl)
    {
      HedgePays(config, steps, j, k, winner, entry, t);
    }
  }
}
