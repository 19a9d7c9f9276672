/** Limits and conservation over whole runs of the shadow portfolio. */
module ShadowLimits {
  import opened Numbers
  import opened Options
  import opened ShadowPortfolio

  function Positive(limit: int): int {
    if limit < 0 then 0 else limit
  }

  function PositiveReal(limit: real): real {
    if limit < 0.0 then 0.0 else limit
  }

  /** What was paid out, not in, to open the positions of a strategy that have ended. */
  function Returned(log: seq<LogEntry>, strategy: Strategy): (r: real)
    ensures r >= 0.0
  {
    if log == [] then 0.0
    else
      var last := log[|log| - 1];
      Returned(log[..|log| - 1], strategy)
      + if last.Ended? && last.strategy == strategy && last.entryCost < 0.0 then -last.entryCost else 0.0
  }

  /** Open positions within every limit on their number; and within those of notional, to half a unit of the
      twelfth place and what ended positions have left behind that had cost less than nothing. */
  ghost predicate WithinLimits(config: Config, p: Portfolio) {
    && (forall close: Option<real> ::
          CountIn(p.positions, OfAnyWindow(close)) <= Positive(config.combinedMaxPerCloseWindow))
    && StrategyWithin(config.directional, p, Directional) && StrategyWithin(config.lottery, p, Lottery)
  }

  ghost predicate StrategyWithin(limits: StrategyLimits, p: Portfolio, strategy: Strategy) {
    && CountIn(p.positions, OfStrategy(strategy)) <= Positive(limits.maxOpenPositions)
    && (forall close: Option<real> ::
          CountIn(p.positions, OfWindow(strategy, close)) <= Positive(limits.maxPerCloseWindow))
    && Notional(p.positions, strategy) <= PositiveReal(limits.maxOpenNotional) + HALF_UNIT + Returned(p.log, strategy)
  }

  predicate KeysDistinct(positions: seq<Position>) {
    forall i, j :: 0 <= i < j < |positions| ==> positions[i].key != positions[j].key
  }

  // ---- counting ----

  lemma CountMore(positions: seq<Position>, p: Position, scope: Scope)
    ensures CountIn(positions + [p], scope) == CountIn(positions, scope) + if InScope(p, scope) then 1 else 0
  {
    assert (positions + [p])[..|positions|] == positions;
  }

  lemma {:induction false} CountInTwo(a: seq<Position>, b: seq<Position>, scope: Scope)
    ensures CountIn(a + b, scope) == CountIn(a, scope) + CountIn(b, scope)
  {
    if b == [] {
      assert a + b == a;
    } else {
      var n := |b| - 1;
      assert a + b == a + b[..n] + [b[n]];
      CountInTwo(a, b[..n], scope);
      CountMore(a + b[..n], b[n], scope);
    }
  }

  lemma CountWithout(positions: seq<Position>, i: nat, scope: Scope)
    requires i < |positions|
    ensures CountIn(Without(positions, i), scope)
            == CountIn(positions, scope) - if InScope(positions[i], scope) then 1 else 0
  {
    assert positions == positions[..i] + [positions[i]] + positions[i + 1..];
    CountInTwo(positions[..i] + [positions[i]], positions[i + 1..], scope);
    CountMore(positions[..i], positions[i], scope);
    CountInTwo(positions[..i], positions[i + 1..], scope);
  }

  lemma NotionalMore(positions: seq<Position>, p: Position, strategy: Strategy)
    ensures Notional(positions + [p], strategy)
            == Notional(positions, strategy) + if p.key.strategy == strategy then p.entryCost else 0.0
  {
    assert (positions + [p])[..|positions|] == positions;
  }

  lemma {:induction false} NotionalInTwo(a: seq<Position>, b: seq<Position>, strategy: Strategy)
    ensures Notional(a + b, strategy) == Notional(a, strategy) + Notional(b, strategy)
  {
    if b == [] {
      assert a + b == a;
    } else {
      var n := |b| - 1;
      assert a + b == a + b[..n] + [b[n]];
      NotionalInTwo(a, b[..n], strategy);
      NotionalMore(a + b[..n], b[n], strategy);
    }
  }

  lemma NotionalWithout(positions: seq<Position>, i: nat, strategy: Strategy)
    requires i < |positions|
    ensures Notional(Without(positions, i), strategy)
            == Notional(positions, strategy)
               - if positions[i].key.strategy == strategy then positions[i].entryCost else 0.0
  {
    assert positions == positions[..i] + [positions[i]] + positions[i + 1..];
    NotionalInTwo(positions[..i] + [positions[i]], positions[i + 1..], strategy);
    NotionalMore(positions[..i], positions[i], strategy);
    NotionalInTwo(positions[..i], positions[i + 1..], strategy);
  }

  /** Marking a position changes nothing a limit counts. */
  lemma PendingCounts(positions: seq<Position>, i: nat, scope: Scope, strategy: Strategy)
    requires i < |positions|
    ensures var marked := positions[i := positions[i].(pending := true)];
            CountIn(marked, scope) == CountIn(positions, scope)
              && Notional(marked, strategy) == Notional(positions, strategy)
  {
    var marked := positions[i := positions[i].(pending := true)];
    CountWithout(positions, i, scope);
    CountWithout(marked, i, scope);
    NotionalWithout(positions, i, strategy);
    NotionalWithout(marked, i, strategy);
    assert Without(marked, i) == Without(positions, i);
  }

  // ---- one step ----

  lemma ReturnedMore(log: seq<LogEntry>, entry: LogEntry, strategy: Strategy)
    ensures Returned(log + [entry], strategy)
            == Returned(log, strategy)
               + if entry.Ended? && entry.strategy == strategy && entry.entryCost < 0.0 then -entry.entryCost else 0.0
  {
    assert (log + [entry])[..|log|] == log;
  }

  /** `q` is `p` without its `i`th position, which is logged as ended. */
  predicate Removes(p: Portfolio, i: nat, q: Portfolio)
    requires i < |p.positions|
  {
    && q.positions == Without(p.positions, i) && |q.log| > 0 && q.log[..|q.log| - 1] == p.log
    && var last, position := q.log[|q.log| - 1], p.positions[i];
       last.Ended? && last.strategy == position.key.strategy && last.entryCost == position.entryCost
  }

  lemma EndRemoves(p: Portfolio, i: nat, ending: Ending, payout: real, pnl: real, ts: real)
    requires i < |p.positions|
    ensures Removes(p, i, End(p, i, ending, payout, pnl, ts))
  {
  }

  lemma SettleOneRemoves(p: Portfolio, i: nat, verdict: Verdict, now: real)
    requires i < |p.positions| && !Stays(verdict)
    ensures Removes(p, i, SettleOne(p, i, verdict, now))
  {
  }

  /** Ending a position lowers the notional by its cost, or leaves behind what it had returned. */
  lemma RemovingKeepsNotional(p: Portfolio, i: nat, q: Portfolio, strategy: Strategy)
    requires i < |p.positions| && Removes(p, i, q)
    ensures Notional(q.positions, strategy) - Returned(q.log, strategy)
            <= Notional(p.positions, strategy) - Returned(p.log, strategy)
  {
    NotionalWithout(p.positions, i, strategy);
  }

  lemma RemovingKeepsLimits(config: Config, p: Portfolio, i: nat, q: Portfolio)
    requires WithinLimits(config, p) && i < |p.positions| && Removes(p, i, q)
    ensures WithinLimits(config, q)
  {
    forall scope: Scope
      ensures CountIn(q.positions, scope) <= CountIn(p.positions, scope)
    {
      CountWithout(p.positions, i, scope);
    }
    RemovingKeepsNotional(p, i, q, Directional);
    RemovingKeepsNotional(p, i, q, Lottery);
  }

  lemma MarkingKeepsLimits(config: Config, p: Portfolio, i: nat)
    requires WithinLimits(config, p) && i < |p.positions|
    ensures WithinLimits(config, p.(positions := p.positions[i := p.positions[i].(pending := true)]))
  {
    forall scope: Scope
      ensures CountIn(p.positions[i := p.positions[i].(pending := true)], scope) == CountIn(p.positions, scope)
    {
      PendingCounts(p.positions, i, scope, Directional);
    }
    PendingCounts(p.positions, i, OfStrategy(Directional), Directional);
    PendingCounts(p.positions, i, OfStrategy(Lottery), Lottery);
  }

  lemma RejectingKeepsLimits(config: Config, p: Portfolio, row: Row, reason: Block)
    requires WithinLimits(config, p)
    ensures WithinLimits(config, Reject(p, row, reason))
  {
    ReturnedMore(p.log, Rejected(row.eventId, reason), Directional);
    ReturnedMore(p.log, Rejected(row.eventId, reason), Lottery);
  }

  /** There is room for one more position of a strategy under its limits. */
  predicate HasRoom(limits: StrategyLimits, p: Portfolio, strategy: Strategy, close: Option<real>, cost: real) {
    && CountIn(p.positions, OfStrategy(strategy)) < limits.maxOpenPositions
    && CountIn(p.positions, OfWindow(strategy, close)) < limits.maxPerCloseWindow
    && Notional(p.positions, strategy) + cost <= limits.maxOpenNotional + HALF_UNIT
  }

  lemma AddingKeepsStrategy(limits: StrategyLimits, p: Portfolio, q: Portfolio, position: Position,
                            strategy: Strategy)
    requires StrategyWithin(limits, p, strategy) && q.positions == p.positions + [position] && q.log == p.log
    requires position.key.strategy == strategy ==>
               HasRoom(limits, p, strategy, position.closeTs, position.entryCost)
    ensures StrategyWithin(limits, q, strategy)
  {
    forall scope: Scope
      ensures CountIn(q.positions, scope) == CountIn(p.positions, scope) + if InScope(position, scope) then 1 else 0
    {
      CountMore(p.positions, position, scope);
    }
    NotionalMore(p.positions, position, strategy);
  }

  lemma AddingKeepsLimits(config: Config, p: Portfolio, q: Portfolio, position: Position)
    requires WithinLimits(config, p) && q.positions == p.positions + [position] && q.log == p.log
    requires position.key.strategy != Paired ==>
               && CountIn(p.positions, OfAnyWindow(position.closeTs)) < config.combinedMaxPerCloseWindow
               && HasRoom(config.LimitsOf(position.key.strategy), p, position.key.strategy, position.closeTs,
                          position.entryCost)
    ensures WithinLimits(config, q)
  {
    forall close: Option<real>
      ensures CountIn(q.positions, OfAnyWindow(close)) <= Positive(config.combinedMaxPerCloseWindow)
    {
      CountMore(p.positions, position, OfAnyWindow(close));
    }
    AddingKeepsStrategy(config.directional, p, q, position, Directional);
    AddingKeepsStrategy(config.lottery, p, q, position, Lottery);
  }

  lemma EnteringKeepsLimits(config: Config, p: Portfolio, row: Row, market: Market, now: real)
    requires WithinLimits(config, p) && Entry(row).Some?
    requires BlockReason(config, p, row, market, Entry(row).value.1, now).None?
    ensures WithinLimits(config, Enter(config, p, row, market, now))
  {
    var position := NewPosition(row, market, Entry(row).value.0, Entry(row).value.1);
    AddingKeepsLimits(config, p, Enter(config, p, row, market, now), position);
  }

  lemma ConsumeKeepsLimits(config: Config, p: Portfolio, row: Row, markets: map<string, Market>, now: real)
    requires !config.calibrationMode && WithinLimits(config, p)
    ensures WithinLimits(config, Consume(config, p, row, markets, now))
  {
    if Exits(config, p, row) {
      var i := Find(p.positions, KeyOf(row));
      var proceeds := ExitProceeds(p.positions[i], row.exitQuote.value);
      EndRemoves(p, i, ProfitExit, proceeds, Round12(proceeds - p.positions[i].entryCost), row.ts);
      RemovingKeepsLimits(config, p, i, Exit(p, row));
    } else if Enters(p, row, markets) {
      var block := BlockReason(config, p, row, markets[row.market], Entry(row).value.1, now);
      if block.None? {
        EnteringKeepsLimits(config, p, row, markets[row.market], now);
      } else {
        RejectingKeepsLimits(config, p, row, block.value);
      }
    }
  }

  lemma SettleOneKeepsLimits(config: Config, p: Portfolio, i: nat, verdict: Verdict, now: real)
    requires WithinLimits(config, p) && i < |p.positions|
    ensures WithinLimits(config, SettleOne(p, i, verdict, now))
  {
    if verdict.Pend? {
      MarkingKeepsLimits(config, p, i);
    } else if !Stays(verdict) {
      SettleOneRemoves(p, i, verdict, now);
      RemovingKeepsLimits(config, p, i, SettleOne(p, i, verdict, now));
    }
  }

  lemma {:induction false} SettleKeepsLimits(config: Config, p: Portfolio, i: nat, markets: map<string, Market>,
                                             venue: Venue, now: real)
    requires WithinLimits(config, p) && i <= |p.positions|
    ensures WithinLimits(config, SettleFrom(config, p, i, markets, venue, now))
    decreases |p.positions| - i
  {
    if i < |p.positions| {
      var verdict := Judge(config, p.positions[i], markets, venue, now);
      var next, k := SettleOne(p, i, verdict, now), if Stays(verdict) then i + 1 else i;
      SettleStep(config, p, i, markets, venue, now);
      SettleOneKeepsLimits(config, p, i, verdict, now);
      SettleKeepsLimits(config, next, k, markets, venue, now);
    }
  }

  // ---- rows that cost something ----

  /** Costs are not negative; for a dynamically sized entry the code checks it itself. */
  predicate Fair(row: Row) {
    row.hedged ==> row.totalCost >= 0.0
  }

  /** No position, open or ended, has cost less than nothing. */
  predicate NothingReturned(p: Portfolio) {
    && (forall i :: 0 <= i < |p.positions| ==> p.positions[i].entryCost >= 0.0)
    && (forall i :: 0 <= i < |p.log| && p.log[i].Ended? ==> p.log[i].entryCost >= 0.0)
  }

  lemma {:induction false} NoneReturned(log: seq<LogEntry>, strategy: Strategy)
    requires forall i :: 0 <= i < |log| && log[i].Ended? ==> log[i].entryCost >= 0.0
    ensures Returned(log, strategy) == 0.0
  {
    if log != [] {
      NoneReturned(log[..|log| - 1], strategy);
    }
  }

  lemma {:induction false} SettleReturnsNothing(config: Config, p: Portfolio, i: nat, markets: map<string, Market>,
                                                venue: Venue, now: real)
    requires NothingReturned(p) && i <= |p.positions|
    ensures NothingReturned(SettleFrom(config, p, i, markets, venue, now))
    decreases |p.positions| - i
  {
    if i < |p.positions| {
      var verdict := Judge(config, p.positions[i], markets, venue, now);
      SettleReturnsNothing(config, SettleOne(p, i, verdict, now), if Stays(verdict) then i + 1 else i, markets, venue,
                           now);
    }
  }

  // ---- every position ends once ----

  function EndedWith(log: seq<LogEntry>, id: string): nat {
    if log == [] then 0
    else EndedWith(log[..|log| - 1], id)
         + if log[|log| - 1].Ended? && log[|log| - 1].eventId == id then 1 else 0
  }

  lemma EndedMore(log: seq<LogEntry>, entry: LogEntry, id: string)
    ensures EndedWith(log + [entry], id) == EndedWith(log, id) + if entry.Ended? && entry.eventId == id then 1 else 0
  {
    assert (log + [entry])[..|log|] == log;
  }

  /** How many positions opened by event `id` are open or have ended; only an entry changes it. */
  function Accounted(p: Portfolio, id: string): nat {
    CountIn(p.positions, OfEvent(id)) + EndedWith(p.log, id)
  }

  lemma EndIsAccounted(p: Portfolio, i: nat, ending: Ending, payout: real, pnl: real, ts: real, id: string)
    requires i < |p.positions|
    ensures Accounted(End(p, i, ending, payout, pnl, ts), id) == Accounted(p, id)
  {
    CountWithout(p.positions, i, OfEvent(id));
    EndedMore(p.log, EndOf(p.positions[i], ending, payout, pnl), id);
  }

  lemma {:induction false} SettleIsAccounted(config: Config, p: Portfolio, i: nat, markets: map<string, Market>,
                                             venue: Venue, now: real, id: string)
    requires i <= |p.positions|
    ensures Accounted(SettleFrom(config, p, i, markets, venue, now), id) == Accounted(p, id)
    decreases |p.positions| - i
  {
    if i < |p.positions| {
      var verdict := Judge(config, p.positions[i], markets, venue, now);
      match verdict {
        case Hold =>
        case Pend => PendingCounts(p.positions, i, OfEvent(id), Directional);
        case Orphan(ending) => EndIsAccounted(p, i, ending, 0.0, 0.0, now, id);
        case Settled(payout) =>
          EndIsAccounted(p, i, Settlement, payout, Round12(payout - p.positions[i].entryCost), now, id);
      }
      SettleIsAccounted(config, SettleOne(p, i, verdict, now), if Stays(verdict) then i + 1 else i,
                        markets, venue, now, id);
    }
  }

  /** Whether a row opens a position. */
  predicate Opens(config: Config, p: Portfolio, row: Row, markets: map<string, Market>, now: real) {
    && !Exits(config, p, row) && Enters(p, row, markets)
    && (config.calibrationMode || BlockReason(config, p, row, markets[row.market], Entry(row).value.1, now).None?)
  }

  lemma RejectIsAccounted(p: Portfolio, row: Row, reason: Block, id: string)
    ensures Accounted(Reject(p, row, reason), id) == Accounted(p, id)
  {
    EndedMore(p.log, Rejected(row.eventId, reason), id);
  }

  lemma EnterIsAccounted(config: Config, p: Portfolio, row: Row, market: Market, now: real, id: string)
    requires Entry(row).Some?
    ensures var block := BlockReason(config, p, row, market, Entry(row).value.1, now);
            Accounted(Enter(config, p, row, market, now), id)
            == Accounted(p, id) + if (config.calibrationMode || block.None?) && row.eventId == id then 1 else 0
  {
    var block := BlockReason(config, p, row, market, Entry(row).value.1, now);
    CountMore(p.positions, NewPosition(row, market, Entry(row).value.0, Entry(row).value.1), OfEvent(id));
    if block.Some? && !config.calibrationMode {
      RejectIsAccounted(p, row, block.value, id);
    }
  }

  lemma ConsumeIsAccounted(config: Config, p: Portfolio, row: Row, markets: map<string, Market>, now: real, id: string)
    ensures Accounted(Consume(config, p, row, markets, now), id)
            == Accounted(p, id) + if Opens(config, p, row, markets, now) && row.eventId == id then 1 else 0
  {
    if Exits(config, p, row) {
      var i := Find(p.positions, KeyOf(row));
      var proceeds := ExitProceeds(p.positions[i], row.exitQuote.value);
      EndIsAccounted(p, i, ProfitExit, proceeds, Round12(proceeds - p.positions[i].entryCost), row.ts, id);
    } else if Enters(p, row, markets) {
      EnterIsAccounted(config, p, row, markets[row.market], now, id);
    }
  }

  // ---- whole runs ----

  datatype Step =
    | ConsumeRow(row: Row, markets: map<string, Market>, now: real)
    | SettleAll(markets: map<string, Market>, venue: Venue, now: real)

  function Next(config: Config, p: Portfolio, step: Step): Portfolio {
    match step
    case ConsumeRow(row, markets, now) => Consume(config, p, row, markets, now)
    case SettleAll(markets, venue, now) => Settle(config, p, markets, venue, now)
  }

  function Run(config: Config, steps: seq<Step>): Portfolio {
    if steps == [] then NONE else Next(config, Run(config, steps[..|steps| - 1]), steps[|steps| - 1])
  }

  /** How many rows with event id `id` opened a position. */
  function OpenedWith(config: Config, steps: seq<Step>, id: string): nat {
    if steps == [] then 0
    else
      var before, step := steps[..|steps| - 1], steps[|steps| - 1];
      OpenedWith(config, before, id)
      + if step.ConsumeRow? && Opens(config, Run(config, before), step.row, step.markets, step.now)
           && step.row.eventId == id then 1 else 0
  }

  predicate AllFair(steps: seq<Step>) {
    forall i :: 0 <= i < |steps| && steps[i].ConsumeRow? ==> Fair(steps[i].row)
  }

  /** Outside calibration no run ever exceeds a limit on the number of positions, nor one of notional by more
      than ended positions have left behind that had cost less than nothing. */
  lemma {:induction false} RunsKeepLimits(config: Config, steps: seq<Step>)
    requires !config.calibrationMode
    ensures WithinLimits(config, Run(config, steps))
  {
    if steps != [] {
      var before, step := steps[..|steps| - 1], steps[|steps| - 1];
      RunsKeepLimits(config, before);
      match step
      case ConsumeRow(row, markets, now) => ConsumeKeepsLimits(config, Run(config, before), row, markets, now);
      case SettleAll(markets, venue, now) =>
        SettleKeepsLimits(config, Run(config, before), 0, markets, venue, now);
    }
  }

  /** Nothing is left behind as long as no hedged row costs less than nothing. */
  lemma {:induction false} FairRunsReturnNothing(config: Config, steps: seq<Step>)
    requires AllFair(steps)
    ensures NothingReturned(Run(config, steps))
    ensures forall strategy :: Returned(Run(config, steps).log, strategy) == 0.0
  {
    if steps != [] {
      var before, step := steps[..|steps| - 1], steps[|steps| - 1];
      assert AllFair(before);
      FairRunsReturnNothing(config, before);
      if step.SettleAll? {
        SettleReturnsNothing(config, Run(config, before), 0, step.markets, step.venue, step.now);
      }
    }
    forall strategy
      ensures Returned(Run(config, steps).log, strategy) == 0.0
    {
      NoneReturned(Run(config, steps).log, strategy);
    }
  }

  // ---- a run that exceeds its notional ----

  const TEN := StrategyLimits(100.0, 10, 10, 10.0, 100.0, 10)
  const OPEN := Config(TEN, TEN, 10, false, 10.0, 0.0, Flat, Flat, 0.0)
  const MARKETS := map["a" := Market(Some(1.0), None, "", None), "b" := Market(Some(1000.0), None, "", None)]

  /** A hedged row of this cost. */
  function HedgedRow(market: string, cost: real): Row {
    Row(Directional, market, true, true, true, market, "", Some(Up), None, 0.0, Some(1.0), Some(1.0), 0.0, cost,
        None, None, None, false, None)
  }

  function HedgedPosition(market: string, cost: real): Position
    requires market in MARKETS
  {
    NewPosition(HedgedRow(market, cost), MARKETS[market], 1.0, cost)
  }

  lemma OpensAgainstNothing(cost: real)
    requires cost <= 10.0
    ensures Consume(OPEN, NONE, HedgedRow("a", cost), MARKETS, 0.0) == NONE.(positions := [HedgedPosition("a", cost)])
  {
  }

  lemma OpensAgainstTheFirst(p: Portfolio, first: real, second: real)
    requires p.positions == [HedgedPosition("a", first)] && p.trades == []
    requires Round12(first) + second <= 10.0
    ensures Consume(OPEN, p, HedgedRow("b", second), MARKETS, 0.0)
            == p.(rejections := p.rejections - {Key(Directional, "b", Up)},
                  positions := [HedgedPosition("a", first), HedgedPosition("b", second)])
  {
    assert p.positions[..0] == [] && p.positions[1..] == [];
    assert Notional(p.positions, Directional) == Round12(first);
    assert CountIn(p.positions, OfStrategy(Directional)) == 1;
    assert CountIn(p.positions, OfAnyWindow(Some(1000.0))) == 0;
    assert CountIn(p.positions, OfWindow(Directional, Some(1000.0))) == 0;
  }

  lemma FirstIsGivenUp(p: Portfolio, first: real, second: real)
    requires p.positions == [HedgedPosition("a", first), HedgedPosition("b", second)]
    ensures Settle(OPEN, p, MARKETS, map[], 100.0).positions == [HedgedPosition("b", second)]
    ensures Settle(OPEN, p, MARKETS, map[], 100.0).log
            == p.log + [EndOf(HedgedPosition("a", first), SampleUnavailable, 0.0, 0.0)]
  {
    assert Judge(OPEN, p.positions[0], MARKETS, map[], 100.0) == Orphan(SampleUnavailable);
    var next := SettleOne(p, 0, Orphan(SampleUnavailable), 100.0);
    assert next.positions == [p.positions[1]];
    assert Judge(OPEN, next.positions[0], MARKETS, map[], 100.0) == Hold;
    assert SettleFrom(OPEN, next, 1, MARKETS, map[], 100.0) == next;
    assert SettleFrom(OPEN, next, 0, MARKETS, map[], 100.0) == next;
  }

  lemma WholeIsNearest(n: int)
    ensures NearestEven(n as real) == n
  {
  }

  lemma WholeUnits(n: int, x: real)
    requires x * 1000000000000.0 == n as real
    ensures Round12(x) == x
  {
    WholeIsNearest(n);
  }

  lemma RoundedTwice(cost: real)
    ensures Round12(10.0 - Round12(cost)) == 10.0 - Round12(cost)
  {
    var n := NearestEven(cost * 1000000000000.0);
    assert Round12(cost) == n as real / 1000000000000.0;
    WholeUnits(10000000000000 - n, 10.0 - Round12(cost));
  }

  function Opening(market: string, cost: real): Step {
    ConsumeRow(HedgedRow(market, cost), MARKETS, 0.0)
  }

  const GIVING_UP := SettleAll(MARKETS, map[], 100.0)

  lemma OneGivesWay(first: real, second: real)
    requires first <= 10.0 && Round12(first) + second <= 10.0
    ensures var p := Run(OPEN, [Opening("a", first), Opening("b", second), GIVING_UP]);
            && p.positions == [HedgedPosition("b", second)]
            && p.log == [EndOf(HedgedPosition("a", first), SampleUnavailable, 0.0, 0.0)]
  {
    var one, two := [Opening("a", first)], [Opening("a", first), Opening("b", second)];
    assert one[..0] == [] && two[..1] == one && [Opening("a", first), Opening("b", second), GIVING_UP][..2] == two;
    assert Run(OPEN, []) == NONE;
    OpensAgainstNothing(first);
    assert Run(OPEN, one) == NONE.(positions := [HedgedPosition("a", first)]);
    OpensAgainstTheFirst(Run(OPEN, one), first, second);
    FirstIsGivenUp(Run(OPEN, two), first, second);
  }

  lemma OnlyNotional(cost: real)
    ensures Notional([HedgedPosition("b", cost)], Directional) == Round12(cost)
  {
    assert [HedgedPosition("b", cost)][..0] == [];
  }

  /** The bound is met, and the limit exceeded, for every cost that rounds below zero: a row of that cost makes
      room for one of so much more than the limit, and is then given up. */
  lemma NegativeCostExceedsNotional(cost: real)
    requires Round12(cost) < 0.0
    ensures !OPEN.calibrationMode
    ensures var p := Run(OPEN, [Opening("a", cost), Opening("b", 10.0 - Round12(cost)), GIVING_UP]);
            && Returned(p.log, Directional) == -Round12(cost)
            && Notional(p.positions, Directional) == OPEN.directional.maxOpenNotional + Returned(p.log, Directional)
            && Notional(p.positions, Directional) > OPEN.directional.maxOpenNotional + HALF_UNIT
  {
    var more := 10.0 - Round12(cost);
    OneGivesWay(cost, more);
    RoundedTwice(cost);
    OnlyNotional(more);
    ReturnedMore([], EndOf(HedgedPosition("a", cost), SampleUnavailable, 0.0, 0.0), Directional);
  }

  /** Whatever the mode, every position opened is either open or has ended exactly once, by
      profitable exit, settlement or as an orphan. */
  lemma {:induction false} PositionsEndOnce(config: Config, steps: seq<Step>, id: string)
    ensures var p := Run(config, steps);
            OpenedWith(config, steps, id) == CountIn(p.positions, OfEvent(id)) + EndedWith(p.log, id)
  {
    if steps != [] {
      var before, step := steps[..|steps| - 1], steps[|steps| - 1];
      PositionsEndOnce(config, before, id);
      var p := Run(config, before);
      match step
      case ConsumeRow(row, markets, now) => ConsumeIsAccounted(config, p, row, markets, now, id);
      case SettleAll(markets, venue, now) => SettleIsAccounted(config, p, 0, markets, venue, now, id);
    }
  }

  /** No key is open twice. */
  lemma {:induction false} KeysStayDistinct(config: Config, steps: seq<Step>)
    ensures KeysDistinct(Run(config, steps).positions)
  {
    if steps != [] {
      var before, step := steps[..|steps| - 1], steps[|steps| - 1];
      KeysStayDistinct(config, before);
      match step
      case ConsumeRow(row, markets, now) => ConsumeKeepsKeys(config, Run(config, before), row, markets, now);
      case SettleAll(markets, venue, now) => SettleKeepsKeys(config, Run(config, before), 0, markets, venue, now);
    }
  }

  lemma ConsumeKeepsKeys(config: Config, p: Portfolio, row: Row, markets: map<string, Market>, now: real)
    requires KeysDistinct(p.positions)
    ensures KeysDistinct(Consume(config, p, row, markets, now).positions)
  {
  }

  lemma {:induction false} SettleKeepsKeys(config: Config, p: Portfolio, i: nat, markets: map<string, Market>,
                                           venue: Venue, now: real)
    requires i <= |p.positions| && KeysDistinct(p.positions)
    ensures KeysDistinct(SettleFrom(config, p, i, markets, venue, now).positions)
    decreases |p.positions| - i
  {
    if i < |p.positions| {
      var verdict := Judge(config, p.positions[i], markets, venue, now);
      SettleKeepsKeys(config, SettleOne(p, i, verdict, now), if Stays(verdict) then i + 1 else i, markets, venue, now);
    }
  }

  // ---- after settlement ----

  /** What settlement leaves open has not closed, or has closed too recently to be given up. */
  predicate Current(config: Config, position: Position, now: real) {
    now < position.Close() || now - position.Close() < config.orphanAfterSeconds
  }

  predicate FirstCurrent(config: Config, positions: seq<Position>, n: nat, now: real)
    requires n <= |positions|
  {
    forall j :: 0 <= j < n ==> Current(config, positions[j], now)
  }

  lemma {:induction false} SettleLeavesCurrent(config: Config, p: Portfolio, i: nat, markets: map<string, Market>,
                                               venue: Venue, now: real)
    requires i <= |p.positions| && FirstCurrent(config, p.positions, i, now)
    ensures var after := SettleFrom(config, p, i, markets, venue, now).positions;
            FirstCurrent(config, after, |after|, now)
    decreases |p.positions| - i
  {
    if i < |p.positions| {
      var verdict := Judge(config, p.positions[i], markets, venue, now);
      var next := SettleOne(p, i, verdict, now);
      assert Stays(verdict) ==> Current(config, next.positions[i], now);
      SettleLeavesCurrent(config, next, if Stays(verdict) then i + 1 else i, markets, venue, now);
    }
  }

  /** After a settlement pass no position is left that closed `orphanAfterSeconds` ago or longer. */
  lemma NothingOverdue(config: Config, p: Portfolio, markets: map<string, Market>, venue: Venue, now: real)
    ensures var after := Settle(config, p, markets, venue, now).positions;
            forall j :: 0 <= j < |after| ==>
              now < after[j].Close() || now - after[j].Close() < config.orphanAfterSeconds
  {
    SettleLeavesCurrent(config, p, 0, markets, venue, now);
    var after := Settle(config, p, markets, venue, now).positions;
    assert FirstCurrent(config, after, |after|, now);
    forall j | 0 <= j < |after|
      ensures now < after[j].Close() || now - after[j].Close() < config.orphanAfterSeconds
    {
      assert Current(config, after[j], now);
    }
  }

  // ---- what was logged ----

  /** A profitable exit was worth at least the minimum. */
  predicate ExitPays(config: Config, entry: LogEntry) {
    entry.Ended? && entry.ending == ProfitExit ==> entry.pnl + SLACK >= config.exitMinPnl
  }

  predicate ExitsPay(config: Config, log: seq<LogEntry>) {
    forall i :: 0 <= i < |log| ==> ExitPays(config, log[i])
  }

  lemma {:induction false} SettleExitsPay(config: Config, p: Portfolio, i: nat, markets: map<string, Market>,
                                          venue: Venue, now: real)
    requires i <= |p.positions| && ExitsPay(config, p.log)
    ensures ExitsPay(config, SettleFrom(config, p, i, markets, venue, now).log)
    decreases |p.positions| - i
  {
    if i < |p.positions| {
      var verdict := Judge(config, p.positions[i], markets, venue, now);
      SettleExitsPay(config, SettleOne(p, i, verdict, now), if Stays(verdict) then i + 1 else i, markets, venue, now);
    }
  }

  /** Over any run every profitable exit realised at least the minimum result, to rounding. */
  lemma {:induction false} ExitsAlwaysPay(config: Config, steps: seq<Step>)
    ensures ExitsPay(config, Run(config, steps).log)
  {
    if steps != [] {
      var before, step := steps[..|steps| - 1], steps[|steps| - 1];
      ExitsAlwaysPay(config, before);
      if step.SettleAll? {
        SettleExitsPay(config, Run(config, before), 0, step.markets, step.venue, step.now);
      }
    }
  }
}
