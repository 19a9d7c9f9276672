/** Exposure and loss over whole runs. */
module MakerExposure {
  import opened Numbers
  import opened MakerData
  import opened MakerOpening
  import opened MakerEpisodes
  import opened MakerResting
  import opened MakerLimits
  import opened MakerTrades
  import opened MakerRuns
  import opened MakerLedger
  import opened MapSums

  ghost function TotalCommitment(episodes: map<ConditionId, Episode>): real {
    Total(episodes, Commitment)
  }

  ghost function TotalWorst(config: Config, maxRate: real, episodes: map<ConditionId, Episode>): real {
    Total(episodes, ep => WorstLoss(config, maxRate, ep))
  }

  /** The rise in first-leg quotes over some logged events. */
  function LogRise(events: seq<Event>): real {
    if events == [] then 0.0 else LogRise(events[..|events| - 1]) + RiseOf(events[|events| - 1])
  }

  lemma {:induction false} QuoteRiseIsLogRise(events: Emitted)
    ensures QuoteRise(events) == LogRise(events.ToSeq())
  {
    if events.Then? {
      QuoteRiseIsLogRise(events.earlier);
      assert events.ToSeq()[..|events.ToSeq()| - 1] == events.earlier.ToSeq();
    }
  }

  /** `worst` is the summed worst case of the episodes live right after the last opening;
      `slack` is the largest order times the rise of first-leg quotes by re-quotes since. */
  datatype Budget = Budget(worst: real, slack: real)

  function Uplift(config: Config, rise: real): real {
    config.maxOrderSize * rise
  }

  ghost function BudgetAfter(config: Config, maxRate: real, before: Budget, r: Evaluation): Budget {
    if r.decision.verdict == Accepted
    then Budget(TotalWorst(config, maxRate, r.machine.episodes), 0.0)
    else Budget(before.worst, before.slack + Uplift(config, LogRise(r.events)))
  }

  ghost function RunBudget(config: Config, maxRate: real, rows: seq<Row>): Budget
    requires config.Valid()
  {
    if rows == [] then Budget(0.0, 0.0)
    else
      var before := rows[..|rows| - 1];
      BudgetAfter(config, maxRate, RunBudget(config, maxRate, before),
                  Evaluate(config, Run(config, before).machine, rows[|rows| - 1]))
  }

  /** Committed first-leg money and the day's loss are inside their limits. */
  ghost predicate WithinLimits(config: Config, maxRate: real, m: Machine, now: real, b: Budget) {
    && (forall c :: c in m.episodes ==> Bounded(config, m.episodes[c]))
    && 0.0 <= b.slack
    && TotalCommitment(m.episodes) <= Max(0.0, config.maxTotalExposure) + b.slack
    && TotalWorst(config, maxRate, m.episodes) <= b.worst + b.slack
    && DailyLoss(m.completed, Day(now)) + TotalWorst(config, maxRate, m.episodes)
       <= Max(0.0, config.maxDailyLoss) + b.worst + b.slack
    && (forall i :: 0 <= i < |m.completed| ==> m.completed[i].ts <= now)
  }

  // ---- sums over episodes ----

  lemma TotalUpdate(episodes: map<ConditionId, Episode>, amount: Episode -> real, c: ConditionId, ep: Episode)
    ensures Total(episodes[c := ep], amount)
            == Total(episodes, amount) + amount(ep) - if c in episodes then amount(episodes[c]) else 0.0
  {
    var values := map d | d in episodes :: amount(episodes[d]);
    var updated := episodes[c := ep];
    SumUpdate(values, c, amount(ep));
    assert (map d | d in updated :: amount(updated[d])) == values[c := amount(ep)];
  }

  lemma TotalRemove(episodes: map<ConditionId, Episode>, amount: Episode -> real, c: ConditionId)
    requires c in episodes
    ensures Total(episodes - {c}, amount) == Total(episodes, amount) - amount(episodes[c])
  {
    var values := map d | d in episodes :: amount(episodes[d]);
    var rest := episodes - {c};
    SumAt(values, c);
    assert (map d | d in rest :: amount(rest[d])) == values - {c};
  }

  lemma TotalMonotone(episodes: map<ConditionId, Episode>, small: Episode -> real, large: Episode -> real)
    requires forall c :: c in episodes ==> small(episodes[c]) <= large(episodes[c])
    ensures Total(episodes, small) <= Total(episodes, large)
  {
    SumMonotone(map c | c in episodes :: small(episodes[c]), map c | c in episodes :: large(episodes[c]));
  }

  lemma TotalsUpdate(config: Config, maxRate: real, episodes: map<ConditionId, Episode>, c: ConditionId, ep: Episode)
    ensures var was := if c in episodes then Commitment(episodes[c]) else 0.0;
            var wasWorst := if c in episodes then WorstLoss(config, maxRate, episodes[c]) else 0.0;
            && TotalCommitment(episodes[c := ep]) == TotalCommitment(episodes) - was + Commitment(ep)
            && TotalWorst(config, maxRate, episodes[c := ep])
               == TotalWorst(config, maxRate, episodes) - wasWorst + WorstLoss(config, maxRate, ep)
  {
    TotalUpdate(episodes, Commitment, c, ep);
    TotalUpdate(episodes, e => WorstLoss(config, maxRate, e), c, ep);
  }

  lemma TotalsRemove(config: Config, maxRate: real, episodes: map<ConditionId, Episode>, c: ConditionId)
    requires c in episodes
    ensures TotalCommitment(episodes - {c}) == TotalCommitment(episodes) - Commitment(episodes[c])
    ensures TotalWorst(config, maxRate, episodes - {c})
            == TotalWorst(config, maxRate, episodes) - WorstLoss(config, maxRate, episodes[c])
  {
    TotalRemove(episodes, Commitment, c);
    TotalRemove(episodes, e => WorstLoss(config, maxRate, e), c);
  }

  /** The portfolio view counts at least the committed first-leg money. */
  lemma ExposureCoversCommitment(config: Config, episodes: map<ConditionId, Episode>)
    requires forall c :: c in episodes ==> Bounded(config, episodes[c])
    ensures TotalCommitment(episodes) <= TotalExposure(episodes)
  {
    TotalMonotone(episodes, Commitment, Exposure);
  }

  // ---- the day's loss ----

  lemma {:induction false} NoLossYet(completed: seq<Record>, day: int, now: real)
    requires forall i :: 0 <= i < |completed| ==> completed[i].ts <= now
    requires Day(now) < day
    ensures DailyLoss(completed, day) == 0.0
  {
    if completed != [] {
      var last := completed[|completed| - 1];
      assert last.ts / 86400.0 <= now / 86400.0;
      NoLossYet(completed[..|completed| - 1], day, now);
    }
  }

  lemma Advance(config: Config, maxRate: real, m: Machine, now: real, later: real, b: Budget)
    requires WithinLimits(config, maxRate, m, now, b) && now <= later
    ensures WithinLimits(config, maxRate, m, later, b)
  {
    assert now / 86400.0 <= later / 86400.0;
    if Day(now) < Day(later) {
      NoLossYet(m.completed, Day(later), now);
    }
  }

  lemma LossMore(completed: seq<Record>, r: Record, day: int)
    ensures DailyLoss(completed + [r], day)
            == DailyLoss(completed, day) + if Day(r.ts) == day then Max(0.0, -r.pnl) else 0.0
  {
    assert (completed + [r])[..|completed|] == completed;
  }

  // ---- one row ----

  lemma RegisterWithinLimits(config: Config, maxRate: real, m: Machine, row: Row, opening: Opening, b: Budget)
    requires Prudent(config, maxRate) && Fair(config, maxRate, row)
    requires WithinLimits(config, maxRate, m, row.timestamp, b)
    requires row.condition !in m.episodes && Admits(row, config, View(m, row), opening)
    ensures var registered := Register(m, row, NewEpisode(m, row, opening));
            WithinLimits(config, maxRate, registered, row.timestamp,
                         Budget(TotalWorst(config, maxRate, registered.episodes), 0.0))
  {
    var ep := NewEpisode(m, row, opening);
    AcceptedIsBounded(config, maxRate, m, row, opening);
    ExposureCoversCommitment(config, m.episodes);
    TotalsUpdate(config, maxRate, m.episodes, row.condition, ep);
    NewCommitment(m, row, opening);
  }

  lemma NewCommitment(m: Machine, row: Row, opening: Opening)
    requires opening.outcome.Some? && opening.quote.Some?
    ensures Commitment(NewEpisode(m, row, opening)) == opening.size * opening.quote.value
  {
  }

  lemma RejectWithinLimits(config: Config, maxRate: real, m: Machine, row: Row, reasons: seq<Reason>, b: Budget)
    requires WithinLimits(config, maxRate, m, row.timestamp, b) && reasons != []
    ensures var r := Reject(m, row, reasons);
            WithinLimits(config, maxRate, r.machine, row.timestamp, BudgetAfter(config, maxRate, b, r))
  {
    var r := Reject(m, row, reasons);
    assert LogRise(r.events) == 0.0;
    assert BudgetAfter(config, maxRate, b, r) == b;
  }

  lemma AcceptedIsBounded(config: Config, maxRate: real, m: Machine, row: Row, opening: Opening)
    requires Prudent(config, maxRate) && Fair(config, maxRate, row)
    requires opening.outcome.Some? && opening.quote.Some?
    requires Leg1Quote(row.Side(opening.outcome.value), config).Some?
    requires opening.quote.value == Leg1Quote(row.Side(opening.outcome.value), config).value.price
    requires row.minOrderSize <= opening.size <= config.maxOrderSize
    ensures Bounded(config, NewEpisode(m, row, opening))
  {
    assert row.Side(opening.outcome.value).bestBid >= 0.0;
  }

  lemma OpeningWithinLimits(config: Config, maxRate: real, m: Machine, row: Row, b: Budget)
    requires Prudent(config, maxRate) && Fair(config, maxRate, row) && AllResting(config, m)
    requires row.condition !in m.episodes && WithinLimits(config, maxRate, m, row.timestamp, b)
    ensures var r := OpenPath(config, m, row);
            WithinLimits(config, maxRate, r.machine, row.timestamp, BudgetAfter(config, maxRate, b, r))
  {
    var opening := EvaluateOpening(row, config, View(m, row));
    var reset := ResetCircuit(m, row.timestamp);
    AcceptedOpening(row, config, View(m, row));
    ResetWithinLimits(config, maxRate, m, row, opening, b);
    if opening.Accepted() {
      RegisterWithinLimits(config, maxRate, reset, row, opening, b);
    } else {
      RejectWithinLimits(config, maxRate, reset, row, opening.Reasons(), b);
    }
  }

  /** A reset breaker is not open, and nothing else of the view has changed. */
  lemma ResetWithinLimits(config: Config, maxRate: real, m: Machine, row: Row, opening: Opening, b: Budget)
    requires WithinLimits(config, maxRate, m, row.timestamp, b)
    ensures WithinLimits(config, maxRate, ResetCircuit(m, row.timestamp), row.timestamp, b)
    ensures View(ResetCircuit(m, row.timestamp), row) == View(m, row)
  {
  }

  lemma UpdateWithinLimits(config: Config, maxRate: real, m: Machine, row: Row, q: Progress, b: Budget)
    requires 0.0 <= config.maxOrderSize && WithinLimits(config, maxRate, m, row.timestamp, b)
    requires row.condition in m.episodes && !q.ep.state.Terminal() && Bounded(config, q.ep)
    requires q.ep.orderSize == m.episodes[row.condition].orderSize
    requires Committed(config, maxRate, m.episodes[row.condition], q, 0.0)
    ensures WithinLimits(config, maxRate, m.(episodes := m.episodes[row.condition := q.ep]), row.timestamp,
                         Budget(b.worst, b.slack + Uplift(config, QuoteRise(q.events))))
  {
    TotalsUpdate(config, maxRate, m.episodes, row.condition, q.ep);
    StakesGrow(config, maxRate, m.episodes[row.condition], q);
  }

  lemma StakesGrow(config: Config, maxRate: real, ep: Episode, q: Progress)
    requires 0.0 <= config.maxOrderSize && Committed(config, maxRate, ep, q, 0.0)
    requires !q.ep.state.Terminal() && q.ep.orderSize == ep.orderSize
    ensures Commitment(q.ep) <= Commitment(ep) + Uplift(config, QuoteRise(q.events))
    ensures WorstLoss(config, maxRate, q.ep) <= WorstLoss(config, maxRate, ep) + Uplift(config, QuoteRise(q.events))
    ensures 0.0 <= Uplift(config, QuoteRise(q.events))
  {
  }

  lemma StakesEnd(config: Config, maxRate: real, ep: Episode, q: Progress)
    requires Prudent(config, maxRate) && Committed(config, maxRate, ep, q, 0.0)
    requires Resting(config, ep) && Sized(config, ep) && q.ep.state.Terminal()
    ensures Max(0.0, -q.ep.pnl) <= WorstLoss(config, maxRate, ep)
    ensures 0.0 <= Commitment(ep)
    ensures 0.0 <= Uplift(config, QuoteRise(q.events))
  {
    CommitmentIsPositive(config, ep);
    OverheadIsPositive(config, maxRate, ep.orderSize);
  }

  /** A closed episode moves at most its worst case from what may still be lost to what is lost. */
  lemma LossReplacesWorst(loss: real, worst: real, own: real, lost: real, rise: real, limit: real, b: Budget)
    requires loss + worst <= limit + b.worst + b.slack && worst <= b.worst + b.slack
    requires 0.0 <= lost <= own && 0.0 <= rise
    ensures loss + lost + (worst - own) <= limit + b.worst + (b.slack + rise)
    ensures loss + (worst - own) <= limit + b.worst + (b.slack + rise)
    ensures worst - own <= b.worst + (b.slack + rise)
  {
  }

  /** A machine without the closed episode, and with its record. */
  lemma ClosedWithinLimits(config: Config, maxRate: real, m: Machine, m': Machine, c: ConditionId, record: Record,
                           now: real, rise: real, b: Budget)
    requires WithinLimits(config, maxRate, m, now, b) && c in m.episodes && 0.0 <= rise
    requires m'.episodes == m.episodes - {c} && m'.completed == m.completed + [record] && record.ts == now
    requires Max(0.0, -record.pnl) <= WorstLoss(config, maxRate, m.episodes[c]) && 0.0 <= Commitment(m.episodes[c])
    ensures WithinLimits(config, maxRate, m', now, Budget(b.worst, b.slack + rise))
  {
    TotalsRemove(config, maxRate, m.episodes, c);
    LossMore(m.completed, record, Day(now));
    LossReplacesWorst(DailyLoss(m.completed, Day(now)), TotalWorst(config, maxRate, m.episodes),
                      WorstLoss(config, maxRate, m.episodes[c]), Max(0.0, -record.pnl), rise,
                      Max(0.0, config.maxDailyLoss), b);
  }

  lemma FinalizeWithinLimits(config: Config, maxRate: real, m: Machine, row: Row, q: Progress, b: Budget)
    requires Prudent(config, maxRate) && WithinLimits(config, maxRate, m, row.timestamp, b)
    requires row.condition in m.episodes && Resting(config, m.episodes[row.condition]) && q.ep.state.Terminal()
    requires Committed(config, maxRate, m.episodes[row.condition], q, 0.0)
    ensures WithinLimits(config, maxRate, Finalize(config, m, row, q.ep), row.timestamp,
                         Budget(b.worst, b.slack + Uplift(config, QuoteRise(q.events))))
  {
    StakesEnd(config, maxRate, m.episodes[row.condition], q);
    ClosedWithinLimits(config, maxRate, m, Finalize(config, m, row, q.ep), row.condition, RecordOf(row, q.ep),
                       row.timestamp, Uplift(config, QuoteRise(q.events)), b);
  }

  lemma SettledWithinLimits(config: Config, maxRate: real, m: Machine, row: Row, q: Progress, b: Budget)
    requires Prudent(config, maxRate) && WithinLimits(config, maxRate, m, row.timestamp, b)
    requires row.condition in m.episodes && Resting(config, m.episodes[row.condition])
    requires q.ep.orderSize == m.episodes[row.condition].orderSize
    requires Committed(config, maxRate, m.episodes[row.condition], q, 0.0)
    requires !q.ep.state.Terminal() ==> Bounded(config, q.ep)
    ensures var r := Settled(config, m, row, q);
            WithinLimits(config, maxRate, r.machine, row.timestamp, BudgetAfter(config, maxRate, b, r))
  {
    QuoteRiseIsLogRise(q.events);
    assert BudgetAfter(config, maxRate, b, Settled(config, m, row, q))
           == Budget(b.worst, b.slack + Uplift(config, QuoteRise(q.events)));
    if q.ep.state.Terminal() {
      FinalizeWithinLimits(config, maxRate, m, row, q, b);
    } else {
      UpdateWithinLimits(config, maxRate, m, row, q, b);
    }
  }

  lemma LiveWithinLimits(config: Config, maxRate: real, m: Machine, row: Row, bindingChanged: bool, b: Budget)
    requires Prudent(config, maxRate) && Fair(config, maxRate, row) && AllResting(config, m)
    requires row.condition in m.episodes && WithinLimits(config, maxRate, m, row.timestamp, b)
    ensures var r := LivePath(config, m, row, bindingChanged);
            WithinLimits(config, maxRate, r.machine, row.timestamp, BudgetAfter(config, maxRate, b, r))
  {
    var ep := m.episodes[row.condition];
    StepRests(config, row, bindingChanged, ep);
    StepWithin(config, maxRate, row, bindingChanged, ep);
    var q := EpisodeStep(config, row, bindingChanged, ep);
    SettledWithinLimits(config, maxRate, m, row, q, b);
    assert LivePath(config, m, row, bindingChanged) == Settled(config, m, row, q);
  }

  lemma RowWithinLimits(config: Config, maxRate: real, m: Machine, now: real, row: Row, b: Budget)
    requires Prudent(config, maxRate) && Fair(config, maxRate, row) && AllResting(config, m)
    requires WithinLimits(config, maxRate, m, now, b) && now <= row.timestamp
    ensures var r := Evaluate(config, m, row);
            WithinLimits(config, maxRate, r.machine, row.timestamp, BudgetAfter(config, maxRate, b, r))
  {
    Advance(config, maxRate, m, now, row.timestamp, b);
    if !Dropped(m, row) {
      var noted := NoteBinding(m, row);
      assert WithinLimits(config, maxRate, noted, row.timestamp, b);
      if row.condition in m.episodes {
        LiveWithinLimits(config, maxRate, noted, row, BindingChanged(m, row), b);
      } else {
        OpeningWithinLimits(config, maxRate, noted, row, b);
      }
    }
  }

  // ---- whole runs ----

  predicate InOrder(rows: seq<Row>) {
    forall i, j :: 0 <= i < j < |rows| ==> rows[i].timestamp <= rows[j].timestamp
  }

  /** At every moment of a run in time order, first-leg commitments stay within the exposure
      limit and today's realised loss plus everything still at stake stays within the daily
      limit plus the worst case at the last opening, each but for re-quotes since. */
  lemma {:induction false} RunWithinLimits(config: Config, maxRate: real, rows: seq<Row>)
    requires Prudent(config, maxRate) && InOrder(rows) && rows != []
    requires forall row :: row in rows ==> Fair(config, maxRate, row)
    ensures WithinLimits(config, maxRate, Run(config, rows).machine, rows[|rows| - 1].timestamp,
                         RunBudget(config, maxRate, rows))
  {
    var before, row := rows[..|rows| - 1], rows[|rows| - 1];
    if before == [] {
      EmptyWithinLimits(config, maxRate, row.timestamp);
      RowWithinLimits(config, maxRate, EMPTY, row.timestamp, row, Budget(0.0, 0.0));
    } else {
      RunWithinLimits(config, maxRate, before);
      RowWithinLimits(config, maxRate, Run(config, before).machine, before[|before| - 1].timestamp, row,
                      RunBudget(config, maxRate, before));
    }
  }

  lemma EmptyWithinLimits(config: Config, maxRate: real, now: real)
    ensures WithinLimits(config, maxRate, EMPTY, now, Budget(0.0, 0.0))
  {
  }

  /** Without re-quotes since the last opening, commitments never exceed the exposure limit,
      and the day's loss stays below its limit plus the worst case at that opening. */
  lemma NoRequoteWithinLimits(config: Config, maxRate: real, rows: seq<Row>)
    requires Prudent(config, maxRate) && InOrder(rows) && rows != []
    requires forall row :: row in rows ==> Fair(config, maxRate, row)
    requires RunBudget(config, maxRate, rows).slack == 0.0
    ensures var m := Run(config, rows).machine;
            && TotalCommitment(m.episodes) <= Max(0.0, config.maxTotalExposure)
            && DailyLoss(m.completed, Day(rows[|rows| - 1].timestamp))
               <= Max(0.0, config.maxDailyLoss) + RunBudget(config, maxRate, rows).worst
  {
    RunWithinLimits(config, maxRate, rows);
    var m := Run(config, rows).machine;
    forall c | c in m.episodes
      ensures 0.0 <= WorstLoss(config, maxRate, m.episodes[c])
    {
      CommitmentIsPositive(config, m.episodes[c]);
      OverheadIsPositive(config, maxRate, m.episodes[c].orderSize);
    }
    var worst := (ep: Episode) => WorstLoss(config, maxRate, ep);
    SumIsPositive(map c | c in m.episodes :: worst(m.episodes[c]));
    assert Total(m.episodes, worst) == TotalWorst(config, maxRate, m.episodes);
  }

  // ---- runs without a session change ----

  /** Every row of a market comes with the one binding the market has. */
  predicate OneBinding(rows: seq<Row>, bindings: MarketId -> Binding) {
    forall i :: 0 <= i < |rows| ==> rows[i].binding == bindings(rows[i].market)
  }

  /** No market has another binding, and no first leg awaits a re-quote. */
  ghost predicate NothingRebound(m: Machine, bindings: MarketId -> Binding) {
    && (forall market :: market in m.lastBinding ==> m.lastBinding[market] == bindings(market))
    && (forall c :: c in m.episodes ==> !m.episodes[c].pendingRequote)
  }

  lemma {:induction false} NoRequoteNoRise(config: Config, row: Row, ep: Episode, events: Emitted)
    requires AllOwn(config, row, ep, events) && !ep.pendingRequote
    ensures QuoteRise(events) == 0.0
  {
    if events.Then? {
      NoRequoteNoRise(config, row, ep, events.earlier);
    }
  }

  lemma StepHasNoRise(config: Config, row: Row, ep: Episode)
    requires Resting(config, ep) && !ep.pendingRequote
    ensures Readable(ep) && 0.0 <= ep.filled2
    ensures var q := EpisodeStep(config, row, false, ep); LogRise(q.events.ToSeq()) == 0.0 && !q.ep.pendingRequote
  {
    StepTrades(config, row, false, ep);
    BoundTrades(config, row, false, ep);
    var q := EpisodeStep(config, row, false, ep);
    NoRequoteNoRise(config, row, ep, q.events);
    QuoteRiseIsLogRise(q.events);
  }

  lemma SettledHasNoRise(config: Config, m: Machine, row: Row, q: Progress, bindings: MarketId -> Binding)
    requires NothingRebound(m, bindings) && LogRise(q.events.ToSeq()) == 0.0 && !q.ep.pendingRequote
    ensures var r := Settled(config, m, row, q); LogRise(r.events) == 0.0 && NothingRebound(r.machine, bindings)
  {
    if q.ep.state.Terminal() {
      FinalizeShape(config, m, row, q.ep);
    }
  }

  lemma OpeningHasNoRise(m: Machine, row: Row, opening: Opening, bindings: MarketId -> Binding)
    requires NothingRebound(m, bindings) && (opening.Accepted() ==> opening.outcome.Some? && opening.quote.Some?)
    ensures var r := OpenWith(m, row, opening); LogRise(r.events) == 0.0 && NothingRebound(r.machine, bindings)
  {
    var reset := ResetCircuit(m, row.timestamp);
    if opening.Accepted() {
      RegistrationHasNoRise(reset, row, NewEpisode(reset, row, opening), bindings);
    } else {
      RejectionHasNoRise(reset, row, opening.Reasons());
    }
  }

  lemma RegistrationHasNoRise(m: Machine, row: Row, ep: Episode, bindings: MarketId -> Binding)
    requires NothingRebound(m, bindings) && !ep.pendingRequote
    ensures NothingRebound(Register(m, row, ep), bindings) && LogRise([OpenedEvent(ep)]) == 0.0
  {
    assert [OpenedEvent(ep)][..0] == [];
  }

  lemma RejectionHasNoRise(m: Machine, row: Row, reasons: seq<Reason>)
    requires reasons != []
    ensures var r := Reject(m, row, reasons);
            LogRise(r.events) == 0.0 && r.machine.episodes == m.episodes && r.machine.lastBinding == m.lastBinding
  {
  }

  lemma RowHasNoRise(config: Config, m: Machine, row: Row, bindings: MarketId -> Binding)
    requires config.Valid() && AllResting(config, m) && NothingRebound(m, bindings)
    requires row.binding == bindings(row.market)
    ensures var r := Evaluate(config, m, row); LogRise(r.events) == 0.0 && NothingRebound(r.machine, bindings)
  {
    if !Dropped(m, row) {
      var noted := NoteBinding(m, row);
      if row.condition in m.episodes {
        StepHasNoRise(config, row, m.episodes[row.condition]);
        SettledHasNoRise(config, noted, row, EpisodeStep(config, row, false, m.episodes[row.condition]), bindings);
      } else {
        AcceptedOpening(row, config, View(noted, row));
        OpeningHasNoRise(noted, row, EvaluateOpening(row, config, View(noted, row)), bindings);
      }
    }
  }

  /** As long as every market keeps one binding nothing is re-quoted. */
  lemma {:induction false} OneBindingHasNoSlack(config: Config, maxRate: real, rows: seq<Row>,
                                                bindings: MarketId -> Binding)
    requires config.Valid() && OneBinding(rows, bindings)
    ensures RunBudget(config, maxRate, rows).slack == 0.0 && NothingRebound(Run(config, rows).machine, bindings)
  {
    if rows != [] {
      var before, row := rows[..|rows| - 1], rows[|rows| - 1];
      OneBindingHasNoSlack(config, maxRate, before, bindings);
      RowHasNoRise(config, Run(config, before).machine, row, bindings);
    }
  }

  /** Both limits then hold as they stand. */
  lemma OneBindingWithinLimits(config: Config, maxRate: real, rows: seq<Row>, bindings: MarketId -> Binding)
    requires Prudent(config, maxRate) && InOrder(rows) && rows != []
    requires forall row :: row in rows ==> Fair(config, maxRate, row)
    requires OneBinding(rows, bindings)
    ensures var m := Run(config, rows).machine;
            && TotalCommitment(m.episodes) <= Max(0.0, config.maxTotalExposure)
            && DailyLoss(m.completed, Day(rows[|rows| - 1].timestamp))
               <= Max(0.0, config.maxDailyLoss) + RunBudget(config, maxRate, rows).worst
  {
    OneBindingHasNoSlack(config, maxRate, rows, bindings);
    NoRequoteWithinLimits(config, maxRate, rows);
  }
}
