/** How long an episode can live. */
module MakerLifetime {
  import opened Numbers
  import opened Options
  import opened MakerData
  import opened MakerOpening
  import opened MakerEpisodes
  import opened MakerResting
  import opened MakerRuns

  // ---- the closing window ----

  lemma ClosingEnds(config: Config, row: Row, bindingChanged: bool, ep: Episode)
    requires Resting(config, ep) && (row.Expired() || row.InFlattenWindow(config))
    ensures Readable(ep) && 0.0 <= ep.filled2
    ensures EpisodeStep(config, row, bindingChanged, ep).ep.state.Terminal()
  {
    RestingIsReadable(config, ep);
    RebindRests(config, row, Progress(ep, Nothing));
  }

  lemma SettledGone(config: Config, m: Machine, row: Row, q: Progress)
    requires q.ep.state.Terminal()
    ensures row.condition !in Settled(config, m, row, q).machine.episodes
  {
  }

  lemma OpenNothing(config: Config, m: Machine, row: Row, opening: Opening)
    requires opening.Accepted() ==> Admits(row, config, View(m, row), opening)
    requires (row.Expired() || row.InFlattenWindow(config)) && row.condition !in m.episodes
    ensures row.condition !in OpenWith(m, row, opening).machine.episodes
  {
  }

  /** After an accepted row that is expired, inactive or inside the force-flatten window, the
      condition has no live episode, whatever its books looked like. */
  lemma NothingOutlivesTheWindow(config: Config, m: Machine, row: Row)
    requires config.Valid() && AllResting(config, m) && !Dropped(m, row)
    requires row.Expired() || row.InFlattenWindow(config)
    ensures row.condition !in Evaluate(config, m, row).machine.episodes
  {
    var noted := NoteBinding(m, row);
    if row.condition in m.episodes {
      var ep := m.episodes[row.condition];
      ClosingEnds(config, row, BindingChanged(m, row), ep);
      SettledGone(config, noted, row, EpisodeStep(config, row, BindingChanged(m, row), ep));
    } else {
      AcceptedOpening(row, config, View(noted, row));
      OpenNothing(config, noted, row, EvaluateOpening(row, config, View(noted, row)));
    }
  }

  // ---- age ----

  function Requotes(config: Config): int {
    if config.maxLeg1Requotes < 0 then 0 else config.maxLeg1Requotes
  }

  function Leg2Limit(config: Config, timeframe: Timeframe): real {
    Min(config.leg2Timeout.At(timeframe), config.maxOrphanSeconds.At(timeframe))
  }

  function WorkingLimit(config: Config, timeframe: Timeframe): real {
    (Requotes(config) + 1) as real * config.leg1Timeout.At(timeframe)
  }

  /** The longest an episode can live when its rows come at most `gap` apart. */
  function AgeLimit(config: Config, timeframe: Timeframe, gap: real): real {
    WorkingLimit(config, timeframe) + Leg2Limit(config, timeframe) + gap + config.directionalExitTimeout
  }

  /** The clocks of a live episode that has just seen a usable row at `now`. */
  predicate Timed(config: Config, timeframe: Timeframe, gap: real, ep: Episode, now: real) {
    match ep.state
    case Leg1Working =>
      && !ep.pendingRequote
      && now - ep.placedTs <= config.leg1Timeout.At(timeframe)
      && ep.placedTs - ep.openedTs <= ep.requotes as real * config.leg1Timeout.At(timeframe)
    case Leg2Working =>
      && ep.fillTs.Some? && 0.0 < ep.fillTs.value && ep.startTs2 == ep.fillTs
      && ep.fillTs.value - ep.openedTs <= WorkingLimit(config, timeframe)
      && now - ep.fillTs.value <= Leg2Limit(config, timeframe)
    case HedgingDirectionalExit =>
      && ep.exitStartTs.Some?
      && ep.exitStartTs.value - ep.openedTs <= WorkingLimit(config, timeframe) + Leg2Limit(config, timeframe) + gap
      && now - ep.exitStartTs.value <= config.directionalExitTimeout
    case _ => false
  }

  /** Timeouts are not negative. */
  predicate Timeouts(config: Config, timeframe: Timeframe) {
    && 0.0 <= config.leg1Timeout.At(timeframe) && 0.0 <= Leg2Limit(config, timeframe)
    && 0.0 <= config.directionalExitTimeout
  }

  lemma RequotesFit(config: Config, timeframe: Timeframe, used: int)
    requires Timeouts(config, timeframe) && used <= Requotes(config)
    ensures used as real * config.leg1Timeout.At(timeframe) + config.leg1Timeout.At(timeframe)
            <= WorkingLimit(config, timeframe)
  {
    var timeout := config.leg1Timeout.At(timeframe);
    assert (used + 1) as real * timeout <= (Requotes(config) + 1) as real * timeout;
    assert (used + 1) as real * timeout == used as real * timeout + timeout;
  }

  lemma OneMoreRequote(timeout: real, used: int)
    ensures (used + 1) as real * timeout == used as real * timeout + timeout
  {
  }

  lemma AgeBounded(config: Config, timeframe: Timeframe, gap: real, ep: Episode, now: real)
    requires Timeouts(config, timeframe) && 0.0 <= gap && Resting(config, ep)
    requires Timed(config, timeframe, gap, ep, now)
    ensures now - ep.openedTs <= AgeLimit(config, timeframe, gap)
  {
    if ep.state == Leg1Working {
      RequotesFit(config, timeframe, ep.requotes);
    }
  }

  /** A usable row for the timeframe, at most `gap` after the last. */
  predicate Usable(config: Config, timeframe: Timeframe, gap: real, row: Row, last: real) {
    row.timeframe == timeframe && row.BooksEvaluable(config) && 0.0 < row.timestamp
      && last <= row.timestamp <= last + gap
  }

  /** Ended, or still on time. */
  predicate OnTime(config: Config, timeframe: Timeframe, gap: real, ep: Episode, now: real) {
    ep.state.Terminal() || Timed(config, timeframe, gap, ep, now)
  }

  lemma AbandonOnTime(config: Config, timeframe: Timeframe, gap: real, row: Row, p: Progress, reason: Reason)
    requires Timeouts(config, timeframe) && p.ep.filled2 < p.ep.filled1
    requires row.timestamp - p.ep.openedTs <= WorkingLimit(config, timeframe) + Leg2Limit(config, timeframe) + gap
    ensures OnTime(config, timeframe, gap, AbandonLeg2(config, row, p, reason).ep, row.timestamp)
  {
  }

  lemma OpenLeg2OnTime(config: Config, timeframe: Timeframe, gap: real, row: Row, p: Progress)
    requires Timeouts(config, timeframe) && 0.0 <= gap && 0.0 < row.timestamp && p.ep.filled2 < p.ep.filled1
    requires p.ep.fillTs == Some(row.timestamp)
    requires row.timestamp - p.ep.openedTs <= WorkingLimit(config, timeframe)
    ensures OnTime(config, timeframe, gap, OpenLeg2(config, row, p).ep, row.timestamp)
  {
    var ep := p.ep;
    var maxPrice := Leg2MaxPrice(ep.Avg1(), config);
    if maxPrice <= row.Side(ep.leg1.Opposite()).bestBid + EPS {
      var marked := p.With(ep.(maxPrice2 := Some(maxPrice), startTs2 := Some(row.timestamp),
                               lastImproveTs2 := Some(row.timestamp), attempts2 := 0));
      AbandonOnTime(config, timeframe, gap, row, marked.ChangeState(row, Leg2Working, Leg2Opened),
                    Leg2MaxPriceBelowBid);
    }
  }

  /** A working first leg, possibly with a re-quote pending from this very row. */
  lemma WorkLeg1OnTime(config: Config, timeframe: Timeframe, gap: real, row: Row, p: Progress)
    requires Timeouts(config, timeframe) && 0.0 <= gap && Resting(config, p.ep) && p.ep.state == Leg1Working
    requires row.timeframe == timeframe && row.BooksEvaluable(config) && 0.0 < row.timestamp
    requires p.ep.placedTs - p.ep.openedTs
             <= (p.ep.requotes - if p.ep.pendingRequote then 1 else 0) as real * config.leg1Timeout.At(timeframe)
    ensures OnTime(config, timeframe, gap, WorkLeg1(config, row, p).ep, row.timestamp)
  {
    var ep := p.ep;
    var timeout := config.leg1Timeout.At(timeframe);
    if row.timestamp - ep.placedTs <= timeout {
      if ep.pendingRequote {
        OneMoreRequote(timeout, ep.requotes - 1);
      } else {
        RequotesFit(config, timeframe, ep.requotes);
        FillLeg1OnTime(config, timeframe, gap, row, p);
      }
    }
  }

  lemma FillLeg1OnTime(config: Config, timeframe: Timeframe, gap: real, row: Row, p: Progress)
    requires Timeouts(config, timeframe) && 0.0 <= gap && 0.0 < row.timestamp
    requires Resting(config, p.ep) && p.ep.state == Leg1Working && Timed(config, timeframe, gap, p.ep, row.timestamp)
    requires row.timestamp - p.ep.openedTs <= WorkingLimit(config, timeframe)
    ensures OnTime(config, timeframe, gap, FillLeg1(config, row, p).ep, row.timestamp)
  {
    var ep := p.ep;
    TakeFillOnTime(config, timeframe, gap, row, p,
                   FillSize(config, ep.quote1, row.Side(ep.leg1), ep.orderSize - ep.filled1));
  }

  lemma TakeFillOnTime(config: Config, timeframe: Timeframe, gap: real, row: Row, p: Progress, size: real)
    requires Timeouts(config, timeframe) && 0.0 <= gap && 0.0 < row.timestamp
    requires Resting(config, p.ep) && p.ep.state == Leg1Working && Timed(config, timeframe, gap, p.ep, row.timestamp)
    requires row.timestamp - p.ep.openedTs <= WorkingLimit(config, timeframe)
    requires size <= 0.0 || size <= p.ep.orderSize - p.ep.filled1
    ensures p.ep.filled2 == 0.0 <= p.ep.filled1
    ensures OnTime(config, timeframe, gap, TakeFill(config, row, p, size).ep, row.timestamp)
  {
    if size > 0.0 {
      var bought := BuyLeg1(row, p, size);
      if FilledEnough(config, bought.ep.filled1, p.ep.orderSize) {
        OpenLeg2OnTime(config, timeframe, gap, row, bought.With(bought.ep.(fillTs := Some(row.timestamp)))
                                                          .ChangeState(row, Leg1Filled, Leg1FillReason));
      }
    }
  }

  lemma TryImproveOnTime(config: Config, timeframe: Timeframe, gap: real, row: Row, p: Progress)
    requires Timeouts(config, timeframe) && 0.0 <= gap
    requires Resting(config, p.ep) && p.ep.state == Leg2Working && Timed(config, timeframe, gap, p.ep, row.timestamp)
    ensures OnTime(config, timeframe, gap, TryImprove(config, row, p).ep, row.timestamp)
  {
    var maxPrice := Leg2MaxPrice(p.ep.Avg1(), config);
    if p.ep.attempts2 > config.leg2MaxImproves {
      AbandonOnTime(config, timeframe, gap, row, p, Leg2ImprovesExhausted);
    } else if maxPrice <= row.Side(p.ep.leg1.Opposite()).bestBid + EPS {
      AbandonOnTime(config, timeframe, gap, row, p.With(p.ep.(maxPrice2 := Some(maxPrice))), Leg2MaxPriceBelowBid);
    }
  }

  lemma WorkLeg2OnTime(config: Config, timeframe: Timeframe, gap: real, row: Row, last: real, p: Progress)
    requires Timeouts(config, timeframe) && 0.0 <= gap && Usable(config, timeframe, gap, row, last)
    requires Resting(config, p.ep) && p.ep.state == Leg2Working && Timed(config, timeframe, gap, p.ep, last)
    ensures OnTime(config, timeframe, gap, WorkLeg2(config, row, p).ep, row.timestamp)
  {
    var ep := p.ep;
    if OrphanLoss(row, ep) > config.maxOrphanLoss {
    } else if row.timestamp - ep.fillTs.value > config.maxOrphanSeconds.At(timeframe) {
      AbandonOnTime(config, timeframe, gap, row, p, OrphanSecondsExceeded);
    } else if row.timestamp - ep.fillTs.value > config.leg2Timeout.At(timeframe) {
      AbandonOnTime(config, timeframe, gap, row, p, Reason.Leg2Timeout);
    } else {
      FillLeg2Rests(config, row, p);
      var filled := FillLeg2(config, row, p);
      if !(filled.ep.filled2 > ep.filled2 && filled.ep.filled2 >= ep.filled1 - EPS) {
        var tried := filled.With(filled.ep.(attempts2 := filled.ep.attempts2 + 1,
                                            lastImproveTs2 := Some(row.timestamp)));
        TryImproveOnTime(config, timeframe, gap, row, tried);
        assert ImproveLeg2(config, row, filled) in {filled, TryImprove(config, row, tried)};
      }
    }
  }

  lemma PathOnTime(config: Config, timeframe: Timeframe, gap: real, row: Row, last: real, p: Progress)
    requires Timeouts(config, timeframe) && 0.0 <= gap && Usable(config, timeframe, gap, row, last)
    requires Resting(config, p.ep)
    requires p.ep.state == Leg1Working ==>
               p.ep.placedTs - p.ep.openedTs
               <= (p.ep.requotes - if p.ep.pendingRequote then 1 else 0) as real * config.leg1Timeout.At(timeframe)
    requires p.ep.state in {Leg2Working, HedgingDirectionalExit} ==> Timed(config, timeframe, gap, p.ep, last)
    ensures Readable(p.ep) && 0.0 <= p.ep.filled2
    ensures OnTime(config, timeframe, gap, EpisodePath(config, row, p).ep, row.timestamp)
  {
    RestingIsReadable(config, p.ep);
    var forced := FlattenReason(config, row, p.ep);
    if p.ep.state == Leg1Working {
      WorkLeg1OnTime(config, timeframe, gap, row, p);
    } else if forced.Some? {
      FlattenEnds(config, row, p, forced.value);
    } else if p.ep.state == Leg2Working {
      WorkLeg2OnTime(config, timeframe, gap, row, last, p);
    }
  }

  /** A usable row within the gap keeps a live episode on time, or ends it. */
  lemma StepOnTime(config: Config, timeframe: Timeframe, gap: real, row: Row, last: real, bindingChanged: bool,
                   ep: Episode)
    requires Timeouts(config, timeframe) && 0.0 <= gap && Usable(config, timeframe, gap, row, last)
    requires Resting(config, ep) && Timed(config, timeframe, gap, ep, last)
    ensures Readable(ep) && 0.0 <= ep.filled2
    ensures OnTime(config, timeframe, gap, EpisodeStep(config, row, bindingChanged, ep).ep, row.timestamp)
  {
    RestingIsReadable(config, ep);
    var start := Progress(ep, Nothing);
    var bound := if bindingChanged then Rebind(config, row, start) else start;
    RebindRests(config, row, start);
    if !bound.ep.state.Terminal() {
      PathOnTime(config, timeframe, gap, row, last, bound);
    }
  }

  // ---- whole runs ----

  /** When the condition's last accepted row came. */
  ghost function LastAccepted(config: Config, rows: seq<Row>, c: ConditionId): real
    requires config.Valid()
  {
    if rows == [] then 0.0
    else
      var before, row := rows[..|rows| - 1], rows[|rows| - 1];
      if row.condition == c && !Dropped(Run(config, before).machine, row) then row.timestamp
      else LastAccepted(config, before, c)
  }

  /** Every accepted row for the condition is usable, and while an episode is live its rows
      come at most `gap` apart. */
  ghost predicate Punctual(config: Config, timeframe: Timeframe, gap: real, rows: seq<Row>, c: ConditionId)
    requires config.Valid()
  {
    if rows == [] then true
    else
      var before, row := rows[..|rows| - 1], rows[|rows| - 1];
      var m := Run(config, before).machine;
      && Punctual(config, timeframe, gap, before, c)
      && (row.condition == c && !Dropped(m, row) ==>
            Usable(config, timeframe, gap, row,
                   if c in m.episodes then LastAccepted(config, before, c) else row.timestamp))
  }

  lemma SettledOnTime(config: Config, timeframe: Timeframe, gap: real, m: Machine, row: Row, q: Progress)
    requires OnTime(config, timeframe, gap, q.ep, row.timestamp)
    ensures var r := Settled(config, m, row, q).machine;
            row.condition in r.episodes ==> Timed(config, timeframe, gap, r.episodes[row.condition], row.timestamp)
  {
  }

  lemma OpenOnTime(config: Config, timeframe: Timeframe, gap: real, m: Machine, row: Row, opening: Opening)
    requires Timeouts(config, timeframe) && row.condition !in m.episodes
    requires opening.Accepted() ==> opening.outcome.Some? && opening.quote.Some?
    ensures var r := OpenWith(m, row, opening).machine;
            row.condition in r.episodes ==> Timed(config, timeframe, gap, r.episodes[row.condition], row.timestamp)
  {
  }

  lemma RowOnTime(config: Config, timeframe: Timeframe, gap: real, m: Machine, row: Row, last: real)
    requires config.Valid() && Timeouts(config, timeframe) && 0.0 <= gap && AllResting(config, m) && !Dropped(m, row)
    requires row.condition in m.episodes ==> Timed(config, timeframe, gap, m.episodes[row.condition], last)
    requires Usable(config, timeframe, gap, row, if row.condition in m.episodes then last else row.timestamp)
    ensures var r := Evaluate(config, m, row).machine;
            row.condition in r.episodes ==> Timed(config, timeframe, gap, r.episodes[row.condition], row.timestamp)
  {
    var noted := NoteBinding(m, row);
    if row.condition in m.episodes {
      var ep := m.episodes[row.condition];
      StepOnTime(config, timeframe, gap, row, last, BindingChanged(m, row), ep);
      SettledOnTime(config, timeframe, gap, noted, row, EpisodeStep(config, row, BindingChanged(m, row), ep));
    } else {
      AcceptedOpening(row, config, View(noted, row));
      OpenOnTime(config, timeframe, gap, noted, row, EvaluateOpening(row, config, View(noted, row)));
    }
  }

  /** Another condition's episode is as it was. */
  predicate SameAt(m: Machine, r: Machine, c: ConditionId) {
    (c in r.episodes <==> c in m.episodes) && (c in m.episodes ==> r.episodes[c] == m.episodes[c])
  }

  lemma SettledKeeps(config: Config, m: Machine, row: Row, q: Progress, c: ConditionId)
    requires row.condition != c
    ensures SameAt(m, Settled(config, m, row, q).machine, c)
  {
  }

  lemma OpenKeeps(m: Machine, row: Row, opening: Opening, c: ConditionId)
    requires row.condition != c
    requires opening.Accepted() ==> opening.outcome.Some? && opening.quote.Some?
    ensures SameAt(m, OpenWith(m, row, opening).machine, c)
  {
  }

  lemma OthersUntouched(config: Config, m: Machine, row: Row, c: ConditionId)
    requires config.Valid() && AllResting(config, m) && (row.condition != c || Dropped(m, row))
    ensures SameAt(m, Evaluate(config, m, row).machine, c)
  {
    if !Dropped(m, row) {
      var noted := NoteBinding(m, row);
      if row.condition in m.episodes {
        var ep := m.episodes[row.condition];
        StepRests(config, row, BindingChanged(m, row), ep);
        SettledKeeps(config, noted, row, EpisodeStep(config, row, BindingChanged(m, row), ep), c);
      } else {
        AcceptedOpening(row, config, View(noted, row));
        OpenKeeps(noted, row, EvaluateOpening(row, config, View(noted, row)), c);
      }
    }
  }

  /** With usable books and rows at most `gap` apart, no episode of the condition is ever
      older than the limit. */
  lemma {:induction false} LifetimeBounded(config: Config, timeframe: Timeframe, gap: real, rows: seq<Row>,
                                           c: ConditionId)
    requires config.Valid() && Timeouts(config, timeframe) && 0.0 <= gap
    requires Punctual(config, timeframe, gap, rows, c)
    ensures var m, last := Run(config, rows).machine, LastAccepted(config, rows, c);
            c in m.episodes ==>
              && Timed(config, timeframe, gap, m.episodes[c], last)
              && last - m.episodes[c].openedTs <= AgeLimit(config, timeframe, gap)
  {
    if rows != [] {
      var before, row := rows[..|rows| - 1], rows[|rows| - 1];
      var m := Run(config, before).machine;
      LifetimeBounded(config, timeframe, gap, before, c);
      if row.condition == c && !Dropped(m, row) {
        RowOnTime(config, timeframe, gap, m, row, LastAccepted(config, before, c));
      } else {
        OthersUntouched(config, m, row, c);
      }
      var after := Run(config, rows).machine;
      if c in after.episodes {
        AgeBounded(config, timeframe, gap, after.episodes[c], LastAccepted(config, rows, c));
      }
    }
  }
}
