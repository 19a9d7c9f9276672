/** Which recorded results are the cash that moved. A first leg cancelled with part of it
    bought is recorded as if nothing had been spent. */
module MakerShortfalls {
  import opened MakerData
  import opened MakerEpisodes
  import opened MakerResting
  import opened MakerStory
  import opened MakerRuns
  import opened MakerLedger
  import opened MakerTrades
  import opened MakerExamples

  /** Holding shares costs money: they were paid for, or gas is charged for them. */
  predicate Charged(config: Config, size: real, cost: real) {
    && 0.0 <= config.gasPerShare && 0.0 <= size && 0.0 <= cost
    && (size == 0.0 ==> cost == 0.0)
    && (0.0 < size ==> 0.0 < cost || 0.0 < config.gasPerShare)
  }

  /** The record is the cash the log shows: always on closing with loss, on completion exactly
      when all that was bought first was paired, on cancelling exactly when nothing was bought. */
  predicate Accounts(config: Config, s: Story, r: Record)
    requires s.Story?
  {
    match r.terminalState
    case ClosedWithLoss => r.pnl == Cash(config, s)
    case Complete => r.pnl == Cash(config, s) <==> s.size1 == s.size2
    case Leg1Cancelled => r.pnl == Cash(config, s) <==> s.size1 == 0.0
    case _ => false
  }

  lemma HoldingCosts(size: real, cost: real, gas: real)
    requires 0.0 <= gas && 0.0 <= size && 0.0 <= cost && (size == 0.0 ==> cost == 0.0)
    requires 0.0 < size ==> 0.0 < cost || 0.0 < gas
    ensures cost + size * gas == 0.0 <==> size == 0.0
  {
    if 0.0 < size {
      assert size * gas >= 0.0;
      assert 0.0 < gas ==> size * gas > 0.0;
    }
  }

  /** The remainder written off on completion is worth nothing only if there is none. */
  lemma RemainderCosts(rest: real, size: real, cost: real, gas: real)
    requires 0.0 <= gas && 0.0 < size && 0.0 <= cost && (0.0 < cost || 0.0 < gas)
    ensures rest * (cost / size + gas) == 0.0 <==> rest == 0.0
  {
    var average := cost / size;
    assert average * size == cost;
    assert 0.0 < cost ==> 0.0 < average;
    assert 0.0 < average + gas;
  }

  lemma CancelledCash(config: Config, s: Story)
    requires s.Story? && Charged(config, s.size1, s.cost1)
    requires s.size2 == s.cost2 == s.proceeds == s.fees == 0.0
    ensures 0.0 == Cash(config, s) <==> s.size1 == 0.0
  {
    HoldingCosts(s.size1, s.cost1, config.gasPerShare);
    assert s.size1 + s.size2 == s.size1;
  }

  lemma ExplainedAccounts(config: Config, s: Story, r: Record)
    requires Explains(config, s, r) && Charged(config, s.size1, s.cost1)
    ensures Accounts(config, s, r)
  {
    if r.terminalState == Leg1Cancelled {
      CancelledCash(config, s);
    } else if r.terminalState == Complete {
      RemainderCosts(s.size1 - s.size2, s.size1, s.cost1, config.gasPerShare);
    }
  }

  /** Bids are positive, or they are not negative and gas is. */
  predicate ChargedRow(config: Config, pricing: Pricing, row: Row) {
    && Quotable(pricing, row) && 0.0 <= config.gasPerShare
    && (pricing == Positive || (pricing == NotNegative && 0.0 < config.gasPerShare))
  }

  /** Every record of every run over such rows. */
  lemma RecordedResultIsCash(config: Config, pricing: Pricing, rows: seq<Row>, i: nat)
    requires config.Valid() && forall row :: row in rows ==> ChargedRow(config, pricing, row)
    requires i < |Run(config, rows).machine.completed|
    ensures var w := Run(config, rows);
            var r := w.machine.completed[i];
            History(w.log, r.id).Story? && Accounts(config, History(w.log, r.id), r)
  {
    RunRecorded(config, rows);
    RunSound(config, pricing, rows);
    var w := Run(config, rows);
    var r := w.machine.completed[i];
    if rows != [] {
      assert ChargedRow(config, pricing, rows[0]);
      HistoryCostly(pricing, w.log, r.id);
      ExplainedAccounts(config, History(w.log, r.id), r);
    }
  }

  // ---- the row that cancels ----

  /** Cancelling on some row leaves what was bought before the row as it was. */
  predicate BoughtAsBefore(ep: Episode, q: Episode) {
    q.state == Leg1Cancelled ==>
      ep.state == Leg1Working && q.filled1 == ep.filled1 && q.cost1 == ep.cost1 && q.filled2 == 0.0 && q.cost2 == 0.0
  }

  lemma FillNeverCancels(config: Config, row: Row, p: Progress)
    requires p.ep.filled2 == 0.0 <= p.ep.filled1 && p.ep.state == Leg1Working
    ensures FillLeg1(config, row, p).ep.state != Leg1Cancelled
  {
  }

  lemma WorkLeg1Cancels(config: Config, row: Row, p: Progress)
    requires Resting(config, p.ep) && p.ep.state == Leg1Working
    ensures BoughtAsBefore(p.ep, WorkLeg1(config, row, p).ep)
  {
    FillNeverCancels(config, row, p);
  }

  lemma WorkLeg2NeverCancels(config: Config, row: Row, p: Progress)
    requires Resting(config, p.ep) && p.ep.state == Leg2Working
    ensures WorkLeg2(config, row, p).ep.state != Leg1Cancelled
  {
    var filled := FillLeg2(config, row, p);
    FillLeg2Rests(config, row, p);
    if filled.ep.filled2 < filled.ep.filled1 {
      ImproveNeverCancels(config, row, filled);
    }
  }

  lemma ImproveNeverCancels(config: Config, row: Row, p: Progress)
    requires Resting(config, p.ep) && p.ep.state == Leg2Working
    ensures ImproveLeg2(config, row, p).ep.state != Leg1Cancelled
  {
  }

  lemma PathCancels(config: Config, row: Row, p: Progress)
    requires Resting(config, p.ep)
    ensures Readable(p.ep) && 0.0 <= p.ep.filled2
    ensures BoughtAsBefore(p.ep, EpisodePath(config, row, p).ep)
  {
    RestingIsReadable(config, p.ep);
    if p.ep.state == Leg1Working {
      WorkLeg1Cancels(config, row, p);
    } else if p.ep.state == Leg2Working {
      WorkLeg2NeverCancels(config, row, p);
    }
  }

  lemma StepCancels(config: Config, row: Row, bindingChanged: bool, ep: Episode)
    requires Resting(config, ep)
    ensures Readable(ep) && 0.0 <= ep.filled2
    ensures BoughtAsBefore(ep, EpisodeStep(config, row, bindingChanged, ep).ep)
  {
    RestingIsReadable(config, ep);
    var start := Progress(ep, Nothing);
    RebindRests(config, row, start);
    var bound := Bound(config, row, bindingChanged, ep);
    if !bound.ep.state.Terminal() {
      PathCancels(config, row, bound);
    }
  }

  /** A row ends the live episode with a record of how it ended, or keeps it. */
  lemma SettledRecord(config: Config, m: Machine, row: Row, q: Progress)
    ensures var r := Settled(config, m, row, q).machine;
            if q.ep.state.Terminal()
            then r.episodes == m.episodes - {row.condition} && r.completed == m.completed + [RecordOf(row, q.ep)]
            else row.condition in r.episodes && r.completed == m.completed
  {
    if q.ep.state.Terminal() {
      FinalizeShape(config, m, row, q.ep);
    }
  }

  /** A row for a live episode: the record it may add, and the story of a cancelled first leg. */
  lemma LiveRowRecords(config: Config, w: World, row: Row, ep: Episode)
    requires config.Valid() && AllResting(config, w.machine) && Recorded(config, w) && !Dropped(w.machine, row)
    requires row.condition in w.machine.episodes && w.machine.episodes[row.condition] == ep
    ensures Resting(config, ep) && Readable(ep) && 0.0 <= ep.filled2
    ensures var q := EpisodeStep(config, row, BindingChanged(w.machine, row), ep).ep;
            var r := Evaluate(config, w.machine, row);
            && q.id == ep.id
            && (if q.state.Terminal()
                then row.condition !in r.machine.episodes
                     && r.machine.completed == w.machine.completed + [RecordOf(row, q)]
                else row.condition in r.machine.episodes)
            && (q.state == Leg1Cancelled ==> q.pnl == 0.0 && History(w.log + r.events, ep.id) == LiveStory(q))
  {
    var changed := BindingChanged(w.machine, row);
    LiveEvents(config, w.log, row, changed, ep);
    StepTells(config, row, changed, ep);
    StepRests(config, row, changed, ep);
    var q := EpisodeStep(config, row, changed, ep);
    var noted := NoteBinding(w.machine, row);
    assert Evaluate(config, w.machine, row) == Settled(config, noted, row, q);
    SettledRecord(config, noted, row, q);
  }

  /** If the row cancelled `ep`, it added a record of nothing, and that is the cash the log then shows
      exactly when nothing was filled before the row. */
  ghost predicate CancelsFor(config: Config, w: World, r: Evaluation, ep: Episode) {
    ep.condition !in r.machine.episodes && |r.machine.completed| > 0
    && r.machine.completed[|r.machine.completed| - 1].terminalState == Leg1Cancelled ==>
      var record := r.machine.completed[|r.machine.completed| - 1];
      var s := History(w.log + r.events, ep.id);
      && r.machine.completed[..|r.machine.completed| - 1] == w.machine.completed
      && record.id == ep.id && record.pnl == 0.0
      && s.Story? && (record.pnl == Cash(config, s) <==> ep.filled1 == 0.0)
  }

  lemma CancelledRow(config: Config, w: World, r: Evaluation, row: Row, ep: Episode, q: Episode)
    requires Charged(config, ep.filled1, ep.cost1) && BoughtAsBefore(ep, q) && q.id == ep.id
    requires if q.state.Terminal() then r.machine.completed == w.machine.completed + [RecordOf(row, q)]
             else ep.condition in r.machine.episodes
    requires q.state == Leg1Cancelled ==> q.pnl == 0.0 && History(w.log + r.events, ep.id) == LiveStory(q)
    ensures CancelsFor(config, w, r, ep)
  {
    if q.state == Leg1Cancelled {
      CancelledCash(config, LiveStory(q));
    }
  }

  lemma CancellingIsRecorded(config: Config, w: World, row: Row, ep: Episode)
    requires config.Valid() && AllResting(config, w.machine) && Recorded(config, w) && !Dropped(w.machine, row)
    requires row.condition in w.machine.episodes && w.machine.episodes[row.condition] == ep
    requires Charged(config, ep.filled1, ep.cost1)
    ensures CancelsFor(config, w, Evaluate(config, w.machine, row), ep)
  {
    StepCancels(config, row, BindingChanged(w.machine, row), ep);
    LiveRowRecords(config, w, row, ep);
    CancelledRow(config, w, Evaluate(config, w.machine, row), row, ep,
                 EpisodeStep(config, row, BindingChanged(w.machine, row), ep).ep);
  }

  // ---- three rows that lose eighty cents unrecorded ----

  lemma BuysTwoOfTen()
    ensures Setup(3).Valid()
    ensures var m := Run(Setup(3), [OPENS, BUYS]).machine;
            m.episodes == map["condition" := BOUGHT] && m.lastBinding == map["market" := OPENS.binding]
              && m.completed == []
  {
    OpensTen(3);
    RunOfTwo(Setup(3), OPENS, BUYS);
    BuysTwo(3, Evaluate(Setup(3), EMPTY, OPENS).machine);
  }

  lemma RunOfTwo(config: Config, first: Row, second: Row)
    requires config.Valid()
    ensures Run(config, [first, second]).machine
            == Evaluate(config, Evaluate(config, EMPTY, first).machine, second).machine
  {
    assert [first][..0] == [] && [first, second][..1] == [first];
    assert Run(config, []) == World(EMPTY, []);
    assert Run(config, [first]).machine == Evaluate(config, EMPTY, first).machine;
  }

  /** The episode as it ends on the last row. */
  lemma GivesUp()
    ensures Resting(Setup(3), BOUGHT)
    ensures var q := EpisodeStep(Setup(3), WAITS, false, BOUGHT).ep;
            q.state == Leg1Cancelled && Cash(Setup(3), LiveStory(q)) == -0.8
  {
  }

  /** The one record says that nothing was won or lost, and the log that eighty cents were spent. */
  ghost predicate SpendsUnrecorded(w: World) {
    && |w.machine.completed| == 1
    && var record := w.machine.completed[0];
       && record.terminalState == Leg1Cancelled && record.pnl == 0.0
       && History(w.log, record.id).Story? && Cash(Setup(3), History(w.log, record.id)) == -0.8
  }

  lemma GivesUpUnrecorded(w: World)
    requires Setup(3).Valid() && AllResting(Setup(3), w.machine) && Recorded(Setup(3), w)
    requires w.machine.episodes == map["condition" := BOUGHT] && w.machine.completed == []
    requires w.machine.lastBinding == map["market" := OPENS.binding]
    ensures var r := Evaluate(Setup(3), w.machine, WAITS);
            SpendsUnrecorded(World(r.machine, w.log + r.events))
  {
    GivesUp();
    assert !Dropped(w.machine, WAITS) && !BindingChanged(w.machine, WAITS);
    LiveRowRecords(Setup(3), w, WAITS, BOUGHT);
  }

  lemma OneRowMore(config: Config, rows: seq<Row>, row: Row)
    requires config.Valid()
    ensures var w := Run(config, rows);
            var r := Evaluate(config, w.machine, row);
            Run(config, rows + [row]) == World(r.machine, w.log + r.events)
  {
    assert (rows + [row])[..|rows|] == rows;
  }

  /** Ten shares are ordered, two are bought, and the rest is given up. */
  lemma PartialFillIsForgotten()
    ensures Setup(3).Valid() && SpendsUnrecorded(Run(Setup(3), [OPENS, BUYS] + [WAITS]))
  {
    var rows := [OPENS, BUYS];
    BuysTwoOfTen();
    RunRecorded(Setup(3), rows);
    GivesUpUnrecorded(Run(Setup(3), rows));
    OneRowMore(Setup(3), rows, WAITS);
  }
}
