/** The floor under every recorded completion of a run. */
module MakerEarnings {
  import opened Options
  import opened MakerData
  import opened MakerOpening
  import opened MakerEpisodes
  import opened MakerResting
  import opened MakerFloors
  import opened MakerStory
  import opened MakerRuns
  import opened MakerLedger

  /** Of the pairs the log shows for a completed record, `maker` were bought as maker and
      earned the maker floor each; the others earned at least the hedge floor each. */
  predicate Floored(config: Config, s: Story, r: Record, maker: real)
    requires s.Story?
  {
    && 0.0 <= maker <= s.size2
    && r.pnl >= maker * MakerFloor(config) + (s.size2 - maker) * HedgeFloor(config)
    && (r.exitPath == Some(MakerComplete) ==> maker == s.size2)
  }

  ghost predicate Earned(config: Config, s: Story, r: Record) {
    r.terminalState == Complete ==> s.Story? && exists maker :: Floored(config, s, r, maker)
  }

  ghost predicate AllEarned(config: Config, w: World) {
    && (forall c :: c in w.machine.episodes ==> Capped(config, w.machine.episodes[c]))
    && (forall i :: 0 <= i < |w.machine.completed| ==>
          Earned(config, History(w.log, w.machine.completed[i].id), w.machine.completed[i]))
  }

  lemma FinalizeEarned(config: Config, m: Machine, log: seq<Event>, log': seq<Event>, row: Row, ep: Episode)
    requires Recorded(config, World(m, log)) && AllEarned(config, World(m, log)) && row.condition in m.episodes
    requires !m.episodes[row.condition].state.Terminal() && SameEpisode(m.episodes[row.condition], ep)
    requires OnlyAbout(log, log', ep.id)
    requires Ended(config, ep) && EndedStory(config, History(log', ep.id), ep) && CappedOrEarned(config, ep)
    ensures AllEarned(config, World(Finalize(config, m, row, ep), log'))
  {
    NotYetRecorded(config, m, log, row.condition);
    FinalizeShape(config, m, row, ep);
    EndEarned(config, History(log', ep.id), ep, RecordOf(row, ep));
    OneMoreEarned(config, m.completed, log, log', RecordOf(row, ep));
  }

  lemma OneMoreEarned(config: Config, completed: seq<Record>, log: seq<Event>, log': seq<Event>, r: Record)
    requires forall i :: 0 <= i < |completed| ==> Earned(config, History(log, completed[i].id), completed[i])
    requires forall i :: 0 <= i < |completed| ==> completed[i].id != r.id
    requires OnlyAbout(log, log', r.id) && Earned(config, History(log', r.id), r)
    ensures var more := completed + [r];
            forall i :: 0 <= i < |more| ==> Earned(config, History(log', more[i].id), more[i])
  {
    var more := completed + [r];
    forall i | 0 <= i < |more|
      ensures Earned(config, History(log', more[i].id), more[i])
    {
      if i < |completed| {
        assert more[i] == completed[i] && History(log', more[i].id) == History(log, completed[i].id);
      }
    }
  }

  lemma EndEarned(config: Config, s: Story, ep: Episode, r: Record)
    requires EndedStory(config, s, ep) && CappedOrEarned(config, ep)
    requires r.terminalState == ep.state && r.pnl == ep.pnl && r.exitPath == ep.exitPath
    ensures Earned(config, s, r)
  {
    if ep.state == Complete {
      var maker :| EarnsFloor(config, ep, maker);
      assert Floored(config, s, r, maker);
    }
  }

  lemma UpdateEarned(config: Config, m: Machine, log: seq<Event>, log': seq<Event>, row: Row, ep: Episode)
    requires Recorded(config, World(m, log)) && AllEarned(config, World(m, log)) && row.condition in m.episodes
    requires !m.episodes[row.condition].state.Terminal() && SameEpisode(m.episodes[row.condition], ep)
    requires OnlyAbout(log, log', ep.id) && Capped(config, ep)
    ensures AllEarned(config, World(m.(episodes := m.episodes[row.condition := ep]), log'))
  {
    NotYetRecorded(config, m, log, row.condition);
  }

  lemma LiveEarned(config: Config, m: Machine, log: seq<Event>, row: Row, bindingChanged: bool)
    requires AllResting(config, m) && row.condition in m.episodes
    requires Recorded(config, World(m, log)) && AllEarned(config, World(m, log))
    ensures var r := LivePath(config, m, row, bindingChanged); AllEarned(config, World(r.machine, log + r.events))
  {
    var ep := m.episodes[row.condition];
    StepRests(config, row, bindingChanged, ep);
    StepTells(config, row, bindingChanged, ep);
    StepEarns(config, row, bindingChanged, ep);
    LiveEvents(config, log, row, bindingChanged, ep);
    var step := EpisodeStep(config, row, bindingChanged, ep);
    if step.ep.state.Terminal() {
      FinalizeEarned(config, m, log, log + step.events.ToSeq(), row, step.ep);
    } else {
      UpdateEarned(config, m, log, log + step.events.ToSeq(), row, step.ep);
    }
  }

  lemma OpenEarned(config: Config, m: Machine, log: seq<Event>, row: Row)
    requires config.Valid() && AllResting(config, m) && row.condition !in m.episodes
    requires Recorded(config, World(m, log)) && AllEarned(config, World(m, log))
    ensures var r := OpenPath(config, m, row); AllEarned(config, World(r.machine, log + r.events))
  {
    var opening := EvaluateOpening(row, config, View(m, row));
    var reset := ResetCircuit(m, row.timestamp);
    AcceptedOpening(row, config, View(m, row));
    ResetRecorded(config, m, log, row.timestamp);
    assert AllEarned(config, World(reset, log));
    if opening.Accepted() {
      RegisterEarned(config, reset, log, row, opening);
    } else {
      RejectEarned(config, reset, log, row, opening.Reasons());
    }
  }

  lemma RegisterEarned(config: Config, m: Machine, log: seq<Event>, row: Row, opening: Opening)
    requires EndsExplained(config, World(m, log)) && AllTold(World(m, log)) && AllEarned(config, World(m, log))
    requires row.condition !in m.episodes && opening.outcome.Some? && opening.quote.Some?
    ensures var ep := NewEpisode(m, row, opening);
            AllEarned(config, World(Register(m, row, ep), log + [OpenedEvent(ep)]))
  {
    var ep := NewEpisode(m, row, opening);
    assert !Issued(m, ep.id);
    forall i | 0 <= i < |m.completed|
      ensures History(log + [OpenedEvent(ep)], m.completed[i].id) == History(log, m.completed[i].id)
    {
      assert Explains(config, History(log, m.completed[i].id), m.completed[i]);
      HistoryMore(log, OpenedEvent(ep), m.completed[i].id);
    }
  }

  lemma RejectEarned(config: Config, m: Machine, log: seq<Event>, row: Row, reasons: seq<Reason>)
    requires AllEarned(config, World(m, log)) && reasons != []
    ensures var r := Reject(m, row, reasons); AllEarned(config, World(r.machine, log + r.events))
  {
    var r := Reject(m, row, reasons);
    if r.events == [] {
      assert log + [] == log;
    } else {
      forall i | 0 <= i < |m.completed|
        ensures History(log + r.events, m.completed[i].id) == History(log, m.completed[i].id)
      {
        HistoryMore(log, r.events[0], m.completed[i].id);
      }
    }
  }

  /** Every completion a run records earned its floor: per maker pair the buffer and the
      realised margin, per taker-hedged pair the buffer and the hedge margin, less gas. */
  lemma {:induction false} CompletionsEarnTheirFloor(config: Config, rows: seq<Row>)
    requires config.Valid()
    ensures AllEarned(config, Run(config, rows))
  {
    if rows != [] {
      var before, row := rows[..|rows| - 1], rows[|rows| - 1];
      var w := Run(config, before);
      CompletionsEarnTheirFloor(config, before);
      RunRecorded(config, before);
      if Dropped(w.machine, row) {
        assert w.log + [] == w.log;
      } else {
        var noted := NoteBinding(w.machine, row);
        SameRecorded(config, w.machine, noted, w.log);
        if row.condition in noted.episodes {
          LiveEarned(config, noted, w.log, row, BindingChanged(w.machine, row));
        } else {
          OpenEarned(config, noted, w.log, row);
        }
      }
    }
  }
}
