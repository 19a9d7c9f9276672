/** The audit log of a whole run: it tells the story of every episode, live or ended,
    accounts for every opening, and never repeats an event. */
module MakerLedger {
  import opened Options
  import opened MakerData
  import opened MakerOpening
  import opened MakerEpisodes
  import opened MakerResting
  import opened MakerStory
  import opened MakerRuns

  function EventsOf(log: seq<Event>, id: EpisodeId): seq<Event> {
    if log == [] then []
    else
      var last := log[|log| - 1];
      EventsOf(log[..|log| - 1], id) + if last.EpisodeEvent? && last.episode == id then [last] else []
  }

  /** What the log says about one episode. */
  function History(log: seq<Event>, id: EpisodeId): Story {
    TellAll(Untold, EventsOf(log, id))
  }

  /** The openings logged, in all markets or in one. */
  function Openings(log: seq<Event>, market: Option<MarketId>): nat {
    if log == [] then 0
    else
      var last := log[|log| - 1];
      Openings(log[..|log| - 1], market)
      + if last.EpisodeEvent? && last.body.Opened? && market in {None, Some(last.episode.market)} then 1 else 0
  }

  function KeyOf(id: EpisodeId): EpisodeKey {
    EpisodeKey(id.market, id.condition, id.binding)
  }

  predicate Issued(m: Machine, id: EpisodeId) {
    KeyOf(id) in m.episodeSequences && id.sequence <= m.episodeSequences[KeyOf(id)]
  }

  /** The log explains a terminal record: the state it ended in, what was left unpaired
      and unsold, and that the recorded result is the money the log shows. */
  predicate Explains(config: Config, s: Story, r: Record) {
    && s.Story? && s.id == r.id && s.state == r.terminalState
    && match r.terminalState
       case Leg1Cancelled =>
         && r.pnl == 0.0 && s.result.None?
         && s.size2 == s.cost2 == s.sold == s.proceeds == s.fees == 0.0
         && (s.size1 == s.cost1 == 0.0 || (0.0 < s.size1 && !FilledEnough(config, s.size1, s.orderSize)))
       case Complete =>
         && s.result == Some(r.pnl) && s.sold == 0.0
         && 0.0 < s.size2 <= s.size1 <= s.size2 + EPS
         && r.pnl == Cash(config, s) + (s.size1 - s.size2) * (s.cost1 / s.size1 + config.gasPerShare)
       case ClosedWithLoss =>
         && s.result == Some(r.pnl) && s.sold == s.size1 - s.size2
         && r.pnl == Cash(config, s)
       case _ => false
  }

  ghost predicate Identified(m: Machine) {
    forall c :: c in m.episodes ==>
      var ep := m.episodes[c];
      ep.condition == c && ep.id.condition == c && ep.id.market == ep.market
  }

  /** Every story the log tells is a proper one, about an episode that was issued. */
  ghost predicate AllTold(w: World) {
    forall id :: History(w.log, id) == Untold || (History(w.log, id).Story? && Issued(w.machine, id))
  }

  ghost predicate LiveTold(w: World) {
    forall c :: c in w.machine.episodes ==>
      History(w.log, w.machine.episodes[c].id) == LiveStory(w.machine.episodes[c])
  }

  ghost predicate EndsExplained(config: Config, w: World) {
    forall i :: 0 <= i < |w.machine.completed| ==>
      Explains(config, History(w.log, w.machine.completed[i].id), w.machine.completed[i])
  }

  ghost predicate RecordsDistinct(m: Machine) {
    forall i, j :: 0 <= i < j < |m.completed| ==> m.completed[i].id != m.completed[j].id
  }

  ghost predicate Recorded(config: Config, w: World) {
    Identified(w.machine) && AllTold(w) && LiveTold(w) && EndsExplained(config, w) && RecordsDistinct(w.machine)
  }

  ghost predicate Counted(config: Config, w: World) {
    && Openings(w.log, None) == |w.machine.episodes| + |w.machine.completed|
    && forall market: MarketId ::
         && Lookup(w.machine.episodesPerMarket, market).GetOr(0) == Openings(w.log, Some(market))
         && Openings(w.log, Some(market)) <= (if config.maxEpisodesPerMarket < 0 then 0
                                              else config.maxEpisodesPerMarket)
  }

  // ---- appending events to the log ----

  lemma {:induction false} EventsOfInTwo(a: seq<Event>, b: seq<Event>, id: EpisodeId)
    ensures EventsOf(a + b, id) == EventsOf(a, id) + EventsOf(b, id)
  {
    if b == [] {
      assert a + b == a;
    } else {
      assert (a + b)[..|a + b| - 1] == a + b[..|b| - 1];
      EventsOfInTwo(a, b[..|b| - 1], id);
    }
  }

  lemma {:induction false} OpeningsInTwo(a: seq<Event>, b: seq<Event>, market: Option<MarketId>)
    ensures Openings(a + b, market) == Openings(a, market) + Openings(b, market)
  {
    if b == [] {
      assert a + b == a;
    } else {
      assert (a + b)[..|a + b| - 1] == a + b[..|b| - 1];
      OpeningsInTwo(a, b[..|b| - 1], market);
    }
  }

  lemma HistoryInTwo(a: seq<Event>, b: seq<Event>, id: EpisodeId)
    ensures History(a + b, id) == TellAll(History(a, id), EventsOf(b, id))
  {
    EventsOfInTwo(a, b, id);
    TellInTwo(Untold, EventsOf(a, id), EventsOf(b, id));
  }

  /** Events that continue a story are all about its episode, and none of them opens one. */
  lemma {:induction false} ContinuationIsOwn(start: Story, events: seq<Event>, id: EpisodeId, market: Option<MarketId>)
    requires start.Story? && TellAll(start, events).Story?
    ensures TellAll(start, events).id == start.id
    ensures EventsOf(events, id) == if id == start.id then events else []
    ensures Openings(events, market) == 0
  {
    if events != [] {
      var earlier, last := events[..|events| - 1], events[|events| - 1];
      assert events == earlier + [last];
      assert TellAll(start, events) == Tell(TellAll(start, earlier), last);
      assert TellAll(start, earlier).Story? && last.EpisodeEvent? && !last.body.Opened?
             && last.episode == TellAll(start, earlier).id;
      ContinuationIsOwn(start, earlier, id, market);
    }
  }

  predicate About(event: Event, id: EpisodeId) {
    event.EpisodeEvent? && event.episode == id
  }

  lemma HistoryMore(log: seq<Event>, event: Event, id: EpisodeId)
    ensures History(log + [event], id) == if About(event, id) then Tell(History(log, id), event) else History(log, id)
  {
    assert (log + [event])[..|log|] == log;
    if About(event, id) {
      TellMore(Untold, EventsOf(log, id), event);
    } else {
      assert EventsOf(log + [event], id) == EventsOf(log, id);
    }
  }

  lemma OpeningsMore(log: seq<Event>, event: Event, market: Option<MarketId>)
    ensures Openings(log + [event], market) == Openings(log, market)
              + if event.EpisodeEvent? && event.body.Opened? && market in {None, Some(event.episode.market)}
                then 1 else 0
  {
    assert (log + [event])[..|log|] == log;
  }

  /** Telling never unsays: the number rises by one and the episode stays. */
  lemma TellAdvances(s: Story, event: Event)
    ensures Tell(s, event) != Untold
    ensures Tell(s, event).Story? ==> event.EpisodeEvent? && Tell(s, event).number == event.number
    ensures Tell(s, event).Story? && s.Story? ==> event.number == s.number + 1
  {
  }

  // ---- one row ----

  lemma OpeningRecorded(config: Config, m: Machine, log: seq<Event>, row: Row)
    requires config.Valid() && AllResting(config, m)
    requires row.condition !in m.episodes
    requires Recorded(config, World(m, log)) && Counted(config, World(m, log))
    ensures var r := OpenPath(config, m, row);
            Recorded(config, World(r.machine, log + r.events)) && Counted(config, World(r.machine, log + r.events))
  {
    var reset := ResetCircuit(m, row.timestamp);
    var opening := EvaluateOpening(row, config, View(m, row));
    AcceptedOpening(row, config, View(m, row));
    ResetRecorded(config, m, log, row.timestamp);
    if opening.Accepted() {
      RegisterRecorded(config, reset, log, row, opening);
      RegisterCounted(config, reset, log, row, opening);
    } else {
      RejectRecorded(config, reset, log, row, opening.Reasons());
    }
  }

  lemma ResetRecorded(config: Config, m: Machine, log: seq<Event>, now: real)
    requires Recorded(config, World(m, log))
    ensures Recorded(config, World(ResetCircuit(m, now), log))
    ensures Counted(config, World(m, log)) ==> Counted(config, World(ResetCircuit(m, now), log))
  {
    if ResetCircuit(m, now) != m {
      SameRecorded(config, m, ResetCircuit(m, now), log);
    }
  }

  lemma SameRecorded(config: Config, m: Machine, r: Machine, log: seq<Event>)
    requires Recorded(config, World(m, log))
    requires r.episodes == m.episodes && r.completed == m.completed && r.episodeSequences == m.episodeSequences
    requires r.episodesPerMarket == m.episodesPerMarket
    ensures Recorded(config, World(r, log))
    ensures Counted(config, World(m, log)) ==> Counted(config, World(r, log))
  {
    assert forall id :: Issued(r, id) == Issued(m, id);
  }

  lemma RejectRecorded(config: Config, m: Machine, log: seq<Event>, row: Row, reasons: seq<Reason>)
    requires Recorded(config, World(m, log)) && Counted(config, World(m, log)) && reasons != []
    ensures var r := Reject(m, row, reasons);
            Recorded(config, World(r.machine, log + r.events)) && Counted(config, World(r.machine, log + r.events))
  {
    var r := Reject(m, row, reasons);
    var event := Rejection(row.condition, row.timestamp, reasons);
    if r.events == [] {
      assert log + [] == log;
    } else {
      assert forall id :: Issued(r.machine, id) == Issued(m, id);
      forall id
        ensures History(log + [event], id) == History(log, id)
      {
        HistoryMore(log, event, id);
      }
      forall market
        ensures Openings(log + [event], market) == Openings(log, market)
      {
        OpeningsMore(log, event, market);
      }
    }
  }

  lemma RegisterRecorded(config: Config, m: Machine, log: seq<Event>, row: Row, opening: Opening)
    requires Recorded(config, World(m, log))
    requires row.condition !in m.episodes && opening.outcome.Some? && opening.quote.Some?
    ensures var ep := NewEpisode(m, row, opening);
            Recorded(config, World(Register(m, row, ep), log + [OpenedEvent(ep)]))
  {
    var ep := NewEpisode(m, row, opening);
    var registered := Register(m, row, ep);
    assert !Issued(m, ep.id) && Issued(registered, ep.id);
    assert forall id :: Issued(m, id) ==> Issued(registered, id);
    OpeningTells(log, ep);
    OneMoreRecorded(config, m, registered, log, log + [OpenedEvent(ep)], row, ep);
  }

  lemma OneMoreRecorded(config: Config, m: Machine, r: Machine, log: seq<Event>, log': seq<Event>, row: Row,
                        ep: Episode)
    requires Recorded(config, World(m, log)) && History(log, ep.id) == Untold
    requires r.episodes == m.episodes[row.condition := ep] && row.condition !in m.episodes && r.completed == m.completed
    requires ep.condition == ep.id.condition == row.condition && ep.id.market == ep.market
    requires Issued(r, ep.id) && forall id :: Issued(m, id) ==> Issued(r, id)
    requires forall id :: History(log', id) == if id == ep.id then LiveStory(ep) else History(log, id)
    ensures Recorded(config, World(r, log'))
  {
    NewToRecords(config, m, log, ep.id);
  }

  /** The event that opens an episode begins its story and touches no other. */
  lemma OpeningTells(log: seq<Event>, ep: Episode)
    requires History(log, ep.id) == Untold && ep == ep.(state := Leg1Working, eventSequence := 1)
    requires LiveStory(ep) == Tell(Untold, OpenedEvent(ep))
    ensures forall id :: History(log + [OpenedEvent(ep)], id) == if id == ep.id then LiveStory(ep) else History(log, id)
  {
    forall id
      ensures History(log + [OpenedEvent(ep)], id) == if id == ep.id then LiveStory(ep) else History(log, id)
    {
      HistoryMore(log, OpenedEvent(ep), id);
    }
  }

  lemma NewToRecords(config: Config, m: Machine, log: seq<Event>, id: EpisodeId)
    requires EndsExplained(config, World(m, log)) && History(log, id) == Untold
    ensures forall i :: 0 <= i < |m.completed| ==> m.completed[i].id != id
  {
    forall i | 0 <= i < |m.completed|
      ensures m.completed[i].id != id
    {
      assert Explains(config, History(log, m.completed[i].id), m.completed[i]);
    }
  }

  lemma RegisterCounted(config: Config, m: Machine, log: seq<Event>, row: Row, opening: Opening)
    requires Counted(config, World(m, log))
    requires row.condition !in m.episodes && opening.outcome.Some? && opening.quote.Some?
    requires Lookup(m.episodesPerMarket, row.market).GetOr(0) < config.maxEpisodesPerMarket
    ensures var ep := NewEpisode(m, row, opening);
            Counted(config, World(Register(m, row, ep), log + [OpenedEvent(ep)]))
  {
    var ep := NewEpisode(m, row, opening);
    forall market
      ensures Openings(log + [OpenedEvent(ep)], market)
              == Openings(log, market) + if market in {None, Some(row.market)} then 1 else 0
    {
      OpeningsMore(log, OpenedEvent(ep), market);
    }
  }

  /** The log grew by events about one episode only, none of them an opening. */
  ghost predicate OnlyAbout(log: seq<Event>, log': seq<Event>, id: EpisodeId) {
    && (forall other :: other != id ==> History(log', other) == History(log, other))
    && (forall market :: Openings(log', market) == Openings(log, market))
  }

  lemma LiveEvents(config: Config, log: seq<Event>, row: Row, bindingChanged: bool, ep: Episode)
    requires Resting(config, ep) && History(log, ep.id) == LiveStory(ep)
    ensures Readable(ep) && 0.0 <= ep.filled2
    ensures var step := EpisodeStep(config, row, bindingChanged, ep);
            var log' := log + step.events.ToSeq();
            && OnlyAbout(log, log', ep.id)
            && History(log', ep.id).Story?
            && History(log', ep.id).id == ep.id
            && History(log', ep.id) == TellEmitted(LiveStory(ep), step.events)
  {
    StepRests(config, row, bindingChanged, ep);
    StepTells(config, row, bindingChanged, ep);
    var step := EpisodeStep(config, row, bindingChanged, ep);
    var events := step.events.ToSeq();
    TellEmittedIsTellAll(LiveStory(ep), step.events);
    forall id
      ensures History(log + events, id) == if id == ep.id then TellAll(LiveStory(ep), events) else History(log, id)
    {
      HistoryInTwo(log, events, id);
      ContinuationIsOwn(LiveStory(ep), events, id, None);
    }
    forall market
      ensures Openings(log + events, market) == Openings(log, market)
    {
      OpeningsInTwo(log, events, market);
      ContinuationIsOwn(LiveStory(ep), events, ep.id, market);
    }
    ContinuationIsOwn(LiveStory(ep), events, ep.id, None);
  }

  lemma UpdateRecorded(config: Config, m: Machine, log: seq<Event>, log': seq<Event>, row: Row, ep: Episode)
    requires Recorded(config, World(m, log)) && row.condition in m.episodes
    requires !m.episodes[row.condition].state.Terminal() && SameEpisode(m.episodes[row.condition], ep)
    requires OnlyAbout(log, log', ep.id) && History(log', ep.id) == LiveStory(ep)
    ensures Recorded(config, World(m.(episodes := m.episodes[row.condition := ep]), log'))
  {
    var updated := m.(episodes := m.episodes[row.condition := ep]);
    assert forall id :: Issued(updated, id) == Issued(m, id);
    NotYetRecorded(config, m, log, row.condition);
  }

  lemma FinalizeRecorded(config: Config, m: Machine, log: seq<Event>, log': seq<Event>, row: Row, ep: Episode)
    requires Recorded(config, World(m, log)) && row.condition in m.episodes
    requires !m.episodes[row.condition].state.Terminal() && SameEpisode(m.episodes[row.condition], ep)
    requires OnlyAbout(log, log', ep.id) && History(log', ep.id).Story? && History(log', ep.id).id == ep.id
    requires ep.state.Terminal()
    requires Explains(config, History(log', ep.id), RecordOf(row, ep))
    ensures Recorded(config, World(Finalize(config, m, row, ep), log'))
  {
    NotYetRecorded(config, m, log, row.condition);
    FinalizeShape(config, m, row, ep);
    var closed := Finalize(config, m, row, ep);
    StillAllTold(m, closed, log, log', ep.id);
    StillLiveTold(m, closed, log, log', row.condition);
    OneMoreExplained(config, m.completed, log, log', RecordOf(row, ep));
  }

  lemma FinalizeShape(config: Config, m: Machine, row: Row, ep: Episode)
    ensures var closed := Finalize(config, m, row, ep);
            && closed.episodes == m.episodes - {row.condition} && closed.episodeSequences == m.episodeSequences
            && closed.completed == m.completed + [RecordOf(row, ep)]
  {
  }

  /** The stories that are not about the ended episode stay as they were. */
  lemma StillAllTold(m: Machine, m': Machine, log: seq<Event>, log': seq<Event>, own: EpisodeId)
    requires AllTold(World(m, log)) && Issued(m, own) && m'.episodeSequences == m.episodeSequences
    requires OnlyAbout(log, log', own) && History(log', own).Story?
    ensures AllTold(World(m', log'))
  {
    forall id
      ensures History(log', id) == Untold || (History(log', id).Story? && Issued(m', id))
    {
      assert Issued(m', id) == Issued(m, id);
      if id != own {
        assert History(log', id) == History(log, id);
      }
    }
  }

  lemma StillLiveTold(m: Machine, m': Machine, log: seq<Event>, log': seq<Event>, c: ConditionId)
    requires LiveTold(World(m, log)) && c in m.episodes && m'.episodes == m.episodes - {c}
    requires forall d :: d in m.episodes && d != c ==> m.episodes[d].id != m.episodes[c].id
    requires OnlyAbout(log, log', m.episodes[c].id)
    ensures LiveTold(World(m', log'))
  {
  }

  lemma OneMoreExplained(config: Config, completed: seq<Record>, log: seq<Event>, log': seq<Event>, r: Record)
    requires forall i :: 0 <= i < |completed| ==> Explains(config, History(log, completed[i].id), completed[i])
    requires forall i :: 0 <= i < |completed| ==> completed[i].id != r.id
    requires OnlyAbout(log, log', r.id) && Explains(config, History(log', r.id), r)
    ensures var more := completed + [r];
            forall i :: 0 <= i < |more| ==> Explains(config, History(log', more[i].id), more[i])
  {
  }

  lemma NotYetRecorded(config: Config, m: Machine, log: seq<Event>, c: ConditionId)
    requires Recorded(config, World(m, log)) && c in m.episodes && !m.episodes[c].state.Terminal()
    ensures forall i :: 0 <= i < |m.completed| ==> m.completed[i].id != m.episodes[c].id
    ensures forall d :: d in m.episodes && d != c ==> m.episodes[d].id != m.episodes[c].id
  {
    forall i | 0 <= i < |m.completed|
      ensures m.completed[i].id != m.episodes[c].id
    {
      assert Explains(config, History(log, m.completed[i].id), m.completed[i]);
      assert History(log, m.episodes[c].id).state == m.episodes[c].state;
    }
  }

  lemma SettleCounted(config: Config, m: Machine, log: seq<Event>, log': seq<Event>, row: Row, ep: Episode)
    requires Counted(config, World(m, log)) && row.condition in m.episodes && OnlyAbout(log, log', ep.id)
    ensures Counted(config, World(Settle(config, m, row, ep), log'))
  {
    var settled := Settle(config, m, row, ep);
    assert m.episodes == (m.episodes - {row.condition})[row.condition := m.episodes[row.condition]];
    if !ep.state.Terminal() {
      assert settled.episodes.Keys == m.episodes.Keys;
      assert |settled.episodes.Keys| == |m.episodes.Keys|;
    }
  }

  lemma LiveRecorded(config: Config, m: Machine, log: seq<Event>, row: Row, bindingChanged: bool)
    requires AllResting(config, m) && row.condition in m.episodes
    requires Recorded(config, World(m, log)) && Counted(config, World(m, log))
    ensures var r := LivePath(config, m, row, bindingChanged);
            Recorded(config, World(r.machine, log + r.events)) && Counted(config, World(r.machine, log + r.events))
  {
    var ep := m.episodes[row.condition];
    StepRests(config, row, bindingChanged, ep);
    StepTells(config, row, bindingChanged, ep);
    LiveEvents(config, log, row, bindingChanged, ep);
    var step := EpisodeStep(config, row, bindingChanged, ep);
    SettleRecorded(config, m, log, log + step.events.ToSeq(), row, step.ep);
    SettleCounted(config, m, log, log + step.events.ToSeq(), row, step.ep);
  }

  lemma SettleRecorded(config: Config, m: Machine, log: seq<Event>, log': seq<Event>, row: Row, ep: Episode)
    requires Recorded(config, World(m, log)) && row.condition in m.episodes
    requires !m.episodes[row.condition].state.Terminal() && SameEpisode(m.episodes[row.condition], ep)
    requires OnlyAbout(log, log', ep.id) && History(log', ep.id).Story? && History(log', ep.id).id == ep.id
    requires if ep.state.Terminal() then Ended(config, ep) && EndedStory(config, History(log', ep.id), ep)
             else History(log', ep.id) == LiveStory(ep)
    ensures Recorded(config, World(Settle(config, m, row, ep), log'))
  {
    if ep.state.Terminal() {
      EndIsExplained(config, History(log', ep.id), ep, RecordOf(row, ep));
      FinalizeRecorded(config, m, log, log', row, ep);
    } else {
      UpdateRecorded(config, m, log, log', row, ep);
    }
  }

  /** The record made from an ended episode is explained by that episode's story. */
  lemma EndIsExplained(config: Config, s: Story, ep: Episode, r: Record)
    requires Ended(config, ep) && EndedStory(config, s, ep)
    requires r.id == ep.id && r.terminalState == ep.state && r.pnl == ep.pnl
    ensures Explains(config, s, r)
  {
  }

  lemma RowRecorded(config: Config, w: World, row: Row)
    requires config.Valid() && AllResting(config, w.machine)
    requires Recorded(config, w) && Counted(config, w)
    ensures var r := Evaluate(config, w.machine, row);
            Recorded(config, World(r.machine, w.log + r.events)) && Counted(config, World(r.machine, w.log + r.events))
  {
    var r := Evaluate(config, w.machine, row);
    if Dropped(w.machine, row) {
      assert w.log + r.events == w.log;
    } else {
      var noted := NoteBinding(w.machine, row);
      SameRecorded(config, w.machine, noted, w.log);
      if row.condition in noted.episodes {
        LiveRecorded(config, noted, w.log, row, BindingChanged(w.machine, row));
      } else {
        OpeningRecorded(config, noted, w.log, row);
      }
    }
  }

  // ---- whole runs ----

  /** After any rows the log, replayed on its own, gives back every live episode and explains
      every terminal record; openings are the live and the ended; no market exceeds its share. */
  lemma {:induction false} RunRecorded(config: Config, rows: seq<Row>)
    requires config.Valid()
    ensures Recorded(config, Run(config, rows)) && Counted(config, Run(config, rows))
  {
    if rows == [] {
      assert forall id :: History([], id) == Untold;
    } else {
      RunRecorded(config, rows[..|rows| - 1]);
      RowRecorded(config, Run(config, rows[..|rows| - 1]), rows[|rows| - 1]);
    }
  }

  lemma {:induction false} NumbersBounded(log: seq<Event>, i: nat, id: EpisodeId)
    requires i < |log| && About(log[i], id)
    ensures History(log, id) != Untold
    ensures History(log, id).Story? ==> log[i].number <= History(log, id).number
  {
    var earlier, last := log[..|log| - 1], log[|log| - 1];
    assert log == earlier + [last];
    HistoryMore(earlier, last, id);
    TellAdvances(History(earlier, id), last);
    if i < |earlier| {
      NumbersBounded(earlier, i, id);
    }
  }

  lemma {:induction false} NumbersRise(log: seq<Event>, i: nat, j: nat, id: EpisodeId)
    requires i < j < |log| && About(log[i], id) && About(log[j], id)
    requires History(log, id).Story?
    ensures log[i].number < log[j].number
  {
    var earlier, last := log[..|log| - 1], log[|log| - 1];
    assert log == earlier + [last];
    HistoryMore(earlier, last, id);
    TellAdvances(History(earlier, id), last);
    NumbersBounded(earlier, i, id);
    if j < |earlier| {
      NumbersRise(earlier, i, j, id);
    }
  }

  /** No two audit events of a run share an episode and a number, so no event id repeats. */
  lemma EventIdsNeverRepeat(config: Config, rows: seq<Row>, i: nat, j: nat)
    requires config.Valid()
    requires i < j < |Run(config, rows).log|
    requires Run(config, rows).log[i].EpisodeEvent? && Run(config, rows).log[j].EpisodeEvent?
    requires Run(config, rows).log[i].episode == Run(config, rows).log[j].episode
    ensures Run(config, rows).log[i].number < Run(config, rows).log[j].number
  {
    var log := Run(config, rows).log;
    RunRecorded(config, rows);
    NumbersBounded(log, i, log[i].episode);
    NumbersRise(log, i, j, log[i].episode);
  }
}
