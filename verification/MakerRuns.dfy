/** The whole machine on values: one row, and any number of rows from the empty machine. */
module MakerRuns {
  import opened Numbers
  import opened Options
  import opened MakerData
  import opened MakerOpening
  import opened MakerEpisodes
  import opened MakerResting
  import opened MapSums

  datatype Record = Record(
    id: EpisodeId,
    market: MarketId,
    condition: ConditionId,
    terminalState: State,
    exitPath: Option<ExitPath>,
    reason: Option<Reason>,
    pnl: real,
    ts: real
  )

  datatype EpisodeKey = EpisodeKey(market: MarketId, condition: ConditionId, binding: Binding)

  datatype Machine = Machine(
    episodes: map<ConditionId, Episode>,
    completed: seq<Record>,
    consecutiveOrphans: int,
    circuitOpenUntil: Option<real>,
    episodeSequences: map<EpisodeKey, nat>,
    episodesPerMarket: map<MarketId, int>,
    lastBinding: map<MarketId, Binding>,
    seenBindings: map<MarketId, set<Binding>>,
    lastRejectReason: map<ConditionId, Reason>
  )

  const EMPTY := Machine(map[], [], 0, None, map[], map[], map[], map[], map[])

  datatype Verdict = Rejected | Accepted | Working | Finished

  datatype Decision = Decision(verdict: Verdict, reason: Reason)

  datatype Evaluation = Evaluation(machine: Machine, decision: Decision, events: seq<Event>)

  // ---- stale rows ----

  predicate BindingIsStale(binding: Binding, last: Option<Binding>, seen: set<Binding>) {
    if binding in seen then true
    else if last.None? then false
    else if binding.generation != last.value.generation then binding.generation < last.value.generation
    else
      binding.session.number.Some? && last.value.session.number.Some?
      && binding.session.number.value < last.value.session.number.value
  }

  predicate Dropped(m: Machine, row: Row) {
    var last := Lookup(m.lastBinding, row.market);
    last != Some(row.binding)
    && BindingIsStale(row.binding, last, Lookup(m.seenBindings, row.market).GetOr({}))
  }

  predicate BindingChanged(m: Machine, row: Row) {
    row.market in m.lastBinding && m.lastBinding[row.market] != row.binding
  }

  function NoteBinding(m: Machine, row: Row): Machine {
    var seen := Lookup(m.seenBindings, row.market).GetOr({});
    m.(lastBinding := m.lastBinding[row.market := row.binding],
       seenBindings := m.seenBindings[row.market := seen + {row.binding}])
  }

  // ---- portfolio ----

  function Day(ts: real): int {
    (ts / 86400.0).Floor
  }

  /** Money in filled legs, and the open first-leg order at its quote. */
  function Exposure(ep: Episode): real {
    ep.cost1 + ep.cost2
    + if ep.state == Leg1Working then (ep.orderSize - ep.filled1) * ep.quote1 else 0.0
  }

  function AtRisk(ep: Episode): real {
    ep.Remaining() * ep.Avg1()
  }

  ghost function Total(episodes: map<ConditionId, Episode>, amount: Episode -> real): real {
    Sum(map c | c in episodes :: amount(episodes[c]))
  }

  ghost function TotalExposure(episodes: map<ConditionId, Episode>): real {
    Total(episodes, Exposure)
  }

  ghost function TotalAtRisk(episodes: map<ConditionId, Episode>): real {
    Total(episodes, AtRisk)
  }

  /** What the records of one day lost, gains not counted. */
  function DailyLoss(completed: seq<Record>, day: int): real {
    if completed == [] then 0.0
    else
      var last := completed[|completed| - 1];
      DailyLoss(completed[..|completed| - 1], day)
      + if Day(last.ts) == day then Max(0.0, -last.pnl) else 0.0
  }

  predicate CircuitOpen(m: Machine, now: real) {
    m.circuitOpenUntil.Some? && now < m.circuitOpenUntil.value
  }

  ghost function View(m: Machine, row: Row): Portfolio {
    Portfolio(TotalExposure(m.episodes), Max(0.0, TotalAtRisk(m.episodes)),
              DailyLoss(m.completed, Day(row.timestamp)), CircuitOpen(m, row.timestamp),
              Lookup(m.episodesPerMarket, row.market).GetOr(0))
  }

  /** A lapsed circuit breaker closes and forgets the orphans that opened it. */
  function ResetCircuit(m: Machine, now: real): Machine {
    if m.circuitOpenUntil.Some? && now >= m.circuitOpenUntil.value
    then m.(circuitOpenUntil := None, consecutiveOrphans := 0)
    else m
  }

  // ---- one row ----

  function RecordOf(row: Row, ep: Episode): Record {
    Record(ep.id, ep.market, ep.condition, ep.state, ep.exitPath, ep.terminalReason, ep.pnl, row.timestamp)
  }

  function OrphansAfter(m: Machine, ep: Episode): int {
    match ep.state
    case ClosedWithLoss => m.consecutiveOrphans + 1
    case Complete => 0
    case _ => m.consecutiveOrphans
  }

  function OpenUntilAfter(config: Config, m: Machine, row: Row, ep: Episode): Option<real> {
    if ep.state == ClosedWithLoss && m.consecutiveOrphans + 1 >= config.maxConsecutiveOrphans
    then Some(row.timestamp + config.circuitCooldown) else m.circuitOpenUntil
  }

  function Finalize(config: Config, m: Machine, row: Row, ep: Episode): Machine {
    m.(episodes := m.episodes - {row.condition}, completed := m.completed + [RecordOf(row, ep)],
       consecutiveOrphans := OrphansAfter(m, ep), circuitOpenUntil := OpenUntilAfter(config, m, row, ep))
  }

  function Settle(config: Config, m: Machine, row: Row, ep: Episode): (r: Machine)
    ensures r.lastBinding == m.lastBinding && r.seenBindings == m.seenBindings
    ensures r.episodesPerMarket == m.episodesPerMarket && r.episodeSequences == m.episodeSequences
  {
    if ep.state.Terminal() then Finalize(config, m, row, ep)
    else m.(episodes := m.episodes[row.condition := ep])
  }

  function NewEpisode(m: Machine, row: Row, opening: Opening): Episode
    requires opening.outcome.Some? && opening.quote.Some?
  {
    var key := EpisodeKey(row.market, row.condition, row.binding);
    var sequence := Lookup(m.episodeSequences, key).GetOr(0) + 1;
    Episode(EpisodeId(row.market, row.condition, row.binding, sequence), row.market, row.condition, row.binding,
            Leg1Working, row.timestamp, opening.outcome.value, opening.quote.value, opening.size, row.timestamp,
            0.0, 0.0, None, 0, false, None, None, 0.0, 0.0, None, 0, None, 0.0, None, None, None, None, None, 0.0, 1)
  }

  function OpenedEvent(ep: Episode): Event {
    EpisodeEvent(ep.id, 1, ep.openedTs, Opened(ep.leg1, ep.quote1, ep.orderSize), MarginsPass)
  }

  function Register(m: Machine, row: Row, ep: Episode): Machine {
    var key := EpisodeKey(row.market, row.condition, row.binding);
    m.(episodes := m.episodes[row.condition := ep],
       episodeSequences := m.episodeSequences[key := ep.id.sequence],
       episodesPerMarket := m.episodesPerMarket[row.market := Lookup(m.episodesPerMarket, row.market).GetOr(0) + 1],
       lastRejectReason := m.lastRejectReason - {row.condition})
  }

  /** Between rows, every live episode is resting. */
  ghost predicate AllResting(config: Config, m: Machine) {
    forall c :: c in m.episodes ==> Resting(config, m.episodes[c])
  }

  function Reject(m: Machine, row: Row, reasons: seq<Reason>): Evaluation
    requires reasons != []
  {
    var decision := Decision(Rejected, reasons[0]);
    if Lookup(m.lastRejectReason, row.condition) == Some(reasons[0]) then
      Evaluation(m, decision, [])
    else
      Evaluation(m.(lastRejectReason := m.lastRejectReason[row.condition := reasons[0]]), decision,
                 [Rejection(row.condition, row.timestamp, reasons)])
  }

  /** The evaluation of a row without a live episode, once the opening is decided. */
  function OpenWith(m: Machine, row: Row, opening: Opening): Evaluation
    requires opening.Accepted() ==> opening.outcome.Some? && opening.quote.Some?
  {
    var reset := ResetCircuit(m, row.timestamp);
    if opening.Accepted() then
      var ep := NewEpisode(reset, row, opening);
      Evaluation(Register(reset, row, ep), Decision(Accepted, MarginsPass), [OpenedEvent(ep)])
    else
      Reject(reset, row, opening.Reasons())
  }

  /** `_open_path`: no live episode for the condition. */
  ghost function OpenPath(config: Config, m: Machine, row: Row): (r: Evaluation)
    requires config.Valid() && AllResting(config, m)
    ensures AllResting(config, r.machine)
  {
    AcceptedOpening(row, config, View(m, row));
    OpenWith(m, row, EvaluateOpening(row, config, View(m, row)))
  }

  function EpisodeDecision(ep: Episode): Decision {
    Decision(if ep.state.Terminal() then Finished else Working, ep.terminalReason.GetOr(EpisodeWorking))
  }

  /** The evaluation a row yields once its live episode has become `q`. */
  function Settled(config: Config, m: Machine, row: Row, q: Progress): Evaluation {
    Evaluation(Settle(config, m, row, q.ep), EpisodeDecision(q.ep), q.events.ToSeq())
  }

  /** A row for a live episode. */
  ghost function LivePath(config: Config, m: Machine, row: Row, bindingChanged: bool): (r: Evaluation)
    requires AllResting(config, m) && row.condition in m.episodes
    ensures AllResting(config, r.machine)
  {
    var ep := m.episodes[row.condition];
    StepRests(config, row, bindingChanged, ep);
    Settled(config, m, row, EpisodeStep(config, row, bindingChanged, ep))
  }

  /** `evaluate`. */
  ghost function Evaluate(config: Config, m: Machine, row: Row): (r: Evaluation)
    requires config.Valid() && AllResting(config, m)
    ensures AllResting(config, r.machine)
  {
    if Dropped(m, row) then Evaluation(m, Decision(Rejected, StaleMessageDropped), [])
    else if row.condition in m.episodes then LivePath(config, NoteBinding(m, row), row, BindingChanged(m, row))
    else OpenPath(config, NoteBinding(m, row), row)
  }

  // ---- runs ----

  datatype World = World(machine: Machine, log: seq<Event>)

  /** The machine and the audit log after a sequence of rows. */
  ghost function Run(config: Config, rows: seq<Row>): (w: World)
    requires config.Valid()
    ensures AllResting(config, w.machine)
  {
    if rows == [] then World(EMPTY, [])
    else
      var before := Run(config, rows[..|rows| - 1]);
      var step := Evaluate(config, before.machine, rows[|rows| - 1]);
      World(step.machine, before.log + step.events)
  }
}
