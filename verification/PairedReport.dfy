/** The paired-lock opportunity report, row by row: what is excluded, what is counted, and
    the runs of opportunities. */
module PairedReport {
  import opened Numbers
  import opened Queues
  import opened Options
  import opened MapSums
  import opened PairedRuns

  const MAX_SEEN_EVENTS: nat := 50000
  const MAX_COMPLETED_RUNS: nat := 20000
  const MAX_STORED_COSTS: nat := 2000000
  const NEAR_MISS := 1.01

  datatype Config = Config(minSecondsToClose: real, opportunityThreshold: real, maxRunGapSeconds: real)

  /** The fields the report reads, as parsed numbers; a missing or unusable one is `None`, a
      missing event id the empty one. */
  datatype Row = Row(isPairedEval: bool, ts: real, eventId: string, accept: bool, reason: string,
                     secondsToClose: Option<real>, upVwap: Option<real>, downVwap: Option<real>,
                     upFill: Option<real>, downFill: Option<real>, grossCost: Option<real>, netCost: Option<real>,
                     group: string, market: string, condition: string)

  datatype Class = ClosingWindow | EmptyBook | IncompleteData | Valid(cost: real)

  function Classify(config: Config, row: Row): Class {
    if row.reason == "closing_window"
       || (row.secondsToClose.Some? && row.secondsToClose.value < config.minSecondsToClose) then ClosingWindow
    else
      var filled := row.upFill.Some? && row.downFill.Some? && row.upFill.value > 0.0 && row.downFill.value > 0.0;
      var vwapSum := if row.upVwap.Some? && row.downVwap.Some? then row.upVwap.value + row.downVwap.value else 0.0;
      if !filled || vwapSum <= 0.0 then EmptyBook
      else if row.grossCost.None? || row.netCost.None? then IncompleteData
      else if row.grossCost.value <= 0.0 || row.netCost.value <= 0.0 then IncompleteData
      else
        var shares := row.grossCost.value / vwapSum;
        if shares <= 0.0 then IncompleteData else Valid(row.netCost.value / shares)
  }

  /** A valid cost is the net cost scaled by the prices' share of the gross cost, so buying that
      many shares at it costs the net cost. */
  lemma CostPerShare(config: Config, row: Row)
    requires Classify(config, row).Valid?
    ensures var cost := Classify(config, row).cost;
            cost > 0.0 && cost * row.grossCost.value == row.netCost.value * (row.upVwap.value + row.downVwap.value)
  {
    var gross, net, sum := row.grossCost.value, row.netCost.value, row.upVwap.value + row.downVwap.value;
    PerShare(gross, net, sum);
  }

  lemma PerShare(gross: real, net: real, sum: real)
    requires gross > 0.0 && net > 0.0 && sum > 0.0
    ensures gross / sum > 0.0 && net / (gross / sum) > 0.0
    ensures net / (gross / sum) * gross == net * sum
  {
    var shares := gross / sum;
    assert shares * sum == gross;
    assert shares > 0.0;
    var cost := net / shares;
    assert cost * shares == net;
    assert cost * gross == cost * shares * sum;
    assert cost > 0.0 by {
      assert cost <= 0.0 ==> cost * shares <= 0.0;
    }
  }

  datatype Group = Group(valid: nat, opportunities: nat, nearMiss: nat, minCost: real)

  datatype Totals = Totals(future: nat, duplicates: nat, events: nat, valid: nat, acceptsValid: nat,
                           closingWindow: nat, emptyBook: nat, incomplete: nat,
                           seen: seq<string>, costs: seq<real>, rejections: map<string, nat>,
                           groups: map<string, Group>, open: map<string, OpportunityRun>, runs: seq<OpportunityRun>)

  const NOTHING := Totals(0, 0, 0, 0, 0, 0, 0, 0, [], [], map[], map[], map[], [])

  /** Half to even at six places. */
  function Round6(x: real): real {
    NearestEven(x * 1000000.0) as real / 1000000.0
  }

  predicate IsFuture(row: Row, now: real) {
    row.ts > now + 300.0
  }

  predicate Repeats(t: Totals, row: Row) {
    row.eventId != "" && row.eventId in t.seen
  }

  /** Rows neither foreign, future nor repeated are events. */
  predicate IsEvent(t: Totals, row: Row, now: real) {
    row.isPairedEval && !IsFuture(row, now) && !Repeats(t, row)
  }

  function CountGroup(groups: map<string, Group>, key: string, cost: real, threshold: real): map<string, Group> {
    var g := Lookup(groups, key).GetOr(Group(0, 0, 0, cost));
    groups[key := Group(g.valid + 1,
                        g.opportunities + if cost < threshold then 1 else 0,
                        g.nearMiss + if threshold <= cost < NEAR_MISS then 1 else 0,
                        Min(g.minCost, cost))]
  }

  function OpportunityOf(row: Row, cost: real): Opportunity {
    Opportunity(row.market, row.condition, row.group, row.ts, cost)
  }

  /** The run bookkeeping with the closed runs capped. */
  function CountRun(t: Totals, e: Opportunity, maxGap: real): Totals {
    var r := ExtendRun(Runs(t.open, t.runs), e, maxGap);
    t.(open := r.open, runs := KeepLast(r.closed, MAX_COMPLETED_RUNS))
  }

  function Tallied(config: Config, t: Totals, row: Row, cost: real): Totals {
    t.(valid := t.valid + 1, acceptsValid := t.acceptsValid + if row.accept then 1 else 0,
       costs := if |t.costs| < MAX_STORED_COSTS then t.costs + [Round6(cost)] else t.costs,
       groups := CountGroup(t.groups, row.group, cost, config.opportunityThreshold))
  }

  function CountValid(config: Config, t: Totals, row: Row, cost: real): Totals {
    var counted := Tallied(config, t, row, cost);
    if cost < config.opportunityThreshold && row.ts > 0.0
    then CountRun(counted, OpportunityOf(row, cost), config.maxRunGapSeconds) else counted
  }

  function CountEvent(t: Totals, row: Row): Totals {
    t.(events := t.events + 1,
       seen := if row.eventId == "" then t.seen else KeepLast(t.seen + [row.eventId], MAX_SEEN_EVENTS),
       rejections := if row.accept then t.rejections
                     else t.rejections[row.reason := Lookup(t.rejections, row.reason).GetOr(0) + 1])
  }

  function CountExcluded(t: Totals, kind: Class): Totals
    requires !kind.Valid?
  {
    match kind
    case ClosingWindow => t.(closingWindow := t.closingWindow + 1)
    case EmptyBook => t.(emptyBook := t.emptyBook + 1)
    case IncompleteData => t.(incomplete := t.incomplete + 1)
  }

  function TakeRow(config: Config, t: Totals, row: Row, now: real): Totals {
    if !row.isPairedEval then t
    else if IsFuture(row, now) then t.(future := t.future + 1)
    else if Repeats(t, row) then t.(duplicates := t.duplicates + 1)
    else
      var counted := CountEvent(t, row);
      var kind := Classify(config, row);
      if kind.Valid? then CountValid(config, counted, row, kind.cost) else CountExcluded(counted, kind)
  }

  /** A row and the clock it is read by. */
  datatype Reading = Reading(row: Row, now: real)

  function TakeAll(config: Config, readings: seq<Reading>): Totals {
    if readings == [] then NOTHING
    else
      var last := readings[|readings| - 1];
      TakeRow(config, TakeAll(config, readings[..|readings| - 1]), last.row, last.now)
  }

  // ---- what the rows say ----

  /** The rows that were events, in order; `PairedCounts` says which rows those are. */
  function Events(config: Config, readings: seq<Reading>): seq<Row> {
    if readings == [] then []
    else
      var before, last := readings[..|readings| - 1], readings[|readings| - 1];
      Events(config, before) + if IsEvent(TakeAll(config, before), last.row, last.now) then [last.row] else []
  }

  /** The costs of the valid events of a group, in order. */
  function CostsIn(config: Config, events: seq<Row>, group: string): seq<real> {
    if events == [] then []
    else
      var row := events[|events| - 1];
      CostsIn(config, events[..|events| - 1], group)
      + if row.group == group && Classify(config, row).Valid? then [Classify(config, row).cost] else []
  }

  /** How many costs lie in `[low, high)`. */
  function CountIn(costs: seq<real>, low: real, high: real): nat {
    if costs == [] then 0
    else CountIn(costs[..|costs| - 1], low, high) + if low <= costs[|costs| - 1] < high then 1 else 0
  }

  function Least(costs: seq<real>): (least: real)
    requires costs != []
    ensures least in costs && forall i :: 0 <= i < |costs| ==> least <= costs[i]
  {
    if |costs| == 1 then costs[0]
    else
      var n := |costs| - 1;
      assert costs == costs[..n] + [costs[n]];
      Min(Least(costs[..n]), costs[n])
  }

  function CountClass(config: Config, events: seq<Row>, kind: Class): nat {
    if events == [] then 0
    else CountClass(config, events[..|events| - 1], kind)
         + if Classify(config, events[|events| - 1]) == kind then 1 else 0
  }

  /** The opportunity events with a usable timestamp, in order. */
  function Opportunities(config: Config, events: seq<Row>): seq<Opportunity> {
    if events == [] then []
    else
      var row := events[|events| - 1];
      Opportunities(config, events[..|events| - 1])
      + if IsOpportunity(config, row) then [OpportunityOf(row, Classify(config, row).cost)] else []
  }

  predicate IsOpportunity(config: Config, row: Row) {
    Classify(config, row).Valid? && Classify(config, row).cost < config.opportunityThreshold && row.ts > 0.0
  }

  /** What a group should hold. */
  function GroupOf(costs: seq<real>, threshold: real): Group
    requires costs != []
  {
    Group(|costs|, CountIn(costs, 0.0, threshold), CountIn(costs, threshold, NEAR_MISS), Least(costs))
  }

  /** A group exists once it has a cost, and holds what it should. */
  predicate HoldsCosts(groups: map<string, Group>, key: string, costs: seq<real>, threshold: real) {
    if costs == [] then key !in groups else key in groups && groups[key] == GroupOf(costs, threshold)
  }

  /** Every event is valid or excluded for one reason. */
  predicate Balanced(config: Config, t: Totals, events: seq<Row>) {
    && t.events == |events| == t.valid + t.closingWindow + t.emptyBook + t.incomplete
    && t.closingWindow == CountClass(config, events, ClosingWindow)
    && t.emptyBook == CountClass(config, events, EmptyBook)
    && t.incomplete == CountClass(config, events, IncompleteData)
  }

  ghost predicate Grouped(config: Config, t: Totals, events: seq<Row>) {
    forall key: string :: HoldsCosts(t.groups, key, CostsIn(config, events, key), config.opportunityThreshold)
  }

  /** The open runs are those of the opportunity events, and the closed ones the most recent. */
  predicate RunsMatch(config: Config, t: Totals, events: seq<Row>) {
    var r := RunsOf(Opportunities(config, events), config.maxRunGapSeconds);
    t.open == r.open && t.runs == KeepLast(r.closed, MAX_COMPLETED_RUNS)
  }

  lemma EventBalanced(config: Config, t: Totals, events: seq<Row>, row: Row, now: real)
    requires Balanced(config, t, events) && IsEvent(t, row, now)
    ensures Balanced(config, TakeRow(config, t, row, now), events + [row])
  {
    assert (events + [row])[..|events|] == events;
  }

  lemma GroupMore(costs: seq<real>, cost: real, threshold: real)
    requires cost > 0.0
    ensures GroupOf(costs + [cost], threshold)
            == (var g := if costs == [] then Group(0, 0, 0, cost) else GroupOf(costs, threshold);
                Group(g.valid + 1, g.opportunities + if cost < threshold then 1 else 0,
                      g.nearMiss + if threshold <= cost < NEAR_MISS then 1 else 0, Min(g.minCost, cost)))
  {
    assert (costs + [cost])[..|costs|] == costs;
    if costs == [] {
      assert costs + [cost] == [cost];
      assert CountIn([cost][..0], 0.0, threshold) == CountIn([cost][..0], threshold, NEAR_MISS) == 0;
    }
  }

  lemma CountGroupHolds(groups: map<string, Group>, own: string, key: string, costs: seq<real>, cost: real,
                        threshold: real)
    requires HoldsCosts(groups, key, costs, threshold) && cost > 0.0
    ensures HoldsCosts(CountGroup(groups, own, cost, threshold), key,
                       if own == key then costs + [cost] else costs, threshold)
  {
    if own == key {
      GroupMore(costs, cost, threshold);
    }
  }

  lemma CostsMore(config: Config, events: seq<Row>, row: Row, key: string)
    ensures CostsIn(config, events + [row], key)
            == if row.group == key && Classify(config, row).Valid?
               then CostsIn(config, events, key) + [Classify(config, row).cost] else CostsIn(config, events, key)
  {
    assert (events + [row])[..|events|] == events;
  }

  lemma GroupsChange(config: Config, t: Totals, row: Row, now: real)
    requires IsEvent(t, row, now)
    ensures TakeRow(config, t, row, now).groups
            == match Classify(config, row)
               case Valid(cost) => CountGroup(t.groups, row.group, cost, config.opportunityThreshold)
               case _ => t.groups
  {
  }

  lemma EventGrouped(config: Config, t: Totals, events: seq<Row>, row: Row, now: real)
    requires Grouped(config, t, events) && IsEvent(t, row, now)
    ensures Grouped(config, TakeRow(config, t, row, now), events + [row])
  {
    var groups, threshold := TakeRow(config, t, row, now).groups, config.opportunityThreshold;
    GroupsChange(config, t, row, now);
    forall key: string
      ensures HoldsCosts(groups, key, CostsIn(config, events + [row], key), threshold)
    {
      CostsMore(config, events, row, key);
      assert HoldsCosts(t.groups, key, CostsIn(config, events, key), threshold);
      if Classify(config, row).Valid? {
        CostPerShare(config, row);
        CountGroupHolds(t.groups, row.group, key, CostsIn(config, events, key), Classify(config, row).cost, threshold);
      }
    }
  }

  lemma CappedRuns(r: Runs, t: Totals, e: Opportunity, maxGap: real)
    requires t.open == r.open && t.runs == KeepLast(r.closed, MAX_COMPLETED_RUNS)
    ensures var counted, next := CountRun(t, e, maxGap), ExtendRun(r, e, maxGap);
            counted.open == next.open && counted.runs == KeepLast(next.closed, MAX_COMPLETED_RUNS)
  {
    if e.market in r.open && !Near(r.open[e.market].endTs, e.ts, maxGap) {
      KeepLastTwice(r.closed, [r.open[e.market]], MAX_COMPLETED_RUNS);
    } else {
      assert r.closed + [] == r.closed && t.runs + [] == t.runs;
    }
  }

  lemma RunsChange(config: Config, t: Totals, row: Row, now: real)
    requires IsEvent(t, row, now)
    ensures var next := TakeRow(config, t, row, now);
            if IsOpportunity(config, row) then
              var counted := CountRun(t, OpportunityOf(row, Classify(config, row).cost), config.maxRunGapSeconds);
              next.open == counted.open && next.runs == counted.runs
            else next.open == t.open && next.runs == t.runs
  {
  }

  lemma OpportunitiesMore(config: Config, events: seq<Row>, row: Row)
    ensures Opportunities(config, events + [row])
            == if IsOpportunity(config, row)
               then Opportunities(config, events) + [OpportunityOf(row, Classify(config, row).cost)]
               else Opportunities(config, events)
  {
    assert (events + [row])[..|events|] == events;
  }

  lemma RunsMore(events: seq<Opportunity>, e: Opportunity, maxGap: real)
    ensures RunsOf(events + [e], maxGap) == ExtendRun(RunsOf(events, maxGap), e, maxGap)
  {
    assert (events + [e])[..|events|] == events;
  }

  lemma EventRuns(config: Config, t: Totals, events: seq<Row>, row: Row, now: real)
    requires RunsMatch(config, t, events) && IsEvent(t, row, now)
    ensures RunsMatch(config, TakeRow(config, t, row, now), events + [row])
  {
    var before, maxGap := Opportunities(config, events), config.maxRunGapSeconds;
    var r := RunsOf(before, maxGap);
    RunsChange(config, t, row, now);
    OpportunitiesMore(config, events, row);
    if IsOpportunity(config, row) {
      var e := OpportunityOf(row, Classify(config, row).cost);
      RunsMore(before, e, maxGap);
      CappedRuns(r, t, e, maxGap);
    }
  }

  // ---- whole runs ----

  /** For any rows read at any times: every event is counted once, as valid or under the reason it
      is excluded for; each group holds its own counts and least cost; and the open and closed runs
      are those of the opportunity events, of which `RunsAreTheClusters` says what they are. */
  lemma {:induction false} ReportIsRight(config: Config, readings: seq<Reading>)
    ensures var t, events := TakeAll(config, readings), Events(config, readings);
            Balanced(config, t, events) && Grouped(config, t, events) && RunsMatch(config, t, events)
  {
    if readings != [] {
      var before, last := readings[..|readings| - 1], readings[|readings| - 1];
      ReportIsRight(config, before);
      var t, events := TakeAll(config, before), Events(config, before);
      if IsEvent(t, last.row, last.now) {
        EventBalanced(config, t, events, last.row, last.now);
        EventGrouped(config, t, events, last.row, last.now);
        EventRuns(config, t, events, last.row, last.now);
      } else {
        assert events + [] == events;
      }
    }
  }

  /** Until runs are dropped for number, open and closed runs together hold as many events as
      there were opportunities with a usable timestamp. */
  lemma RunsCountOpportunities(config: Config, readings: seq<Reading>)
    requires |RunsOf(Opportunities(config, Events(config, readings)), config.maxRunGapSeconds).closed|
             <= MAX_COMPLETED_RUNS
    ensures var t := TakeAll(config, readings);
            EventsIn(t.runs) as real + Sum(OpenEvents(t.open))
            == |Opportunities(config, Events(config, readings))| as real
  {
    ReportIsRight(config, readings);
    EventsAreCounted(Opportunities(config, Events(config, readings)), config.maxRunGapSeconds);
  }

  // ---- the accumulator ----

  class PairedOpportunityAccumulator {
    const config: Config

    var futureEvents: nat
    var duplicateEvents: nat
    var eventsTotal: nat
    var valid: nat
    var acceptsValid: nat
    var excluded: map<Class, nat>
    var costs: seq<real>
    var rejections: map<string, nat>
    var groups: map<string, Group>
    var runs: seq<OpportunityRun>
    var openRuns: map<string, OpportunityRun>
    var seenOrder: seq<string>
    var seen: set<string>

    /** The queue of ids holds no id twice and the set holds the same ids. */
    ghost predicate Ok()
      reads this
    {
      && excluded.Keys == {ClosingWindow, EmptyBook, IncompleteData}
      && |runs| <= MAX_COMPLETED_RUNS && |seenOrder| <= MAX_SEEN_EVENTS && seen == (set id | id in seenOrder)
      && forall i, j :: 0 <= i < j < |seenOrder| ==> seenOrder[i] != seenOrder[j]
    }

    ghost function Value(): Totals
      requires Ok()
      reads this
    {
      Totals(futureEvents, duplicateEvents, eventsTotal, valid, acceptsValid, excluded[ClosingWindow],
             excluded[EmptyBook], excluded[IncompleteData], seenOrder, costs, rejections, groups, openRuns, runs)
    }

    constructor (config: Config)
      ensures Ok() && this.config == config && Value() == NOTHING
    {
      this.config := config;
      futureEvents, duplicateEvents, eventsTotal, valid, acceptsValid := 0, 0, 0, 0, 0;
      excluded := map[ClosingWindow := 0, EmptyBook := 0, IncompleteData := 0];
      costs, rejections, groups, runs, openRuns, seenOrder, seen := [], map[], map[], [], map[], [], {};
    }

    method ConsumeRow(row: Row, now: real)
      requires Ok()
      modifies this
      ensures Ok() && Value() == TakeRow(config, old(Value()), row, now)
    {
      if !row.isPairedEval {
        return;
      }
      if IsFuture(row, now) {
        futureEvents := futureEvents + 1;
        return;
      }
      if row.eventId != "" && row.eventId in seen {
        duplicateEvents := duplicateEvents + 1;
        return;
      }
      NoteEvent(row);
      var kind := Classify(config, row);
      if kind.Valid? {
        CountCost(row, kind.cost);
      } else {
        Exclude(kind);
      }
    }

    method NoteEvent(row: Row)
      requires Ok() && (row.eventId == "" || row.eventId !in seen)
      modifies `seenOrder, `seen, `eventsTotal, `rejections
      ensures Ok() && Value() == CountEvent(old(Value()), row)
    {
      Remember(row.eventId);
      eventsTotal := eventsTotal + 1;
      if !row.accept {
        rejections := rejections[row.reason := Lookup(rejections, row.reason).GetOr(0) + 1];
      }
    }

    method Exclude(kind: Class)
      requires Ok() && !kind.Valid?
      modifies `excluded
      ensures Ok() && Value() == CountExcluded(old(Value()), kind)
    {
      excluded := excluded[kind := excluded[kind] + 1];
    }

    method Remember(id: string)
      requires Ok() && (id == "" || id !in seen)
      modifies `seenOrder, `seen
      ensures Ok()
      ensures seenOrder == if id == "" then old(seenOrder) else KeepLast(old(seenOrder) + [id], MAX_SEEN_EVENTS)
    {
      if id == "" {
        return;
      }
      ghost var order := seenOrder;
      if |seenOrder| == MAX_SEEN_EVENTS {
        seen := seen - {seenOrder[0]};
        assert order == [order[0]] + order[1..] && order[0] !in order[1..];
        assert KeepLast(order + [id], MAX_SEEN_EVENTS) == order[1..] + [id];
      }
      seenOrder := KeepLast(seenOrder + [id], MAX_SEEN_EVENTS);
      seen := seen + {id};
    }

    method TallyCost(row: Row, cost: real)
      requires Ok()
      modifies `valid, `acceptsValid, `costs, `groups
      ensures Ok() && Value() == Tallied(config, old(Value()), row, cost)
    {
      valid := valid + 1;
      if row.accept {
        acceptsValid := acceptsValid + 1;
      }
      if |costs| < MAX_STORED_COSTS {
        costs := costs + [Round6(cost)];
      }
      var group := if row.group in groups then groups[row.group] else Group(0, 0, 0, cost);
      group := group.(valid := group.valid + 1, minCost := Min(group.minCost, cost));
      if cost < config.opportunityThreshold {
        group := group.(opportunities := group.opportunities + 1);
      } else if cost < NEAR_MISS {
        group := group.(nearMiss := group.nearMiss + 1);
      }
      groups := groups[row.group := group];
    }

    method CountCost(row: Row, cost: real)
      requires Ok()
      modifies `valid, `acceptsValid, `costs, `groups, `openRuns, `runs
      ensures Ok() && Value() == CountValid(config, old(Value()), row, cost)
    {
      TallyCost(row, cost);
      if cost < config.opportunityThreshold && row.ts > 0.0 {
        ExtendRun(OpportunityOf(row, cost));
      }
    }

    /** Continue the market's open run or close it and start another. */
    method ExtendRun(e: Opportunity)
      requires Ok()
      modifies `openRuns, `runs
      ensures Ok() && Value() == CountRun(old(Value()), e, config.maxRunGapSeconds)
    {
      assert runs + [] == runs;
      if e.market in openRuns {
        var run := openRuns[e.market];
        if Near(run.endTs, e.ts, config.maxRunGapSeconds) {
          openRuns := openRuns[e.market := Extended(run, e)];
          return;
        }
        CloseRun(run);
      }
      openRuns := openRuns[e.market := StartRun(e)];
    }

    method CloseRun(run: OpportunityRun)
      requires Ok()
      modifies `runs
      ensures Ok() && runs == KeepLast(old(runs) + [run], MAX_COMPLETED_RUNS)
    {
      runs := runs + [run];
      if |runs| > MAX_COMPLETED_RUNS {
        runs := runs[|runs| - MAX_COMPLETED_RUNS..];
      }
    }
  }
}
