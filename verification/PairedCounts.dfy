/** Which rows are events, and when the opportunities the report counts from its stored, rounded
    costs are those its groups counted. */
module PairedCounts {
  import opened Numbers
  import opened Queues
  import opened Options
  import opened MapSums
  import opened PairedReport

  // ---- events are first occurrences ----

  predicate CarriesId(rows: seq<Row>, id: string) {
    exists i :: 0 <= i < |rows| && rows[i].eventId == id
  }

  /** The rows of the strategy, not from the future, that are the first with their event id. */
  function Fresh(readings: seq<Reading>): seq<Row> {
    if readings == [] then []
    else
      var earlier, last := Fresh(readings[..|readings| - 1]), readings[|readings| - 1];
      if last.row.isPairedEval && !IsFuture(last.row, last.now)
         && (last.row.eventId == "" || !CarriesId(earlier, last.row.eventId))
      then earlier + [last.row] else earlier
  }

  function IdsOf(rows: seq<Row>): seq<string> {
    if rows == [] then []
    else IdsOf(rows[..|rows| - 1]) + if rows[|rows| - 1].eventId == "" then [] else [rows[|rows| - 1].eventId]
  }

  lemma IdsMore(rows: seq<Row>, row: Row)
    ensures IdsOf(rows + [row]) == IdsOf(rows) + if row.eventId == "" then [] else [row.eventId]
  {
    assert (rows + [row])[..|rows|] == rows;
  }

  lemma {:induction false} IdsAreCarried(rows: seq<Row>, id: string)
    requires id != ""
    ensures id in IdsOf(rows) <==> CarriesId(rows, id)
  {
    if rows != [] {
      var before, last := rows[..|rows| - 1], rows[|rows| - 1];
      assert rows == before + [last];
      IdsAreCarried(before, id);
      assert CarriesId(rows, id) <==> CarriesId(before, id) || last.eventId == id by {
        assert rows[|before|] == last;
        assert forall i :: 0 <= i < |before| ==> rows[i] == before[i];
      }
    }
  }

  lemma SeenAfter(config: Config, t: Totals, row: Row, now: real)
    ensures TakeRow(config, t, row, now).seen
            == if IsEvent(t, row, now) && row.eventId != "" then KeepLast(t.seen + [row.eventId], MAX_SEEN_EVENTS)
               else t.seen
  {
  }

  /** While no more ids occur than are remembered, the events are the first occurrences. */
  lemma {:induction false} EventsAreFresh(config: Config, readings: seq<Reading>)
    requires |IdsOf(Fresh(readings))| <= MAX_SEEN_EVENTS
    ensures Events(config, readings) == Fresh(readings) && TakeAll(config, readings).seen == IdsOf(Fresh(readings))
  {
    if readings != [] {
      var before, last := readings[..|readings| - 1], readings[|readings| - 1];
      var earlier := Fresh(before);
      IdsMore(earlier, last.row);
      EventsAreFresh(config, before);
      SeenAfter(config, TakeAll(config, before), last.row, last.now);
      if last.row.eventId != "" {
        IdsAreCarried(earlier, last.row.eventId);
      }
    }
  }

  // ---- costs and groups ----

  function CostOf(config: Config, row: Row): seq<real> {
    if Classify(config, row).Valid? then [Classify(config, row).cost] else []
  }

  /** The costs of the valid events, in order. */
  function Costs(config: Config, events: seq<Row>): seq<real> {
    if events == [] then []
    else Costs(config, events[..|events| - 1]) + CostOf(config, events[|events| - 1])
  }

  function Rounded(costs: seq<real>): seq<real> {
    seq(|costs|, i requires 0 <= i < |costs| => Round6(costs[i]))
  }

  function KeepFirst<T>(xs: seq<T>, max: nat): seq<T> {
    if |xs| <= max then xs else xs[..max]
  }

  function CountBelow(costs: seq<real>, threshold: real): nat {
    if costs == [] then 0
    else CountBelow(costs[..|costs| - 1], threshold) + if costs[|costs| - 1] < threshold then 1 else 0
  }

  /** The opportunities of all groups together. */
  function GroupOpportunities(groups: map<string, Group>): map<string, real> {
    map key | key in groups :: groups[key].opportunities as real
  }

  ghost predicate Stored(config: Config, t: Totals, events: seq<Row>) {
    && t.costs == KeepFirst(Rounded(Costs(config, events)), MAX_STORED_COSTS)
    && Sum(GroupOpportunities(t.groups)) == CountBelow(Costs(config, events), config.opportunityThreshold) as real
  }

  lemma CostsMore(config: Config, events: seq<Row>, row: Row)
    ensures Costs(config, events + [row]) == Costs(config, events) + CostOf(config, row)
  {
    assert (events + [row])[..|events|] == events;
  }

  lemma BelowMore(costs: seq<real>, cost: real, threshold: real)
    ensures CountBelow(costs + [cost], threshold) == CountBelow(costs, threshold) + if cost < threshold then 1 else 0
  {
    assert (costs + [cost])[..|costs|] == costs;
  }

  lemma GroupsMore(groups: map<string, Group>, key: string, cost: real, threshold: real)
    ensures Sum(GroupOpportunities(CountGroup(groups, key, cost, threshold)))
            == Sum(GroupOpportunities(groups)) + if cost < threshold then 1.0 else 0.0
  {
    var counted := CountGroup(groups, key, cost, threshold);
    SumUpdate(GroupOpportunities(groups), key, counted[key].opportunities as real);
    assert GroupOpportunities(counted) == GroupOpportunities(groups)[key := counted[key].opportunities as real];
  }

  lemma CostsAfter(config: Config, t: Totals, row: Row, now: real)
    requires IsEvent(t, row, now)
    ensures TakeRow(config, t, row, now).costs
            == if Classify(config, row).Valid? && |t.costs| < MAX_STORED_COSTS
               then t.costs + [Round6(Classify(config, row).cost)] else t.costs
  {
  }

  lemma StoresMore(costs: seq<real>, cost: real)
    ensures var kept := KeepFirst(Rounded(costs), MAX_STORED_COSTS);
            KeepFirst(Rounded(costs + [cost]), MAX_STORED_COSTS)
            == if |kept| < MAX_STORED_COSTS then kept + [Round6(cost)] else kept
  {
    assert Rounded(costs + [cost]) == Rounded(costs) + [Round6(cost)];
  }

  lemma EventStored(config: Config, t: Totals, events: seq<Row>, row: Row, now: real)
    requires Stored(config, t, events) && IsEvent(t, row, now)
    ensures Stored(config, TakeRow(config, t, row, now), events + [row])
  {
    GroupsChange(config, t, row, now);
    CostsAfter(config, t, row, now);
    CostsMore(config, events, row);
    if Classify(config, row).Valid? {
      var cost := Classify(config, row).cost;
      GroupsMore(t.groups, row.group, cost, config.opportunityThreshold);
      BelowMore(Costs(config, events), cost, config.opportunityThreshold);
      StoresMore(Costs(config, events), cost);
    } else {
      assert Costs(config, events) + [] == Costs(config, events);
    }
  }

  /** The stored costs are the rounded costs of the first valid events, and the groups together count
      the valid events below the threshold. */
  lemma {:induction false} CostsAreStored(config: Config, readings: seq<Reading>)
    ensures Stored(config, TakeAll(config, readings), Events(config, readings))
  {
    if readings == [] {
      assert Rounded([]) == [] && GroupOpportunities(map[]) == map[];
    } else {
      var before, last := readings[..|readings| - 1], readings[|readings| - 1];
      CostsAreStored(config, before);
      var t, events := TakeAll(config, before), Events(config, before);
      if IsEvent(t, last.row, last.now) {
        EventStored(config, t, events, last.row, last.now);
      } else {
        assert events + [] == events;
      }
    }
  }

  // ---- rounding across the threshold ----

  predicate Crosses(cost: real, threshold: real) {
    cost < threshold <==> Round6(cost) >= threshold
  }

  lemma NearestIsMonotone(x: real, y: real)
    requires x <= y
    ensures NearestEven(x) <= NearestEven(y)
  {
    assert x.Floor <= y.Floor;
    if x.Floor < y.Floor {
      assert NearestEven(x) <= x.Floor + 1 <= y.Floor <= NearestEven(y);
    }
  }

  lemma RoundIsMonotone(x: real, y: real)
    requires x <= y
    ensures Round6(x) <= Round6(y)
  {
    NearestIsMonotone(x * 1000000.0, y * 1000000.0);
    var a, b := NearestEven(x * 1000000.0), NearestEven(y * 1000000.0);
    assert a as real <= b as real;
  }

  /** Rounding takes costs over a threshold in one direction only. */
  predicate CrossesUp(cost: real, threshold: real) {
    cost < threshold <= Round6(cost)
  }

  lemma {:induction false} NoneUp(costs: seq<real>, threshold: real)
    requires forall i :: 0 <= i < |costs| ==> !CrossesUp(costs[i], threshold)
    ensures CountBelow(Rounded(costs), threshold) >= CountBelow(costs, threshold)
    ensures CountBelow(Rounded(costs), threshold) == CountBelow(costs, threshold)
            <==> forall i :: 0 <= i < |costs| ==> !Crosses(costs[i], threshold)
  {
    if costs != [] {
      var before, last := costs[..|costs| - 1], costs[|costs| - 1];
      assert costs == before + [last] && Rounded(costs)[..|before|] == Rounded(before);
      NoneUp(before, threshold);
    }
  }

  lemma {:induction false} NoneDown(costs: seq<real>, threshold: real)
    requires forall i :: 0 <= i < |costs| ==> Crosses(costs[i], threshold) ==> CrossesUp(costs[i], threshold)
    ensures CountBelow(Rounded(costs), threshold) <= CountBelow(costs, threshold)
    ensures CountBelow(Rounded(costs), threshold) == CountBelow(costs, threshold)
            <==> forall i :: 0 <= i < |costs| ==> !Crosses(costs[i], threshold)
  {
    if costs != [] {
      var before, last := costs[..|costs| - 1], costs[|costs| - 1];
      assert costs == before + [last] && Rounded(costs)[..|before|] == Rounded(before);
      NoneDown(before, threshold);
    }
  }

  lemma RoundedCount(costs: seq<real>, threshold: real)
    ensures CountBelow(Rounded(costs), threshold) == CountBelow(costs, threshold)
            <==> forall i :: 0 <= i < |costs| ==> !Crosses(costs[i], threshold)
  {
    if up :| 0 <= up < |costs| && CrossesUp(costs[up], threshold) {
      forall i | 0 <= i < |costs| && Crosses(costs[i], threshold)
        ensures CrossesUp(costs[i], threshold)
      {
        if costs[i] >= threshold {
          RoundIsMonotone(costs[up], costs[i]);
        }
      }
      NoneDown(costs, threshold);
    } else {
      NoneUp(costs, threshold);
    }
  }

  /** What the report says: the stored costs below the threshold. */
  function ReportedOpportunities(config: Config, t: Totals): nat {
    CountBelow(t.costs, config.opportunityThreshold)
  }

  /** As long as no more costs occur than are stored, the report counts as many opportunities as its
      groups exactly when no valid cost rounds across the configured threshold. */
  lemma ReportedAgainstGroups(config: Config, readings: seq<Reading>)
    requires |Costs(config, Events(config, readings))| <= MAX_STORED_COSTS
    ensures var t, costs := TakeAll(config, readings), Costs(config, Events(config, readings));
            ReportedOpportunities(config, t) as real == Sum(GroupOpportunities(t.groups))
            <==> forall i :: 0 <= i < |costs| ==> !Crosses(costs[i], config.opportunityThreshold)
  {
    CostsAreStored(config, readings);
    RoundedCount(Costs(config, Events(config, readings)), config.opportunityThreshold);
  }

  // ---- one row on which they differ ----

  const DOLLAR := Config(90.0, 1.0, 5.0)

  /** Prices of 0.4 and 0.5 for a pair that with fees and buffer costs a ten-millionth less than a dollar. */
  const HAIR_BELOW := Row(true, 1.0, "", true, "", None, Some(0.4), Some(0.5), Some(1.0), Some(1.0),
                          Some(0.9), Some(0.9999999), "group", "market", "condition")

  lemma OneIsNotReported()
    ensures var t := TakeAll(DOLLAR, [Reading(HAIR_BELOW, 0.0)]);
            && ReportedOpportunities(DOLLAR, t) == 0
            && t.groups == map["group" := Group(1, 1, 0, 0.9999999)]
  {
    var readings := [Reading(HAIR_BELOW, 0.0)];
    assert readings[..0] == [];
    assert Classify(DOLLAR, HAIR_BELOW) == Valid(0.9999999);
    assert Round6(0.9999999) == 1.0;
    var t := TakeRow(DOLLAR, NOTHING, HAIR_BELOW, 0.0);
    assert t.costs == [1.0] && [1.0][..0] == [];
  }
}
