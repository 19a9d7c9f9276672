/** The circuit breaker over whole runs. */
module MakerCircuit {
  import opened Options
  import opened MakerData
  import opened MakerOpening
  import opened MakerEpisodes
  import opened MakerResting
  import opened MakerRuns
  import opened MakerExposure
  import opened MakerExamples

  /** From `m` to `r` a closing loss brought the count of consecutive orphans to its limit. */
  predicate Trips(config: Config, m: Machine, r: Machine) {
    && |r.completed| > |m.completed|
    && r.completed[|r.completed| - 1].terminalState == ClosedWithLoss
    && m.consecutiveOrphans + 1 >= config.maxConsecutiveOrphans
  }

  ghost predicate Opens(config: Config, m: Machine, row: Row)
    requires config.Valid() && AllResting(config, m)
  {
    Evaluate(config, m, row).decision.verdict == Accepted
  }

  ghost predicate StepsTo(config: Config, m: Machine, row: Row, next: Machine)
    requires config.Valid()
  {
    AllResting(config, m) && next == Evaluate(config, m, row).machine
  }

  /** The machines of a run: one before the first row and one after each. */
  ghost predicate Trace(config: Config, rows: seq<Row>, ms: seq<Machine>)
    requires config.Valid()
  {
    && |ms| == |rows| + 1 && ms[0] == EMPTY
    && (forall i :: 0 <= i < |rows| ==> StepsTo(config, ms[i], rows[i], ms[i + 1]))
  }

  /** Every run has exactly this trace. */
  lemma {:induction false} RunTrace(config: Config, rows: seq<Row>) returns (ms: seq<Machine>)
    requires config.Valid()
    ensures Trace(config, rows, ms) && ms[|rows|] == Run(config, rows).machine
  {
    if rows == [] {
      ms := [EMPTY];
    } else {
      var before := rows[..|rows| - 1];
      var earlier := RunTrace(config, before);
      ms := earlier + [Run(config, rows).machine];
      forall i | 0 <= i < |rows|
        ensures StepsTo(config, ms[i], rows[i], ms[i + 1])
      {
        if i < |before| {
          assert ms[i] == earlier[i] && ms[i + 1] == earlier[i + 1] && before[i] == rows[i];
        }
      }
    }
  }

  /** Under a closed breaker the count is below its limit, exactly if the limit is positive. */
  predicate Armed(config: Config, m: Machine) {
    && 0 <= m.consecutiveOrphans
    && (m.circuitOpenUntil.None? ==>
          (m.consecutiveOrphans < config.maxConsecutiveOrphans <==> 0 < config.maxConsecutiveOrphans))
  }

  /** The breaker keeps openings out until `cooled`. */
  predicate CoolsUntil(m: Machine, now: real, cooled: real) {
    match m.circuitOpenUntil
    case None => cooled <= now
    case Some(until) => cooled <= until
  }

  /** What a row can do to the breaker: nothing, lapse once due, forget after a
      completion, or count an orphan and trip at the limit. */
  predicate Moves(config: Config, m: Machine, r: Machine, now: real) {
    || (r.circuitOpenUntil == m.circuitOpenUntil && r.consecutiveOrphans in {0, m.consecutiveOrphans})
    || (m.circuitOpenUntil.Some? && now >= m.circuitOpenUntil.value
        && r.circuitOpenUntil.None? && r.consecutiveOrphans == 0)
    || (r.consecutiveOrphans == m.consecutiveOrphans + 1
        && r.circuitOpenUntil == if r.consecutiveOrphans >= config.maxConsecutiveOrphans
                                 then Some(now + config.circuitCooldown) else m.circuitOpenUntil)
  }

  lemma SettleMoves(config: Config, m: Machine, row: Row, ep: Episode)
    ensures var r := Settle(config, m, row, ep);
            && Moves(config, m, r, row.timestamp)
            && (Trips(config, m, r) ==> r.circuitOpenUntil == Some(row.timestamp + config.circuitCooldown))
  {
  }

  lemma OpenMoves(config: Config, m: Machine, row: Row, opening: Opening)
    requires opening.Accepted() ==> Admits(row, config, View(m, row), opening)
    ensures var r := OpenWith(m, row, opening);
            && Moves(config, m, r.machine, row.timestamp) && r.machine.completed == m.completed
            && (r.decision.verdict == Accepted ==> !CircuitOpen(m, row.timestamp))
  {
  }

  lemma BreakerStep(config: Config, m: Machine, row: Row)
    requires config.Valid() && AllResting(config, m)
    ensures var r := Evaluate(config, m, row).machine;
            && Moves(config, m, r, row.timestamp)
            && (Trips(config, m, r) ==> r.circuitOpenUntil == Some(row.timestamp + config.circuitCooldown))
    ensures Opens(config, m, row) ==> !CircuitOpen(m, row.timestamp)
  {
    if !Dropped(m, row) {
      var noted := NoteBinding(m, row);
      if row.condition in m.episodes {
        var ep := m.episodes[row.condition];
        StepRests(config, row, BindingChanged(m, row), ep);
        SettleMoves(config, noted, row, EpisodeStep(config, row, BindingChanged(m, row), ep).ep);
      } else {
        AcceptedOpening(row, config, View(noted, row));
        OpenMoves(config, noted, row, EvaluateOpening(row, config, View(noted, row)));
      }
    }
  }

  lemma {:induction false} AlwaysArmed(config: Config, rows: seq<Row>)
    requires config.Valid()
    ensures Armed(config, Run(config, rows).machine)
  {
    if rows != [] {
      AlwaysArmed(config, rows[..|rows| - 1]);
      BreakerStep(config, Run(config, rows[..|rows| - 1]).machine, rows[|rows| - 1]);
    }
  }

  /** No episode opens while the count of consecutive orphans is at its limit, exactly if the limit
      is positive: an opening finds the breaker closed with the count below such a limit, or
      lapsed, and then forgets the count. */
  lemma NoOpeningAtTheLimit(config: Config, rows: seq<Row>, row: Row)
    requires config.Valid() && Opens(config, Run(config, rows).machine, row)
    ensures var m := Run(config, rows).machine;
            if m.circuitOpenUntil.Some? then row.timestamp >= m.circuitOpenUntil.value
            else m.consecutiveOrphans < config.maxConsecutiveOrphans <==> 0 < config.maxConsecutiveOrphans
  {
    AlwaysArmed(config, rows);
    BreakerStep(config, Run(config, rows).machine, row);
  }

  /** With a limit of zero the very first row opens, though the count has reached the limit. */
  lemma OpensAtZeroLimit()
    ensures Setup(0).Valid() && Opens(Setup(0), Run(Setup(0), []).machine, OPENS)
    ensures Run(Setup(0), []).machine.consecutiveOrphans >= Setup(0).maxConsecutiveOrphans
  {
    OpensTen(0);
  }

  lemma CoolsOn(config: Config, m: Machine, r: Machine, was: real, now: real, cooled: real)
    requires Moves(config, m, r, now) && CoolsUntil(m, was, cooled) && was <= now
    requires cooled <= now + config.circuitCooldown
    ensures CoolsUntil(r, now, cooled)
  {
  }

  /** Along the trace the breaker moves as it may. */
  predicate Moving(config: Config, rows: seq<Row>, ms: seq<Machine>) {
    && |ms| == |rows| + 1
    && (forall i :: 0 <= i < |rows| ==> Moves(config, ms[i], ms[i + 1], rows[i].timestamp))
  }

  lemma TraceMoves(config: Config, rows: seq<Row>, ms: seq<Machine>)
    requires config.Valid() && Trace(config, rows, ms)
    ensures Moving(config, rows, ms)
  {
    forall i | 0 <= i < |rows|
      ensures Moves(config, ms[i], ms[i + 1], rows[i].timestamp)
    {
      assert StepsTo(config, ms[i], rows[i], ms[i + 1]);
      BreakerStep(config, ms[i], rows[i]);
    }
  }

  lemma {:induction false} StaysCooling(config: Config, rows: seq<Row>, ms: seq<Machine>, i: nat, j: nat)
    requires 0.0 <= config.circuitCooldown && InOrder(rows) && Moving(config, rows, ms) && i < j <= |rows|
    requires ms[i + 1].circuitOpenUntil == Some(rows[i].timestamp + config.circuitCooldown)
    ensures CoolsUntil(ms[j], rows[j - 1].timestamp, rows[i].timestamp + config.circuitCooldown)
  {
    if i < j - 1 {
      StaysCooling(config, rows, ms, i, j - 1);
      assert Moves(config, ms[j - 1], ms[j - 1 + 1], rows[j - 1].timestamp);
      CoolsOn(config, ms[j - 1], ms[j], rows[j - 2].timestamp, rows[j - 1].timestamp,
              rows[i].timestamp + config.circuitCooldown);
    }
  }

  /** After a tripping loss nothing opens within the cooldown, whatever completes or cancels meanwhile. */
  lemma NoOpeningInCooldown(config: Config, rows: seq<Row>, ms: seq<Machine>, i: nat, j: nat)
    requires config.Valid() && 0.0 <= config.circuitCooldown && InOrder(rows) && Trace(config, rows, ms)
    requires i < j < |rows| && Trips(config, ms[i], ms[i + 1])
    requires StepsTo(config, ms[j], rows[j], ms[j + 1]) && Opens(config, ms[j], rows[j])
    ensures rows[j].timestamp >= rows[i].timestamp + config.circuitCooldown
  {
    TraceMoves(config, rows, ms);
    assert StepsTo(config, ms[i], rows[i], ms[i + 1]);
    BreakerStep(config, ms[i], rows[i]);
    StaysCooling(config, rows, ms, i, j);
    OpensWhenCooled(config, ms[j], rows[j], rows[j - 1].timestamp, rows[i].timestamp + config.circuitCooldown);
  }

  lemma OpensWhenCooled(config: Config, m: Machine, row: Row, was: real, cooled: real)
    requires config.Valid() && AllResting(config, m) && Opens(config, m, row)
    requires CoolsUntil(m, was, cooled) && was <= row.timestamp
    ensures row.timestamp >= cooled
  {
    BreakerStep(config, m, row);
  }
}
