/** The two reports compared value by value: what the incremental report says after any
    schedule of refreshes and restarts, and what counting the finished logs in one go says. */
module ReportComparison {
  import opened Queues
  import opened Options
  import opened LogTail
  import opened ShadowReport
  import opened ReportRuns
  import opened ShadowBatch

  /** The values both reports give, or compute their statistics from. */
  datatype Report = Report(marketsSeen: nat, counts: Counts, durations: seq<real>, ages: seq<real>, trades: seq<Row>)

  /** `IncrementalReport.report`: lines of either log that do not parse are invalid. */
  function Incremental(c: Checkpoint): Report
    requires c.audit.tally.AuditTally? && c.execution.tally.ExecutionTally?
  {
    var audit, execution := c.audit.tally, c.execution.tally;
    Report(|audit.markets|, audit.counts.(invalid := audit.counts.invalid + execution.invalid),
           audit.durations, audit.ages, execution.completed)
  }

  /** `build_report` over two logs: only lines of the audit log are invalid. */
  function InOneGo(p: Parser<Row>, audit: string, execution: string, now: real): Report {
    var b := BatchAll(EMPTY_BATCH, AllItems(p, audit), now);
    Report(|b.markets - {None}|, b.counts, b.durations, b.ages, CompletedAll([], AllItems(p, execution)))
  }

  /** How many finished lines that are not blank do not parse. */
  function Broken(p: Parser<Row>, bytes: string): nat {
    CountItems(Read(p, bytes).items, 0.0, false)
  }

  predicate AllCarryIds(rows: seq<Row>) {
    forall i :: 0 <= i < |rows| ==> rows[i].eventId != ""
  }

  lemma {:induction false} InvalidCounted(items: seq<Item<Row>>, now: real)
    ensures TakeAll(NO_EXECUTION, items, now).ExecutionTally?
    ensures TakeAll(NO_EXECUTION, items, now).invalid == CountItems(items, 0.0, false)
  {
    if items != [] {
      InvalidCounted(items[..|items| - 1], now);
    }
  }

  lemma {:induction false} CarryingIds(c: seq<Row>)
    ensures |WithIds(c)| <= |c|
    ensures |WithIds(c)| == |c| ==> AllCarryIds(c)
    ensures AllCarryIds(c) ==> WithIds(c) == c
  {
    if c != [] {
      var before, last := c[..|c| - 1], c[|c| - 1];
      assert c == before + [last];
      CarryingIds(before);
    }
  }

  /** The most recent trades with ids are all trades exactly when they are few and all have one. */
  lemma TradesKept(c: seq<Row>)
    ensures KeepLast(WithIds(c), MAX_COMPLETED_TRADES) == c <==> AllCarryIds(c) && |c| <= MAX_COMPLETED_TRADES
  {
    CarryingIds(c);
  }

  lemma MarketsSeen(b: Batch, rows: seq<Row>)
    requires MarketsAre(b.markets, rows)
    ensures |b.markets - {None}| == |Named(b.markets)| + if InMarket(rows, Some("")) then 1 else 0
  {
    if InMarket(rows, Some("")) {
      assert b.markets - {None} == Named(b.markets) + {Some("")};
    } else {
      assert b.markets - {None} == Named(b.markets);
    }
  }

  /** The reports `r`, incremental, and `b`, in one go, over two finished logs: all counts but one are the
      same and the rest agree exactly under the conditions given. */
  ghost predicate Compared(p: Parser<Row>, audit: string, execution: string, now: real, r: Report, b: Report) {
    && r.counts.(invalid := 0) == b.counts.(invalid := 0)
    && (r.counts.invalid == b.counts.invalid <==> Broken(p, execution) == BlankLines(audit))
    && (r.marketsSeen == b.marketsSeen <==> !InMarket(Fresh(AllItems(p, audit), now), Some("")))
    && (r.durations == b.durations <==> |b.durations| <= MAX_RECENT_VALUES)
    && (r.ages == b.ages <==> |b.ages| <= MAX_RECENT_VALUES)
    && (r.trades == b.trades <==> AllCarryIds(b.trades) && |b.trades| <= MAX_COMPLETED_TRADES)
  }

  lemma AuditsCompared(p: Parser<Row>, audit: string, now: real)
    requires p.Sensible() && Clean(p, audit)
    requires |BatchAll(EMPTY_BATCH, AllItems(p, audit), now).seen| <= MAX_SEEN_EVENTS
    ensures var t, b := TakeAll(NO_AUDIT, Read(p, audit).items, now), BatchAll(EMPTY_BATCH, AllItems(p, audit), now);
            && t.counts.(invalid := t.counts.invalid + BlankLines(audit)) == b.counts
            && |b.markets - {None}|
               == |t.markets| + (if InMarket(Fresh(AllItems(p, audit), now), Some("")) then 1 else 0)
            && t.durations == KeepLast(b.durations, MAX_RECENT_VALUES) && t.ages == KeepLast(b.ages, MAX_RECENT_VALUES)
  {
    BlankLinesAreInvalid(p, EMPTY_BATCH, audit, now);
    TalliesAgree(Read(p, audit).items, now);
    CountsMean(AllItems(p, audit), now);
    MarketsSeen(BatchAll(EMPTY_BATCH, AllItems(p, audit), now), Fresh(AllItems(p, audit), now));
  }

  lemma TradesCompared(p: Parser<Row>, execution: string, now: real)
    requires p.Sensible() && Clean(p, execution)
    requires |WithIds(CompletedAll([], AllItems(p, execution)))| <= MAX_SEEN_EVENTS
    ensures var t, c := TakeAll(NO_EXECUTION, Read(p, execution).items, now), CompletedAll([], AllItems(p, execution));
            && t.invalid == Broken(p, execution)
            && t.completed == KeepLast(WithIds(c), MAX_COMPLETED_TRADES)
  {
    BlankLinesComplete(p, [], execution);
    TradesAgree(Read(p, execution).items, now);
    InvalidCounted(Read(p, execution).items, now);
  }

  /** However the logs were written, tailed and the process restarted, as long as they are the files they
      always were and no more event ids occur than are remembered: once they are finished the incremental
      report compares as above with counting them in one go. */
  lemma IncrementalAgainstBatch(p: Parser<Row>, steps: seq<Step>, now: real, clock: real)
    requires p.Sensible() && Run(p, steps).audit.past == Run(p, steps).execution.past == []
    requires Clean(p, BytesOf(Run(p, steps), Audit)) && Clean(p, BytesOf(Run(p, steps), Execution))
    requires ClocksAgree(p, Audit, Files(Run(p, steps).audit), steps, now)
    requires |BatchAll(EMPTY_BATCH, AllItems(p, BytesOf(Run(p, steps), Audit)), now).seen| <= MAX_SEEN_EVENTS
    requires |WithIds(CompletedAll([], AllItems(p, BytesOf(Run(p, steps), Execution))))| <= MAX_SEEN_EVENTS
    ensures var audit, execution := BytesOf(Run(p, steps), Audit), BytesOf(Run(p, steps), Execution);
            var c := Run(p, steps + [Refreshed(now, clock)]).reporter.current;
            && c.audit.tally.AuditTally? && c.execution.tally.ExecutionTally?
            && Compared(p, audit, execution, now, Incremental(c), InOneGo(p, audit, execution, now))
  {
    var audit, execution := BytesOf(Run(p, steps), Audit), BytesOf(Run(p, steps), Execution);
    NeverReplaced(p, Audit, steps, now, clock);
    NeverReplaced(p, Execution, steps, now, clock);
    AuditsCompared(p, audit, now);
    TradesCompared(p, execution, now);
    TradesKept(CompletedAll([], AllItems(p, execution)));
  }

  // ---- where they differ ----

  lemma {:induction false} AllOfOne(p: Parser<Row>, line: string)
    requires '\n' !in line
    ensures AllItems(p, line + "\n") == [LineItem(p, line)]
    ensures Read(p, line + "\n").items == ItemsOf(p, line)
  {
    var bytes := line + "\n";
    assert bytes == line + "\n" + "";
    ReadOne(p, bytes, line, "");
    assert bytes[..|line|] == line && bytes[|line| + 1..] == "";
    assert |bytes| > 0;
  }

  /** What one refresh makes of a log of trades, without an audit log. */
  lemma OneLogRead(p: Parser<Row>, bytes: string, now: real, clock: real)
    requires p.Sensible() && Clean(p, bytes)
    ensures var c := Run(p, [Put(Execution, LogFile("1", bytes)), Refreshed(now, clock)]).reporter.current;
            && c.audit.tally == NO_AUDIT
            && c.execution.tally == TakeAll(NO_EXECUTION, Read(p, bytes).items, now)
  {
    var steps := [Put(Execution, LogFile("1", bytes))];
    assert steps + [Refreshed(now, clock)] == [Put(Execution, LogFile("1", bytes)), Refreshed(now, clock)];
    assert steps[..0] == [];
    assert Run(p, []) == World(NO_LOG, NO_LOG, Restart(None));
    NeverReplaced(p, Audit, steps, now, clock);
    NeverReplaced(p, Execution, steps, now, clock);
  }

  lemma BrokenLine()
    ensures Clean(NO_ROWS, "x\n") && Read(NO_ROWS, "x\n").items == [Invalid]
  {
    AllOfOne(NO_ROWS, "x");
    ReadOne(NO_ROWS, "x\n", "x", "");
  }

  lemma NothingInOneGo(p: Parser<Row>, execution: string, now: real)
    ensures InOneGo(p, "", execution, now).counts.invalid == 0
  {
  }

  /** One broken line in the log of trades: one report counts it and the other does not. */
  lemma BrokenTradeIsCountedOnce()
    ensures NO_ROWS.Sensible()
    ensures var c := Run(NO_ROWS, [Put(Execution, LogFile("1", "x\n")), Refreshed(0.0, 1.0)]).reporter.current;
            && c.audit.tally.AuditTally? && c.execution.tally.ExecutionTally?
            && Incremental(c).counts.invalid == 1
    ensures InOneGo(NO_ROWS, "", "x\n", 0.0).counts.invalid == 0
  {
    BrokenLine();
    OneLogRead(NO_ROWS, "x\n", 0.0, 1.0);
    InvalidCounted([Invalid], 0.0);
    NothingInOneGo(NO_ROWS, "x\n", 0.0);
  }

  /** One blank line in the audit log: counting in one go calls it invalid, tailing passes it over. */
  lemma BlankLineIsCountedOnce()
    ensures TakeAll(NO_AUDIT, Read(NO_ROWS, "\n").items, 0.0).counts.invalid == 0
    ensures InOneGo(NO_ROWS, "\n", "", 0.0).counts.invalid == 1
  {
    AllOfOne(NO_ROWS, "");
    assert "" + "\n" == "\n";
    BatchOne(EMPTY_BATCH, LineItem(NO_ROWS, ""), 0.0);
  }

  const NAMELESS := Row(0.0, "", Some(""), OtherEvent, false, false, "", None, None, "")
  const ONE_ROW: Parser<Row> := Parser((s: string) => if s == "m" then Some(NAMELESS) else None)

  /** One row whose market has an empty name: one report counts the market and the other does not. */
  lemma NamelessMarketIsCountedOnce()
    ensures ONE_ROW.Sensible()
    ensures TakeAll(NO_AUDIT, Read(ONE_ROW, "m\n").items, 0.0).markets == []
    ensures InOneGo(ONE_ROW, "m\n", "", 0.0).marketsSeen == 1
  {
    NamelessLine();
    TakesNameless(Parsed(NAMELESS));
    BatchesNameless(Parsed(NAMELESS));
  }

  lemma NamelessLine()
    ensures ONE_ROW.Sensible() && AllItems(ONE_ROW, "m\n") == Read(ONE_ROW, "m\n").items == [Parsed(NAMELESS)]
  {
    AllOfOne(ONE_ROW, "m");
  }

  lemma TakesNameless(item: Item<Row>)
    requires item == Parsed(NAMELESS)
    ensures TakeAll(NO_AUDIT, [item], 0.0).markets == []
  {
    assert [item][..0] == [];
  }

  lemma BatchesNameless(item: Item<Row>)
    requires item == Parsed(NAMELESS)
    ensures |BatchAll(EMPTY_BATCH, [item], 0.0).markets - {None}| == 1
  {
    BatchOne(EMPTY_BATCH, item, 0.0);
    assert TakeItem(EMPTY_BATCH, item, 0.0).markets - {None} == {Some("")};
  }
}
