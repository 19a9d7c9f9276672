/** The incremental report as it runs: counters, queues and sets changed in place while two
    logs are tailed, saved now and then, and reloaded after a restart. */
module IncrementalReports {
  import opened Queues
  import opened Newlines
  import opened Options
  import opened LogTail
  import opened ShadowReport

  /** A queue of at most `MAX_SEEN_EVENTS` distinct ids and the set of its elements. */
  ghost predicate Remembered(order: seq<string>, seen: set<string>) {
    Distinct(order) && seen == Elements(order) && |order| <= MAX_SEEN_EVENTS
  }

  /** Pushing into a full queue drops its oldest element, which the set must drop too. */
  lemma PushRemembered(order: seq<string>, seen: set<string>, id: string)
    requires Remembered(order, seen) && id !in seen
    ensures var kept := if |order| == MAX_SEEN_EVENTS then seen - {order[0]} else seen;
            Remembered(KeepLast(order + [id], MAX_SEEN_EVENTS), kept + {id})
  {
    var pushed := KeepLast(order + [id], MAX_SEEN_EVENTS);
    if |order| == MAX_SEEN_EVENTS {
      assert pushed == order[1..] + [id];
      assert order == [order[0]] + order[1..];
      assert order[0] !in order[1..];
    } else {
      assert pushed == order + [id];
    }
  }

  class IncrementalReport {
    const parser: Parser<Row>

    var auditIdentity: Option<string>
    var auditOffset: nat
    var counts: Counts
    var markets: seq<string>
    var auditSeenOrder: seq<string>
    var auditSeen: set<string>
    var durations: seq<real>
    var sourceAges: seq<real>

    var executionIdentity: Option<string>
    var executionOffset: nat
    var executionInvalid: nat
    var executionSeenOrder: seq<string>
    var executionSeen: set<string>
    var completed: seq<Row>

    /** The checkpoint file, and when this process last wrote it; zero for never. */
    var saved: Option<Checkpoint>
    var lastSave: real

    ghost predicate Valid()
      reads this
    {
      && Remembered(auditSeenOrder, auditSeen) && Remembered(executionSeenOrder, executionSeen)
      && (saved.Some? ==> Loadable(saved.value))
    }

    function TallyOf(log: LogName): Tally
      reads this
    {
      match log
      case Audit => Tally.AuditTally(counts, markets, auditSeenOrder, durations, sourceAges)
      case Execution => Tally.ExecutionTally(executionInvalid, executionSeenOrder, completed)
    }

    function BucketOf(log: LogName): Bucket
      reads this
    {
      match log
      case Audit => Bucket(auditIdentity, auditOffset, TallyOf(log))
      case Execution => Bucket(executionIdentity, executionOffset, TallyOf(log))
    }

    function Current(): Checkpoint
      reads this
    {
      Checkpoint(BucketOf(Audit), BucketOf(Execution))
    }

    function Value(): Reporter
      reads this
    {
      Reporter(Current(), saved, lastSave)
    }

    /** What a checkpoint must hold for a process to start from it. */
    static ghost predicate Loadable(c: Checkpoint) {
      && c.audit.tally.AuditTally? && c.execution.tally.ExecutionTally?
      && Distinct(c.audit.tally.seen) && |c.audit.tally.seen| <= MAX_SEEN_EVENTS
      && Distinct(c.execution.tally.seen) && |c.execution.tally.seen| <= MAX_SEEN_EVENTS
    }

    /** A new process starts from the checkpoint, or from nothing; the sets are rebuilt from the queues. */
    constructor (parser: Parser<Row>, saved: Option<Checkpoint>)
      requires saved.Some? ==> Loadable(saved.value)
      ensures Valid() && this.parser == parser && Value() == Restart(saved)
    {
      var c := saved.GetOr(NEW);
      this.parser := parser;
      auditIdentity, auditOffset := c.audit.identity, c.audit.offset;
      counts, markets := c.audit.tally.counts, c.audit.tally.markets;
      auditSeenOrder, auditSeen := c.audit.tally.seen, Elements(c.audit.tally.seen);
      durations, sourceAges := c.audit.tally.durations, c.audit.tally.ages;
      executionIdentity, executionOffset := c.execution.identity, c.execution.offset;
      executionInvalid := c.execution.tally.invalid;
      executionSeenOrder, executionSeen := c.execution.tally.seen, Elements(c.execution.tally.seen);
      completed := c.execution.tally.completed;
      this.saved, lastSave := saved, 0.0;
    }

    method ConsumeAudit(row: Row, now: real)
      requires Valid()
      modifies `counts, `markets, `auditSeenOrder, `auditSeen, `durations, `sourceAges
      ensures Valid() && TallyOf(Audit) == TakeAudit(old(TallyOf(Audit)), row, now)
    {
      if Future(row, now) {
        counts := counts.(future := counts.future + 1);
        return;
      }
      if row.eventId != "" && row.eventId in auditSeen {
        counts := counts.(duplicates := counts.duplicates + 1);
        return;
      }
      if row.eventId != "" {
        PushRemembered(auditSeenOrder, auditSeen, row.eventId);
        if |auditSeenOrder| == MAX_SEEN_EVENTS {
          auditSeen := auditSeen - {auditSeenOrder[0]};
        }
        auditSeenOrder := KeepLast(auditSeenOrder + [row.eventId], MAX_SEEN_EVENTS);
        auditSeen := auditSeen + {row.eventId};
      }
      if row.marketId.Some? && row.marketId.value != "" && row.marketId.value !in markets {
        markets := markets + [row.marketId.value];
      }
      counts := Count(counts, row);
      sourceAges := KeepLast(sourceAges + Ages(row), MAX_RECENT_VALUES);
      durations := KeepLast(durations + Durations(row), MAX_RECENT_VALUES);
    }

    method ConsumeExecution(row: Row)
      requires Valid()
      modifies `executionSeenOrder, `executionSeen, `completed
      ensures Valid() && TallyOf(Execution) == TakeExecution(old(TallyOf(Execution)), row)
    {
      if row.eventType != ShadowComplete || row.eventId == "" {
        return;
      }
      if row.eventId in executionSeen {
        return;
      }
      PushRemembered(executionSeenOrder, executionSeen, row.eventId);
      if |executionSeenOrder| == MAX_SEEN_EVENTS {
        executionSeen := executionSeen - {executionSeenOrder[0]};
      }
      executionSeenOrder := KeepLast(executionSeenOrder + [row.eventId], MAX_SEEN_EVENTS);
      executionSeen := executionSeen + {row.eventId};
      completed := KeepLast(completed + [row], MAX_COMPLETED_TRADES);
    }

    /** Neither log's bucket moves while the other is tailed, and nothing is saved. */
    twostate predicate OnlyTallies(log: LogName)
      reads this
    {
      && auditIdentity == old(auditIdentity) && auditOffset == old(auditOffset)
      && executionIdentity == old(executionIdentity) && executionOffset == old(executionOffset)
      && saved == old(saved) && lastSave == old(lastSave)
      && (log == Audit ==> TallyOf(Execution) == old(TallyOf(Execution)))
      && (log == Execution ==> TallyOf(Audit) == old(TallyOf(Audit)))
    }

    method Consume(log: LogName, item: Item<Row>, now: real)
      requires Valid()
      modifies this
      ensures Valid() && TallyOf(log) == Take(old(TallyOf(log)), item, now) && OnlyTallies(log)
    {
      match item {
        case Invalid =>
          if log == Audit {
            counts := counts.(invalid := counts.invalid + 1);
          } else {
            executionInvalid := executionInvalid + 1;
          }
        case Parsed(row) =>
          if log == Audit {
            ConsumeAudit(row, now);
          } else {
            ConsumeExecution(row);
          }
      }
    }

    /** Read lines until nothing is left but an unfinished one that does not parse yet. */
    method ConsumeLines(log: LogName, bytes: string, now: real) returns (used: nat)
      requires Valid()
      modifies this
      ensures Valid() && OnlyTallies(log)
      ensures var pass := Read(parser, bytes);
              used == pass.used && TallyOf(log) == TakeAll(old(TallyOf(log)), pass.items, now)
    {
      ghost var pass := Read(parser, bytes);
      var rest := bytes;
      used := 0;
      while rest != ""
        invariant Valid() && OnlyTallies(log)
        invariant pass.used == used + Read(parser, rest).used
        invariant TakeAll(old(TallyOf(log)), pass.items, now) == TakeAll(TallyOf(log), Read(parser, rest).items, now)
        decreases |rest|
      {
        var end := FindNewline(rest);
        if end == |rest| {
          var row := parser.decode(rest);
          if row.None? {
            break;
          }
          TakeOne(TallyOf(log), Parsed(row.value), now);
          Consume(log, Parsed(row.value), now);
          used, rest := used + |rest|, "";
        } else {
          LineTaken(parser, TallyOf(log), rest, now);
          ConsumeLine(log, rest[..end], now);
          used, rest := used + end + 1, rest[end + 1..];
        }
      }
      assert Read(parser, rest) == Pass([], 0);
    }

    method ConsumeLine(log: LogName, line: string, now: real)
      requires Valid()
      modifies this
      ensures Valid() && OnlyTallies(log)
      ensures TallyOf(log) == TakeAll(old(TallyOf(log)), ItemsOf(parser, line), now)
    {
      if Blank(line) {
        return;
      }
      var row := parser.decode(line);
      var item := if row.None? then Invalid else Parsed(row.value);
      TakeOne(TallyOf(log), item, now);
      Consume(log, item, now);
    }

    /** Tail one log: from where it was left, or from its beginning if it is another file or a
        shorter one. Returns whether anything moved. */
    method ConsumeFile(log: LogName, file: Option<LogFile>, now: real) returns (changed: bool)
      requires Valid()
      modifies this
      ensures Valid() && BucketOf(log) == ReadFile(parser, old(BucketOf(log)), file, now)
      ensures log == Audit ==> BucketOf(Execution) == old(BucketOf(Execution))
      ensures log == Execution ==> BucketOf(Audit) == old(BucketOf(Audit))
      ensures saved == old(saved) && lastSave == old(lastSave)
      ensures changed == Moved(old(BucketOf(log)), BucketOf(log))
    {
      if file.None? {
        return false;
      }
      var identity, bytes := Some(file.value.identity), file.value.bytes;
      var was := BucketOf(log);
      var start := StartOf(was, file.value);
      changed := was.identity != identity || |bytes| < was.offset;
      var used := ConsumeLines(log, bytes[start..], now);
      if used != 0 {
        changed := true;
      }
      MoveTo(log, identity, start + used);
    }

    method MoveTo(log: LogName, identity: Option<string>, offset: nat)
      requires Valid()
      modifies `auditIdentity, `auditOffset, `executionIdentity, `executionOffset
      ensures Valid() && BucketOf(log) == Bucket(identity, offset, old(TallyOf(log)))
      ensures log == Audit ==> BucketOf(Execution) == old(BucketOf(Execution))
      ensures log == Execution ==> BucketOf(Audit) == old(BucketOf(Audit))
    {
      if log == Audit {
        auditIdentity, auditOffset := identity, offset;
      } else {
        executionIdentity, executionOffset := identity, offset;
      }
    }

    /** Write the checkpoint unless this process did so a short while ago. */
    method Save(clock: real)
      requires Valid()
      modifies `saved, `lastSave
      ensures Valid() && Value() == ShadowReport.Save(old(Value()), clock)
    {
      if lastSave != 0.0 && clock - lastSave < CHECKPOINT_SECONDS {
        return;
      }
      saved := Some(Current());
      lastSave := clock;
    }

    method Refresh(audit: Option<LogFile>, execution: Option<LogFile>, now: real, clock: real)
      requires Valid()
      modifies this
      ensures Valid() && Value() == ShadowReport.Refresh(parser, old(Value()), audit, execution, now, clock)
    {
      var changed := ConsumeFile(Audit, audit, now);
      var executionChanged := ConsumeFile(Execution, execution, now);
      if changed || executionChanged {
        Save(clock);
      }
    }
  }

  lemma TakeOne(t: Tally, item: Item<Row>, now: real)
    ensures TakeAll(t, [item], now) == Take(t, item, now)
  {
    assert [item][..0] == [];
  }

  lemma LineTaken(p: Parser<Row>, t: Tally, bytes: string, now: real)
    requires FindNewline(bytes) < |bytes|
    ensures var end := FindNewline(bytes);
            && Read(p, bytes).used == end + 1 + Read(p, bytes[end + 1..]).used
            && TakeAll(t, Read(p, bytes).items, now)
               == TakeAll(TakeAll(t, ItemsOf(p, bytes[..end]), now), Read(p, bytes[end + 1..]).items, now)
  {
    var end := FindNewline(bytes);
    TakeInTwo(t, ItemsOf(p, bytes[..end]), Read(p, bytes[end + 1..]).items, now);
  }
}
