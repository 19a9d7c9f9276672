/** The shadow report two ways: counted as the log grows, with bounded memory and restarts
    from a checkpoint, and counted in one go over the finished log. */
module ShadowReport {
  import opened Queues
  import opened Options
  import opened LogTail

  const MAX_RECENT_VALUES: nat := 20000
  const MAX_SEEN_EVENTS: nat := 50000
  const MAX_COMPLETED_TRADES: nat := 20000
  const CHECKPOINT_SECONDS := 30.0

  datatype EventType = ShadowEval | ShadowOpportunity | ShadowComplete | OtherEvent

  /** The fields a report reads. A missing event id is the empty one. */
  datatype Row = Row(ts: real, eventId: string, marketId: Option<string>, eventType: EventType, fok: bool,
                     accept: bool, reason: string, sourceAgeMs: Option<real>, durationMs: Option<real>, details: string)

  datatype Counts = Counts(evaluations: nat, fokPassed: nat, accepts: nat, accepted: nat, rejected: nat,
                           invalid: nat, future: nat, duplicates: nat, reasons: map<string, nat>)

  const ZERO := Counts(0, 0, 0, 0, 0, 0, 0, 0, map[])

  predicate Future(row: Row, now: real) {
    row.ts > now + 300.0
  }

  /** A row that is neither from the future nor a repetition. */
  function Count(c: Counts, row: Row): Counts {
    match row.eventType
    case ShadowEval =>
      c.(evaluations := c.evaluations + 1,
         fokPassed := c.fokPassed + if row.fok then 1 else 0,
         accepted := c.accepted + if row.accept then 1 else 0,
         rejected := c.rejected + if row.accept then 0 else 1,
         reasons := if row.accept then c.reasons
                    else c.reasons[row.reason := Lookup(c.reasons, row.reason).GetOr(0) + 1])
    case ShadowOpportunity => c.(accepts := c.accepts + 1)
    case _ => c
  }

  function Listed<T>(x: Option<T>): seq<T> {
    if x.Some? then [x.value] else []
  }

  function Ages(row: Row): seq<real> {
    if row.eventType == ShadowEval then Listed(row.sourceAgeMs) else []
  }

  function Durations(row: Row): seq<real> {
    if row.eventType == ShadowOpportunity then Listed(row.durationMs) else []
  }

  // ---- bounded memory ----

  predicate Distinct<T(==)>(xs: seq<T>) {
    forall i, j :: 0 <= i < j < |xs| ==> xs[i] != xs[j]
  }

  function Elements<T>(xs: seq<T>): set<T> {
    set x | x in xs
  }

  /** What one log has contributed so far. */
  datatype Tally =
    | AuditTally(counts: Counts, markets: seq<string>, seen: seq<string>, durations: seq<real>, ages: seq<real>)
    | ExecutionTally(invalid: nat, seen: seq<string>, completed: seq<Row>)

  const NO_AUDIT := AuditTally(ZERO, [], [], [], [])
  const NO_EXECUTION := ExecutionTally(0, [], [])

  function Remember(seen: seq<string>, id: string): seq<string> {
    if id == "" then seen else KeepLast(seen + [id], MAX_SEEN_EVENTS)
  }

  function AddMarket(markets: seq<string>, market: Option<string>): seq<string> {
    if market.Some? && market.value != "" && market.value !in markets then markets + [market.value] else markets
  }

  function TakeAudit(t: Tally, row: Row, now: real): Tally
    requires t.AuditTally?
  {
    if Future(row, now) then t.(counts := t.counts.(future := t.counts.future + 1))
    else if row.eventId != "" && row.eventId in t.seen then
      t.(counts := t.counts.(duplicates := t.counts.duplicates + 1))
    else
      AuditTally(Count(t.counts, row), AddMarket(t.markets, row.marketId), Remember(t.seen, row.eventId),
                 KeepLast(t.durations + Durations(row), MAX_RECENT_VALUES),
                 KeepLast(t.ages + Ages(row), MAX_RECENT_VALUES))
  }

  function TakeExecution(t: Tally, row: Row): Tally
    requires t.ExecutionTally?
  {
    if row.eventType != ShadowComplete || row.eventId == "" || row.eventId in t.seen then t
    else t.(seen := KeepLast(t.seen + [row.eventId], MAX_SEEN_EVENTS),
            completed := KeepLast(t.completed + [row], MAX_COMPLETED_TRADES))
  }

  function Take(t: Tally, item: Item<Row>, now: real): (r: Tally)
    ensures r.AuditTally? == t.AuditTally?
  {
    match t
    case AuditTally(counts, _, _, _, _) =>
      if item.Invalid? then t.(counts := counts.(invalid := counts.invalid + 1)) else TakeAudit(t, item.row, now)
    case ExecutionTally(invalid, _, _) =>
      if item.Invalid? then t.(invalid := invalid + 1) else TakeExecution(t, item.row)
  }

  function TakeAll(t: Tally, items: seq<Item<Row>>, now: real): (r: Tally)
    ensures r.AuditTally? == t.AuditTally?
  {
    if items == [] then t else Take(TakeAll(t, items[..|items| - 1], now), items[|items| - 1], now)
  }

  lemma {:induction false} TakeInTwo(t: Tally, a: seq<Item<Row>>, b: seq<Item<Row>>, now: real)
    ensures TakeAll(t, a + b, now) == TakeAll(TakeAll(t, a, now), b, now)
  {
    if b == [] {
      assert a + b == a;
    } else {
      assert (a + b)[..|a + b| - 1] == a + b[..|b| - 1];
      TakeInTwo(t, a, b[..|b| - 1], now);
    }
  }

  /** No row is from the future by one clock and not by the other. */
  predicate SameFuture(items: seq<Item<Row>>, now: real, later: real) {
    forall i :: 0 <= i < |items| && items[i].Parsed? ==> Future(items[i].row, now) == Future(items[i].row, later)
  }

  /** Only audit rows are held against the clock. */
  predicate Judged(zero: Tally, items: seq<Item<Row>>, now: real, later: real) {
    zero.AuditTally? ==> SameFuture(items, now, later)
  }

  lemma {:induction false} TakeAtAnyTime(t: Tally, items: seq<Item<Row>>, now: real, later: real)
    requires Judged(t, items, now, later)
    ensures TakeAll(t, items, now) == TakeAll(t, items, later)
  {
    if items != [] {
      TakeAtAnyTime(t, items[..|items| - 1], now, later);
    }
  }

  // ---- tailing the logs ----

  /** A log as last seen: which file, how far it has been read, and what it contributed. */
  datatype Bucket = Bucket(identity: Option<string>, offset: nat, tally: Tally)

  datatype LogFile = LogFile(identity: string, bytes: string)

  function Bytes(file: Option<LogFile>): string {
    if file.Some? then file.value.bytes else ""
  }

  /** Another file, or a shorter one, is read from its beginning. */
  function StartOf(b: Bucket, file: LogFile): (start: nat)
    ensures start <= |file.bytes|
  {
    if b.identity != Some(file.identity) || |file.bytes| < b.offset then 0 else b.offset
  }

  function ReadFile(p: Parser<Row>, b: Bucket, file: Option<LogFile>, now: real): Bucket {
    if file.None? then b
    else
      var start := StartOf(b, file.value);
      var pass := Read(p, file.value.bytes[start..]);
      Bucket(Some(file.value.identity), start + pass.used, TakeAll(b.tally, pass.items, now))
  }

  datatype LogName = Audit | Execution

  datatype Checkpoint = Checkpoint(audit: Bucket, execution: Bucket)

  const NEW := Checkpoint(Bucket(None, 0, NO_AUDIT), Bucket(None, 0, NO_EXECUTION))

  datatype Reporter = Reporter(current: Checkpoint, saved: Option<Checkpoint>, lastSave: real)

  function RefreshBuckets(p: Parser<Row>, c: Checkpoint, audit: Option<LogFile>, execution: Option<LogFile>,
                          now: real): Checkpoint {
    Checkpoint(ReadFile(p, c.audit, audit, now), ReadFile(p, c.execution, execution, now))
  }

  /** A pass changes something when it moves to another file or on in the same one. */
  predicate Moved(before: Bucket, after: Bucket) {
    before.identity != after.identity || before.offset != after.offset
  }

  /** Saving is skipped for a while after a save; the clock never reads zero. */
  function Save(r: Reporter, clock: real): Reporter {
    if r.lastSave != 0.0 && clock - r.lastSave < CHECKPOINT_SECONDS then r
    else r.(saved := Some(r.current), lastSave := clock)
  }

  /** Whether a refresh writes the checkpoint. */
  predicate Saves(p: Parser<Row>, r: Reporter, audit: Option<LogFile>, execution: Option<LogFile>, now: real,
                  clock: real)
  {
    var c := RefreshBuckets(p, r.current, audit, execution, now);
    && (Moved(r.current.audit, c.audit) || Moved(r.current.execution, c.execution))
    && (r.lastSave == 0.0 || clock - r.lastSave >= CHECKPOINT_SECONDS)
  }

  function Refresh(p: Parser<Row>, r: Reporter, audit: Option<LogFile>, execution: Option<LogFile>,
                   now: real, clock: real): Reporter {
    var c := RefreshBuckets(p, r.current, audit, execution, now);
    var refreshed := r.(current := c);
    if Moved(r.current.audit, c.audit) || Moved(r.current.execution, c.execution) then Save(refreshed, clock)
    else refreshed
  }

  /** A new process: whatever was not saved is forgotten. */
  function Restart(saved: Option<Checkpoint>): Reporter {
    Reporter(saved.GetOr(NEW), saved, 0.0)
  }

  // ---- every bucket is somewhere in the finished log ----

  /** What has been read so far is `read`, and the rest is still to come. */
  ghost predicate Reads(p: Parser<Row>, log: string, offset: nat, read: seq<Item<Row>>)
    requires offset <= |log|
  {
    Clean(p, log[offset..]) && read + Read(p, log[offset..]).items == Read(p, log).items
  }

  ghost predicate Placed(p: Parser<Row>, log: string, zero: Tally, now: real, identity: string, seen: nat, b: Bucket) {
    && b.offset <= seen <= |log|
    && (if b.identity.None? then b.offset == 0 else b.identity == Some(identity))
    && exists read :: Reads(p, log, b.offset, read) && b.tally == TakeAll(zero, read, now)
  }

  lemma Beginning(p: Parser<Row>, log: string, zero: Tally, now: real, identity: string, seen: nat)
    requires Clean(p, log) && seen <= |log|
    ensures Placed(p, log, zero, now, identity, seen, Bucket(None, 0, zero))
  {
    assert log[0..] == log;
    assert [] + Read(p, log).items == Read(p, log).items;
    assert Reads(p, log, 0, []);
  }

  /** Rows read by a later clock, none of them on the border between the two. */
  lemma TallyMoves(zero: Tally, read: seq<Item<Row>>, items: seq<Item<Row>>, later: seq<Item<Row>>,
                   all: seq<Item<Row>>, now: real, at: real)
    requires read + (items + later) == all && Judged(zero, all, at, now)
    ensures TakeAll(TakeAll(zero, read, now), items, at) == TakeAll(zero, read + items, now)
    ensures (read + items) + later == all
  {
    forall i | 0 <= i < |items|
      ensures all[|read| + i] == items[i]
    {
      assert (read + (items + later))[|read| + i] == items[i];
    }
    TakeInTwo(zero, read, items, now);
    TakeAtAnyTime(TakeAll(zero, read, now), items, at, now);
  }

  lemma Between(log: string, offset: nat, n: nat, used: nat)
    requires offset <= n <= |log| && used <= n - offset
    ensures log[offset..n] + log[n..] == log[offset..]
    ensures log[offset..n][used..] + log[n..] == log[offset + used..]
  {
  }

  /** `pass` read on from `offset`, after `read`. */
  ghost predicate ReadsOn(p: Parser<Row>, log: string, offset: nat, read: seq<Item<Row>>, pass: Pass<Row>) {
    && offset + pass.used <= |log|
    && Reads(p, log, offset + pass.used, read + pass.items)
    && read + (pass.items + Read(p, log[offset + pass.used..]).items) == Read(p, log).items
  }

  lemma Regrouped(read: seq<Item<Row>>, items: seq<Item<Row>>, later: seq<Item<Row>>, all: seq<Item<Row>>)
    requires read + (items + later) == all
    ensures read + items + later == all
  {
  }

  lemma SplitsOn(p: Parser<Row>, log: string, offset: nat, used: nat, read: seq<Item<Row>>, pass: Pass<Row>)
    requires offset + pass.used <= |log| && used == pass.used && Reads(p, log, offset, read)
    requires Splits(p, pass, log[offset + used..], log[offset..])
    ensures ReadsOn(p, log, offset, read, pass)
  {
    Regrouped(read, pass.items, Read(p, log[offset + used..]).items, Read(p, log).items);
  }

  /** A pass over the bytes written so far reads on. */
  lemma PassMoves(p: Parser<Row>, log: string, n: nat, offset: nat, read: seq<Item<Row>>)
    requires p.Sensible() && offset <= n <= |log| && Reads(p, log, offset, read)
    ensures var pass := Read(p, log[offset..n]);
            offset + pass.used <= n && ReadsOn(p, log, offset, read, pass)
  {
    var early, rest := log[offset..n], log[n..];
    var pass := Read(p, early);
    Between(log, offset, n, pass.used);
    ReadInTwo(p, early, rest);
    SplitsOn(p, log, offset, pass.used, read, pass);
  }

  /** What a pass makes of a bucket placed in the file's beginning. */
  function After(b: Bucket, identity: string, pass: Pass<Row>, at: real): Bucket {
    Bucket(Some(identity), b.offset + pass.used, TakeAll(b.tally, pass.items, at))
  }

  lemma ReadFileOn(p: Parser<Row>, log: string, n: nat, identity: string, b: Bucket, at: real)
    requires b.offset <= n <= |log| && (if b.identity.None? then b.offset == 0 else b.identity == Some(identity))
    ensures ReadFile(p, b, Some(LogFile(identity, log[..n])), at) == After(b, identity, Read(p, log[b.offset..n]), at)
  {
    assert log[..n][b.offset..] == log[b.offset..n];
  }

  lemma PlacedAt(p: Parser<Row>, log: string, zero: Tally, now: real, identity: string, seen: nat, b: Bucket,
                 read: seq<Item<Row>>)
    requires b.offset <= seen <= |log| && b.identity == Some(identity)
    requires Reads(p, log, b.offset, read) && b.tally == TakeAll(zero, read, now)
    ensures Placed(p, log, zero, now, identity, seen, b)
  {
  }

  lemma PassPlaces(p: Parser<Row>, log: string, zero: Tally, now: real, at: real, n: nat, identity: string,
                   b: Bucket, pass: Pass<Row>, read: seq<Item<Row>>)
    requires b.offset + pass.used <= n <= |log| && b.tally == TakeAll(zero, read, now)
    requires ReadsOn(p, log, b.offset, read, pass)
    requires Judged(zero, Read(p, log).items, at, now)
    ensures Placed(p, log, zero, now, identity, n, After(b, identity, pass, at))
  {
    TallyMoves(zero, read, pass.items, Read(p, log[b.offset + pass.used..]).items, Read(p, log).items, now, at);
    PlacedAt(p, log, zero, now, identity, n, After(b, identity, pass, at), read + pass.items);
  }

  lemma FilePass(p: Parser<Row>, log: string, zero: Tally, now: real, at: real, n: nat, identity: string, b: Bucket)
    requires p.Sensible() && n <= |log| && Placed(p, log, zero, now, identity, n, b)
    requires Judged(zero, Read(p, log).items, at, now)
    ensures Placed(p, log, zero, now, identity, n, ReadFile(p, b, Some(LogFile(identity, log[..n])), at))
  {
    var read :| Reads(p, log, b.offset, read) && b.tally == TakeAll(zero, read, now);
    ReadFileOn(p, log, n, identity, b, at);
    PassMoves(p, log, n, b.offset, read);
    PassPlaces(p, log, zero, now, at, n, identity, b, Read(p, log[b.offset..n]), read);
  }

  /** A bucket that has read the whole log has counted the whole log. */
  lemma WholeLog(p: Parser<Row>, log: string, zero: Tally, now: real, identity: string, b: Bucket)
    requires p.Sensible() && Placed(p, log, zero, now, identity, |log|, b) && b.offset == |log|
    ensures b.tally == TakeAll(zero, Read(p, log).items, now)
  {
    var read :| Reads(p, log, b.offset, read) && b.tally == TakeAll(zero, read, now);
    assert log[|log|..] == "";
    assert read + [] == read;
  }

  lemma FilePassEnds(p: Parser<Row>, log: string, zero: Tally, now: real, at: real, identity: string, b: Bucket)
    requires p.Sensible() && Placed(p, log, zero, now, identity, |log|, b)
    ensures ReadFile(p, b, Some(LogFile(identity, log)), at).offset == |log|
  {
    var read :| Reads(p, log, b.offset, read) && b.tally == TakeAll(zero, read, now);
    assert StartOf(b, LogFile(identity, log)) == b.offset;
    ReadsToTheEnd(p, log[b.offset..]);
  }
}
