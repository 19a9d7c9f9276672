/** Runs of the incremental report: two logs that grow and are replaced by new files, refreshed at
    any time by a process that saves its checkpoint now and then and is restarted from it. */
module ReportRuns {
  import opened Options
  import opened LogTail
  import opened ShadowReport

  datatype Step =
    | Append(log: LogName, bytes: string)
    | Put(log: LogName, file: LogFile)
    | Refreshed(now: real, clock: real)
    | Restarted

  /** The file that is the log now, and those that were before, oldest first; and whether the report, in
      memory and as last saved, has begun to read the one that is. */
  datatype History = History(past: seq<LogFile>, current: Option<LogFile>, begun: bool, savedBegun: bool)

  datatype World = World(audit: History, execution: History, reporter: Reporter)

  function LogOf(w: World, log: LogName): History {
    if log == Audit then w.audit else w.execution
  }

  function BucketOf(c: Checkpoint, log: LogName): Bucket {
    if log == Audit then c.audit else c.execution
  }

  function ZeroOf(log: LogName): Tally {
    if log == Audit then NO_AUDIT else NO_EXECUTION
  }

  function Grown(h: History, bytes: string): History {
    if h.current.None? then h else h.(current := Some(h.current.value.(bytes := h.current.value.bytes + bytes)))
  }

  function Replaced(h: History, file: LogFile): History {
    History(if h.current.None? then h.past else h.past + [h.current.value], Some(file), false, false)
  }

  /** A refresh begins with the file there is; what it saves has begun too. */
  function Tailed(h: History, saves: bool): History {
    h.(begun := h.current.Some?, savedBegun := if saves then h.current.Some? else h.savedBegun)
  }

  /** A restart is where the checkpoint was. */
  function Resumed(h: History): History {
    h.(begun := h.savedBegun)
  }

  function Logged(w: World, log: LogName, h: History): World {
    if log == Audit then w.(audit := h) else w.(execution := h)
  }

  function Next(p: Parser<Row>, w: World, step: Step): World {
    match step
    case Append(log, bytes) => Logged(w, log, Grown(LogOf(w, log), bytes))
    case Put(log, file) => Logged(w, log, Replaced(LogOf(w, log), file))
    case Refreshed(now, clock) =>
      var saves := Saves(p, w.reporter, w.audit.current, w.execution.current, now, clock);
      World(Tailed(w.audit, saves), Tailed(w.execution, saves),
            Refresh(p, w.reporter, w.audit.current, w.execution.current, now, clock))
    case Restarted => World(Resumed(w.audit), Resumed(w.execution), Restart(w.reporter.saved))
  }

  const NO_LOG := History([], None, false, false)

  function Run(p: Parser<Row>, steps: seq<Step>): World {
    if steps == [] then World(NO_LOG, NO_LOG, Restart(None))
    else Next(p, Run(p, steps[..|steps| - 1]), steps[|steps| - 1])
  }

  // ---- what a bucket has counted ----

  function Flat<T>(parts: seq<seq<T>>): seq<T> {
    if parts == [] then [] else Flat(parts[..|parts| - 1]) + parts[|parts| - 1]
  }

  /** Of each file that was the log, the rows of a beginning, or all of them. */
  ghost predicate Parts(p: Parser<Row>, past: seq<LogFile>, parts: seq<seq<Item<Row>>>, whole: bool) {
    && |parts| == |past|
    && forall i :: 0 <= i < |past| ==>
         parts[i] <= Read(p, past[i].bytes).items && (whole ==> parts[i] == Read(p, past[i].bytes).items)
  }

  ghost predicate Kept(p: Parser<Row>, past: seq<LogFile>, zero: Tally, now: real, whole: bool, t: Tally) {
    exists parts :: Parts(p, past, parts, whole) && t == TakeAll(zero, Flat(parts), now)
  }

  /** A bucket has counted its part of the past files, and what it has read of the log if it has begun with it. */
  ghost predicate Standing(p: Parser<Row>, past: seq<LogFile>, log: LogFile, seen: nat, zero: Tally, now: real,
                           whole: bool, begun: bool, b: Bucket)
  {
    if begun then
      && b.identity == Some(log.identity)
      && exists base :: Kept(p, past, zero, now, whole, base) && Placed(p, log.bytes, base, now, log.identity, seen, b)
    else Kept(p, past, zero, now, whole, b.tally)
  }

  lemma {:induction false} FlatOfNothing<T>(parts: seq<seq<T>>)
    requires forall i :: 0 <= i < |parts| ==> parts[i] == []
    ensures Flat(parts) == []
  {
    if parts != [] {
      FlatOfNothing(parts[..|parts| - 1]);
    }
  }

  /** A new process without a checkpoint has counted nothing. */
  lemma NewStands(p: Parser<Row>, past: seq<LogFile>, log: LogFile, seen: nat, zero: Tally, now: real)
    ensures Standing(p, past, log, seen, zero, now, past == [], false, Bucket(None, 0, zero))
  {
    var parts: seq<seq<Item<Row>>> := seq(|past|, _ => []);
    FlatOfNothing(parts);
    assert Parts(p, past, parts, past == []);
  }

  lemma SeesMore(p: Parser<Row>, past: seq<LogFile>, log: LogFile, seen: nat, more: nat, zero: Tally, now: real,
                 whole: bool, begun: bool, b: Bucket)
    requires Standing(p, past, log, seen, zero, now, whole, begun, b) && seen <= more <= |log.bytes|
    ensures Standing(p, past, log, more, zero, now, whole, begun, b)
  {
  }

  lemma PartlyKept(p: Parser<Row>, past: seq<LogFile>, zero: Tally, now: real, whole: bool, t: Tally)
    requires Kept(p, past, zero, now, whole, t)
    ensures Kept(p, past, zero, now, false, t)
  {
    var parts :| Parts(p, past, parts, whole) && t == TakeAll(zero, Flat(parts), now);
    assert Parts(p, past, parts, false);
  }

  lemma PartlyStands(p: Parser<Row>, past: seq<LogFile>, log: LogFile, seen: nat, zero: Tally, now: real, whole: bool,
                     begun: bool, b: Bucket)
    requires Standing(p, past, log, seen, zero, now, whole, begun, b)
    ensures Standing(p, past, log, seen, zero, now, false, begun, b)
  {
    if begun {
      var base :| Kept(p, past, zero, now, whole, base) && Placed(p, log.bytes, base, now, log.identity, seen, b);
      PartlyKept(p, past, zero, now, whole, base);
    } else {
      PartlyKept(p, past, zero, now, whole, b.tally);
    }
  }

  lemma PartsGrow(p: Parser<Row>, past: seq<LogFile>, was: LogFile, whole: bool, parts: seq<seq<Item<Row>>>,
                  read: seq<Item<Row>>)
    requires Parts(p, past, parts, whole) && read <= Read(p, was.bytes).items
    requires whole ==> read == Read(p, was.bytes).items
    ensures Parts(p, past + [was], parts + [read], whole) && Flat(parts + [read]) == Flat(parts) + read
  {
    var all, more := past + [was], parts + [read];
    assert more[..|parts|] == parts;
    forall i | 0 <= i < |all|
      ensures more[i] <= Read(p, all[i].bytes).items && (whole ==> more[i] == Read(p, all[i].bytes).items)
    {
      if i < |past| {
        assert all[i] == past[i] && more[i] == parts[i];
      }
    }
  }

  /** What was the log joins the past, with the rows counted of it. */
  lemma KeepsOneMore(p: Parser<Row>, past: seq<LogFile>, was: LogFile, zero: Tally, now: real, whole: bool,
                     base: Tally, read: seq<Item<Row>>)
    requires Kept(p, past, zero, now, whole, base) && read <= Read(p, was.bytes).items
    requires whole ==> read == Read(p, was.bytes).items
    ensures Kept(p, past + [was], zero, now, whole, TakeAll(base, read, now))
  {
    var parts :| Parts(p, past, parts, whole) && base == TakeAll(zero, Flat(parts), now);
    PartsGrow(p, past, was, whole, parts, read);
    TakeInTwo(zero, Flat(parts), read, now);
  }

  /** A bucket that has begun with the file that was the log. */
  lemma LeavesItsFile(p: Parser<Row>, past: seq<LogFile>, was: LogFile, zero: Tally, now: real, whole: bool, b: Bucket,
                      base: Tally)
    requires p.Sensible() && Kept(p, past, zero, now, whole, base)
    requires Placed(p, was.bytes, base, now, was.identity, |was.bytes|, b) && (whole ==> b.offset == |was.bytes|)
    ensures Kept(p, past + [was], zero, now, whole, b.tally)
  {
    if whole {
      WholeLog(p, was.bytes, base, now, was.identity, b);
      KeepsOneMore(p, past, was, zero, now, whole, base, Read(p, was.bytes).items);
    } else {
      var read :| Reads(p, was.bytes, b.offset, read) && b.tally == TakeAll(base, read, now);
      KeepsOneMore(p, past, was, zero, now, whole, base, read);
    }
  }

  /** Another file becomes the log, with which no bucket has begun. */
  lemma StandsReplaced(p: Parser<Row>, past: seq<LogFile>, was: LogFile, log: LogFile, seen: nat, zero: Tally,
                       now: real, whole: bool, begun: bool, b: Bucket)
    requires p.Sensible() && Standing(p, past, was, |was.bytes|, zero, now, whole, begun, b)
    requires whole ==> begun && b.offset == |was.bytes|
    ensures Standing(p, past + [was], log, seen, zero, now, whole, false, b)
  {
    if begun {
      var base :| Kept(p, past, zero, now, whole, base)
                  && Placed(p, was.bytes, base, now, was.identity, |was.bytes|, b);
      LeavesItsFile(p, past, was, zero, now, whole, b, base);
    } else {
      KeepsOneMore(p, past, was, zero, now, whole, b.tally, []);
    }
  }

  /** A file seen to be another, by its identity or its size, is read as by a bucket that has not begun. */
  lemma StartsOver(p: Parser<Row>, b: Bucket, file: LogFile, at: real)
    requires StartOf(b, file) == 0
    ensures ReadFile(p, b, Some(file), at) == ReadFile(p, Bucket(None, 0, b.tally), Some(file), at)
  {
  }

  lemma StandingReads(p: Parser<Row>, past: seq<LogFile>, log: LogFile, n: nat, zero: Tally, now: real, at: real,
                      whole: bool, begun: bool, b: Bucket)
    requires p.Sensible() && n <= |log.bytes| && Clean(p, log.bytes)
    requires Standing(p, past, log, n, zero, now, whole, begun, b) && Judged(zero, Read(p, log.bytes).items, at, now)
    requires begun || StartOf(b, LogFile(log.identity, log.bytes[..n])) == 0
    ensures var r := ReadFile(p, b, Some(LogFile(log.identity, log.bytes[..n])), at);
            && r.identity == Some(log.identity) && Standing(p, past, log, n, zero, now, whole, true, r)
            && (n == |log.bytes| ==> r.offset == n)
  {
    if begun {
      var base :| Kept(p, past, zero, now, whole, base) && Placed(p, log.bytes, base, now, log.identity, n, b);
      BegunReads(p, log, n, base, now, at, b);
    } else {
      StartsOver(p, b, LogFile(log.identity, log.bytes[..n]), at);
      Beginning(p, log.bytes, b.tally, now, log.identity, n);
      BegunReads(p, log, n, b.tally, now, at, Bucket(None, 0, b.tally));
    }
  }

  lemma BegunReads(p: Parser<Row>, log: LogFile, n: nat, base: Tally, now: real, at: real, b: Bucket)
    requires p.Sensible() && n <= |log.bytes| && Placed(p, log.bytes, base, now, log.identity, n, b)
    requires Judged(base, Read(p, log.bytes).items, at, now)
    ensures var r := ReadFile(p, b, Some(LogFile(log.identity, log.bytes[..n])), at);
            && r.identity == Some(log.identity) && Placed(p, log.bytes, base, now, log.identity, n, r)
            && (n == |log.bytes| ==> r.offset == n)
  {
    FilePass(p, log.bytes, base, now, at, n, log.identity, b);
    if n == |log.bytes| {
      assert log.bytes[..n] == log.bytes;
      FilePassEnds(p, log.bytes, base, now, at, log.identity, b);
    }
  }

  // ---- whole runs, one log at a time ----

  /** So far the log holds a beginning of the file it will be. */
  ghost predicate FileOk(log: LogFile, file: Option<LogFile>) {
    file.Some? ==> file.value.identity == log.identity && file.value.bytes <= log.bytes
  }

  ghost predicate LogOk(p: Parser<Row>, name: LogName, log: LogFile, now: real, whole: bool, w: World) {
    var h := LogOf(w, name);
    && FileOk(log, h.current)
    && Standing(p, h.past, log, |Bytes(h.current)|, ZeroOf(name), now, whole, h.begun,
                BucketOf(w.reporter.current, name))
    && (if w.reporter.saved.None? then !h.savedBegun
        else Standing(p, h.past, log, |Bytes(h.current)|, ZeroOf(name), now, false, h.savedBegun,
                      BucketOf(w.reporter.saved.value, name)))
  }

  /** Files of lines that are finished and prefix-free. */
  ghost predicate Finished(p: Parser<Row>, files: seq<LogFile>) {
    forall i :: 0 <= i < |files| ==> Clean(p, files[i].bytes)
  }

  /** Whether a refresh after `steps` reads on in the file it has begun with, or from the beginning of one it
      sees to be another, by its identity or its size. */
  ghost predicate Notices(p: Parser<Row>, name: LogName, steps: seq<Step>) {
    var w := Run(p, steps);
    var h := LogOf(w, name);
    h.current.None? || h.begun || StartOf(BucketOf(w.reporter.current, name), h.current.value) == 0
  }

  /** Every refresh of the run notices when the log has been replaced. */
  ghost predicate Noticed(p: Parser<Row>, name: LogName, steps: seq<Step>) {
    forall i :: 0 <= i < |steps| && steps[i].Refreshed? ==> Notices(p, name, steps[..i])
  }

  /** The refreshes of a run all judge the audit rows as `now` does. */
  ghost predicate ClocksAgree(p: Parser<Row>, name: LogName, files: seq<LogFile>, steps: seq<Step>, now: real) {
    name == Audit ==>
      forall i, k :: 0 <= i < |steps| && steps[i].Refreshed? && 0 <= k < |files| ==>
                       SameFuture(Read(p, files[k].bytes).items, steps[i].now, now)
  }

  /** The process runs on, and a refresh comes just before each replacement of a log. */
  ghost predicate ReadBeforeReplaced(name: LogName, steps: seq<Step>) {
    && (forall i :: 0 <= i < |steps| ==> !steps[i].Restarted?)
    && forall i, k :: 0 <= i < k < |steps| && k == i + 1 && steps[k].Put? && steps[k].log == name ==>
         steps[i].Refreshed?
  }

  lemma StillBegins(log: LogFile, before: Option<LogFile>, after: Option<LogFile>)
    requires FileOk(log, after) && (before.Some? ==> after.Some?)
    requires before.Some? && after.Some? ==>
               before.value.identity == after.value.identity && before.value.bytes <= after.value.bytes
    ensures FileOk(log, before)
  {
  }

  /** The log has got longer, or there is one at all, and nothing has been read since. */
  lemma GrownOk(p: Parser<Row>, name: LogName, log: LogFile, now: real, whole: bool, w: World, next: World)
    requires LogOk(p, name, log, now, whole, w) && FileOk(log, LogOf(next, name).current)
    requires next.reporter == w.reporter
    requires LogOf(next, name) == LogOf(w, name).(current := LogOf(next, name).current)
    requires |Bytes(LogOf(w, name).current)| <= |Bytes(LogOf(next, name).current)|
    ensures LogOk(p, name, log, now, whole, next)
  {
    var h, more := LogOf(w, name), |Bytes(LogOf(next, name).current)|;
    var seen := |Bytes(h.current)|;
    SeesMore(p, h.past, log, seen, more, ZeroOf(name), now, whole, h.begun, BucketOf(w.reporter.current, name));
    if w.reporter.saved.Some? {
      SeesMore(p, h.past, log, seen, more, ZeroOf(name), now, false, h.savedBegun,
               BucketOf(w.reporter.saved.value, name));
    }
  }

  lemma RefreshShape(p: Parser<Row>, w: World, name: LogName, at: real, clock: real)
    ensures var next := Next(p, w, Refreshed(at, clock));
            var saves := Saves(p, w.reporter, w.audit.current, w.execution.current, at, clock);
            && LogOf(next, name) == Tailed(LogOf(w, name), saves)
            && BucketOf(next.reporter.current, name)
               == ReadFile(p, BucketOf(w.reporter.current, name), LogOf(w, name).current, at)
            && next.reporter.saved == if saves then Some(next.reporter.current) else w.reporter.saved
  {
  }

  lemma RefreshOk(p: Parser<Row>, name: LogName, log: LogFile, now: real, whole: bool, w: World, at: real, clock: real)
    requires p.Sensible() && Clean(p, log.bytes) && LogOk(p, name, log, now, whole, w)
    requires name == Audit ==> SameFuture(Read(p, log.bytes).items, at, now)
    requires var h := LogOf(w, name);
             h.current.None? || h.begun || StartOf(BucketOf(w.reporter.current, name), h.current.value) == 0
    requires LogOf(w, name).current.None? ==> !LogOf(w, name).begun
    ensures LogOk(p, name, log, now, whole, Next(p, w, Refreshed(at, clock)))
  {
    var next, h, b := Next(p, w, Refreshed(at, clock)), LogOf(w, name), BucketOf(w.reporter.current, name);
    RefreshShape(p, w, name, at, clock);
    if h.current.Some? {
      assert h.current.value == LogFile(log.identity, log.bytes[..|Bytes(h.current)|]);
      StandingReads(p, h.past, log, |Bytes(h.current)|, ZeroOf(name), now, at, whole, h.begun, b);
    }
    PartlyStands(p, h.past, log, |Bytes(h.current)|, ZeroOf(name), now, whole, h.current.Some?,
                 BucketOf(next.reporter.current, name));
  }

  lemma RestartOk(p: Parser<Row>, name: LogName, log: LogFile, now: real, w: World)
    requires LogOk(p, name, log, now, false, w)
    ensures LogOk(p, name, log, now, false, Next(p, w, Restarted))
  {
    var h, zero := LogOf(w, name), ZeroOf(name);
    NewStands(p, h.past, log, |Bytes(h.current)|, zero, now);
    PartlyStands(p, h.past, log, |Bytes(h.current)|, zero, now, h.past == [], false, Bucket(None, 0, zero));
  }

  /** Any step but one that replaces the log. */
  lemma StepOk(p: Parser<Row>, name: LogName, log: LogFile, now: real, whole: bool, w: World, step: Step)
    requires p.Sensible() && Clean(p, log.bytes) && LogOk(p, name, log, now, whole, w)
    requires FileOk(log, LogOf(Next(p, w, step), name).current)
    requires LogOf(w, name).current.None? ==> LogOf(w, name) == NO_LOG
    requires step.Put? && step.log == name ==> LogOf(w, name).current.None?
    requires step.Refreshed? && name == Audit ==> SameFuture(Read(p, log.bytes).items, step.now, now)
    requires step.Refreshed? ==>
               var h := LogOf(w, name);
               h.current.None? || h.begun || StartOf(BucketOf(w.reporter.current, name), h.current.value) == 0
    requires whole ==> !step.Restarted?
    ensures LogOk(p, name, log, now, whole, Next(p, w, step))
  {
    match step
    case Append(_, _) => GrownOk(p, name, log, now, whole, w, Next(p, w, step));
    case Put(_, _) => GrownOk(p, name, log, now, whole, w, Next(p, w, step));
    case Refreshed(at, clock) => RefreshOk(p, name, log, now, whole, w, at, clock);
    case Restarted => RestartOk(p, name, log, now, w);
  }

  predicate HasRead(file: LogFile, b: Bucket) {
    b.identity == Some(file.identity) && b.offset == |file.bytes|
  }

  /** A new file takes the place of the log. */
  lemma PutOk(p: Parser<Row>, name: LogName, was: LogFile, log: LogFile, now: real, whole: bool, w: World,
              file: LogFile)
    requires p.Sensible() && LogOf(w, name).current == Some(was) && LogOk(p, name, was, now, whole, w)
    requires FileOk(log, Some(file))
    requires whole ==> LogOf(w, name).begun && HasRead(was, BucketOf(w.reporter.current, name))
    ensures LogOk(p, name, log, now, whole, Next(p, w, Put(name, file)))
  {
    var h, seen, zero := LogOf(w, name), |file.bytes|, ZeroOf(name);
    StandsReplaced(p, h.past, was, log, seen, zero, now, whole, h.begun, BucketOf(w.reporter.current, name));
    if w.reporter.saved.Some? {
      StandsReplaced(p, h.past, was, log, seen, zero, now, false, h.savedBegun,
                     BucketOf(w.reporter.saved.value, name));
    }
  }

  /** The log is becoming `log`, and it and all files before it are finished ones. */
  ghost predicate Given(p: Parser<Row>, name: LogName, log: LogFile, now: real, steps: seq<Step>) {
    var h := LogOf(Run(p, steps), name);
    FileOk(log, h.current) && Finished(p, h.past + [log]) && ClocksAgree(p, name, h.past + [log], steps, now)
  }

  /** Fewer files and fewer steps. */
  lemma StillFinished(p: Parser<Row>, name: LogName, past: seq<LogFile>, log: LogFile, steps: seq<Step>, now: real)
    requires steps != [] && Finished(p, past + [log]) && ClocksAgree(p, name, past + [log], steps, now)
    ensures Finished(p, past) && ClocksAgree(p, name, past, steps[..|steps| - 1], now)
    ensures ClocksAgree(p, name, past + [log], steps[..|steps| - 1], now) && Clean(p, log.bytes)
    ensures steps[|steps| - 1].Refreshed? && name == Audit ==>
              SameFuture(Read(p, log.bytes).items, steps[|steps| - 1].now, now)
  {
    var files := past + [log];
    assert files[|past|] == log;
    assert forall k :: 0 <= k < |past| ==> files[k] == past[k];
  }

  /** What the log was becoming before the last step. */
  function Becoming(p: Parser<Row>, name: LogName, log: LogFile, steps: seq<Step>): LogFile
    requires steps != []
  {
    var h, step := LogOf(Run(p, steps[..|steps| - 1]), name), steps[|steps| - 1];
    if step.Put? && step.log == name && h.current.Some? then h.current.value else log
  }

  lemma GivenBefore(p: Parser<Row>, name: LogName, log: LogFile, now: real, steps: seq<Step>)
    requires steps != [] && Given(p, name, log, now, steps)
    ensures Given(p, name, Becoming(p, name, log, steps), now, steps[..|steps| - 1]) && Clean(p, log.bytes)
    ensures steps[|steps| - 1].Refreshed? && name == Audit ==>
              SameFuture(Read(p, log.bytes).items, steps[|steps| - 1].now, now)
  {
    var w, h := Run(p, steps[..|steps| - 1]), LogOf(Run(p, steps), name);
    var step := steps[|steps| - 1];
    StillFinished(p, name, h.past, log, steps, now);
    if step.Refreshed? {
      RefreshShape(p, w, name, step.now, step.clock);
    }
    if !(step.Put? && step.log == name && LogOf(w, name).current.Some?) {
      StillBegins(log, LogOf(w, name).current, h.current);
    }
  }

  lemma StillNoticed(p: Parser<Row>, name: LogName, steps: seq<Step>)
    requires steps != [] && Noticed(p, name, steps)
    ensures Noticed(p, name, steps[..|steps| - 1])
    ensures steps[|steps| - 1].Refreshed? ==> Notices(p, name, steps[..|steps| - 1])
  {
    var before := steps[..|steps| - 1];
    forall i | 0 <= i < |before| && before[i].Refreshed?
      ensures Notices(p, name, before[..i])
    {
      assert before[..i] == steps[..i];
    }
  }

  lemma {:induction false} RunOk(p: Parser<Row>, name: LogName, log: LogFile, now: real, whole: bool, steps: seq<Step>)
    requires p.Sensible() && Given(p, name, log, now, steps) && Noticed(p, name, steps)
    requires whole ==> ReadBeforeReplaced(name, steps)
    ensures LogOk(p, name, log, now, whole, Run(p, steps))
    decreases |steps|
  {
    if steps == [] {
      StartOk(p, name, log, now, whole);
    } else {
      var before, step := steps[..|steps| - 1], steps[|steps| - 1];
      var w, was := Run(p, before), Becoming(p, name, log, steps);
      GivenBefore(p, name, log, now, steps);
      StillNoticed(p, name, steps);
      RunOk(p, name, was, now, whole, before);
      if step.Put? && step.log == name && LogOf(w, name).current.Some? {
        if whole {
          JustRead(p, name, was, now, before);
        }
        PutOk(p, name, was, log, now, whole, w, step.file);
      } else {
        StepsOn(p, name, log, now, whole, before, step);
      }
    }
  }

  lemma StepsOn(p: Parser<Row>, name: LogName, log: LogFile, now: real, whole: bool, before: seq<Step>, step: Step)
    requires p.Sensible() && Clean(p, log.bytes) && LogOk(p, name, log, now, whole, Run(p, before))
    requires FileOk(log, LogOf(Next(p, Run(p, before), step), name).current)
    requires step.Put? && step.log == name ==> LogOf(Run(p, before), name).current.None?
    requires step.Refreshed? && name == Audit ==> SameFuture(Read(p, log.bytes).items, step.now, now)
    requires step.Refreshed? ==> Notices(p, name, before)
    requires whole ==> !step.Restarted?
    ensures LogOk(p, name, log, now, whole, Next(p, Run(p, before), step))
  {
    if LogOf(Run(p, before), name).current.None? {
      WithoutAFile(p, name, before);
    }
    StepOk(p, name, log, now, whole, Run(p, before), step);
  }

  lemma StartOk(p: Parser<Row>, name: LogName, log: LogFile, now: real, whole: bool)
    ensures LogOk(p, name, log, now, whole, Run(p, []))
  {
    NewStands(p, [], log, 0, ZeroOf(name), now);
    if !whole {
      PartlyStands(p, [], log, 0, ZeroOf(name), now, true, false, Bucket(None, 0, ZeroOf(name)));
    }
  }

  /** A run that ends with a refresh has read the log to its end. */
  lemma {:induction false} JustRead(p: Parser<Row>, name: LogName, log: LogFile, now: real, steps: seq<Step>)
    requires p.Sensible() && LogOf(Run(p, steps), name).current == Some(log) && Noticed(p, name, steps)
    requires steps != [] && steps[|steps| - 1].Refreshed? && Given(p, name, log, now, steps)
    ensures LogOf(Run(p, steps), name).begun && HasRead(log, BucketOf(Run(p, steps).reporter.current, name))
    decreases |steps|
  {
    var before, step := steps[..|steps| - 1], steps[|steps| - 1];
    var w := Run(p, before);
    var h := LogOf(w, name);
    RefreshShape(p, w, name, step.now, step.clock);
    GivenBefore(p, name, log, now, steps);
    StillNoticed(p, name, steps);
    RunOk(p, name, log, now, false, before);
    assert log.bytes[..|log.bytes|] == log.bytes;
    StandingReads(p, h.past, log, |log.bytes|, ZeroOf(name), now, step.now, false, h.begun,
                  BucketOf(w.reporter.current, name));
  }

  function Files(h: History): seq<LogFile> {
    h.past + if h.current.Some? then [h.current.value] else []
  }

  /** A part of each file that was the log, and all of the one that is, each row once and in order. */
  ghost predicate Counted(p: Parser<Row>, h: History, zero: Tally, now: real, whole: bool, t: Tally) {
    exists parts ::
      Parts(p, h.past, parts, whole) && t == TakeAll(zero, Flat(parts) + Read(p, Bytes(h.current)).items, now)
  }

  lemma {:induction false} WithoutAFile(p: Parser<Row>, name: LogName, steps: seq<Step>)
    requires LogOf(Run(p, steps), name).current.None?
    ensures var w := Run(p, steps);
            && LogOf(w, name) == NO_LOG && BucketOf(w.reporter.current, name).tally == ZeroOf(name)
            && (w.reporter.saved.Some? ==> BucketOf(w.reporter.saved.value, name).tally == ZeroOf(name))
  {
    if steps != [] {
      var before, step := steps[..|steps| - 1], steps[|steps| - 1];
      WithoutAFile(p, name, before);
      if step.Refreshed? {
        RefreshShape(p, Run(p, before), name, step.now, step.clock);
      }
    }
  }

  /** After the last refresh: the parts kept of the past, then all of the log. */
  lemma CountsTheLog(p: Parser<Row>, h: History, log: LogFile, zero: Tally, now: real, whole: bool, b: Bucket)
    requires p.Sensible() && h.current == Some(log) && HasRead(log, b)
    requires Standing(p, h.past, log, |log.bytes|, zero, now, whole, true, b)
    ensures Counted(p, h, zero, now, whole, b.tally)
  {
    var base :| Kept(p, h.past, zero, now, whole, base)
                && Placed(p, log.bytes, base, now, log.identity, |log.bytes|, b);
    var parts :| Parts(p, h.past, parts, whole) && base == TakeAll(zero, Flat(parts), now);
    WholeLog(p, log.bytes, base, now, log.identity, b);
    TakeInTwo(zero, Flat(parts), Read(p, log.bytes).items, now);
  }

  function BytesOf(w: World, log: LogName): string {
    Bytes(LogOf(w, log).current)
  }

  /** However a log was written and replaced, tailed and the process restarted: if every refresh notices a
      replacement, after one more the report has counted the rows of the log and, of each file that was the log
      before, those of a beginning, each once and in order; of all of them, if every replacement was refreshed
      just before and the process never restarted. */
  lemma AnyScheduleCountsTheLogs(p: Parser<Row>, name: LogName, steps: seq<Step>, now: real, clock: real)
    requires p.Sensible() && Finished(p, Files(LogOf(Run(p, steps), name)))
    requires Noticed(p, name, steps + [Refreshed(now, clock)])
    requires ClocksAgree(p, name, Files(LogOf(Run(p, steps), name)), steps, now)
    ensures var w := Run(p, steps + [Refreshed(now, clock)]);
            Counted(p, LogOf(w, name), ZeroOf(name), now, ReadBeforeReplaced(name, steps),
                    BucketOf(w.reporter.current, name).tally)
  {
    var w, all := Run(p, steps), steps + [Refreshed(now, clock)];
    var h, whole, b := LogOf(w, name), ReadBeforeReplaced(name, steps), BucketOf(w.reporter.current, name);
    assert all[..|steps|] == steps;
    RefreshShape(p, w, name, now, clock);
    StillNoticed(p, name, all);
    if h.current.Some? {
      var log := h.current.value;
      RunOk(p, name, log, now, whole, steps);
      assert (h.past + [log])[|h.past|] == log && log.bytes[..|log.bytes|] == log.bytes;
      StandingReads(p, h.past, log, |log.bytes|, ZeroOf(name), now, now, whole, h.begun, b);
      CountsTheLog(p, LogOf(Run(p, all), name), log, ZeroOf(name), now, whole, ReadFile(p, b, Some(log), now));
    } else {
      WithoutAFile(p, name, steps);
      assert Parts(p, [], [], whole) && Flat<Item<Row>>([]) + [] == [];
    }
  }

  // ---- which replacements are noticed ----

  lemma FilesGrow(p: Parser<Row>, name: LogName, steps: seq<Step>)
    requires steps != []
    ensures var before, after := Files(LogOf(Run(p, steps[..|steps| - 1]), name)), Files(LogOf(Run(p, steps), name));
            && |before| <= |after|
            && forall k :: 0 <= k < |before| ==> before[k].identity == after[k].identity
  {
    var w, step := Run(p, steps[..|steps| - 1]), steps[|steps| - 1];
    if step.Refreshed? {
      RefreshShape(p, w, name, step.now, step.clock);
    }
  }

  /** The file a bucket has read from is the log, if it has begun with it, or was the log before. */
  ghost predicate Known(h: History, begun: bool, b: Bucket) {
    if begun then h.current.Some? && b.identity == Some(h.current.value.identity)
    else b.identity.Some? ==> exists i :: 0 <= i < |h.past| && h.past[i].identity == b.identity.value
  }

  ghost predicate AllKnown(w: World, name: LogName) {
    var h := LogOf(w, name);
    && Known(h, h.begun, BucketOf(w.reporter.current, name))
    && (if w.reporter.saved.None? then !h.savedBegun
        else Known(h, h.savedBegun, BucketOf(w.reporter.saved.value, name)))
  }

  lemma KnownStill(h: History, begun: bool, b: Bucket, file: LogFile)
    requires Known(h, begun, b)
    ensures Known(Replaced(h, file), false, b)
  {
    var past := Replaced(h, file).past;
    if begun {
      assert past[|h.past|] == h.current.value;
    } else if b.identity.Some? {
      var i :| 0 <= i < |h.past| && h.past[i].identity == b.identity.value;
      assert past[i] == h.past[i];
    }
  }

  lemma {:induction false} BucketsAreKnown(p: Parser<Row>, name: LogName, steps: seq<Step>)
    ensures AllKnown(Run(p, steps), name)
  {
    if steps != [] {
      var before, step := steps[..|steps| - 1], steps[|steps| - 1];
      var w := Run(p, before);
      var h := LogOf(w, name);
      BucketsAreKnown(p, name, before);
      if step.Refreshed? {
        RefreshShape(p, w, name, step.now, step.clock);
      } else if step.Put? && step.log == name {
        KnownStill(h, h.begun, BucketOf(w.reporter.current, name), step.file);
        if w.reporter.saved.Some? {
          KnownStill(h, h.savedBegun, BucketOf(w.reporter.saved.value, name), step.file);
        }
      }
    }
  }

  predicate NewIdentities(files: seq<LogFile>) {
    forall i, j :: 0 <= i < j < |files| ==> files[i].identity != files[j].identity
  }

  lemma LastNoticed(p: Parser<Row>, name: LogName, steps: seq<Step>)
    requires steps != [] && Noticed(p, name, steps[..|steps| - 1])
    requires steps[|steps| - 1].Refreshed? ==> Notices(p, name, steps[..|steps| - 1])
    ensures Noticed(p, name, steps)
  {
    var before := steps[..|steps| - 1];
    forall i | 0 <= i < |steps| && steps[i].Refreshed?
      ensures Notices(p, name, steps[..i])
    {
      if i < |before| {
        assert before[i] == steps[i] && before[..i] == steps[..i];
      }
    }
  }

  lemma NewIsNoticed(h: History, b: Bucket)
    requires h.current.Some? && Known(h, false, b) && NewIdentities(Files(h))
    ensures StartOf(b, h.current.value) == 0
  {
    assert Files(h)[|h.past|] == h.current.value;
    assert forall i :: 0 <= i < |h.past| ==> Files(h)[i] == h.past[i];
  }

  /** Whatever the schedule, files of identities never used before are noticed. */
  lemma {:induction false} NewIdentitiesAreNoticed(p: Parser<Row>, name: LogName, steps: seq<Step>)
    requires NewIdentities(Files(LogOf(Run(p, steps), name)))
    ensures Noticed(p, name, steps)
  {
    if steps != [] {
      var before := steps[..|steps| - 1];
      var h := LogOf(Run(p, before), name);
      FilesGrow(p, name, steps);
      NewIdentitiesAreNoticed(p, name, before);
      BucketsAreKnown(p, name, before);
      if h.current.Some? && !h.begun {
        NewIsNoticed(h, BucketOf(Run(p, before).reporter.current, name));
      }
      LastNoticed(p, name, steps);
    }
  }

  /** Each file is another than the one before, or a shorter one. */
  ghost predicate OthersOrShorter(files: seq<LogFile>) {
    forall i, k :: 0 <= i < k < |files| && k == i + 1 ==>
      files[k].identity != files[i].identity || |files[k].bytes| < |files[i].bytes|
  }

  /** Before the report begins with a file it has read the one before to its end. */
  ghost predicate UpToDate(h: History, b: Bucket) {
    h.begun || (if h.past == [] then b.identity.None? else HasRead(h.past[|h.past| - 1], b))
  }

  lemma OtherOrShorterNoticed(h: History, b: Bucket)
    requires UpToDate(h, b) && !h.begun && h.current.Some? && OthersOrShorter(Files(h))
    ensures StartOf(b, h.current.value) == 0
  {
    if h.past != [] {
      var k := |h.past|;
      assert Files(h)[k] == h.current.value && Files(h)[k - 1] == h.past[k - 1];
    }
  }

  /** One more step of a run that reads a file before it is replaced. */
  lemma StaysUpToDate(p: Parser<Row>, name: LogName, w: World, step: Step)
    requires UpToDate(LogOf(w, name), BucketOf(w.reporter.current, name)) && !step.Restarted?
    requires var h := LogOf(w, name);
             step.Put? && step.log == name && h.current.Some? ==>
               h.begun && HasRead(h.current.value, BucketOf(w.reporter.current, name))
    requires LogOf(w, name).current.None? ==> LogOf(w, name) == NO_LOG
    ensures UpToDate(LogOf(Next(p, w, step), name), BucketOf(Next(p, w, step).reporter.current, name))
  {
    if step.Refreshed? {
      RefreshShape(p, w, name, step.now, step.clock);
    }
  }

  lemma ShorterStill(past: seq<LogFile>, log: LogFile, file: LogFile)
    requires OthersOrShorter(past + [log]) && FileOk(log, Some(file))
    ensures OthersOrShorter(past) && OthersOrShorter(past + [file])
  {
    var files := past + [log];
    forall i, k | 0 <= i < k < |past + [file]| && k == i + 1
      ensures var f, g := (past + [file])[k], (past + [file])[i];
              f.identity != g.identity || |f.bytes| < |g.bytes|
    {
      assert files[k].identity != files[i].identity || |files[k].bytes| < |files[i].bytes|;
    }
    forall i, k | 0 <= i < k < |past| && k == i + 1
      ensures past[k].identity != past[i].identity || |past[k].bytes| < |past[i].bytes|
    {
      assert files[k] == past[k] && files[i] == past[i];
    }
  }

  lemma ShorterBefore(p: Parser<Row>, name: LogName, log: LogFile, steps: seq<Step>)
    requires steps != [] && OthersOrShorter(LogOf(Run(p, steps), name).past + [log])
    ensures OthersOrShorter(LogOf(Run(p, steps[..|steps| - 1]), name).past + [Becoming(p, name, log, steps)])
  {
    var w, step := Run(p, steps[..|steps| - 1]), steps[|steps| - 1];
    ShorterStill(LogOf(Run(p, steps), name).past, log, log);
    if step.Refreshed? {
      RefreshShape(p, w, name, step.now, step.clock);
    }
  }

  /** The report is up to date with the files before the log, and about to read the log or another shorter file. */
  ghost predicate InOrder(p: Parser<Row>, name: LogName, log: LogFile, steps: seq<Step>) {
    var w := Run(p, steps);
    && Noticed(p, name, steps) && UpToDate(LogOf(w, name), BucketOf(w.reporter.current, name))
    && FileOk(log, LogOf(w, name).current) && OthersOrShorter(LogOf(w, name).past + [log])
  }

  lemma ReadBefore(name: LogName, steps: seq<Step>)
    requires steps != [] && ReadBeforeReplaced(name, steps)
    ensures ReadBeforeReplaced(name, steps[..|steps| - 1]) && !steps[|steps| - 1].Restarted?
    ensures steps[|steps| - 1].Put? && steps[|steps| - 1].log == name ==>
              |steps| == 1 || steps[|steps| - 2].Refreshed?
  {
    var before := steps[..|steps| - 1];
    assert forall i :: 0 <= i < |before| ==> before[i] == steps[i];
  }

  lemma OrderBefore(p: Parser<Row>, name: LogName, log: LogFile, now: real, steps: seq<Step>)
    requires p.Sensible() && steps != [] && ReadBeforeReplaced(name, steps) && Given(p, name, log, now, steps)
    requires InOrder(p, name, Becoming(p, name, log, steps), steps[..|steps| - 1])
    requires OthersOrShorter(LogOf(Run(p, steps), name).past + [log])
    ensures InOrder(p, name, log, steps)
  {
    var before, step := steps[..|steps| - 1], steps[|steps| - 1];
    var h := LogOf(Run(p, before), name);
    ReadBefore(name, steps);
    if step.Put? && step.log == name && h.current.Some? {
      GivenBefore(p, name, log, now, steps);
      assert before != [];
      assert before[|before| - 1] == steps[|steps| - 2];
      JustRead(p, name, h.current.value, now, before);
    }
    StepNoticed(p, name, log, steps);
  }

  /** As long as every file is read before it is replaced and the process runs on, a file is noticed that is
      another than the one before or a shorter one. */
  lemma {:induction false} OthersOrShorterAreNoticed(p: Parser<Row>, name: LogName, log: LogFile, now: real,
                                                     steps: seq<Step>)
    requires p.Sensible() && ReadBeforeReplaced(name, steps) && Given(p, name, log, now, steps)
    requires OthersOrShorter(LogOf(Run(p, steps), name).past + [log])
    ensures InOrder(p, name, log, steps)
    decreases |steps|
  {
    if steps != [] {
      GivenBefore(p, name, log, now, steps);
      ShorterBefore(p, name, log, steps);
      ReadBefore(name, steps);
      OthersOrShorterAreNoticed(p, name, Becoming(p, name, log, steps), now, steps[..|steps| - 1]);
      OrderBefore(p, name, log, now, steps);
    }
  }

  lemma StepNoticed(p: Parser<Row>, name: LogName, log: LogFile, steps: seq<Step>)
    requires steps != [] && !steps[|steps| - 1].Restarted?
    requires var before, step := steps[..|steps| - 1], steps[|steps| - 1];
             var h, b := LogOf(Run(p, before), name), BucketOf(Run(p, before).reporter.current, name);
             && Noticed(p, name, before) && UpToDate(h, b)
             && (if step.Put? && step.log == name && h.current.Some? then h.begun && HasRead(h.current.value, b)
                 else FileOk(log, h.current) && OthersOrShorter(h.past + [log]))
    ensures Noticed(p, name, steps)
    ensures UpToDate(LogOf(Run(p, steps), name), BucketOf(Run(p, steps).reporter.current, name))
  {
    var before, step := steps[..|steps| - 1], steps[|steps| - 1];
    var w := Run(p, before);
    var h := LogOf(w, name);
    if h.current.None? {
      WithoutAFile(p, name, before);
    } else if step.Refreshed? && !h.begun {
      ShorterStill(h.past, log, h.current.value);
      OtherOrShorterNoticed(h, BucketOf(w.reporter.current, name));
    }
    LastNoticed(p, name, steps);
    StaysUpToDate(p, name, w, step);
  }

  lemma CountedAlone(p: Parser<Row>, h: History, zero: Tally, now: real, whole: bool, t: Tally)
    requires h.past == [] && Counted(p, h, zero, now, whole, t)
    ensures t == TakeAll(zero, Read(p, Bytes(h.current)).items, now)
  {
    assert forall items: seq<Item<Row>> {:trigger Flat<Item<Row>>([]) + items} :: Flat<Item<Row>>([]) + items == items;
  }

  lemma OnlyFileIsNoticed(p: Parser<Row>, name: LogName, steps: seq<Step>, now: real, clock: real)
    requires LogOf(Run(p, steps), name).past == []
    ensures Noticed(p, name, steps + [Refreshed(now, clock)])
    ensures LogOf(Run(p, steps + [Refreshed(now, clock)]), name).past == []
    ensures LogOf(Run(p, steps + [Refreshed(now, clock)]), name).current == LogOf(Run(p, steps), name).current
  {
    var all := steps + [Refreshed(now, clock)];
    assert all[..|steps|] == steps;
    RefreshShape(p, Run(p, steps), name, now, clock);
    NewIdentitiesAreNoticed(p, name, all);
  }

  /** A log that was never replaced is counted whole. */
  lemma NeverReplaced(p: Parser<Row>, name: LogName, steps: seq<Step>, now: real, clock: real)
    requires p.Sensible() && LogOf(Run(p, steps), name).past == []
    requires Clean(p, BytesOf(Run(p, steps), name))
    requires ClocksAgree(p, name, Files(LogOf(Run(p, steps), name)), steps, now)
    ensures var w := Run(p, steps + [Refreshed(now, clock)]);
            BucketOf(w.reporter.current, name).tally
            == TakeAll(ZeroOf(name), Read(p, BytesOf(Run(p, steps), name)).items, now)
  {
    var w := Run(p, steps + [Refreshed(now, clock)]);
    OnlyFileIsNoticed(p, name, steps, now, clock);
    AnyScheduleCountsTheLogs(p, name, steps, now, clock);
    CountedAlone(p, LogOf(w, name), ZeroOf(name), now, ReadBeforeReplaced(name, steps),
                 BucketOf(w.reporter.current, name).tally);
  }

  // ---- what is counted after a replacement ----

  /** Where reading goes on in the file `log` after all of `was`: at its beginning if it is seen to be another. */
  function GoesOnAt(was: LogFile, log: LogFile): (from: nat)
    ensures from <= |log.bytes|
  {
    if was.identity == log.identity && |was.bytes| <= |log.bytes| then |was.bytes| else 0
  }

  /** In any run: what a refresh counts after a file read to its end has been replaced, noticed or not. */
  lemma CountsAfterReplacing(p: Parser<Row>, name: LogName, steps: seq<Step>, was: LogFile, log: LogFile, now: real,
                             clock: real)
    requires LogOf(Run(p, steps), name).current == Some(was)
    requires HasRead(was, BucketOf(Run(p, steps).reporter.current, name))
    ensures var b := BucketOf(Run(p, steps).reporter.current, name);
            BucketOf(Run(p, steps + [Put(name, log)] + [Refreshed(now, clock)]).reporter.current, name).tally
            == TakeAll(b.tally, Read(p, log.bytes[GoesOnAt(was, log)..]).items, now)
    ensures Notices(p, name, steps + [Put(name, log)])
            <==> was.identity != log.identity || |log.bytes| < |was.bytes| || was.bytes == ""
  {
    var put := steps + [Put(name, log)];
    var all := put + [Refreshed(now, clock)];
    assert put[..|steps|] == steps && all[..|put|] == put;
    assert Run(p, put) == Next(p, Run(p, steps), Put(name, log));
    RefreshShape(p, Run(p, put), name, now, clock);
  }

  lemma OneFilePut(p: Parser<Row>, file: LogFile, now: real)
    requires Clean(p, file.bytes)
    ensures LogOf(Run(p, [Put(Execution, file)]), Execution) == History([], Some(file), false, false)
    ensures Given(p, Execution, file, now, [Put(Execution, file)])
  {
    assert [Put(Execution, file)][..0] == [];
  }

  lemma OneFileRead(p: Parser<Row>, file: LogFile, now: real, clock: real)
    requires p.Sensible() && Clean(p, file.bytes)
    ensures var w := Run(p, [Put(Execution, file), Refreshed(now, clock)]);
            && LogOf(w, Execution) == History([], Some(file), true, LogOf(w, Execution).savedBegun)
            && HasRead(file, BucketOf(w.reporter.current, Execution))
            && BucketOf(w.reporter.current, Execution).tally
               == TakeAll(NO_EXECUTION, Read(p, file.bytes).items, now)
  {
    var put, step := [Put(Execution, file)], Refreshed(now, clock);
    var steps := [Put(Execution, file), step];
    assert put + [step] == steps && steps[..1] == put;
    OneFilePut(p, file, now);
    RefreshShape(p, Run(p, put), Execution, now, clock);
    NeverReplaced(p, Execution, put, now, clock);
    OnlyFileIsNoticed(p, Execution, put, now, clock);
    JustRead(p, Execution, file, now, steps);
  }

  /** One file read, another put in its place and read. */
  function Rewriting(was: LogFile, log: LogFile): seq<Step> {
    [Put(Execution, was), Refreshed(0.0, 1.0)] + [Put(Execution, log)] + [Refreshed(0.0, 100.0)]
  }

  lemma LogAfterReplacing(p: Parser<Row>, name: LogName, steps: seq<Step>, log: LogFile, now: real, clock: real)
    ensures var h := Replaced(LogOf(Run(p, steps), name), log);
            var after := LogOf(Run(p, steps + [Put(name, log)] + [Refreshed(now, clock)]), name);
            after.past == h.past && after.current == h.current
  {
    var put := steps + [Put(name, log)];
    assert put[..|steps|] == steps && (put + [Refreshed(now, clock)])[..|put|] == put;
    RefreshShape(p, Run(p, put), name, now, clock);
  }

  lemma AfterRewriting(p: Parser<Row>, was: LogFile, log: LogFile)
    requires p.Sensible() && Clean(p, was.bytes)
    ensures ReadBeforeReplaced(Execution, Rewriting(was, log))
    ensures var w := Run(p, Rewriting(was, log));
            && LogOf(w, Execution).past == [was] && LogOf(w, Execution).current == Some(log)
            && BucketOf(w.reporter.current, Execution).tally
               == TakeAll(TakeAll(NO_EXECUTION, Read(p, was.bytes).items, 0.0),
                          Read(p, log.bytes[GoesOnAt(was, log)..]).items, 0.0)
  {
    var read := [Put(Execution, was), Refreshed(0.0, 1.0)];
    OneFileRead(p, was, 0.0, 1.0);
    CountsAfterReplacing(p, Execution, read, was, log, 0.0, 100.0);
    LogAfterReplacing(p, Execution, read, log, 0.0, 100.0);
    assert [] + [was] == [was];
  }

  const NO_ROWS: Parser<Row> := Parser((s: string) => None)
  const WRITTEN := LogFile("1", "x\n")
  const REWRITTEN := LogFile("1", "y\n")

  lemma OneBrokenLine(file: LogFile)
    requires file in {WRITTEN, REWRITTEN}
    ensures Clean(NO_ROWS, file.bytes) && Read(NO_ROWS, file.bytes).items == [Invalid]
  {
    var line := file.bytes[..1];
    assert file.bytes == line + "\n" + "";
    ReadOne(NO_ROWS, file.bytes, line, "");
  }

  lemma InvalidTaken()
    ensures TakeAll(NO_EXECUTION, [Invalid], 0.0) == NO_EXECUTION.(invalid := 1)
    ensures TakeAll(NO_EXECUTION, [Invalid, Invalid], 0.0) == NO_EXECUTION.(invalid := 2)
  {
    var one, two := [Item<Row>.Invalid], [Item<Row>.Invalid, Item<Row>.Invalid];
    assert one[..0] == [] && two[..1] == one;
  }

  lemma TwoLinesMissOne(h: History, t: Tally)
    requires h.past == [WRITTEN] && h.current == Some(REWRITTEN) && t == NO_EXECUTION.(invalid := 1)
    ensures !Counted(NO_ROWS, h, NO_EXECUTION, 0.0, true, t)
  {
    OneBrokenLine(WRITTEN);
    OneBrokenLine(REWRITTEN);
    InvalidTaken();
    forall parts | Parts(NO_ROWS, h.past, parts, true)
      ensures Flat(parts) + Read(NO_ROWS, Bytes(h.current)).items == [Invalid, Invalid]
    {
      assert parts[..0] == [] && parts[0] == [Invalid];
    }
  }

  lemma NothingLeft()
    ensures Read(NO_ROWS, REWRITTEN.bytes[GoesOnAt(WRITTEN, REWRITTEN)..]).items == []
  {
    assert REWRITTEN.bytes[2..] == "";
  }

  /** Why replacements must be noticed: a log of one broken line, rewritten in place by a file of the same size.
      Every file was read before it was replaced, and the second broken line is not counted. */
  lemma RewritingIsMissed()
    ensures NO_ROWS.Sensible() && Clean(NO_ROWS, WRITTEN.bytes) && Clean(NO_ROWS, REWRITTEN.bytes)
    ensures ReadBeforeReplaced(Execution, Rewriting(WRITTEN, REWRITTEN))
    ensures var w := Run(NO_ROWS, Rewriting(WRITTEN, REWRITTEN));
            var t := BucketOf(w.reporter.current, Execution).tally;
            t == NO_EXECUTION.(invalid := 1) && !Counted(NO_ROWS, LogOf(w, Execution), NO_EXECUTION, 0.0, true, t)
  {
    OneBrokenLine(WRITTEN);
    OneBrokenLine(REWRITTEN);
    AfterRewriting(NO_ROWS, WRITTEN, REWRITTEN);
    NothingLeft();
    InvalidTaken();
    var w := Run(NO_ROWS, Rewriting(WRITTEN, REWRITTEN));
    TwoLinesMissOne(LogOf(w, Execution), BucketOf(w.reporter.current, Execution).tally);
  }
}
