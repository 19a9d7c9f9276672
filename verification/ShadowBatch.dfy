/** The report counted in one go over finished logs, with unbounded memory, and why the
    incremental report agrees with it. */
module ShadowBatch {
  import opened Queues
  import opened Newlines
  import opened Options
  import opened LogTail
  import opened ShadowReport

  datatype Batch = Batch(counts: Counts, markets: set<Option<string>>, seen: set<string>,
                         durations: seq<real>, ages: seq<real>)

  const EMPTY_BATCH := Batch(ZERO, {}, {}, [], [])

  function TakeRow(b: Batch, row: Row, now: real): Batch {
    if Future(row, now) then b.(counts := b.counts.(future := b.counts.future + 1))
    else if row.eventId != "" && row.eventId in b.seen then
      b.(counts := b.counts.(duplicates := b.counts.duplicates + 1))
    else
      Batch(Count(b.counts, row), b.markets + {row.marketId},
            if row.eventId == "" then b.seen else b.seen + {row.eventId},
            b.durations + Durations(row), b.ages + Ages(row))
  }

  function AddInvalid(b: Batch, k: nat): Batch {
    b.(counts := b.counts.(invalid := b.counts.invalid + k))
  }

  function TakeItem(b: Batch, item: Item<Row>, now: real): Batch {
    if item.Invalid? then AddInvalid(b, 1) else TakeRow(b, item.row, now)
  }

  function BatchAll(b: Batch, items: seq<Item<Row>>, now: real): Batch {
    if items == [] then b else TakeItem(BatchAll(b, items[..|items| - 1], now), items[|items| - 1], now)
  }

  /** The first completed row of each event id, in order. */
  function TakeCompleted(c: seq<Row>, item: Item<Row>): seq<Row> {
    if item.Parsed? && item.row.eventType == ShadowComplete && !Completed(c, item.row.eventId)
    then c + [item.row] else c
  }

  predicate Completed(c: seq<Row>, id: string) {
    exists i :: 0 <= i < |c| && c[i].eventId == id
  }

  function CompletedAll(c: seq<Row>, items: seq<Item<Row>>): seq<Row> {
    if items == [] then c else TakeCompleted(CompletedAll(c, items[..|items| - 1]), items[|items| - 1])
  }

  /** Every line of a log, blank or not, the last one even when unfinished. */
  function AllItems(p: Parser<Row>, bytes: string): seq<Item<Row>> {
    if bytes == "" then []
    else
      var end := FindNewline(bytes);
      [LineItem(p, bytes[..end])] + if end == |bytes| then [] else AllItems(p, bytes[end + 1..])
  }

  function LineItem(p: Parser<Row>, line: string): Item<Row> {
    match p.decode(line)
    case None => Invalid
    case Some(row) => Parsed(row)
  }

  function BlankLines(bytes: string): nat {
    if bytes == "" then 0
    else
      var end := FindNewline(bytes);
      (if Blank(bytes[..end]) then 1 else 0) + if end == |bytes| then 0 else BlankLines(bytes[end + 1..])
  }

  lemma {:induction false} BatchInTwo(b: Batch, xs: seq<Item<Row>>, ys: seq<Item<Row>>, now: real)
    ensures BatchAll(b, xs + ys, now) == BatchAll(BatchAll(b, xs, now), ys, now)
  {
    if ys == [] {
      assert xs + ys == xs;
    } else {
      assert (xs + ys)[..|xs + ys| - 1] == xs + ys[..|ys| - 1];
      BatchInTwo(b, xs, ys[..|ys| - 1], now);
    }
  }

  lemma BatchOne(b: Batch, x: Item<Row>, now: real)
    ensures BatchAll(b, [x], now) == TakeItem(b, x, now)
  {
    assert [x][..0] == [];
  }

  lemma {:induction false} CompletedInTwo(c: seq<Row>, xs: seq<Item<Row>>, ys: seq<Item<Row>>)
    ensures CompletedAll(c, xs + ys) == CompletedAll(CompletedAll(c, xs), ys)
  {
    if ys == [] {
      assert xs + ys == xs;
    } else {
      assert (xs + ys)[..|xs + ys| - 1] == xs + ys[..|ys| - 1];
      CompletedInTwo(c, xs, ys[..|ys| - 1]);
    }
  }

  lemma CompletedOne(c: seq<Row>, x: Item<Row>)
    ensures CompletedAll(c, [x]) == TakeCompleted(c, x)
  {
    assert [x][..0] == [];
  }

  // ---- the loops of the one-go report ----

  /** `build_report` over the audit log, line by line. */
  method BuildReport(p: Parser<Row>, bytes: string, now: real) returns (b: Batch)
    ensures b == BatchAll(EMPTY_BATCH, AllItems(p, bytes), now)
  {
    var counts, markets, seen, durations, ages := ZERO, {}, {}, [], [];
    var rest := bytes;
    while rest != ""
      invariant BatchAll(EMPTY_BATCH, AllItems(p, bytes), now)
                == BatchAll(Batch(counts, markets, seen, durations, ages), AllItems(p, rest), now)
      decreases |rest|
    {
      ghost var was := Batch(counts, markets, seen, durations, ages);
      var end := FindNewline(rest);
      var item := LineItem(p, rest[..end]);
      ghost var all := AllItems(p, rest);
      rest := if end == |rest| then "" else rest[end + 1..];
      assert all == [item] + AllItems(p, rest);
      BatchInTwo(was, [item], AllItems(p, rest), now);
      BatchOne(was, item, now);
      if item.Invalid? {
        counts := counts.(invalid := counts.invalid + 1);
      } else if Future(item.row, now) {
        counts := counts.(future := counts.future + 1);
      } else if item.row.eventId != "" && item.row.eventId in seen {
        counts := counts.(duplicates := counts.duplicates + 1);
      } else {
        if item.row.eventId != "" {
          seen := seen + {item.row.eventId};
        }
        markets := markets + {item.row.marketId};
        counts := Count(counts, item.row);
        durations := durations + Durations(item.row);
        ages := ages + Ages(item.row);
      }
      assert Batch(counts, markets, seen, durations, ages) == TakeItem(was, item, now);
    }
    b := Batch(counts, markets, seen, durations, ages);
  }

  // ---- blank lines ----

  lemma InvalidThenItem(b: Batch, k: nat, item: Item<Row>, now: real)
    ensures TakeItem(AddInvalid(b, k), item, now) == AddInvalid(TakeItem(b, item, now), k)
  {
  }

  lemma {:induction false} AddInvalidLater(b: Batch, k: nat, items: seq<Item<Row>>, now: real)
    ensures BatchAll(AddInvalid(b, k), items, now) == AddInvalid(BatchAll(b, items, now), k)
  {
    if items != [] {
      AddInvalidLater(b, k, items[..|items| - 1], now);
      InvalidThenItem(BatchAll(b, items[..|items| - 1], now), k, items[|items| - 1], now);
    }
  }

  /** In one go counts the same rows and `k` invalid lines more. */
  predicate Adds(b: Batch, all: seq<Item<Row>>, read: seq<Item<Row>>, k: nat, now: real) {
    BatchAll(b, all, now) == AddInvalid(BatchAll(b, read, now), k)
  }

  /** One line before others, `all` in one go and `read` when tailing. */
  lemma OneMoreLine(b: Batch, blank: bool, item: Item<Row>, items: seq<Item<Row>>, all: seq<Item<Row>>,
                    read: seq<Item<Row>>, k: nat, now: real)
    requires if blank then item.Invalid? && items == [] else items == [item]
    requires Adds(TakeItem(b, item, now), all, read, k, now)
    ensures Adds(b, [item] + all, items + read, k + if blank then 1 else 0, now)
  {
    BatchInTwo(b, [item], all, now);
    BatchOne(b, item, now);
    if blank {
      AddInvalidLater(b, 1, read, now);
      assert items + read == read;
    } else {
      BatchInTwo(b, items, read, now);
    }
  }

  /** A line that is not blank parses alike both ways. */
  lemma ItemsOfLine(p: Parser<Row>, line: string)
    requires p.Sensible()
    ensures if Blank(line) then LineItem(p, line).Invalid? && ItemsOf(p, line) == []
            else ItemsOf(p, line) == [LineItem(p, line)]
  {
  }

  /** `line` comes first in `bytes` and `rest` after it. */
  ghost predicate Leads(p: Parser<Row>, line: string, rest: string, bytes: string) {
    && AllItems(p, bytes) == [LineItem(p, line)] + AllItems(p, rest)
    && Read(p, bytes).items == ItemsOf(p, line) + Read(p, rest).items
    && BlankLines(bytes) == BlankLines(rest) + if Blank(line) then 1 else 0
  }

  lemma LineLeads(p: Parser<Row>, bytes: string) returns (line: string, rest: string)
    requires Clean(p, bytes) && bytes != ""
    ensures |rest| < |bytes| && Clean(p, rest) && Leads(p, line, rest, bytes)
  {
    var end := FindNewline(bytes);
    line, rest := bytes[..end], bytes[end + 1..];
  }

  lemma LineAdds(p: Parser<Row>, b: Batch, line: string, rest: string, bytes: string, now: real)
    requires p.Sensible() && Leads(p, line, rest, bytes)
    requires Adds(TakeItem(b, LineItem(p, line), now), AllItems(p, rest), Read(p, rest).items, BlankLines(rest), now)
    ensures Adds(b, AllItems(p, bytes), Read(p, bytes).items, BlankLines(bytes), now)
  {
    ItemsOfLine(p, line);
    OneMoreLine(b, Blank(line), LineItem(p, line), ItemsOf(p, line), AllItems(p, rest), Read(p, rest).items,
                BlankLines(rest), now);
  }

  /** In one go blank lines count as invalid; otherwise the same rows are counted as when tailing. */
  lemma {:induction false} BlankLinesAreInvalid(p: Parser<Row>, b: Batch, bytes: string, now: real)
    requires p.Sensible() && Clean(p, bytes)
    ensures Adds(b, AllItems(p, bytes), Read(p, bytes).items, BlankLines(bytes), now)
    decreases |bytes|
  {
    if bytes != "" {
      var line, rest := LineLeads(p, bytes);
      BlankLinesAreInvalid(p, TakeItem(b, LineItem(p, line), now), rest, now);
      LineAdds(p, b, line, rest, bytes, now);
    }
  }

  // ---- bounded memory is enough ----

  /** The markets with a name that is not empty. */
  function Named(markets: set<Option<string>>): set<Option<string>> {
    markets - {None, Some("")}
  }

  /** The bounded tally is what the unbounded one keeps: the same counts and event ids, the most
      recent values, and each market once. */
  ghost predicate Agrees(t: Tally, b: Batch) {
    && t.AuditTally? && t.counts == b.counts
    && Distinct(t.seen) && Elements(t.seen) == b.seen && |t.seen| == |b.seen|
    && Distinct(t.markets) && (forall m: string :: m in t.markets <==> m != "" && Some(m) in b.markets)
    && |t.markets| == |Named(b.markets)|
    && t.durations == KeepLast(b.durations, MAX_RECENT_VALUES)
    && t.ages == KeepLast(b.ages, MAX_RECENT_VALUES)
  }

  lemma RememberOne(seen: seq<string>, id: string)
    requires Distinct(seen) && id !in seen && |seen| < MAX_SEEN_EVENTS
    ensures KeepLast(seen + [id], MAX_SEEN_EVENTS) == seen + [id]
    ensures Distinct(seen + [id]) && Elements(seen + [id]) == Elements(seen) + {id}
  {
  }

  lemma MarketOnce(markets: seq<string>, all: set<Option<string>>, market: Option<string>)
    requires Distinct(markets) && (forall m: string :: m in markets <==> m != "" && Some(m) in all)
    requires |markets| == |Named(all)|
    ensures var more := AddMarket(markets, market);
            && Distinct(more) && (forall m: string :: m in more <==> m != "" && Some(m) in all + {market})
            && |more| == |Named(all + {market})|
  {
    if market.Some? && market.value != "" && market.value !in markets {
      assert Named(all + {market}) == Named(all) + {market};
    } else {
      assert Named(all + {market}) == Named(all);
    }
  }

  lemma TakeAgrees(t: Tally, b: Batch, item: Item<Row>, now: real)
    requires Agrees(t, b) && |TakeItem(b, item, now).seen| <= MAX_SEEN_EVENTS
    ensures Agrees(Take(t, item, now), TakeItem(b, item, now))
  {
    if item.Parsed? && !Future(item.row, now) && !(item.row.eventId != "" && item.row.eventId in t.seen) {
      var row := item.row;
      assert row.eventId != "" ==> row.eventId !in b.seen;
      MarketOnce(t.markets, b.markets, row.marketId);
      KeepLastTwice(b.durations, Durations(row), MAX_RECENT_VALUES);
      KeepLastTwice(b.ages, Ages(row), MAX_RECENT_VALUES);
      if row.eventId != "" {
        assert |b.seen + {row.eventId}| == |b.seen| + 1;
        RememberOne(t.seen, row.eventId);
      }
    }
  }

  lemma SeenGrows(b: Batch, item: Item<Row>, now: real)
    ensures |b.seen| <= |TakeItem(b, item, now).seen|
  {
  }

  /** As long as no more event ids occur than are remembered. */
  lemma {:induction false} TalliesAgree(items: seq<Item<Row>>, now: real)
    requires |BatchAll(EMPTY_BATCH, items, now).seen| <= MAX_SEEN_EVENTS
    ensures Agrees(TakeAll(NO_AUDIT, items, now), BatchAll(EMPTY_BATCH, items, now))
  {
    if items != [] {
      var before, item := items[..|items| - 1], items[|items| - 1];
      SeenGrows(BatchAll(EMPTY_BATCH, before, now), item, now);
      TalliesAgree(before, now);
      TakeAgrees(TakeAll(NO_AUDIT, before, now), BatchAll(EMPTY_BATCH, before, now), item, now);
    }
  }

  // ---- completed trades ----

  function WithIds(c: seq<Row>): seq<Row> {
    if c == [] then []
    else WithIds(c[..|c| - 1]) + if c[|c| - 1].eventId != "" then [c[|c| - 1]] else []
  }

  function Ids(c: seq<Row>): seq<string> {
    seq(|c|, i requires 0 <= i < |c| => c[i].eventId)
  }

  lemma WithIdsMore(c: seq<Row>, row: Row)
    ensures WithIds(c + [row]) == if row.eventId != "" then WithIds(c) + [row] else WithIds(c)
  {
    assert (c + [row])[..|c|] == c;
  }

  lemma {:induction false} CompletedWithId(c: seq<Row>, id: string)
    requires id != ""
    ensures Completed(c, id) <==> id in Ids(WithIds(c))
  {
    if c != [] {
      var before, last := c[..|c| - 1], c[|c| - 1];
      assert c == before + [last];
      CompletedWithId(before, id);
      WithIdsMore(before, last);
      assert Completed(c, id) <==> Completed(before, id) || last.eventId == id by {
        assert c[|before|] == last;
        assert forall i :: 0 <= i < |before| ==> c[i] == before[i];
      }
      assert last.eventId != "" ==> Ids(WithIds(c)) == Ids(WithIds(before)) + [last.eventId];
    }
  }

  /** The same trades, the most recent of those that carry an event id. */
  ghost predicate SameTrades(t: Tally, c: seq<Row>) {
    && t.ExecutionTally? && t.seen == Ids(WithIds(c))
    && t.completed == KeepLast(WithIds(c), MAX_COMPLETED_TRADES)
  }

  lemma TradeAgrees(t: Tally, c: seq<Row>, item: Item<Row>, now: real)
    requires SameTrades(t, c) && |WithIds(TakeCompleted(c, item))| <= MAX_SEEN_EVENTS
    ensures SameTrades(Take(t, item, now), TakeCompleted(c, item))
  {
    if item.Parsed? && item.row.eventType == ShadowComplete {
      var row := item.row;
      WithIdsMore(c, row);
      if row.eventId != "" {
        CompletedWithId(c, row.eventId);
        KeepLastTwice(WithIds(c), [row], MAX_COMPLETED_TRADES);
        assert Ids(WithIds(c) + [row]) == Ids(WithIds(c)) + [row.eventId];
      }
    }
  }

  lemma TradesGrow(c: seq<Row>, item: Item<Row>)
    ensures |WithIds(c)| <= |WithIds(TakeCompleted(c, item))|
  {
    if item.Parsed? {
      WithIdsMore(c, item.row);
    }
  }

  lemma {:induction false} TradesAgree(items: seq<Item<Row>>, now: real)
    requires |WithIds(CompletedAll([], items))| <= MAX_SEEN_EVENTS
    ensures SameTrades(TakeAll(NO_EXECUTION, items, now), CompletedAll([], items))
  {
    if items != [] {
      var before, item := items[..|items| - 1], items[|items| - 1];
      TradesGrow(CompletedAll([], before), item);
      TradesAgree(before, now);
      TradeAgrees(TakeAll(NO_EXECUTION, before, now), CompletedAll([], before), item, now);
    }
  }

  lemma {:induction false} BlankLinesComplete(p: Parser<Row>, c: seq<Row>, bytes: string)
    requires p.Sensible() && Clean(p, bytes)
    ensures CompletedAll(c, AllItems(p, bytes)) == CompletedAll(c, Read(p, bytes).items)
    decreases |bytes|
  {
    if bytes != "" {
      var end := FindNewline(bytes);
      var line, rest := bytes[..end], bytes[end + 1..];
      var item := LineItem(p, line);
      CompletedInTwo(c, [item], AllItems(p, rest));
      CompletedOne(c, item);
      CompletedInTwo(c, ItemsOf(p, line), Read(p, rest).items);
      BlankLinesComplete(p, TakeCompleted(c, item), rest);
      if Blank(line) {
        assert line[..|line|] == line;
      }
    }
  }

  // ---- what the counts mean ----

  predicate InMarket(rows: seq<Row>, market: Option<string>) {
    exists i :: 0 <= i < |rows| && rows[i].marketId == market
  }

  ghost predicate MarketsAre(markets: set<Option<string>>, rows: seq<Row>) {
    forall market :: market in markets <==> InMarket(rows, market)
  }

  lemma MarketsMore(markets: set<Option<string>>, rows: seq<Row>, row: Row)
    requires MarketsAre(markets, rows)
    ensures MarketsAre(markets + {row.marketId}, rows + [row])
  {
    var more := rows + [row];
    forall market
      ensures InMarket(more, market) <==> InMarket(rows, market) || row.marketId == market
    {
      assert more[|rows|] == row;
      assert forall i :: 0 <= i < |rows| ==> more[i] == rows[i];
    }
  }

  predicate CarriesId(rows: seq<Row>, id: string) {
    exists i :: 0 <= i < |rows| && rows[i].eventId == id
  }

  /** The rows that count: not from the future, and the first with their event id. */
  function Fresh(items: seq<Item<Row>>, now: real): seq<Row> {
    if items == [] then []
    else
      var earlier, last := Fresh(items[..|items| - 1], now), items[|items| - 1];
      if last.Invalid? || Future(last.row, now) || (last.row.eventId != "" && CarriesId(earlier, last.row.eventId))
      then earlier else earlier + [last.row]
  }

  datatype Kind =
    Evaluation | FokPassed | AcceptedEvaluation | RejectedEvaluation | RejectedFor(reason: string) | Opportunity

  predicate IsKind(row: Row, kind: Kind) {
    match kind
    case Evaluation => row.eventType == ShadowEval
    case FokPassed => row.eventType == ShadowEval && row.fok
    case AcceptedEvaluation => row.eventType == ShadowEval && row.accept
    case RejectedEvaluation => row.eventType == ShadowEval && !row.accept
    case RejectedFor(reason) => row.eventType == ShadowEval && !row.accept && row.reason == reason
    case Opportunity => row.eventType == ShadowOpportunity
  }

  function CountKind(rows: seq<Row>, kind: Kind): nat {
    if rows == [] then 0
    else CountKind(rows[..|rows| - 1], kind) + if IsKind(rows[|rows| - 1], kind) then 1 else 0
  }

  function CountItems(items: seq<Item<Row>>, now: real, future: bool): nat {
    if items == [] then 0
    else
      var last := items[|items| - 1];
      CountItems(items[..|items| - 1], now, future)
      + if (if future then last.Parsed? && Future(last.row, now) else last.Invalid?) then 1 else 0
  }

  /** Each count is the number of fresh rows of its kind. */
  ghost predicate Means(c: Counts, rows: seq<Row>) {
    && c.evaluations == CountKind(rows, Evaluation) && c.fokPassed == CountKind(rows, FokPassed)
    && c.accepted == CountKind(rows, AcceptedEvaluation) && c.rejected == CountKind(rows, RejectedEvaluation)
    && c.accepts == CountKind(rows, Opportunity)
    && forall reason: string :: Lookup(c.reasons, reason).GetOr(0) == CountKind(rows, RejectedFor(reason))
  }

  lemma KindMore(rows: seq<Row>, row: Row, kind: Kind)
    ensures CountKind(rows + [row], kind) == CountKind(rows, kind) + if IsKind(row, kind) then 1 else 0
  {
    assert (rows + [row])[..|rows|] == rows;
  }

  lemma CountMeans(c: Counts, rows: seq<Row>, row: Row)
    requires Means(c, rows)
    ensures Means(Count(c, row), rows + [row])
  {
    forall kind: Kind
      ensures CountKind(rows + [row], kind) == CountKind(rows, kind) + if IsKind(row, kind) then 1 else 0
    {
      KindMore(rows, row, kind);
    }
  }

  ghost predicate SeenAre(seen: set<string>, rows: seq<Row>) {
    forall id: string :: id in seen <==> id != "" && CarriesId(rows, id)
  }

  lemma SeenMore(seen: set<string>, rows: seq<Row>, row: Row)
    requires SeenAre(seen, rows)
    ensures SeenAre(if row.eventId == "" then seen else seen + {row.eventId}, rows + [row])
  {
    var more := rows + [row];
    forall id: string
      ensures CarriesId(more, id) <==> CarriesId(rows, id) || row.eventId == id
    {
      assert more[|rows|] == row;
      assert forall i :: 0 <= i < |rows| ==> more[i] == rows[i];
    }
  }

  /** The one-go report counts what it says: every line is invalid, from the future, a repetition or
      fresh, and each count is the number of fresh rows of its kind. */
  lemma {:induction false} CountsMean(items: seq<Item<Row>>, now: real)
    ensures var b, rows := BatchAll(EMPTY_BATCH, items, now), Fresh(items, now);
            && Means(b.counts, rows) && SeenAre(b.seen, rows) && MarketsAre(b.markets, rows)
            && b.counts.invalid == CountItems(items, now, false) && b.counts.future == CountItems(items, now, true)
            && |items| == b.counts.invalid + b.counts.future + b.counts.duplicates + |rows|
  {
    if items != [] {
      var before, last := items[..|items| - 1], items[|items| - 1];
      CountsMean(before, now);
      if last.Parsed? {
        CountMeans(BatchAll(EMPTY_BATCH, before, now).counts, Fresh(before, now), last.row);
        SeenMore(BatchAll(EMPTY_BATCH, before, now).seen, Fresh(before, now), last.row);
        MarketsMore(BatchAll(EMPTY_BATCH, before, now).markets, Fresh(before, now), last.row);
      }
    }
  }
}
