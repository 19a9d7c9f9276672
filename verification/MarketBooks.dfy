/** Order books kept from a feed of snapshots and level changes, as values: what one token's
    messages make of its book. */
module MarketBooks {
  import opened Options

  type Token = string

  datatype LevelRow = LevelRow(price: real, size: real)

  datatype Side = Buy | Sell | NoSide

  /** One changed level; a number that is not finite is `None`. */
  datatype Change = Change(token: Token, side: Side, price: Option<real>, size: Option<real>) {
    /** What `update_level` accepts. */
    predicate Usable() {
      side != NoSide && price.Some? && price.value > 0.0 && size.Some? && size.value >= 0.0
    }
  }

  datatype Message =
    | BookMessage(asset: Token, bids: Option<seq<LevelRow>>, asks: Option<seq<LevelRow>>, ts: real)
    | PriceChanges(ts: real, changes: seq<Change>)
    | OtherMessage

  type Levels = map<real, real>

  function PutLevel(levels: Levels, price: real, size: real): Levels {
    if size <= 0.0 then levels - {price} else levels[price := size]
  }

  /** Rows in order, later ones replacing earlier ones at a price. */
  function FromRows(rows: seq<LevelRow>): Levels {
    if rows == [] then map[]
    else PutLevel(FromRows(rows[..|rows| - 1]), rows[|rows| - 1].price, rows[|rows| - 1].size)
  }

  datatype Sides = Sides(bids: Levels, asks: Levels) {
    predicate Crossed() {
      exists bid <- bids.Keys :: exists ask <- asks.Keys :: bid >= ask
    }

    predicate Positive() {
      (forall price <- bids.Keys :: bids[price] > 0.0) && (forall price <- asks.Keys :: asks[price] > 0.0)
    }
  }

  const NO_LEVELS := Sides(map[], map[])

  function ApplyChange(sides: Sides, change: Change): Sides
    requires change.Usable()
  {
    if change.side == Buy then sides.(bids := PutLevel(sides.bids, change.price.value, change.size.value))
    else sides.(asks := PutLevel(sides.asks, change.price.value, change.size.value))
  }

  datatype Delta = Delta(ts: real, change: Change)

  /** What is known of a token: nothing, or a snapshot and the changes accepted since. */
  datatype View = Missing | Live(snapshot: Sides, snapshotTs: real, deltas: seq<Delta>, lastTs: real)

  predicate DeltasUsable(deltas: seq<Delta>) {
    forall i :: 0 <= i < |deltas| ==> deltas[i].change.Usable()
  }

  /** The snapshot with the changes applied in order. */
  function Replay(snapshot: Sides, deltas: seq<Delta>): Sides
    requires DeltasUsable(deltas)
  {
    if deltas == [] then snapshot
    else ApplyChange(Replay(snapshot, deltas[..|deltas| - 1]), deltas[|deltas| - 1].change)
  }

  function Render(view: View): Sides
    requires view.Live? ==> DeltasUsable(view.deltas)
  {
    if view.Missing? then NO_LEVELS else Replay(view.snapshot, view.deltas)
  }

  /** A change batch no newer than the snapshot, or older than the last change, is ignored; an
      absent timestamp is never stale. */
  predicate Stale(view: View, ts: real)
    requires view.Live?
  {
    ts != 0.0 && ((view.snapshotTs != 0.0 && ts <= view.snapshotTs) || (view.lastTs != 0.0 && ts < view.lastTs))
  }

  /** The token within one batch: still known, or spoiled by an unusable change. */
  datatype Batch = Sound(view: View) | Spoiled

  function AddChange(b: Batch, ts: real, change: Change, token: Token): Batch {
    if change.token != token || b.Spoiled? || b.view.Missing? || Stale(b.view, ts) then b
    else if !change.Usable() then Spoiled
    else Sound(b.view.(deltas := b.view.deltas + [Delta(ts, change)], lastTs := ts))
  }

  function AddChanges(view: View, ts: real, changes: seq<Change>, token: Token): Batch {
    if changes == [] then Sound(view)
    else AddChange(AddChanges(view, ts, changes[..|changes| - 1], token), ts, changes[|changes| - 1], token)
  }

  /** A new snapshot keeps a side its message leaves out. */
  function SnapshotOf(before: Sides, bids: Option<seq<LevelRow>>, asks: Option<seq<LevelRow>>): Sides {
    Sides(if bids.Some? then FromRows(bids.value) else before.bids,
          if asks.Some? then FromRows(asks.value) else before.asks)
  }

  ghost predicate Proper(view: View) {
    view.Live? ==> DeltasUsable(view.deltas) && view.snapshot.Positive()
  }

  /** What one message makes of one token. */
  function OnMessage(view: View, message: Message, token: Token): View
    requires view.Live? ==> DeltasUsable(view.deltas)
  {
    match message
    case BookMessage(asset, bids, asks, ts) =>
      if asset == token then Live(SnapshotOf(Render(view), bids, asks), ts, [], ts) else view
    case PriceChanges(ts, changes) =>
      var b := AddChanges(view, ts, changes, token);
      if b.Spoiled? then Missing else b.view
    case OtherMessage => view
  }

  // ---- replay over a run of messages ----

  lemma {:induction false} RowsArePositive(rows: seq<LevelRow>)
    ensures forall price :: price in FromRows(rows) ==> FromRows(rows)[price] > 0.0
  {
    if rows != [] {
      RowsArePositive(rows[..|rows| - 1]);
    }
  }

  lemma {:induction false} ReplayIsPositive(snapshot: Sides, deltas: seq<Delta>)
    requires snapshot.Positive() && DeltasUsable(deltas)
    ensures Replay(snapshot, deltas).Positive()
  {
    if deltas != [] {
      ReplayIsPositive(snapshot, deltas[..|deltas| - 1]);
    }
  }

  lemma ReplayMore(snapshot: Sides, deltas: seq<Delta>, d: Delta)
    requires DeltasUsable(deltas) && d.change.Usable()
    ensures DeltasUsable(deltas + [d])
    ensures Replay(snapshot, deltas + [d]) == ApplyChange(Replay(snapshot, deltas), d.change)
  {
    assert (deltas + [d])[..|deltas|] == deltas;
  }

  lemma {:induction false} AddChangesProper(view: View, ts: real, changes: seq<Change>, token: Token)
    requires Proper(view)
    ensures var b := AddChanges(view, ts, changes, token);
            b.Sound? ==> Proper(b.view) && b.view.Live? == view.Live?
                         && (view.Live? ==> b.view.snapshot == view.snapshot && b.view.snapshotTs == view.snapshotTs
                                            && view.deltas <= b.view.deltas)
  {
    if changes != [] {
      AddChangesProper(view, ts, changes[..|changes| - 1], token);
    }
  }

  lemma MessageProper(view: View, message: Message, token: Token)
    requires Proper(view)
    ensures Proper(OnMessage(view, message, token)) && Render(OnMessage(view, message, token)).Positive()
  {
    match message
    case BookMessage(asset, bids, asks, ts) =>
      if view.Live? {
        ReplayIsPositive(view.snapshot, view.deltas);
      }
      RowsArePositive(bids.GetOr([]));
      RowsArePositive(asks.GetOr([]));
    case PriceChanges(ts, changes) =>
      AddChangesProper(view, ts, changes, token);
      var next := OnMessage(view, message, token);
      if next.Live? {
        ReplayIsPositive(next.snapshot, next.deltas);
      }
    case OtherMessage =>
      if view.Live? {
        ReplayIsPositive(view.snapshot, view.deltas);
      }
  }

  function AfterMessages(messages: seq<Message>, token: Token): (view: View)
    ensures Proper(view)
  {
    if messages == [] then Missing
    else
      var before := AfterMessages(messages[..|messages| - 1], token);
      MessageProper(before, messages[|messages| - 1], token);
      OnMessage(before, messages[|messages| - 1], token)
  }

  /** Every message carries a timestamp. */
  predicate Stamped(messages: seq<Message>) {
    forall i :: 0 <= i < |messages| ==>
      (messages[i].BookMessage? ==> messages[i].ts > 0.0) && (messages[i].PriceChanges? ==> messages[i].ts > 0.0)
  }

  /** Accepted changes are newer than the snapshot and in order. */
  predicate InOrder(view: View) {
    view.Live? ==>
      && view.snapshotTs <= view.lastTs && 0.0 < view.snapshotTs
      && (forall i :: 0 <= i < |view.deltas| ==> view.snapshotTs < view.deltas[i].ts <= view.lastTs)
      && (forall i, j :: 0 <= i < j < |view.deltas| ==> view.deltas[i].ts <= view.deltas[j].ts)
  }

  lemma {:induction false} AddChangesInOrder(view: View, ts: real, changes: seq<Change>, token: Token)
    requires InOrder(view) && ts > 0.0
    ensures var b := AddChanges(view, ts, changes, token); b.Sound? ==> InOrder(b.view)
  {
    if changes != [] {
      AddChangesInOrder(view, ts, changes[..|changes| - 1], token);
    }
  }

  /** If all messages carry timestamps, a token's book is its last snapshot with later changes
      applied in the order of their timestamps. */
  lemma {:induction false} ChangesReplayInOrder(messages: seq<Message>, token: Token)
    requires Stamped(messages)
    ensures InOrder(AfterMessages(messages, token))
  {
    if messages != [] {
      var before, last := messages[..|messages| - 1], messages[|messages| - 1];
      assert messages[|messages| - 1] == last;
      ChangesReplayInOrder(before, token);
      if last.PriceChanges? {
        AddChangesInOrder(AfterMessages(before, token), last.ts, last.changes, token);
      }
    }
  }
}
