/** How a book is walked: its asks from the lowest price and its bids from the highest. */
module MarketQuotes {
  import opened MarketBooks
  import opened OrderFills

  lemma {:induction false} HasLeast(prices: set<real>)
    requires prices != {}
    ensures exists p :: p in prices && forall q :: q in prices ==> p <= q
    decreases |prices|
  {
    if forall q :: q !in prices {
      assert false;
    }
    var p :| p in prices;
    var rest := prices - {p};
    if rest == {} {
      assert prices == {p};
    } else {
      HasLeast(rest);
      var least :| least in rest && forall q :: q in rest ==> least <= q;
      assert forall q :: q in prices ==> q == p || q in rest;
      if p < least {
        assert forall q :: q in prices ==> p <= q;
      } else {
        assert forall q :: q in prices ==> least <= q;
      }
    }
  }

  function Least(prices: set<real>): (p: real)
    requires prices != {}
    ensures p in prices && forall q :: q in prices ==> p <= q
  {
    HasLeast(prices);
    var p :| p in prices && forall q :: q in prices ==> p <= q;
    p
  }

  /** The levels from the lowest price up. */
  function FromLowest(levels: Levels): seq<Level>
    decreases |levels.Keys|
  {
    if levels.Keys == {} then []
    else
      var p := Least(levels.Keys);
      FewerLevels(levels, p);
      [Level(p, levels[p])] + FromLowest(levels - {p})
  }

  lemma FewerLevels(levels: Levels, p: real)
    requires p in levels
    ensures (levels - {p}).Keys == levels.Keys - {p} && |(levels - {p}).Keys| == |levels.Keys| - 1
  {
    assert (levels - {p}).Keys == levels.Keys - {p};
  }

  function FromHighest(levels: Levels): seq<Level> {
    var rising := FromLowest(levels);
    seq(|rising|, i requires 0 <= i < |rising| => rising[|rising| - 1 - i])
  }

  ghost predicate HasPrice(rows: seq<Level>, p: real) {
    exists i :: 0 <= i < |rows| && rows[i].price == p
  }

  /** Rows that are exactly the levels. */
  ghost predicate Lists(levels: Levels, rows: seq<Level>) {
    && |rows| == |levels.Keys|
    && (forall i :: 0 <= i < |rows| ==> rows[i].price in levels && rows[i].size == levels[rows[i].price])
    && forall p :: p in levels ==> HasPrice(rows, p)
  }

  predicate Rising(rows: seq<Level>) {
    forall i, j :: 0 <= i < j < |rows| ==> rows[i].price < rows[j].price
  }

  predicate Falling(rows: seq<Level>) {
    forall i, j :: 0 <= i < j < |rows| ==> rows[i].price > rows[j].price
  }

  lemma LowestFirst(levels: Levels, p: real, later: seq<Level>)
    requires p in levels && (forall q :: q in levels ==> p <= q)
    requires Lists(levels - {p}, later) && Rising(later)
    ensures Lists(levels, [Level(p, levels[p])] + later) && Rising([Level(p, levels[p])] + later)
  {
    var rest, rows := levels - {p}, [Level(p, levels[p])] + later;
    FewerLevels(levels, p);
    forall i | 0 < i < |rows|
      ensures rows[i] == later[i - 1] && rows[i].price in rest && rows[i].size == levels[rows[i].price]
    {
    }
    forall q | q in levels
      ensures HasPrice(rows, q)
    {
      if q == p {
        assert rows[0].price == q;
      } else {
        assert q in rest;
        var i :| 0 <= i < |later| && later[i].price == q;
        assert rows[i + 1].price == q;
      }
    }
  }

  /** Asks are walked from the lowest, each level once. */
  lemma {:induction false} AsksRise(levels: Levels)
    ensures Lists(levels, FromLowest(levels)) && Rising(FromLowest(levels))
    decreases |levels.Keys|
  {
    if levels.Keys != {} {
      var p := Least(levels.Keys);
      FewerLevels(levels, p);
      AsksRise(levels - {p});
      LowestFirst(levels, p, FromLowest(levels - {p}));
    }
  }

  /** The other way round. */
  ghost predicate Mirrors(rising: seq<Level>, falling: seq<Level>) {
    && |falling| == |rising|
    && forall i, j :: 0 <= i < |rising| && 0 <= j < |rising| && i + j == |rising| - 1 ==> falling[i] == rising[j]
  }

  lemma MirrorFalls(rising: seq<Level>, falling: seq<Level>)
    requires Mirrors(rising, falling) && Rising(rising)
    ensures Falling(falling)
  {
    var last := |rising| - 1;
    forall i, j | 0 <= i < j < |falling|
      ensures falling[i].price > falling[j].price
    {
      assert falling[i] == rising[last - i] && falling[j] == rising[last - j];
    }
  }

  lemma MirrorLists(levels: Levels, rising: seq<Level>, falling: seq<Level>)
    requires Mirrors(rising, falling) && Lists(levels, rising)
    ensures Lists(levels, falling)
  {
    var last := |rising| - 1;
    forall i | 0 <= i < |falling|
      ensures falling[i].price in levels && falling[i].size == levels[falling[i].price]
    {
      assert falling[i] == rising[last - i];
    }
    forall p | p in levels
      ensures HasPrice(falling, p)
    {
      var i :| 0 <= i < |rising| && rising[i].price == p;
      assert falling[last - i] == rising[i];
    }
  }

  /** Bids are walked from the highest, each level once. */
  lemma BidsFall(levels: Levels)
    ensures Lists(levels, FromHighest(levels)) && Falling(FromHighest(levels))
  {
    AsksRise(levels);
    MirrorLists(levels, FromLowest(levels), FromHighest(levels));
    MirrorFalls(FromLowest(levels), FromHighest(levels));
  }

  /** Of all ways to buy as many shares from the book none is cheaper than its walk. */
  lemma BuysForLeast(levels: Levels, want: real, takes: seq<real>)
    requires 0.0 <= want && Allocation(FromLowest(levels), takes)
    requires Total(takes) == Walk(FromLowest(levels), want).filled
    ensures Walk(FromLowest(levels), want).notional <= Cost(FromLowest(levels), takes)
  {
    AsksRise(levels);
    WalkIsOptimal(FromLowest(levels), want, takes);
  }

  /** Of all ways to sell as many shares to the book none brings more than its walk. */
  lemma SellsForMost(levels: Levels, want: real, takes: seq<real>)
    requires 0.0 <= want && Allocation(FromHighest(levels), takes)
    requires Total(takes) == Walk(FromHighest(levels), want).filled
    ensures Cost(FromHighest(levels), takes) <= Walk(FromHighest(levels), want).notional
  {
    BidsFall(levels);
    SaleIsOptimal(FromHighest(levels), want, takes);
  }
}
