/** Filling an order level by level: what the walk takes, that no other way of taking as much
    is cheaper, and what a filled pair earns. */
module OrderFills {
  import opened Numbers
  import opened Options

  const DUST := 0.000000001

  datatype Level = Level(price: real, size: real)

  datatype Fill = Fill(filled: real, notional: real, remaining: real) {
    predicate Complete() {
      remaining <= DUST
    }

    function Vwap(): Option<real> {
      if filled != 0.0 then Some(notional / filled) else None
    }
  }

  function Available(level: Level): real {
    Max(0.0, level.size)
  }

  function Depth(levels: seq<Level>): (depth: real)
    ensures depth >= 0.0
  {
    if levels == [] then 0.0 else Available(levels[0]) + Depth(levels[1..])
  }

  /** The walk from the front, which ends once no more than dust is left. */
  function Walk(levels: seq<Level>, want: real): Fill {
    if levels == [] then Fill(0.0, 0.0, want)
    else
      var take := Min(want, Available(levels[0]));
      if want - take <= DUST then Fill(take, take * levels[0].price, want - take)
      else
        var later := Walk(levels[1..], want - take);
        Fill(take + later.filled, take * levels[0].price + later.notional, later.remaining)
  }

  /** `vwap`, and the walks of `buy_vwap` and `sell_vwap` over their sides of a book. */
  method Vwap(levels: seq<Level>, size: real) returns (fill: Fill)
    ensures fill == Walk(levels, Max(0.0, size))
  {
    var remaining, notional, filled := Max(0.0, size), 0.0, 0.0;
    for i := 0 to |levels|
      invariant var rest := Walk(levels[i..], remaining);
                Walk(levels, Max(0.0, size)) == Fill(filled + rest.filled, notional + rest.notional, rest.remaining)
    {
      assert levels[i..][1..] == levels[i + 1..];
      var take := Min(remaining, Available(levels[i]));
      notional := notional + take * levels[i].price;
      filled := filled + take;
      remaining := remaining - take;
      if remaining <= DUST {
        return Fill(filled, notional, remaining);
      }
    }
    return Fill(filled, notional, remaining);
  }

  // ---- any other way of filling ----

  /** How much is taken at each level. */
  predicate Allocation(levels: seq<Level>, takes: seq<real>) {
    |takes| == |levels| && forall i :: 0 <= i < |takes| ==> 0.0 <= takes[i] <= Available(levels[i])
  }

  function Total(takes: seq<real>): real {
    if takes == [] then 0.0 else takes[0] + Total(takes[1..])
  }

  function Cost(levels: seq<Level>, takes: seq<real>): real
    requires |takes| == |levels|
  {
    if levels == [] then 0.0 else takes[0] * levels[0].price + Cost(levels[1..], takes[1..])
  }

  /** Best prices first, as asks are for a buyer. */
  predicate Ascending(levels: seq<Level>) {
    forall i, j :: 0 <= i < j < |levels| ==> levels[i].price <= levels[j].price
  }

  /** The first `quantity` shares. */
  function Greedy(levels: seq<Level>, quantity: real): (takes: seq<real>)
    ensures |takes| == |levels|
  {
    if levels == [] then []
    else
      var take := Min(quantity, Available(levels[0]));
      [take] + Greedy(levels[1..], quantity - take)
  }

  lemma FrontTaken(levels: seq<Level>, take: real, rest: seq<real>)
    requires levels != [] && 0.0 <= take <= Available(levels[0]) && Allocation(levels[1..], rest)
    ensures Allocation(levels, [take] + rest) && Total([take] + rest) == take + Total(rest)
  {
    var takes := [take] + rest;
    assert takes[1..] == rest;
    forall i | 0 <= i < |takes|
      ensures 0.0 <= takes[i] <= Available(levels[i])
    {
      if i > 0 {
        assert takes[i] == rest[i - 1] && levels[i] == levels[1..][i - 1];
      }
    }
  }

  lemma {:induction false} GreedyTakes(levels: seq<Level>, quantity: real)
    requires 0.0 <= quantity <= Depth(levels)
    ensures Allocation(levels, Greedy(levels, quantity)) && Total(Greedy(levels, quantity)) == quantity
  {
    if levels != [] {
      var take := Min(quantity, Available(levels[0]));
      var rest := Greedy(levels[1..], quantity - take);
      GreedyTakes(levels[1..], quantity - take);
      FrontTaken(levels, take, rest);
    }
  }

  /** The price of the last of the first `quantity` shares. */
  function LastPrice(levels: seq<Level>, quantity: real): real
    requires levels != []
  {
    if quantity <= Available(levels[0]) || levels[1..] == [] then levels[0].price
    else LastPrice(levels[1..], quantity - Available(levels[0]))
  }

  /** `xs` takes more than `ys` only at prices from `pivot` up, and less only at prices down from it. */
  predicate Leans(levels: seq<Level>, xs: seq<real>, ys: seq<real>, pivot: real) {
    && |levels| == |xs| == |ys|
    && forall i :: 0 <= i < |levels| ==>
         (xs[i] >= ys[i] && levels[i].price >= pivot) || (xs[i] <= ys[i] && levels[i].price <= pivot)
  }

  lemma LeanHere(price: real, x: real, y: real, pivot: real)
    requires (x >= y && price >= pivot) || (x <= y && price <= pivot)
    ensures x * price - y * price >= pivot * (x - y)
  {
    var more, above := x - y, price - pivot;
    if more >= 0.0 && above >= 0.0 {
      SameSigns(more, above);
    } else {
      SameSigns(-more, -above);
    }
    Distribute(more, above, pivot);
    assert x * price - y * price == more * price;
  }

  lemma SameSigns(x: real, y: real)
    requires 0.0 <= x && 0.0 <= y
    ensures 0.0 <= x * y == (-x) * (-y)
  {
  }

  /** Leaning away from the pivot price costs at least that price for every share more. */
  lemma {:induction false} LeaningCosts(levels: seq<Level>, xs: seq<real>, ys: seq<real>, pivot: real)
    requires Leans(levels, xs, ys, pivot)
    ensures Cost(levels, xs) - Cost(levels, ys) >= pivot * (Total(xs) - Total(ys))
  {
    if levels != [] {
      LeanHere(levels[0].price, xs[0], ys[0], pivot);
      LeaningCosts(levels[1..], xs[1..], ys[1..], pivot);
      LeanOn(xs[0] * levels[0].price - ys[0] * levels[0].price, Cost(levels[1..], xs[1..]) - Cost(levels[1..], ys[1..]),
             pivot, xs[0] - ys[0], Total(xs[1..]) - Total(ys[1..]));
    }
  }

  lemma LeanOn(here: real, later: real, pivot: real, x: real, y: real)
    requires here >= pivot * x && later >= pivot * y
    ensures here + later >= pivot * (x + y)
  {
    Distribute(pivot, x, y);
  }

  lemma Distribute(factor: real, x: real, y: real)
    ensures factor * x + factor * y == factor * (x + y)
  {
  }

  lemma {:induction false} NothingTaken(levels: seq<Level>)
    ensures Cost(levels, Greedy(levels, 0.0)) == 0.0
    ensures forall i :: 0 <= i < |levels| ==> Greedy(levels, 0.0)[i] == 0.0
  {
    if levels != [] {
      var rest := Greedy(levels[1..], 0.0);
      NothingTaken(levels[1..]);
      assert ([0.0] + rest)[1..] == rest;
    }
  }

  lemma {:induction false} LastPriceIsLater(levels: seq<Level>, quantity: real)
    requires Ascending(levels) && levels != []
    ensures levels[0].price <= LastPrice(levels, quantity)
  {
    if quantity > Available(levels[0]) && levels[1..] != [] {
      LastPriceIsLater(levels[1..], quantity - Available(levels[0]));
    }
  }

  /** Any allocation leans away from the front one. */
  lemma {:induction false} AnyLeans(levels: seq<Level>, takes: seq<real>, quantity: real)
    requires Ascending(levels) && Allocation(levels, takes) && levels != [] && 0.0 <= quantity
    ensures Leans(levels, takes, Greedy(levels, quantity), LastPrice(levels, quantity))
  {
    var a, greedy := Available(levels[0]), Greedy(levels, quantity);
    var rest := Greedy(levels[1..], quantity - Min(quantity, a));
    assert greedy[1..] == rest;
    if quantity <= a {
      NothingTaken(levels[1..]);
    } else if levels[1..] != [] {
      AnyLeans(levels[1..], takes[1..], quantity - a);
      LastPriceIsLater(levels, quantity);
      forall i | 0 < i < |levels|
        ensures greedy[i] == rest[i - 1] && takes[i] == takes[1..][i - 1] && levels[i] == levels[1..][i - 1]
      {
      }
    }
  }

  /** No allocation of as many shares is cheaper than taking from the front. */
  lemma FrontIsCheapest(levels: seq<Level>, takes: seq<real>, quantity: real)
    requires Ascending(levels) && Allocation(levels, takes) && 0.0 <= quantity <= Depth(levels)
    requires Total(takes) == quantity
    ensures Cost(levels, Greedy(levels, quantity)) <= Cost(levels, takes)
  {
    if levels != [] {
      GreedyTakes(levels, quantity);
      AnyLeans(levels, takes, quantity);
      LeaningCosts(levels, takes, Greedy(levels, quantity), LastPrice(levels, quantity));
    }
  }

  /** The walk takes as much as is wanted or there, but for dust. */
  lemma {:induction false} WalkTakes(levels: seq<Level>, want: real)
    requires 0.0 <= want
    ensures var fill := Walk(levels, want);
            && fill.filled + fill.remaining == want
            && Min(want, Depth(levels)) - DUST <= fill.filled <= Min(want, Depth(levels)) && 0.0 <= fill.filled
            && (!fill.Complete() ==> fill.filled == Depth(levels))
  {
    if levels != [] {
      WalkTakes(levels[1..], want - Min(want, Available(levels[0])));
    }
  }

  /** The walk over the first level, then over the rest. */
  lemma WalkFront(levels: seq<Level>, want: real, take: real, fill: Fill, later: Fill)
    requires levels != [] && 0.0 <= want && take == Min(want, Available(levels[0]))
    requires fill == Walk(levels, want) && later == Walk(levels[1..], want - take)
    ensures if want - take <= DUST then fill == Fill(take, take * levels[0].price, want - take)
            else take == Available(levels[0])
                 && fill == Fill(take + later.filled, take * levels[0].price + later.notional, later.remaining)
  {
  }

  lemma PaysFront(levels: seq<Level>, take: real, later: Fill)
    requires levels != [] && take == Available(levels[0]) && 0.0 <= later.filled
    requires later.notional == Cost(levels[1..], Greedy(levels[1..], later.filled))
    ensures Cost(levels, Greedy(levels, take + later.filled)) == take * levels[0].price + later.notional
  {
    FrontCost(levels, take + later.filled, take);
    assert take + later.filled - take == later.filled;
  }

  lemma PaysOnce(levels: seq<Level>, take: real)
    requires levels != [] && 0.0 <= take <= Available(levels[0])
    ensures Cost(levels, Greedy(levels, take)) == take * levels[0].price
  {
    FrontCost(levels, take, take);
    NothingTaken(levels[1..]);
  }

  /** What it takes are the first shares. */
  lemma {:induction false} WalkPays(levels: seq<Level>, want: real)
    requires 0.0 <= want
    ensures Walk(levels, want).notional == Cost(levels, Greedy(levels, Walk(levels, want).filled))
  {
    if levels != [] {
      var take := Min(want, Available(levels[0]));
      var later := Walk(levels[1..], want - take);
      WalkFront(levels, want, take, Walk(levels, want), later);
      if want - take <= DUST {
        PaysOnce(levels, take);
      } else {
        WalkPays(levels[1..], want - take);
        WalkTakes(levels[1..], want - take);
        PaysFront(levels, take, later);
      }
    }
  }

  lemma FrontCost(levels: seq<Level>, quantity: real, take: real)
    requires levels != [] && take == Min(quantity, Available(levels[0]))
    ensures Cost(levels, Greedy(levels, quantity))
            == take * levels[0].price + Cost(levels[1..], Greedy(levels[1..], quantity - take))
  {
    var rest := Greedy(levels[1..], quantity - take);
    assert ([take] + rest)[1..] == rest;
  }

  /** What the walk fills, up to dust all that is wanted or there, it fills at the least cost. */
  lemma WalkIsOptimal(levels: seq<Level>, want: real, takes: seq<real>)
    requires 0.0 <= want && Ascending(levels) && Allocation(levels, takes)
    requires Total(takes) == Walk(levels, want).filled
    ensures Walk(levels, want).notional <= Cost(levels, takes)
    ensures Min(want, Depth(levels)) - DUST <= Total(takes) <= Min(want, Depth(levels))
  {
    WalkTakes(levels, want);
    WalkPays(levels, want);
    FrontIsCheapest(levels, takes, Walk(levels, want).filled);
  }

  // ---- selling into the bids ----

  predicate Descending(levels: seq<Level>) {
    forall i, j :: 0 <= i < j < |levels| ==> levels[j].price <= levels[i].price
  }

  function Negated(levels: seq<Level>): seq<Level> {
    seq(|levels|, i requires 0 <= i < |levels| => Level(-levels[i].price, levels[i].size))
  }

  lemma {:induction false} WalkNegated(levels: seq<Level>, want: real)
    ensures var fill := Walk(levels, want);
            Walk(Negated(levels), want) == Fill(fill.filled, -fill.notional, fill.remaining)
  {
    if levels != [] {
      assert Negated(levels)[1..] == Negated(levels[1..]);
      WalkNegated(levels[1..], want - Min(want, Available(levels[0])));
    }
  }

  lemma {:induction false} CostNegated(levels: seq<Level>, takes: seq<real>)
    requires |takes| == |levels|
    ensures Cost(Negated(levels), takes) == -Cost(levels, takes)
  {
    if levels != [] {
      assert Negated(levels)[1..] == Negated(levels[1..]);
      CostNegated(levels[1..], takes[1..]);
    }
  }

  /** Walking down the bids sells that quantity for the most. */
  lemma SaleIsOptimal(levels: seq<Level>, want: real, takes: seq<real>)
    requires 0.0 <= want && Descending(levels) && Allocation(levels, takes)
    requires Total(takes) == Walk(levels, want).filled
    ensures Cost(levels, takes) <= Walk(levels, want).notional
  {
    WalkNegated(levels, want);
    CostNegated(levels, takes);
    WalkIsOptimal(Negated(levels), want, takes);
  }

  // ---- the average price ----

  lemma Scaled(x: real, y: real, factor: real)
    requires x <= y && 0.0 <= factor
    ensures factor * x <= factor * y
  {
  }

  /** The average price never falls as more is wanted. */
  lemma AverageRises(levels: seq<Level>, few: real, many: real, less: Fill, more: Fill)
    requires Ascending(levels) && 0.0 <= few <= many
    requires less == Walk(levels, few) && more == Walk(levels, many)
    ensures less.filled <= more.filled
    ensures less.Vwap().Some? && more.Vwap().Some? ==> less.Vwap().value <= more.Vwap().value
  {
    FilledRises(levels, few, many);
    WalkTakes(levels, few);
    WalkTakes(levels, many);
    WalkPays(levels, few);
    WalkPays(levels, many);
    if less.filled != 0.0 {
      AverageOfMore(levels, less, more);
    }
  }

  lemma AverageOfMore(levels: seq<Level>, less: Fill, more: Fill)
    requires Ascending(levels) && 0.0 < less.filled <= more.filled <= Depth(levels)
    requires less.notional == Cost(levels, Greedy(levels, less.filled))
    requires more.notional == Cost(levels, Greedy(levels, more.filled))
    ensures less.notional / less.filled <= more.notional / more.filled
  {
    var price := NextPrice(levels, less, more);
    AverageBelow(less.filled, less.notional, more.filled, more.notional, price);
  }

  /** The price lies between the average of the first `f` shares and that of the rest of `g`. */
  predicate Between(f: real, n: real, g: real, m: real, price: real) {
    n <= f * price && n + (g - f) * price <= m
  }

  lemma AverageBelow(f: real, n: real, g: real, m: real, price: real)
    requires 0.0 < f <= g && Between(f, n, g, m, price)
    ensures n / f <= m / g
  {
    Averages(f, n, g, m, price);
    CrossDivide(n, f, m, g);
  }

  /** A price between the average of the first shares and the prices of all later ones. */
  lemma NextPrice(levels: seq<Level>, less: Fill, more: Fill) returns (price: real)
    requires Ascending(levels) && 0.0 < less.filled <= more.filled <= Depth(levels)
    requires less.notional == Cost(levels, Greedy(levels, less.filled))
    requires more.notional == Cost(levels, Greedy(levels, more.filled))
    ensures Between(less.filled, less.notional, more.filled, more.notional, price)
  {
    assert levels != [];
    price := LastPrice(levels, less.filled);
    FrontBelow(levels, less, price);
    FrontAbove(levels, less, more, price);
  }

  /** The last price lies above the average of the first shares... */
  lemma FrontBelow(levels: seq<Level>, fill: Fill, price: real)
    requires Ascending(levels) && levels != [] && 0.0 < fill.filled <= Depth(levels)
    requires fill.notional == Cost(levels, Greedy(levels, fill.filled)) && price == LastPrice(levels, fill.filled)
    ensures fill.notional <= fill.filled * price
  {
    var none := Greedy(levels, 0.0);
    GreedyTakes(levels, 0.0);
    GreedyTakes(levels, fill.filled);
    NothingTaken(levels);
    AnyLeans(levels, none, fill.filled);
    LeaningCosts(levels, none, Greedy(levels, fill.filled), price);
    assert price * (0.0 - fill.filled) == -(fill.filled * price);
  }

  /** ...and below the price of every later share. */
  lemma FrontAbove(levels: seq<Level>, less: Fill, more: Fill, price: real)
    requires Ascending(levels) && levels != [] && 0.0 < less.filled <= more.filled <= Depth(levels)
    requires less.notional == Cost(levels, Greedy(levels, less.filled))
    requires more.notional == Cost(levels, Greedy(levels, more.filled)) && price == LastPrice(levels, less.filled)
    ensures less.notional + (more.filled - less.filled) * price <= more.notional
  {
    GreedyTakes(levels, less.filled);
    GreedyTakes(levels, more.filled);
    AnyLeans(levels, Greedy(levels, more.filled), less.filled);
    LeaningCosts(levels, Greedy(levels, more.filled), Greedy(levels, less.filled), price);
    assert price * (more.filled - less.filled) == (more.filled - less.filled) * price;
  }

  lemma Averages(f: real, n: real, g: real, m: real, price: real)
    requires 0.0 < f <= g && n <= f * price && n + (g - f) * price <= m
    ensures n * g <= m * f
  {
    var d := g - f;
    Scaled(n, f * price, d);
    Scaled(n + d * price, m, f);
    assert d * (f * price) == f * (d * price);
    assert f * (n + d * price) == f * n + f * (d * price);
    assert n * g == f * n + d * n;
  }

  lemma CrossDivide(n: real, f: real, m: real, g: real)
    requires 0.0 < f && 0.0 < g && n * g <= m * f
    ensures n / f <= m / g
  {
    assert n / f == (n * g) / (f * g) && m / g == (m * f) / (f * g);
  }

  lemma {:induction false} FilledRises(levels: seq<Level>, few: real, many: real)
    requires 0.0 <= few <= many
    ensures Walk(levels, few).filled <= Walk(levels, many).filled
  {
    if levels != [] {
      var a := Available(levels[0]);
      var less, more := Min(few, a), Min(many, a);
      if few - less > DUST {
        FilledRises(levels[1..], few - less, many - more);
      } else if many - more > DUST {
        WalkTakes(levels[1..], many - more);
      }
    }
  }

  // ---- a pair ----

  function TakerFee(shares: real, price: real, rate: real): real {
    Max(0.0, shares * rate * price * (1.0 - price))
  }

  datatype PairOpportunity = PairOpportunity(up: Fill, down: Fill, upFee: real, downFee: real,
                                             totalCost: Option<real>, profit: Option<real>, profitable: bool)

  function EvaluatePair(upAsks: seq<Level>, downAsks: seq<Level>, size: real, rate: real): PairOpportunity {
    var up, down := Walk(upAsks, Max(0.0, size)), Walk(downAsks, Max(0.0, size));
    var upFee := TakerFee(up.filled, up.Vwap().GetOr(0.0), rate);
    var downFee := TakerFee(down.filled, down.Vwap().GetOr(0.0), rate);
    var total := if up.Complete() && down.Complete() then Some(up.notional + down.notional + upFee + downFee) else None;
    var profit := if total.Some? then Some(size - total.value) else None;
    PairOpportunity(up, down, upFee, downFee, total, profit, profit.Some? && profit.value > 0.0)
  }

  datatype PositionCurve = PositionCurve(upShares: real, upCost: real, downShares: real, downCost: real) {
    function TotalCost(): real {
      upCost + downCost
    }

    function PnlIfUp(): real {
      upShares - TotalCost()
    }

    function PnlIfDown(): real {
      downShares - TotalCost()
    }
  }

  datatype Classification = BothProfit | OneSideProfit | BothLoss

  function Classify(p: PositionCurve): Classification {
    if p.PnlIfUp() > 0.0 && p.PnlIfDown() > 0.0 then BothProfit
    else if p.PnlIfUp() > 0.0 || p.PnlIfDown() > 0.0 then OneSideProfit
    else BothLoss
  }

  /** The position a pair leaves, fees included in its cost. */
  function PositionOf(o: PairOpportunity): PositionCurve {
    PositionCurve(o.up.filled, o.up.notional + o.upFee, o.down.filled, o.down.notional + o.downFee)
  }

  /** The shares of the smaller side. */
  function PairedShares(o: PairOpportunity): real {
    Min(o.up.filled, o.down.filled)
  }

  lemma FilledPair(upAsks: seq<Level>, downAsks: seq<Level>, size: real, rate: real)
    requires 0.0 <= size
    ensures var o := EvaluatePair(upAsks, downAsks, size, rate);
            o.totalCost.Some? ==>
              size - DUST <= PairedShares(o) <= size && o.totalCost.value == PositionOf(o).TotalCost()
    ensures var o := EvaluatePair(upAsks, downAsks, size, rate);
            o.profitable <==> o.totalCost.Some? && o.totalCost.value < size
  {
    WalkTakes(upAsks, size);
    WalkTakes(downAsks, size);
  }

  lemma BothProfitWhen(p: PositionCurve)
    ensures Classify(p) == BothProfit <==> p.TotalCost() < Min(p.upShares, p.downShares)
  {
  }

  // ---- profitable, and profiting on both sides ----

  /** How many levels are visited: up to the first after which no more than dust is missing. */
  function Visited(levels: seq<Level>, want: real): (k: nat)
    ensures k <= |levels|
  {
    if levels == [] then 0
    else if want - Available(levels[0]) <= DUST then 1
    else 1 + Visited(levels[1..], want - Available(levels[0]))
  }

  /** What those levels hold of what is wanted. */
  function Quantity(levels: seq<Level>, want: real): real {
    Min(want, Depth(levels[..Visited(levels, want)]))
  }

  lemma DepthFront(levels: seq<Level>, k: nat)
    requires 0 < k <= |levels|
    ensures Depth(levels[..k]) == Available(levels[0]) + Depth(levels[1..][..k - 1])
  {
    assert levels[..k][1..] == levels[1..][..k - 1];
  }

  /** The level at which visiting ends is the first up to which all but dust of what is wanted is there. */
  lemma {:induction false} VisitedIsFirst(levels: seq<Level>, want: real, j: nat)
    requires 0 < j <= |levels|
    ensures j < Visited(levels, want) ==> Depth(levels[..j]) < want - DUST
    ensures Depth(levels) < want - DUST ==> Visited(levels, want) == |levels|
    ensures j == Visited(levels, want) && want - DUST <= Depth(levels) ==> want - DUST <= Depth(levels[..j])
  {
    var a := Available(levels[0]);
    DepthFront(levels, j);
    assert Depth(levels[..j]) >= a;
    if want - a > DUST && j > 1 {
      VisitedIsFirst(levels[1..], want - a, j - 1);
    } else if want - a > DUST && levels[1..] != [] {
      VisitedIsFirst(levels[1..], want - a, 1);
    }
  }

  lemma {:induction false} WalkFills(levels: seq<Level>, want: real)
    requires 0.0 <= want
    ensures Walk(levels, want).filled == Quantity(levels, want)
  {
    if levels != [] {
      var a := Available(levels[0]);
      DepthFront(levels, Visited(levels, want));
      if want - a > DUST {
        WalkFills(levels[1..], want - a);
      }
    }
  }

  /** Paying for the first `quantity` shares, and the taker fee at their average price. */
  function SideCost(levels: seq<Level>, quantity: real, rate: real): real {
    var cost := Cost(levels, Greedy(levels, quantity));
    cost + TakerFee(quantity, if quantity == 0.0 then 0.0 else cost / quantity, rate)
  }

  /** Both books hold the size, but for dust. */
  predicate Fillable(upAsks: seq<Level>, downAsks: seq<Level>, size: real) {
    size - DUST <= Depth(upAsks) && size - DUST <= Depth(downAsks)
  }

  /** What is paid lies between the pairs there are and the pairs that were wanted. */
  predicate PaidWithinDust(upAsks: seq<Level>, downAsks: seq<Level>, size: real, rate: real) {
    var up, down := Quantity(upAsks, size), Quantity(downAsks, size);
    Min(up, down) <= SideCost(upAsks, up, rate) + SideCost(downAsks, down, rate) < size
  }

  lemma PairFromLevels(upAsks: seq<Level>, downAsks: seq<Level>, size: real, rate: real)
    requires 0.0 <= size
    ensures var o := EvaluatePair(upAsks, downAsks, size, rate);
            var up, down := Quantity(upAsks, size), Quantity(downAsks, size);
            && o.up.filled == up && o.down.filled == down
            && (o.totalCost.Some? <==> Fillable(upAsks, downAsks, size))
            && PositionOf(o).TotalCost() == SideCost(upAsks, up, rate) + SideCost(downAsks, down, rate)
  {
    WalkTakes(upAsks, size);
    WalkTakes(downAsks, size);
    WalkFills(upAsks, size);
    WalkFills(downAsks, size);
    WalkPays(upAsks, size);
    WalkPays(downAsks, size);
  }

  /** A pair is reported profitable exactly when the books hold it and its position profits on both sides,
      but when the books hold it and it is paid within dust: then it is reported and does not profit. */
  lemma ProfitableIsBothProfit(upAsks: seq<Level>, downAsks: seq<Level>, size: real, rate: real)
    requires 0.0 <= size
    ensures var o := EvaluatePair(upAsks, downAsks, size, rate);
            (o.profitable <==> Fillable(upAsks, downAsks, size) && Classify(PositionOf(o)) == BothProfit)
            <==> !(Fillable(upAsks, downAsks, size) && PaidWithinDust(upAsks, downAsks, size, rate))
  {
    FilledPair(upAsks, downAsks, size, rate);
    PairFromLevels(upAsks, downAsks, size, rate);
    BothProfitWhen(PositionOf(EvaluatePair(upAsks, downAsks, size, rate)));
  }

  /** The book holds what is wanted, and where its first levels hold all of it but dust they hold all of it. */
  predicate HoldsAll(levels: seq<Level>, want: real) {
    && want <= Depth(levels)
    && forall j :: 0 < j <= |levels| && want - DUST <= Depth(levels[..j]) ==> want <= Depth(levels[..j])
  }

  lemma AllIsVisited(levels: seq<Level>, want: real)
    requires 0.0 <= want && HoldsAll(levels, want)
    ensures Quantity(levels, want) == want
  {
    var k := Visited(levels, want);
    if levels != [] {
      VisitedIsFirst(levels, want, k);
      assert want - DUST <= Depth(levels[..k]);
    }
  }

  /** There is no such exception where both books hold the whole size. */
  lemma WholePairs(upAsks: seq<Level>, downAsks: seq<Level>, size: real, rate: real)
    requires 0.0 <= size && HoldsAll(upAsks, size) && HoldsAll(downAsks, size)
    ensures var o := EvaluatePair(upAsks, downAsks, size, rate);
            && o.totalCost.Some? && PairedShares(o) == size
            && (o.profitable <==> Classify(PositionOf(o)) == BothProfit)
  {
    AllIsVisited(upAsks, size);
    AllIsVisited(downAsks, size);
    FilledPair(upAsks, downAsks, size, rate);
    PairFromLevels(upAsks, downAsks, size, rate);
    BothProfitWhen(PositionOf(EvaluatePair(upAsks, downAsks, size, rate)));
  }

  /** Half a billionth of a share is missing on one side: the pair is reported profitable, and
      costs more than it pays if that side wins. */
  lemma DustIsNotProfit()
    ensures var o := EvaluatePair([Level(0.5, 0.9999999995)], [Level(0.5, 1.0)], 1.0, 0.0);
            o.profitable && Classify(PositionOf(o)) == OneSideProfit
  {
    var up := Walk([Level(0.5, 0.9999999995)], 1.0);
    var down := Walk([Level(0.5, 1.0)], 1.0);
    assert up == Fill(0.9999999995, 0.49999999975, 0.0000000005);
    assert down == Fill(1.0, 0.5, 0.0);
    assert TakerFee(up.filled, up.Vwap().GetOr(0.0), 0.0) == 0.0;
    assert TakerFee(down.filled, down.Vwap().GetOr(0.0), 0.0) == 0.0;
  }
}
