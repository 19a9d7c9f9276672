/** Buying a pair as two legs some time apart, observed on the books: when an attempt starts, and
    what it has come to when it is due. */
module ObservedArb {
  import opened Numbers
  import opened Options
  import opened OrderFills

  datatype LegOrder = UpThenDown | DownThenUp

  /** One side of a pair on its book. */
  datatype BookLeg = BookLeg(requested: real, executable: real, vwap: real, gross: real, fee: real,
                             snapshot: bool, recent: bool, synced: bool, crossed: bool, generation: nat, session: nat)

  datatype Defect =
    | GenerationChanged
    | SessionChanged
    | MissingSnapshot
    | StaleBook
    | NotSynced
    | CrossedBook
    | DepthMissing
    | PriceMissing
    | FeeNegative

  /** What an attempt was started on. */
  datatype Terms = Terms(generation: nat, session: nat, order: LegOrder, size: real, payout: real, buffer: real,
                         first: BookLeg, due: real, valid: bool)

  datatype State = Pending | BookExecutable | Orphaned | Invalidated

  datatype Observation = Observation(state: State, lockedProfit: real, orphanPnl: real)

  /** `invalid_reason`. */
  function DefectOf(leg: BookLeg, generation: nat, session: nat): Option<Defect> {
    if leg.generation != generation then Some(GenerationChanged)
    else if leg.session != session then Some(SessionChanged)
    else if !leg.snapshot then Some(MissingSnapshot)
    else if !leg.recent then Some(StaleBook)
    else if !leg.synced then Some(NotSynced)
    else if leg.crossed then Some(CrossedBook)
    else if leg.requested <= 0.0 || leg.executable + 0.000000000001 < leg.requested then Some(DepthMissing)
    else if leg.vwap <= 0.0 || leg.gross <= 0.0 then Some(PriceMissing)
    else if leg.fee < 0.0 then Some(FeeNegative)
    else None
  }

  /** A defect of the book itself, as opposed to what it offers. */
  predicate BookGone(defect: Defect) {
    defect !in {DepthMissing, PriceMissing, FeeNegative}
  }

  function StartBuyBoth(generation: nat, session: nat, order: LegOrder, size: real, payout: real, buffer: real,
                        first: BookLeg, due: real): Terms {
    var leg := first.(requested := size);
    Terms(generation, session, order, size, payout, buffer, leg, due,
          size > 0.0 && payout > 0.0 && buffer >= 0.0 && DefectOf(leg, generation, session).None?)
  }

  function LegCost(leg: BookLeg): real {
    leg.gross + leg.fee
  }

  /** Selling the first leg again when that is possible, else losing it. */
  function OrphanPnl(t: Terms, exit: BookLeg): real {
    if DefectOf(exit, t.generation, t.session).Some? then -LegCost(t.first) - t.buffer
    else exit.gross - exit.fee - LegCost(t.first) - t.buffer
  }

  /** `observe_buy_both`. */
  function ObserveBuyBoth(t: Terms, second: BookLeg, exit: BookLeg, now: real): Observation {
    var leg, out := second.(requested := t.size), exit.(requested := t.size);
    var profit := t.payout - (LegCost(t.first) + LegCost(leg) + t.buffer);
    if !t.valid then Observation(Invalidated, 0.0, 0.0)
    else if now < t.due then Observation(Pending, 0.0, 0.0)
    else
      match DefectOf(leg, t.generation, t.session)
      case Some(defect) =>
        Observation(if BookGone(defect) then Invalidated else Orphaned, 0.0, OrphanPnl(t, out))
      case None =>
        if profit <= 0.0 then Observation(Orphaned, profit, OrphanPnl(t, out))
        else Observation(BookExecutable, profit, 0.0)
  }

  // ---- legs from books ----

  /** A token's book as it is priced: asks from the lowest, bids from the highest. */
  datatype Sheet = Sheet(asks: seq<Level>, bids: seq<Level>, snapshot: bool, crossed: bool, generation: nat)

  /** Rounded at five places, halves away from zero. */
  function RoundFee(x: real): (r: real)
    ensures x >= 0.0 ==> r >= 0.0
  {
    if x >= 0.0 then (x * 100000.0 + 0.5).Floor as real / 100000.0
    else -((-x * 100000.0 + 0.5).Floor as real / 100000.0)
  }

  function FeeOn(filled: real, rate: real, vwap: real): real {
    RoundFee(filled * rate * vwap * (1.0 - vwap))
  }

  function LegOn(fill: Fill, vwap: real, sheet: Sheet, size: real, rate: real, synced: bool, session: nat): BookLeg {
    BookLeg(size, fill.filled, vwap, fill.filled * vwap, FeeOn(fill.filled, rate, vwap),
            sheet.snapshot, synced, synced, sheet.crossed, sheet.generation, session)
  }

  function LegFrom(levels: seq<Level>, sheet: Sheet, size: real, rate: real, synced: bool, session: nat): BookLeg {
    var fill := Walk(levels, size);
    LegOn(fill, fill.Vwap().GetOr(0.0), sheet, size, rate, synced, session)
  }

  function BuyLeg(sheet: Sheet, size: real, rate: real, synced: bool, session: nat): BookLeg {
    LegFrom(sheet.asks, sheet, size, rate, synced, session)
  }

  function SellLeg(sheet: Sheet, size: real, rate: real, synced: bool, session: nat): BookLeg {
    LegFrom(sheet.bids, sheet, size, rate, synced, session)
  }

  /** What a market is observed by: its books, its fee rate, and where the session stands. */
  datatype Quotes = Quotes(up: Sheet, down: Sheet, rate: real, synced: bool, secondsToClose: real,
                           generation: nat, session: nat, bufferPerShare: real)
  {
    function Buy(order: LegOrder, size: real): BookLeg {
      BuyLeg(if order == UpThenDown then up else down, size, rate, synced, session)
    }

    function Sell(order: LegOrder, size: real): BookLeg {
      SellLeg(if order == UpThenDown then up else down, size, rate, synced, session)
    }
  }

  function Other(order: LegOrder): LegOrder {
    if order == UpThenDown then DownThenUp else UpThenDown
  }

  /** Both legs of a pair as bought and sold on the books, and the buffer kept for execution. */
  datatype Legs = Legs(buyUp: BookLeg, buyDown: BookLeg, sellUp: BookLeg, sellDown: BookLeg, buffer: real) {
    function Buy(order: LegOrder): BookLeg {
      if order == UpThenDown then buyUp else buyDown
    }

    function Sell(order: LegOrder): BookLeg {
      if order == UpThenDown then sellUp else sellDown
    }

    function Profit(size: real): real {
      size - (LegCost(buyUp) + LegCost(buyDown) + buffer)
    }

    function Terms(generation: nat, session: nat, order: LegOrder, size: real, due: real): Terms {
      StartBuyBoth(generation, session, order, size, size, buffer, Buy(order), due)
    }

    function Observe(t: Terms, now: real): Observation {
      ObserveBuyBoth(t, Buy(Other(t.order)), Sell(t.order), now)
    }
  }

  function LegsOf(q: Quotes, size: real): Legs {
    Legs(q.Buy(UpThenDown, size), q.Buy(DownThenUp, size), q.Sell(UpThenDown, size), q.Sell(DownThenUp, size),
         size * q.bufferPerShare)
  }

  function Profit(q: Quotes, size: real): real {
    LegsOf(q, size).Profit(size)
  }

  /** Both sides can be bought in full for less than the payout, not too near nor too far from the close. */
  predicate Qualified(q: Quotes, size: real) {
    && q.synced && q.Buy(UpThenDown, size).executable >= size && q.Buy(DownThenUp, size).executable >= size
    && Profit(q, size) > 0.0 && 20.0 <= q.secondsToClose <= 7200.0
  }

  function TermsOf(q: Quotes, order: LegOrder, size: real, due: real): Terms {
    LegsOf(q, size).Terms(q.generation, q.session, order, size, due)
  }

  /** The first leg has been bought; the second is bought, or the first is sold again, on these books. */
  function Observe(t: Terms, q: Quotes, now: real): Observation {
    LegsOf(q, t.size).Observe(t, now)
  }

  // ---- what starts, and what becomes of it ----

  /** A book that can be priced in the session, at prices that are probabilities. */
  predicate Ready(sheet: Sheet, generation: nat) {
    && sheet.snapshot && !sheet.crossed && sheet.generation == generation
    && forall i :: 0 <= i < |sheet.asks| ==> 0.0 < sheet.asks[i].price <= 1.0
  }

  lemma PricedShares(take: real, price: real)
    requires 0.0 <= take && 0.0 < price <= 1.0
    ensures 0.0 <= take * price <= take && (0.0 < take ==> 0.0 < take * price)
  {
    assert take * (1.0 - price) >= 0.0;
    assert take * (1.0 - price) == take - take * price;
  }

  /** A fill at prices that are probabilities. */
  predicate FairFill(fill: Fill) {
    0.0 <= fill.notional <= fill.filled && (0.0 < fill.filled ==> 0.0 < fill.notional)
  }

  lemma FrontIsFair(fill: Fill, take: real, price: real, paid: real, later: Fill)
    requires 0.0 <= take && 0.0 < price <= 1.0 && paid == take * price && FairFill(later)
    requires (fill.filled == take && fill.notional == paid)
             || (fill.filled == take + later.filled && fill.notional == paid + later.notional)
    ensures FairFill(fill)
  {
    PricedShares(take, price);
  }

  lemma {:induction false} WalkIsFair(levels: seq<Level>, want: real)
    requires 0.0 <= want && forall i :: 0 <= i < |levels| ==> 0.0 < levels[i].price <= 1.0
    ensures FairFill(Walk(levels, want))
  {
    if levels != [] {
      var take := Min(want, Available(levels[0]));
      var fill, later := Walk(levels, want), Walk(levels[1..], want - take);
      WalkIsFair(levels[1..], want - take);
      WalkFront(levels, want, take, fill, later);
      FrontIsFair(fill, take, levels[0].price, take * levels[0].price, later);
    }
  }

  lemma AverageIsAPrice(notional: real, filled: real)
    requires 0.0 < notional <= filled
    ensures 0.0 < notional / filled <= 1.0 && filled * (notional / filled) == notional
  {
    var average := notional / filled;
    assert average * filled == notional;
  }

  lemma FeeIsPositive(filled: real, rate: real, vwap: real)
    requires 0.0 <= filled && 0.0 <= rate && 0.0 <= vwap <= 1.0
    ensures FeeOn(filled, rate, vwap) >= 0.0
  {
    assert filled * rate >= 0.0;
    assert filled * rate * vwap >= 0.0;
    assert filled * rate * vwap * (1.0 - vwap) >= 0.0;
  }

  lemma SoundLeg(leg: BookLeg, generation: nat, session: nat)
    requires leg.generation == generation && leg.session == session && leg.snapshot && leg.recent && leg.synced
    requires !leg.crossed && 0.0 < leg.requested <= leg.executable && 0.0 < leg.vwap && 0.0 < leg.gross
             && 0.0 <= leg.fee
    ensures DefectOf(leg, generation, session).None?
  {
  }

  lemma PricedFill(fill: Fill, size: real)
    requires FairFill(fill) && 0.0 < size <= fill.filled
    ensures fill.Vwap().Some? && 0.0 < fill.Vwap().value <= 1.0 && 0.0 < fill.filled * fill.Vwap().value
  {
    AverageIsAPrice(fill.notional, fill.filled);
  }

  /** A leg bought in full from a ready book has no defect. */
  lemma ReadyLeg(sheet: Sheet, size: real, rate: real, session: nat, generation: nat)
    requires Ready(sheet, generation) && 0.0 < size && 0.0 <= rate
    requires BuyLeg(sheet, size, rate, true, session).executable >= size
    ensures DefectOf(BuyLeg(sheet, size, rate, true, session), generation, session).None?
  {
    var fill := Walk(sheet.asks, size);
    WalkIsFair(sheet.asks, size);
    PricedFill(fill, size);
    ReadyLegOn(fill, fill.Vwap().value, sheet, size, rate, session, generation);
  }

  lemma ReadyLegOn(fill: Fill, vwap: real, sheet: Sheet, size: real, rate: real, session: nat, generation: nat)
    requires Ready(sheet, generation) && 0.0 < size <= fill.filled && 0.0 <= rate
    requires 0.0 < vwap <= 1.0 && 0.0 < fill.filled * vwap
    ensures DefectOf(LegOn(fill, vwap, sheet, size, rate, true, session), generation, session).None?
  {
    FeeIsPositive(fill.filled, rate, vwap);
    SoundLeg(LegOn(fill, vwap, sheet, size, rate, true, session), generation, session);
  }

  lemma LegsExecute(legs: Legs, generation: nat, session: nat, order: LegOrder, size: real, due: real, now: real)
    requires 0.0 < size == legs.buyUp.requested == legs.buyDown.requested && 0.0 <= legs.buffer
    requires DefectOf(legs.buyUp, generation, session).None? && DefectOf(legs.buyDown, generation, session).None?
    requires legs.Profit(size) > 0.0
    ensures var t := legs.Terms(generation, session, order, size, due);
            && t.valid && t.size == size
            && (due <= now ==> legs.Observe(t, now) == Observation(BookExecutable, legs.Profit(size), 0.0))
  {
    assert legs.buyUp.(requested := size) == legs.buyUp && legs.buyDown.(requested := size) == legs.buyDown;
  }

  lemma BufferIsPositive(size: real, perShare: real)
    requires 0.0 < size && 0.0 <= perShare
    ensures 0.0 <= size * perShare
  {
  }

  /** On ready books every attempt that qualifies starts, whichever leg goes first; and if the books
      are still the same when it is due, it is executable at the very profit it qualified with. */
  lemma QualifiedExecutes(q: Quotes, order: LegOrder, size: real, due: real, now: real)
    requires Qualified(q, size) && 0.0 < size && 0.0 <= q.rate && 0.0 <= q.bufferPerShare
    requires Ready(q.up, q.generation) && Ready(q.down, q.generation)
    ensures TermsOf(q, order, size, due).valid
    ensures due <= now ==>
              Observe(TermsOf(q, order, size, due), q, now) == Observation(BookExecutable, Profit(q, size), 0.0)
  {
    ReadyLeg(q.up, size, q.rate, q.session, q.generation);
    ReadyLeg(q.down, size, q.rate, q.session, q.generation);
    BufferIsPositive(size, q.bufferPerShare);
    LegsExecute(LegsOf(q, size), q.generation, q.session, order, size, due, now);
  }

  /** However the books have moved: an executable pair pays more than everything spent on it, holds its
      size on both sides but for a trillionth, and belongs to the session it was started in. */
  lemma ExecutableLocksProfit(t: Terms, q: Quotes, now: real)
    requires Observe(t, q, now).state == BookExecutable
    ensures t.valid && t.due <= now && q.session == t.session
    ensures var second := q.Buy(Other(t.order), t.size);
            && LegCost(t.first) + LegCost(second) + t.buffer + Observe(t, q, now).lockedProfit == t.payout
            && Observe(t, q, now).lockedProfit > 0.0
            && second.executable + 0.000000000001 >= t.size && second.generation == t.generation && !second.crossed
  {
  }

  /** An observation invalidates exactly when the second book is gone: of another generation or session,
      without a snapshot, stale or crossed. */
  lemma InvalidatedWithTheBook(t: Terms, q: Quotes, now: real)
    requires t.valid && t.due <= now
    ensures var sheet := if t.order == UpThenDown then q.down else q.up;
            Observe(t, q, now).state == Invalidated
            <==> !(sheet.generation == t.generation && q.session == t.session && sheet.snapshot && q.synced
                   && !sheet.crossed)
  {
  }
}
