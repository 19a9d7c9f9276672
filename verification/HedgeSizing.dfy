/** Sizing the hedge of a directional position held to settlement. */
module HedgeSizing {
  import opened Numbers
  import opened ShadowPortfolio

  datatype HedgeCase = HedgeCase(mainSize: real, mainCost: real, mainProbability: real,
                                 hedgePrice: real, hedgeUnitCost: real, targetDepthOk: bool, liquidity: real,
                                 minimumLiquidity: real, slippage: real, maximumSlippage: real)

  datatype HedgeReason =
    | PriceAboveLimit
    | DepthInsufficient
    | SlippageExceeded
    | UnitCostInvalid
    | NotRequired
    | Infeasible
    | MainWinNotPositive
    | ReversalLossAboveLimit
    | ExpectationBelowThreshold
    | Hedged

  function Probability(c: HedgeCase): real {
    Min(1.0, Max(0.0, c.mainProbability))
  }

  /** Results of the pair of positions when `size` shares are bought as hedge. */
  function MainWin(c: HedgeCase, size: real): real {
    c.mainSize - (c.mainCost + size * c.hedgeUnitCost)
  }

  function Reversal(c: HedgeCase, size: real): real {
    size - (c.mainCost + size * c.hedgeUnitCost)
  }

  function Expected(c: HedgeCase, size: real): real {
    Probability(c) * MainWin(c, size) + (1.0 - Probability(c)) * Reversal(c, size)
  }

  function HedgeEdge(c: HedgeCase): real {
    1.0 - Probability(c) - c.hedgeUnitCost
  }

  function MinimumSize(c: HedgeCase): real
    requires c.hedgeUnitCost < 1.0
  {
    Max(0.0, (c.mainCost - 1.0) / (1.0 - c.hedgeUnitCost))
  }

  function MaximumSize(c: HedgeCase): real {
    var affordable :=
      if c.hedgeUnitCost > 0.0 then Max(0.0, (c.mainSize - c.mainCost) / c.hedgeUnitCost) else c.mainSize;
    Min(Min(c.mainSize, c.liquidity), affordable)
  }

  /** The size chosen, or the reason there is none. */
  function ChooseSize(c: HedgeCase): (HedgeReason, real) {
    if c.hedgePrice > 0.05 then (PriceAboveLimit, 0.0)
    else if !c.targetDepthOk || c.liquidity < c.minimumLiquidity then (DepthInsufficient, 0.0)
    else if c.slippage > c.maximumSlippage then (SlippageExceeded, 0.0)
    else if c.hedgeUnitCost >= 1.0 then (UnitCostInvalid, 0.0)
    else if MinimumSize(c) <= 0.0 && HedgeEdge(c) <= 0.0 then (NotRequired, 0.0)
    else if MinimumSize(c) > MaximumSize(c) + SLACK then (Infeasible, 0.0)
    else (Hedged, if HedgeEdge(c) > 0.0 then MaximumSize(c) else MinimumSize(c))
  }

  /** The whole decision. */
  function Decide(c: HedgeCase): (HedgeReason, real) {
    var (reason, size) := ChooseSize(c);
    if reason != Hedged then (reason, size)
    else if MainWin(c, size) <= 0.0 then (MainWinNotPositive, size)
    else if Reversal(c, size) < -1.0 - 0.000000001 then (ReversalLossAboveLimit, size)
    else if Expected(c, size) < 0.05 then (ExpectationBelowThreshold, size)
    else (Hedged, size)
  }

  /** Each hedge share adds its edge to the expected result. */
  lemma ExpectedIsLinear(c: HedgeCase, size: real, other: real)
    ensures Expected(c, size) - Expected(c, other) == (size - other) * HedgeEdge(c)
  {
    var p, u := Probability(c), c.hedgeUnitCost;
    Blend(p, u, c.mainSize, c.mainCost, size);
    Blend(p, u, c.mainSize, c.mainCost, other);
    assert (size - other) * HedgeEdge(c) == size * (1.0 - p - u) - other * (1.0 - p - u);
  }

  lemma Blend(p: real, u: real, main: real, cost: real, size: real)
    ensures p * (main - (cost + size * u)) + (1.0 - p) * (size - (cost + size * u))
            == p * main - cost + size * (1.0 - p - u)
  {
    assert p * (main - (cost + size * u)) == p * main - p * cost - p * (size * u);
    assert (1.0 - p) * (size - (cost + size * u)) == size - cost - size * u - p * size + p * cost + p * (size * u);
    assert size * (1.0 - p - u) == size - size * p - size * u;
  }

  /** The lower end of the interval is exactly where a reversal loses one dollar. */
  lemma MinimumCapsLoss(c: HedgeCase, size: real)
    requires c.hedgeUnitCost < 1.0 && 0.0 <= size
    ensures Reversal(c, size) >= -1.0 <==> MinimumSize(c) <= size
  {
    var k := 1.0 - c.hedgeUnitCost;
    assert Reversal(c, size) == size * k - c.mainCost;
    Quotient(c.mainCost - 1.0, k, size);
  }

  lemma Quotient(a: real, k: real, x: real)
    requires k > 0.0
    ensures a / k <= x <==> a <= x * k
  {
    assert a / k * k == a;
    if a / k <= x {
      assert a / k * k <= x * k;
    } else {
      assert a / k * k > x * k;
    }
  }

  /** Its upper end respects the size hedged, the liquidity, and breaking even on a win. */
  lemma MaximumIsAffordable(c: HedgeCase, size: real)
    requires 0.0 <= size <= MaximumSize(c) && 0.0 <= c.hedgeUnitCost
    ensures size <= c.mainSize && size <= c.liquidity
    ensures MainWin(c, size) >= 0.0 || c.mainCost > c.mainSize
  {
    if c.hedgeUnitCost > 0.0 {
      Quotient(c.mainSize - c.mainCost, c.hedgeUnitCost, size);
      if size > 0.0 || c.mainSize >= c.mainCost {
        assert size * c.hedgeUnitCost <= Max(0.0, c.mainSize - c.mainCost) by {
          Affordable(c.mainSize - c.mainCost, c.hedgeUnitCost, size);
        }
      }
    }
  }

  lemma Affordable(room: real, unit: real, size: real)
    requires unit > 0.0 && 0.0 <= size <= Max(0.0, room / unit)
    ensures size * unit <= Max(0.0, room)
  {
    assert room / unit * unit == room;
    if room >= 0.0 {
      assert room / unit >= 0.0 by {
        Quotient(room, unit, 0.0);
      }
      assert size * unit <= room / unit * unit;
    } else {
      Quotient(room, unit, 0.0);
    }
  }

  lemma SameSign(x: real, y: real)
    requires (x >= 0.0 && y >= 0.0) || (x <= 0.0 && y <= 0.0)
    ensures x * y >= 0.0
  {
  }

  /** When the interval is not empty the chosen size lies in it, no size of the interval promises
      more, and a reversal loses at most one dollar. */
  lemma ChosenIsBest(c: HedgeCase, other: real)
    requires ChooseSize(c).0 == Hedged && MinimumSize(c) <= other <= MaximumSize(c)
    ensures var size := ChooseSize(c).1;
            && MinimumSize(c) <= size <= MaximumSize(c)
            && Expected(c, other) <= Expected(c, size) && Reversal(c, size) >= -1.0
  {
    var size := ChooseSize(c).1;
    ExpectedIsLinear(c, size, other);
    SameSign(size - other, HedgeEdge(c));
    MinimumCapsLoss(c, size);
  }

  /** The tolerance admits an interval that is empty by a hair: the loss bound then fails exactly
      when the largest size is chosen, which is when the hedge has an edge. */
  lemma EmptyByAHair(c: HedgeCase)
    requires ChooseSize(c).0 == Hedged && MinimumSize(c) > MaximumSize(c) && 0.0 <= MaximumSize(c)
    ensures Reversal(c, ChooseSize(c).1) < -1.0 <==> HedgeEdge(c) > 0.0
  {
    MinimumCapsLoss(c, ChooseSize(c).1);
  }

  /** Fifty dollars paid for a hundred shares, and liquidity half a tolerance short of the fifty hedge
      shares that cap the loss: they are bought, and a reversal loses more than a dollar. */
  const HAIR := HedgeCase(100.0, 50.0, 0.5, 0.02, 0.02, true, 50.0 - SLACK / 2.0, 0.0, 0.0, 0.0)

  lemma HairSlips()
    ensures MinimumSize(HAIR) == 50.0 > MaximumSize(HAIR)
    ensures Decide(HAIR) == (Hedged, MaximumSize(HAIR)) && Reversal(HAIR, MaximumSize(HAIR)) < -1.0
  {
  }

  /** So with a non-empty interval the check on the reversal loss never rejects. */
  lemma ReversalCheckIsIdle(c: HedgeCase)
    requires ChooseSize(c).0 == Hedged && MinimumSize(c) <= MaximumSize(c)
    ensures Decide(c).0 in {Hedged, MainWinNotPositive, ExpectationBelowThreshold}
  {
    ChosenIsBest(c, MinimumSize(c));
  }

  // ---- the audited form ----

  /** Just enough hedge to lose `maxLoss` on a reversal. */
  function AuditSize(mainCost: real, hedgeUnitCost: real, maxLoss: real): real
    requires hedgeUnitCost < 1.0
  {
    Max(0.0, (mainCost - maxLoss) / (1.0 - hedgeUnitCost))
  }

  datatype AuditTerms = AuditTerms(size: real, mainUnitCost: real, hedgeUnitCost: real, maxLoss: real,
                                   maxRatio: real, probability: real, minExpected: real)

  datatype AuditDecision = Rejected | Accepted(hedgeSize: real, totalCost: real, mainWin: real, reversal: real)

  function AuditHedge(t: AuditTerms): AuditDecision {
    if t.hedgeUnitCost >= 1.0 then AuditDecision.Rejected
    else
      var mainCost := t.size * t.mainUnitCost;
      var hedgeSize := AuditSize(mainCost, t.hedgeUnitCost, t.maxLoss);
      var totalCost := mainCost + hedgeSize * t.hedgeUnitCost;
      var mainWin, reversal := t.size - totalCost, hedgeSize - totalCost;
      if hedgeSize <= 0.0 || hedgeSize > t.size * t.maxRatio then AuditDecision.Rejected
      else if mainWin <= 0.0 || reversal < -t.maxLoss - 0.000000001
              || t.probability * mainWin + (1.0 - t.probability) * reversal < t.minExpected then
        AuditDecision.Rejected
      else Accepted(hedgeSize, totalCost, mainWin, reversal)
  }

  /** An accepted hedge loses exactly the maximum on a reversal, and any smaller one loses more. */
  lemma AuditLosesTheMaximum(t: AuditTerms, smaller: real)
    requires AuditHedge(t).Accepted? && 0.0 <= smaller < AuditHedge(t).hedgeSize
    ensures AuditHedge(t).reversal == -t.maxLoss && AuditHedge(t).mainWin > 0.0
    ensures smaller - (t.size * t.mainUnitCost + smaller * t.hedgeUnitCost) < -t.maxLoss
  {
    var k, room := 1.0 - t.hedgeUnitCost, t.size * t.mainUnitCost - t.maxLoss;
    var chosen := AuditHedge(t).hedgeSize;
    assert chosen == room / k && chosen * k == room;
    assert smaller * k < chosen * k;
  }
}
