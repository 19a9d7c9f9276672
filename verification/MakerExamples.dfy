/** A configuration and three rows on which claims that look stronger fail. */
module MakerExamples {
  import opened Numbers
  import opened Options
  import opened MakerData
  import opened MakerOpening
  import opened MakerEpisodes
  import opened MakerResting
  import opened MakerRuns

  function Same<T>(x: T): PerTimeframe<T> {
    PerTimeframe(x, x, x, x)
  }

  /** A permissive configuration with a limit on consecutive orphans. */
  function Setup(orphans: int): Config {
    Config(0.01, 0.0, 0.0, 0.0, -1.0, 0.0, 0.0, Queue, 0.02, 0.01, 0.0, 0.5, 1.0, 0.0, 0.0, 0.0, 0.0,
           Same(60.0), Same(0.0), Same(30.0), Same(1), Same(30.0), Same(90.0), Same(0.0), Same(1000.0),
           1, 0.5, 1.0, 0.0, 60.0, Same(1000.0), 1000.0, 1000.0, 10.0, 0.0, 0.0, 100.0, 100.0, 100.0,
           orphans, 60.0, 5, 1)
  }

  function Book(bid: real, ask: real, askSize: real): BookSide {
    BookSide(bid, ask, 100.0, askSize, 100.0, 100.0, 100.0, 0.0, true)
  }

  function RowAt(timestamp: real, ask: real): Row {
    Row("market", "condition", FiveMinutes, Binding(1, Session("1", Some(1))), timestamp,
        Book(0.4, ask, 2.0), Book(0.55, 0.6, 100.0), 0.0, 200.0, true, true, true, None, Some(0.0), 5.0, None, None)
  }

  const OPENS := RowAt(1.0, 0.41)
  const BUYS := RowAt(2.0, 0.4)
  const WAITS := RowAt(100.0, 0.41)

  const OPENING := Opening([], [], Some(Up), Some(0.4), 10.0)
  const OPENED := NewEpisode(EMPTY, OPENS, OPENING)
  const BOUGHT := OPENED.(filled1 := 2.0, cost1 := 0.8, eventSequence := 2)

  lemma BooksPass(orphans: int)
    ensures BookReasons(OPENS, Setup(orphans)) == []
  {
  }

  lemma MarketPasses(orphans: int)
    ensures MarketReasons(OPENS, Setup(orphans)) == []
  {
  }

  lemma LimitsPass(orphans: int)
    ensures LimitReasons(Setup(orphans), Portfolio(0.0, 0.0, 0.0, false, 0)) == []
  {
  }

  lemma GatesPass(orphans: int)
    ensures GateReasons(OPENS, Setup(orphans), Portfolio(0.0, 0.0, 0.0, false, 0)) == []
  {
    BooksPass(orphans);
    MarketPasses(orphans);
    LimitsPass(orphans);
    assert Abs(0.0) == 0.0;
  }

  lemma ScoresNothing(orphans: int, side: BookSide)
    requires (side.bestBid == 0.4 && side.bestAsk == 0.41) || (side.bestBid == 0.55 && side.bestAsk == 0.6)
    ensures SideScore(side, Setup(orphans)) == Some(0.0)
  {
  }

  lemma SelectsUp(orphans: int)
    ensures SelectLeg1Side(OPENS, Setup(orphans)) == Some(Up)
  {
    ScoresNothing(orphans, OPENS.up);
    ScoresNothing(orphans, OPENS.down);
  }

  lemma QuotesForty(orphans: int)
    ensures Leg1Quote(OPENS.up, Setup(orphans)) == Some(Quote(0.4, true, 100.0))
  {
    assert RoundPrice(0.4) == 0.4;
  }

  lemma OrdersTen(orphans: int)
    ensures Setup(orphans).Valid() && OrderSize(0.4, Setup(orphans)) == 10.0
  {
  }

  lemma QuotePasses(orphans: int)
    ensures Setup(orphans).Valid()
    ensures QuoteReasons(OPENS, Up, Quote(0.4, true, 100.0), Setup(orphans), Portfolio(0.0, 0.0, 0.0, false, 0)) == []
  {
    OrdersTen(orphans);
  }

  lemma OpeningPasses(orphans: int)
    ensures Setup(orphans).Valid()
    ensures EvaluateOpening(OPENS, Setup(orphans), Portfolio(0.0, 0.0, 0.0, false, 0)) == OPENING
  {
    GatesPass(orphans);
    SelectsUp(orphans);
    QuotesForty(orphans);
    OrdersTen(orphans);
    QuotePasses(orphans);
  }

  lemma EmptyView(row: Row)
    ensures View(NoteBinding(EMPTY, row), row) == Portfolio(0.0, 0.0, 0.0, false, 0)
  {
    var m := NoteBinding(EMPTY, row);
    assert m.episodes == map[];
    assert TotalExposure(m.episodes) == 0.0 && TotalAtRisk(m.episodes) == 0.0;
  }

  /** The first row opens ten shares at forty cents. */
  lemma OpensTen(orphans: int)
    ensures Setup(orphans).Valid()
    ensures var r := Evaluate(Setup(orphans), EMPTY, OPENS);
            r.decision.verdict == Accepted && r.machine == Register(NoteBinding(EMPTY, OPENS), OPENS, OPENED)
  {
    OpeningPasses(orphans);
    EmptyView(OPENS);
    var m := NoteBinding(EMPTY, OPENS);
    assert !Dropped(EMPTY, OPENS) && OPENS.condition !in EMPTY.episodes;
    assert Evaluate(Setup(orphans), EMPTY, OPENS) == OpenWith(m, OPENS, OPENING);
    assert NewEpisode(m, OPENS, OPENING) == OPENED;
  }

  lemma OpenedRests(orphans: int)
    ensures Resting(Setup(orphans), OPENED) && Readable(OPENED)
  {
  }

  lemma TwoAreOffered(orphans: int)
    ensures FillSize(Setup(orphans), 0.4, BUYS.up, 10.0) == 2.0
  {
  }

  lemma TwoAreNotEnough(orphans: int)
    ensures !FilledEnough(Setup(orphans), 2.0, 10.0)
  {
  }

  lemma TwoAreBought(orphans: int)
    ensures BuyLeg1(BUYS, Progress(OPENED, Nothing), 2.0).ep == BOUGHT
  {
    assert Paid(0.4, 2.0) == 0.8;
  }

  lemma FillsTwo(orphans: int)
    ensures FillLeg1(Setup(orphans), BUYS, Progress(OPENED, Nothing)).ep == BOUGHT
  {
    TwoAreOffered(orphans);
    TwoAreNotEnough(orphans);
    TwoAreBought(orphans);
    assert OPENED.orderSize - OPENED.filled1 == 10.0 && BUYS.Side(OPENED.leg1) == BUYS.up;
  }

  lemma WorksOn(orphans: int)
    ensures WorkLeg1(Setup(orphans), BUYS, Progress(OPENED, Nothing))
            == FillLeg1(Setup(orphans), BUYS, Progress(OPENED, Nothing))
  {
    assert BUYS.BooksEvaluable(Setup(orphans));
  }

  /** The second row fills two of them. */
  lemma StepBuysTwo(orphans: int)
    ensures Resting(Setup(orphans), OPENED) && Readable(OPENED)
    ensures EpisodeStep(Setup(orphans), BUYS, false, OPENED).ep == BOUGHT
  {
    OpenedRests(orphans);
    FillsTwo(orphans);
    WorksOn(orphans);
  }

  lemma BuysTwo(orphans: int, m: Machine)
    requires AllResting(Setup(orphans), m)
    requires m.episodes == map["condition" := OPENED] && m.lastBinding == map["market" := OPENS.binding]
    ensures Setup(orphans).Valid()
    ensures var r := Evaluate(Setup(orphans), m, BUYS).machine;
            r.episodes == map["condition" := BOUGHT] && r.lastBinding == m.lastBinding && r.completed == m.completed
  {
    StepBuysTwo(orphans);
    assert !Dropped(m, BUYS) && !BindingChanged(m, BUYS);
    var noted := NoteBinding(m, BUYS);
    assert Evaluate(Setup(orphans), m, BUYS) == LivePath(Setup(orphans), noted, BUYS, false);
    assert noted.lastBinding == m.lastBinding;
    assert m.episodes["condition" := BOUGHT] == map["condition" := BOUGHT];
  }
}
