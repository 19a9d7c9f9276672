/** One feed session: the books of all subscribed tokens, changed in place by messages,
    resynchronisations, reloads of the market list and disconnection. */
module MarketSession {
  import opened Options
  import opened MarketBooks
  import opened MarketQuotes
  import Attempts = ArbAttempts
  import Observed = ObservedArb

  datatype Book = Book(sides: Sides, wsSnapshot: bool, sourceTs: real, snapshotTs: real, crossedSince: real,
                       generation: nat, version: nat)

  datatype Market = Market(up: Token, down: Token)

  /** What a market is observed by besides its books. */
  datatype Feed = Feed(rate: real, synced: bool, secondsToClose: real, bufferPerShare: real)

  /** A book as it is priced. */
  function SheetOf(book: Book): Observed.Sheet {
    Observed.Sheet(FromLowest(book.sides.asks), FromHighest(book.sides.bids), book.wsSnapshot, book.sides.Crossed(),
                   book.generation)
  }

  /** Every listed market as its two books quote it. */
  function QuotesOf(books: map<Token, Book>, markets: map<string, Market>, generation: nat, session: nat,
                    feeds: string -> Feed): map<string, Observed.Quotes>
  {
    map m | m in markets && markets[m].up in books && markets[m].down in books ::
      Observed.Quotes(SheetOf(books[markets[m].up]), SheetOf(books[markets[m].down]), feeds(m).rate, feeds(m).synced,
                      feeds(m).secondsToClose, generation, session, feeds(m).bufferPerShare)
  }

  function NewBook(generation: nat): Book {
    Book(NO_LEVELS, false, 0.0, 0.0, 0.0, generation, 0)
  }

  function Tokens(markets: map<string, Market>): set<Token> {
    (set m | m in markets :: markets[m].up) + (set m | m in markets :: markets[m].down)
  }

  /** The book says of its token exactly what its view does: a book without a snapshot is empty, one
      with a snapshot is that snapshot with the accepted changes replayed. */
  ghost predicate Holds(book: Book, view: View) {
    && Proper(view) && book.wsSnapshot == view.Live? && book.sides == Render(view)
    && (view.Live? ==> book.snapshotTs == view.snapshotTs && book.sourceTs == view.lastTs)
  }

  lemma HoldsPositive(book: Book, view: View)
    requires Holds(book, view)
    ensures book.sides.Positive()
  {
    if view.Live? {
      ReplayIsPositive(view.snapshot, view.deltas);
    }
  }

  predicate AllPositive(books: map<Token, Book>) {
    forall t :: t in books ==> books[t].sides.Positive()
  }

  /** Each token is where the message puts it. */
  ghost predicate Messaged(before: map<Token, View>, after: map<Token, View>, message: Message) {
    && after.Keys == before.Keys
    && forall t :: t in before ==> Proper(before[t]) && after[t] == OnMessage(before[t], message, t)
  }

  /** Some token of the batch is spoiled by it. */
  ghost predicate AnySpoiled(views: map<Token, View>, ts: real, changes: seq<Change>) {
    exists t :: t in views && AddChanges(views[t], ts, changes, t).Spoiled?
  }

  /** A token after some changes of a batch: spoiled, or where its own changes put it. */
  ghost predicate Midway(book: Book, view: View, ts: real, changes: seq<Change>, token: Token, spoiled: bool) {
    var batch := AddChanges(view, ts, changes, token);
    && Proper(view) && spoiled == batch.Spoiled?
    && if spoiled then book.wsSnapshot else Holds(book, batch.view)
  }

  ghost predicate AllMidway(books: map<Token, Book>, views: map<Token, View>, generation: nat,
                            ts: real, changes: seq<Change>, spoiled: set<Token>) {
    && books.Keys == views.Keys
    && forall t :: t in books ==>
         books[t].generation == generation && Midway(books[t], views[t], ts, changes, t, t in spoiled)
  }

  lemma OtherStaysMidway(book: Book, view: View, ts: real, changes: seq<Change>, change: Change, token: Token,
                         spoiled: bool)
    requires Midway(book, view, ts, changes, token, spoiled) && change.token != token
    ensures Midway(book, view, ts, changes + [change], token, spoiled)
  {
    assert (changes + [change])[..|changes|] == changes;
  }

  /** One change put into its token's book, unless the book has no snapshot, is spoiled already, or
      the change is stale; an unusable change spoils the token. */
  method ApplyToBook(book: Book, ts: real, change: Change, spoiled: bool, ghost view: View, ghost before: seq<Change>)
    returns (next: Book, outcome: ChangeOutcome)
    requires Midway(book, view, ts, before, change.token, spoiled)
    ensures Midway(next, view, ts, before + [change], change.token, spoiled || outcome == Spoils)
    ensures next.generation == book.generation && next.crossedSince == book.crossedSince
    ensures next.version == book.version + if outcome == Applied then 1 else 0
  {
    next, outcome := book, Ignored;
    ghost var batch := AddChanges(view, ts, before, change.token);
    assert (before + [change])[..|before|] == before;
    if !book.wsSnapshot || spoiled {
      return;
    }
    if ts != 0.0 && ((book.snapshotTs != 0.0 && ts <= book.snapshotTs)
                     || (book.sourceTs != 0.0 && ts < book.sourceTs)) {
      outcome := IgnoredAsStale;
      return;
    }
    if !change.Usable() {
      outcome := Spoils;
      return;
    }
    ReplayMore(batch.view.snapshot, batch.view.deltas, Delta(ts, change));
    next := book.(sides := ApplyChange(book.sides, change), sourceTs := ts, version := book.version + 1);
    outcome := Applied;
  }

  datatype ChangeOutcome = Ignored | IgnoredAsStale | Applied | Spoils

  /** A spoiled token keeps its view until it is resynchronised. */
  ghost function BatchView(view: View, ts: real, changes: seq<Change>, token: Token): View {
    var b := AddChanges(view, ts, changes, token);
    if b.Spoiled? then view else b.view
  }

  ghost predicate Consistent(books: map<Token, Book>, views: map<Token, View>, tokens: set<Token>,
                             generation: nat, spoiled: set<Token>) {
    && books.Keys == views.Keys == tokens
    && forall t :: t in books ==>
         && books[t].generation == generation && Proper(views[t])
         && (if t in spoiled then books[t].wsSnapshot else Holds(books[t], views[t]))
  }

  /** Every size of every book is positive. */
  lemma ConsistentIsPositive(books: map<Token, Book>, views: map<Token, View>, tokens: set<Token>, generation: nat)
    requires Consistent(books, views, tokens, generation, {})
    ensures AllPositive(books)
  {
    forall t | t in books
      ensures books[t].sides.Positive()
    {
      HoldsPositive(books[t], views[t]);
    }
  }

  function Emptied(book: Book): Book {
    book.(wsSnapshot := false, sides := NO_LEVELS, crossedSince := 0.0)
  }

  lemma DropOne(books: map<Token, Book>, views: map<Token, View>, tokens: set<Token>, generation: nat,
                spoiled: set<Token>, token: Token)
    requires Consistent(books, views, tokens, generation, spoiled) && token in books
    ensures Consistent(books[token := Emptied(books[token])], views[token := Missing], tokens, generation,
                       spoiled - {token})
  {
  }

  /** A token without a snapshot is not about to be resynchronised, and nothing is known of it. */
  lemma NothingToDrop(books: map<Token, Book>, views: map<Token, View>, tokens: set<Token>, generation: nat,
                      spoiled: set<Token>, token: Token)
    requires Consistent(books, views, tokens, generation, spoiled) && (token in books ==> !books[token].wsSnapshot)
    ensures Consistent(books, views, tokens, generation, spoiled - {token})
    ensures token in views ==> views == views[token := Missing]
  {
    assert token in views ==> views[token] == Missing;
  }

  lemma PutOne(books: map<Token, Book>, views: map<Token, View>, tokens: set<Token>, generation: nat,
               token: Token, book: Book, view: View)
    requires Consistent(books, views, tokens, generation, {}) && token in books
    requires book.generation == generation && Holds(book, view)
    ensures Consistent(books[token := book], views[token := view], tokens, generation, {})
  {
  }

  function AllEmptied(books: map<Token, Book>): map<Token, Book> {
    map t | t in books :: books[t].(wsSnapshot := false, sides := NO_LEVELS)
  }

  ghost function AllMissing(views: map<Token, View>): map<Token, View> {
    map t | t in views :: Missing
  }

  lemma AllDropped(books: map<Token, Book>, views: map<Token, View>, tokens: set<Token>, generation: nat)
    requires Consistent(books, views, tokens, generation, {})
    ensures Consistent(AllEmptied(books), AllMissing(views), tokens, generation, {})
  {
  }

  lemma BatchBegins(books: map<Token, Book>, views: map<Token, View>, tokens: set<Token>, generation: nat, ts: real)
    requires Consistent(books, views, tokens, generation, {})
    ensures AllMidway(books, views, generation, ts, [], {})
  {
  }

  ghost function BatchViews(views: map<Token, View>, ts: real, changes: seq<Change>): map<Token, View> {
    map t | t in views :: BatchView(views[t], ts, changes, t)
  }

  /** At the end of a batch the tokens not spoiled hold their new views. */
  lemma BatchEnds(books: map<Token, Book>, views: map<Token, View>, tokens: set<Token>, generation: nat,
                  ts: real, changes: seq<Change>, spoiled: set<Token>)
    requires AllMidway(books, views, generation, ts, changes, spoiled) && books.Keys == tokens
    ensures Consistent(books, BatchViews(views, ts, changes), tokens, generation, spoiled)
    ensures AnySpoiled(views, ts, changes) ==> spoiled != {}
  {
  }

  lemma BatchMessaged(books: map<Token, Book>, views: map<Token, View>, after: map<Token, View>, generation: nat,
                      ts: real, changes: seq<Change>, spoiled: set<Token>)
    requires AllMidway(books, views, generation, ts, changes, spoiled)
    requires Forgotten(BatchViews(views, ts, changes), after, spoiled)
    ensures Messaged(views, after, PriceChanges(ts, changes))
  {
  }

  /** When a token's book became crossed, zero while it is not. */
  function CrossedSince(book: Book, now: real): real {
    if !book.sides.Crossed() then 0.0 else if book.crossedSince == 0.0 then now else book.crossedSince
  }

  predicate CrossedNoted(before: map<Token, Book>, after: map<Token, Book>, tokens: set<Token>, now: real) {
    && after.Keys == before.Keys
    && forall t :: t in before ==>
         after[t] == if t in tokens then before[t].(crossedSince := CrossedSince(before[t], now)) else before[t]
  }

  lemma NotedIsMidway(before: map<Token, Book>, after: map<Token, Book>, views: map<Token, View>, generation: nat,
                      ts: real, changes: seq<Change>, spoiled: set<Token>, tokens: set<Token>, now: real)
    requires AllMidway(before, views, generation, ts, changes, spoiled) && CrossedNoted(before, after, tokens, now)
    ensures AllMidway(after, views, generation, ts, changes, spoiled)
  {
  }

  lemma NoteOne(b0: map<Token, Book>, b1: map<Token, Book>, tokens: set<Token>, todo: set<Token>, token: Token,
                now: real)
    requires CrossedNoted(b0, b1, tokens - todo, now) && token in todo && todo <= tokens && token in b1
    ensures CrossedNoted(b0, b1[token := b1[token].(crossedSince := CrossedSince(b1[token], now))],
                         tokens - (todo - {token}), now)
  {
  }

  /** Nothing is known any more of `gone`, and what is known of the others is as before. */
  ghost predicate Forgotten(before: map<Token, View>, after: map<Token, View>, gone: set<Token>) {
    after.Keys == before.Keys && forall t :: t in before ==> after[t] == if t in gone then Missing else before[t]
  }

  lemma ForgetOne(v0: map<Token, View>, v1: map<Token, View>, v2: map<Token, View>,
                  spoiled: set<Token>, todo: set<Token>, token: Token)
    requires token in todo && todo <= spoiled && Forgotten(v0, v1, spoiled - todo)
    requires v2 == if token in v1 then v1[token := Missing] else v1
    ensures Forgotten(v0, v2, spoiled - (todo - {token}))
  {
  }

  lemma SnapshotHolds(book: Book, view: View, asset: Token, bids: Option<seq<LevelRow>>, asks: Option<seq<LevelRow>>,
                      ts: real)
    requires Holds(book, view)
    ensures var next := OnMessage(view, BookMessage(asset, bids, asks, ts), asset);
            Holds(Book(SnapshotOf(book.sides, bids, asks), true, ts, ts, 0.0, book.generation, book.version + 1), next)
  {
    MessageProper(view, BookMessage(asset, bids, asks, ts), asset);
  }

  /** A snapshot is about one token only. */
  lemma SnapshotMessaged(books: map<Token, Book>, views: map<Token, View>, tokens: set<Token>, generation: nat,
                         asset: Token, bids: Option<seq<LevelRow>>, asks: Option<seq<LevelRow>>, ts: real)
    requires Consistent(books, views, tokens, generation, {})
    ensures var message := BookMessage(asset, bids, asks, ts);
            if asset in books then Messaged(views, views[asset := OnMessage(views[asset], message, asset)], message)
            else Messaged(views, views, message)
  {
  }

  /** `set_levels` on a cleared side. */
  method SetLevels(rows: seq<LevelRow>) returns (levels: Levels)
    ensures levels == FromRows(rows)
  {
    levels := map[];
    for i := 0 to |rows|
      invariant levels == FromRows(rows[..i])
    {
      assert rows[..i + 1][..i] == rows[..i];
      if rows[i].size <= 0.0 {
        levels := levels - {rows[i].price};
      } else {
        levels := levels[rows[i].price := rows[i].size];
      }
    }
    assert rows[..|rows|] == rows;
  }

  class MarketWsSession {
    var books: map<Token, Book>
    var markets: map<string, Market>
    var generation: nat
    var documentVersion: nat
    var staleChangesIgnored: nat
    var fullResyncs: nat
    var stopped: bool
    const session: nat
    const attempts: Attempts.ArbAttempts
    ghost var views: map<Token, View>

    /** There is a book for exactly the tokens of the listed markets, all of the current
        generation, and each holds what its view says. */
    ghost predicate Valid()
      reads this, attempts
    {
      ValidBut({})
    }

    /** The same while some tokens are about to be resynchronised. */
    ghost predicate ValidBut(spoiled: set<Token>)
      reads this, attempts
    {
      attempts.Valid() && Consistent(books, views, Tokens(markets), generation, spoiled)
    }

    constructor (session: nat)
      ensures Valid() && markets == map[] && documentVersion == 0 && fresh(attempts) && !stopped
      ensures this.session == session
    {
      this.session := session;
      attempts := new Attempts.ArbAttempts();
      books, markets, views := map[], map[], map[];
      generation, documentVersion, staleChangesIgnored, fullResyncs, stopped := 0, 0, 0, 0, false;
    }

    /** Drop what is known of a token and ask for it anew; nothing pending can rest on it. */
    method ResyncToken(token: Token, ghost spoiled: set<Token>)
      requires ValidBut(spoiled)
      modifies `books, `views, `fullResyncs, attempts
      ensures ValidBut(spoiled - {token})
      ensures views == if token in old(views) then old(views)[token := Missing] else old(views)
      ensures Attempts.ClearedIf(token in old(books) && old(books)[token].wsSnapshot, old(attempts.pending),
                                 old(attempts.log), attempts.pending, attempts.log)
      ensures if token in old(books) && old(books)[token].wsSnapshot then fullResyncs == old(fullResyncs) + 1
              else books == old(books) && fullResyncs == old(fullResyncs)
      ensures forall t :: t in books && t != token ==> books[t] == old(books)[t]
    {
      if token !in books || !books[token].wsSnapshot {
        NothingToDrop(books, views, Tokens(markets), generation, spoiled, token);
        return;
      }
      DropOne(books, views, Tokens(markets), generation, spoiled, token);
      books := books[token := books[token].(wsSnapshot := false, sides := NO_LEVELS, crossedSince := 0.0)];
      views := views[token := Missing];
      attempts.Invalidate();
      fullResyncs := fullResyncs + 1;
    }

    method ResyncAll(spoiled: set<Token>)
      requires ValidBut(spoiled) && spoiled <= books.Keys
      modifies `books, `views, `fullResyncs, attempts
      ensures Valid() && Forgotten(old(views), views, spoiled)
      ensures spoiled != {} ==> attempts.pending == map[]
    {
      var todo := spoiled;
      while todo != {}
        invariant todo <= spoiled && ValidBut(todo) && Forgotten(old(views), views, spoiled - todo)
        invariant todo != spoiled ==> attempts.pending == map[]
        decreases |todo|
      {
        var token :| token in todo;
        ghost var before := views;
        ResyncToken(token, todo);
        ForgetOne(old(views), before, views, spoiled, todo, token);
        todo := todo - {token};
      }
      assert spoiled - {} == spoiled;
    }

    method NoteCrossed(tokens: set<Token>, now: real)
      requires tokens <= books.Keys
      modifies `books
      ensures CrossedNoted(old(books), books, tokens, now)
    {
      var todo := tokens;
      while todo != {}
        invariant todo <= tokens && CrossedNoted(old(books), books, tokens - todo, now)
        decreases |todo|
      {
        var token :| token in todo;
        NoteOne(old(books), books, tokens, todo, token, now);
        todo := todo - {token};
        books := books[token := books[token].(crossedSince := CrossedSince(books[token], now))];
      }
      assert tokens - {} == tokens;
    }

    method TakeSnapshot(asset: Token, bids: Option<seq<LevelRow>>, asks: Option<seq<LevelRow>>, ts: real)
      requires Valid()
      modifies `books, `views
      ensures Valid() && Messaged(old(views), views, BookMessage(asset, bids, asks, ts))
    {
      SnapshotMessaged(books, views, Tokens(markets), generation, asset, bids, asks, ts);
      if asset !in books {
        return;
      }
      var book := books[asset];
      var sides := book.sides;
      if bids.Some? {
        var levels := SetLevels(bids.value);
        sides := sides.(bids := levels);
      }
      if asks.Some? {
        var levels := SetLevels(asks.value);
        sides := sides.(asks := levels);
      }
      var next := Book(sides, true, ts, ts, 0.0, book.generation, book.version + 1);
      ghost var view := OnMessage(views[asset], BookMessage(asset, bids, asks, ts), asset);
      SnapshotHolds(book, views[asset], asset, bids, asks, ts);
      PutOne(books, views, Tokens(markets), generation, asset, next, view);
      books := books[asset := next];
      views := views[asset := view];
    }

    /** One change of a batch. */
    method ApplyOne(ts: real, change: Change, ghost before: seq<Change>,
                    spoiled: set<Token>) returns (outcome: ChangeOutcome)
      requires AllMidway(books, views, generation, ts, before, spoiled)
      modifies `books, `staleChangesIgnored
      ensures books.Keys == old(books.Keys) && (outcome != Ignored ==> change.token in books)
      ensures AllMidway(books, views, generation, ts, before + [change],
                        if outcome == Spoils then spoiled + {change.token} else spoiled)
      ensures staleChangesIgnored == old(staleChangesIgnored) + if outcome == IgnoredAsStale then 1 else 0
    {
      forall t | t in books && t != change.token
        ensures Midway(books[t], views[t], ts, before + [change], t, t in spoiled)
      {
        OtherStaysMidway(books[t], views[t], ts, before, change, t, t in spoiled);
      }
      if change.token !in books || books[change.token].generation != generation {
        return Ignored;
      }
      var token := change.token;
      var book: Book;
      book, outcome := ApplyToBook(books[token], ts, change, token in spoiled, views[token], before);
      books := books[token := book];
      if outcome == IgnoredAsStale {
        staleChangesIgnored := staleChangesIgnored + 1;
      }
    }

    method ApplyAll(ts: real, changes: seq<Change>) returns (touched: set<Token>, spoiled: set<Token>)
      requires AllMidway(books, views, generation, ts, [], {})
      modifies `books, `staleChangesIgnored
      ensures books.Keys == old(books.Keys) && touched <= books.Keys && spoiled <= books.Keys
      ensures AllMidway(books, views, generation, ts, changes, spoiled)
    {
      touched, spoiled := {}, {};
      for i := 0 to |changes|
        invariant books.Keys == old(books.Keys) && touched <= books.Keys && spoiled <= books.Keys
        invariant AllMidway(books, views, generation, ts, changes[..i], spoiled)
      {
        var outcome := ApplyOne(ts, changes[i], changes[..i], spoiled);
        assert changes[..i + 1] == changes[..i] + [changes[i]];
        if outcome == Applied {
          touched := touched + {changes[i].token};
        } else if outcome == Spoils {
          spoiled := spoiled + {changes[i].token};
        }
      }
      assert changes[..|changes|] == changes;
    }

    /** Each token takes its own changes in order; the tokens with an unusable one are returned. */
    method TakeBatch(ts: real, changes: seq<Change>, now: real) returns (spoiled: set<Token>)
      requires Valid()
      modifies `books, `staleChangesIgnored
      ensures AllMidway(books, views, generation, ts, changes, spoiled)
      ensures books.Keys == old(books.Keys) && spoiled <= books.Keys
    {
      BatchBegins(books, views, Tokens(markets), generation, ts);
      var touched;
      touched, spoiled := ApplyAll(ts, changes);
      ghost var applied := books;
      NoteCrossed(touched - spoiled, now);
      NotedIsMidway(applied, books, views, generation, ts, changes, spoiled, touched - spoiled, now);
    }

    /** A batch of changes, with the tokens it spoils resynchronised at the end. */
    method TakeChanges(ts: real, changes: seq<Change>, now: real)
      requires Valid()
      modifies `books, `views, `staleChangesIgnored, `fullResyncs, attempts
      ensures Valid() && Messaged(old(views), views, PriceChanges(ts, changes))
      ensures AnySpoiled(old(views), ts, changes) ==> attempts.pending == map[]
    {
      var spoiled := TakeBatch(ts, changes, now);
      ghost var taken, was := books, views;
      BatchEnds(books, views, Tokens(markets), generation, ts, changes, spoiled);
      views := BatchViews(views, ts, changes);
      ResyncAll(spoiled);
      BatchMessaged(taken, was, views, generation, ts, changes, spoiled);
    }

    /** What one feed message makes of every token. */
    method ProcessMessage(message: Message, now: real)
      requires Valid()
      modifies `books, `views, `staleChangesIgnored, `fullResyncs, attempts
      ensures Valid() && Messaged(old(views), views, message) && AllPositive(books)
    {
      match message {
        case BookMessage(asset, bids, asks, ts) => TakeSnapshot(asset, bids, asks, ts);
        case PriceChanges(ts, changes) => TakeChanges(ts, changes, now);
        case OtherMessage =>
      }
      ConsistentIsPositive(books, views, Tokens(markets), generation);
    }

    /** The state a look at the books can change. */
    ghost function Now(): Moment
      reads this, attempts
    {
      Moment(books, views, attempts.pending, attempts.log)
    }

    /** Look at one book before its market is priced: a crossed one holds the market back, and is
        resynchronised once it has been crossed for half a second. */
    method CheckCrossed(token: Token, now: real) returns (crossed: bool)
      requires Valid() && token in books
      modifies `books, `views, `fullResyncs, attempts
      ensures Valid() && crossed == IsCrossed(old(books)[token]) && SweptTo(old(Now()), Now(), {token}, now)
    {
      var book := books[token];
      ghost var was := Now();
      crossed := book.wsSnapshot && book.sides.Crossed();
      if crossed {
        if book.crossedSince == 0.0 {
          books := books[token := book.(crossedSince := now)];
        }
        if now - books[token].crossedSince >= CROSSED_LIMIT {
          ResyncToken(token, {});
        }
      }
      OneSwept(was, Now(), token, now);
    }

    /** Both books of a market in turn; true if it can go on to be priced. */
    method CheckMarket(market: Market, now: real, ghost was: Moment, ghost seen: set<Token>) returns (ready: bool)
      requires Valid() && market.up in books && market.down in books && SweptTo(was, Now(), seen, now)
      modifies `books, `views, `fullResyncs, attempts
      ensures Valid() && books.Keys == old(books.Keys)
      ensures SweptTo(was, Now(), seen + {market.up, market.down}, now) && ready == BothPriceable(was.books, market)
    {
      ghost var first := Now();
      var up := CheckCrossed(market.up, now);
      ghost var second := Now();
      var down := CheckCrossed(market.down, now);
      BothSwept(was, first, second, Now(), seen, market, now);
      BothReady(was.books, first.books, second.books, books, seen, market, now);
      ready := !up && !down && books[market.up].wsSnapshot && books[market.down].wsSnapshot;
    }

    /** The head of `evaluate`: which markets go on to be priced. */
    method MarketsToPrice(now: real) returns (ready: set<string>)
      requires Valid()
      modifies `books, `views, `fullResyncs, attempts
      ensures Valid() && IsReady(old(books), markets, ready) && IsReady(books, markets, ready)
      ensures SweptTo(old(Now()), Now(), old(books).Keys, now)
    {
      ready := {};
      var todo := markets.Keys;
      ghost var was, seen: set<Token> := Now(), {};
      NothingSwept(was, now);
      while todo != {}
        invariant Valid() && todo <= markets.Keys && SweptTo(was, Now(), seen, now)
        invariant ReadyBut(was.books, markets, todo, seen, ready)
        decreases |todo|
      {
        var m :| m in todo;
        ListedHaveBooks(markets, m);
        var ok := CheckMarket(markets[m], now, was, seen);
        ReadyStep(was.books, markets, todo, seen, ready, m);
        todo := todo - {m};
        seen := seen + {markets[m].up, markets[m].down};
        if ok {
          ready := ready + {m};
        }
      }
      ReadyEnds(was, Now(), markets, seen, ready, now);
    }

    method Resolve(nowUs: real, quotes: map<string, Observed.Quotes>)
      requires Valid()
      modifies attempts
      ensures Valid() && old(attempts.log) <= attempts.log
      ensures Now() == old(Now()).(pending := Attempts.NotDue(old(attempts.pending), nowUs), log := attempts.log)
      ensures Attempts.ResolvedOn(old(attempts.pending), attempts.log, |old(attempts.log)|, nowUs, quotes)
    {
      attempts.ProcessDue(nowUs, quotes);
    }

    /** `evaluate`, up to the pricing of markets: attempts that are due are resolved on the books first, up to
        `due` in the log; then the books are looked at, and the rest is invalidated if one is dropped. */
    method Evaluate(now: real, nowUs: real, feeds: string -> Feed) returns (ready: set<string>, ghost due: nat)
      requires Valid()
      modifies `books, `views, `fullResyncs, attempts
      ensures Valid() && IsReady(old(books), markets, ready) && IsReady(books, markets, ready)
      ensures due <= |attempts.log| && old(attempts.log) <= attempts.log[..due]
      ensures Attempts.ResolvedOn(old(attempts.pending), attempts.log[..due], |old(attempts.log)|, nowUs,
                                  old(Quotes(feeds)))
      ensures SweptTo(Moment(old(books), old(views), Attempts.NotDue(old(attempts.pending), nowUs),
                             attempts.log[..due]),
                      Now(), old(books).Keys, now)
    {
      ghost var was := Now();
      Resolve(nowUs, Quotes(feeds));
      due := |attempts.log|;
      ghost var resolved := Now();
      ready := MarketsToPrice(now);
      LogGrows(resolved, Now(), was.books.Keys, now);
    }

    function Quotes(feeds: string -> Feed): map<string, Observed.Quotes>
      reads this
    {
      QuotesOf(books, markets, generation, session, feeds)
    }

    /** Tokens kept keep their books, new ones start without, others go. */
    method AdoptMarkets(next: map<string, Market>, version: nat)
      requires Valid()
      modifies `books, `views, `markets, `generation, `documentVersion
      ensures Valid() && markets == next && documentVersion == version && generation == old(generation) + 1
      ensures views == KeptViews(old(views), next)
    {
      KeptHold(books, views, Tokens(markets), generation, next, generation + 1);
      generation := generation + 1;
      books := KeptBooks(books, next, generation);
      views := KeptViews(views, next);
      markets := next;
      documentVersion := version;
    }

    /** A newer market list replaces the old one and leaves nothing pending; any other is ignored. */
    method ReloadMarkets(next: map<string, Market>, version: nat)
      requires Valid()
      modifies `books, `views, `markets, `generation, `documentVersion, attempts
      ensures Valid()
      ensures version <= old(documentVersion) ==>
                books == old(books) && markets == old(markets) && generation == old(generation)
                && attempts.pending == old(attempts.pending)
      ensures version > old(documentVersion) ==>
                && markets == next && documentVersion == version && generation == old(generation) + 1
                && attempts.pending == map[] && views == KeptViews(old(views), next)
    {
      if version <= documentVersion {
        return;
      }
      attempts.Invalidate();
      AdoptMarkets(next, version);
    }

    /** The connection is lost: every book is emptied and nothing stays pending. */
    method Fail()
      requires Valid()
      modifies `books, `views, `stopped, attempts
      ensures Valid() && stopped
      ensures !old(stopped) ==>
                attempts.pending == map[] && views == AllMissing(old(views)) && books == AllEmptied(old(books))
    {
      if stopped {
        return;
      }
      stopped := true;
      AllDropped(books, views, Tokens(markets), generation);
      books, views := AllEmptied(books), AllMissing(views);
      attempts.Invalidate();
    }
  }

  const CROSSED_LIMIT := 0.5

  predicate IsCrossed(book: Book) {
    book.wsSnapshot && book.sides.Crossed()
  }

  predicate Priceable(book: Book) {
    book.wsSnapshot && !book.sides.Crossed()
  }

  predicate Overdue(book: Book, now: real) {
    IsCrossed(book) && book.crossedSince != 0.0 && now - book.crossedSince >= CROSSED_LIMIT
  }

  /** What a check leaves of a book: nothing changes but that a crossed book has its time noted, and
      an overdue one is emptied. */
  predicate Checked(before: Book, after: Book, now: real) {
    if !IsCrossed(before) then after == before
    else if Overdue(before, now) then !after.wsSnapshot && after.sides == NO_LEVELS
    else after == before.(crossedSince := after.crossedSince)
         && after.crossedSince == (if before.crossedSince == 0.0 then now else before.crossedSince)
  }

  predicate Swept(before: map<Token, Book>, after: map<Token, Book>, seen: set<Token>, now: real) {
    && after.Keys == before.Keys
    && forall t :: t in before ==> if t in seen then Checked(before[t], after[t], now) else after[t] == before[t]
  }

  ghost predicate ViewsSwept(books: map<Token, Book>, before: map<Token, View>, after: map<Token, View>,
                             seen: set<Token>, now: real) {
    && after.Keys == before.Keys == books.Keys
    && forall t :: t in before ==> after[t] == if t in seen && Overdue(books[t], now) then Missing else before[t]
  }

  predicate AnyOverdue(books: map<Token, Book>, tokens: set<Token>, now: real) {
    exists t :: t in tokens && t in books && Overdue(books[t], now)
  }

  lemma CheckedTwice(before: Book, mid: Book, after: Book, now: real)
    requires Checked(before, mid, now) && Checked(mid, after, now)
    ensures Checked(before, after, now) && !Overdue(mid, now)
  {
  }

  /** Books, views and attempts at one moment. */
  datatype Moment = Moment(books: map<Token, Book>, views: map<Token, View>, pending: map<nat, Attempts.Attempt>,
                           log: seq<Attempts.Resolution>)

  /** Some books have been looked at: those overdue are dropped, and nothing pending outlives one. */
  ghost predicate SweptTo(was: Moment, after: Moment, seen: set<Token>, now: real) {
    && Swept(was.books, after.books, seen, now) && ViewsSwept(was.books, was.views, after.views, seen, now)
    && Attempts.ClearedIf(AnyOverdue(was.books, seen, now), was.pending, was.log, after.pending, after.log)
  }

  lemma NothingSwept(m: Moment, now: real)
    requires m.books.Keys == m.views.Keys
    ensures SweptTo(m, m, {}, now)
  {
  }

  lemma OneSwept(was: Moment, after: Moment, token: Token, now: real)
    requires token in was.books && was.books.Keys == was.views.Keys == after.books.Keys
    requires Checked(was.books[token], after.books[token], now)
    requires forall t :: t in was.books && t != token ==> after.books[t] == was.books[t]
    requires after.views == if Overdue(was.books[token], now) then was.views[token := Missing] else was.views
    requires Attempts.ClearedIf(Overdue(was.books[token], now), was.pending, was.log, after.pending, after.log)
    ensures SweptTo(was, after, {token}, now)
  {
    assert AnyOverdue(was.books, {token}, now) <==> Overdue(was.books[token], now);
  }

  lemma LogGrows(was: Moment, after: Moment, seen: set<Token>, now: real)
    requires SweptTo(was, after, seen, now)
    ensures |was.log| <= |after.log| && after.log[..|was.log|] == was.log
  {
  }

  lemma SweptOn(b0: map<Token, Book>, b1: map<Token, Book>, b2: map<Token, Book>,
                v0: map<Token, View>, v1: map<Token, View>, v2: map<Token, View>,
                seen: set<Token>, token: Token, now: real)
    requires Swept(b0, b1, seen, now) && Swept(b1, b2, {token}, now)
    requires ViewsSwept(b0, v0, v1, seen, now) && ViewsSwept(b1, v1, v2, {token}, now)
    ensures Swept(b0, b2, seen + {token}, now) && ViewsSwept(b0, v0, v2, seen + {token}, now)
  {
    if token in b0 && token in seen {
      CheckedTwice(b0[token], b1[token], b2[token], now);
    }
  }

  lemma SweptToOn(a: Moment, b: Moment, c: Moment, seen: set<Token>, token: Token, now: real)
    requires SweptTo(a, b, seen, now) && SweptTo(b, c, {token}, now)
    ensures SweptTo(a, c, seen + {token}, now)
  {
    SweptOn(a.books, b.books, c.books, a.views, b.views, c.views, seen, token, now);
    OverdueOn(a.books, b.books, seen, {token}, now);
    Attempts.ClearedOnce(AnyOverdue(a.books, seen, now), AnyOverdue(b.books, {token}, now), a.pending, a.log,
                         b.pending, b.log, c.pending, c.log);
  }

  /** Checking changes no book that can be priced, and makes none priceable. */
  lemma SweptPriceable(before: map<Token, Book>, after: map<Token, Book>, seen: set<Token>, now: real)
    requires Swept(before, after, seen, now)
    ensures forall t :: t in before ==>
              (Priceable(after[t]) <==> Priceable(before[t])) && (!IsCrossed(before[t]) ==> after[t] == before[t])
  {
  }

  /** Looking at some books leaves none of them overdue and the others as they were. */
  lemma OverdueOn(before: map<Token, Book>, after: map<Token, Book>, seen: set<Token>, tokens: set<Token>, now: real)
    requires Swept(before, after, seen, now)
    ensures AnyOverdue(before, seen + tokens, now) <==> AnyOverdue(before, seen, now) || AnyOverdue(after, tokens, now)
  {
    forall t | t in before
      ensures Overdue(after[t], now) <==> t !in seen && Overdue(before[t], now)
    {
    }
    if AnyOverdue(before, seen + tokens, now) && !AnyOverdue(before, seen, now) {
      var t :| t in seen + tokens && t in before && Overdue(before[t], now);
      assert t !in seen && t in tokens;
    }
    if AnyOverdue(after, tokens, now) {
      var t :| t in tokens && t in after && Overdue(after[t], now);
      assert t in seen + tokens;
    }
  }

  lemma BothSwept(a: Moment, b: Moment, c: Moment, d: Moment, seen: set<Token>, market: Market, now: real)
    requires SweptTo(a, b, seen, now) && SweptTo(b, c, {market.up}, now) && SweptTo(c, d, {market.down}, now)
    ensures SweptTo(a, d, seen + {market.up, market.down}, now)
  {
    SweptToOn(a, b, c, seen, market.up, now);
    SweptToOn(a, c, d, seen + {market.up}, market.down, now);
    assert seen + {market.up} + {market.down} == seen + {market.up, market.down};
  }

  /** A market is ready if neither book was found crossed and both still have a snapshot. */
  lemma BothReady(b0: map<Token, Book>, b1: map<Token, Book>, b2: map<Token, Book>, b3: map<Token, Book>,
                  seen: set<Token>, market: Market, now: real)
    requires Swept(b0, b1, seen, now) && Swept(b1, b2, {market.up}, now) && Swept(b2, b3, {market.down}, now)
    requires market.up in b0 && market.down in b0
    ensures BothPriceable(b0, market)
            <==> !IsCrossed(b1[market.up]) && !IsCrossed(b2[market.down])
                 && b3[market.up].wsSnapshot && b3[market.down].wsSnapshot
  {
    SweptPriceable(b0, b1, seen, now);
    SweptPriceable(b1, b2, {market.up}, now);
    SweptPriceable(b2, b3, {market.down}, now);
  }

  predicate BothPriceable(books: map<Token, Book>, market: Market) {
    market.up in books && market.down in books && Priceable(books[market.up]) && Priceable(books[market.down])
  }

  /** Exactly the markets both of whose books have a snapshot and are not crossed. */
  predicate IsReady(books: map<Token, Book>, markets: map<string, Market>, ready: set<string>) {
    ready <= markets.Keys && forall m :: m in markets ==> (m in ready <==> BothPriceable(books, markets[m]))
  }

  /** The same for the markets outside `todo`, whose tokens have been seen. */
  predicate ReadyBut(books: map<Token, Book>, markets: map<string, Market>, todo: set<string>, seen: set<Token>,
                     ready: set<string>)
  {
    && ready <= markets.Keys - todo
    && forall m :: m in markets && m !in todo ==>
         && markets[m].up in seen && markets[m].down in seen
         && (m in ready <==> BothPriceable(books, markets[m]))
  }

  lemma ListedHaveBooks(markets: map<string, Market>, m: string)
    requires m in markets
    ensures markets[m].up in Tokens(markets) && markets[m].down in Tokens(markets)
  {
  }

  lemma ReadyStep(books: map<Token, Book>, markets: map<string, Market>, todo: set<string>, seen: set<Token>,
                  ready: set<string>, m: string)
    requires ReadyBut(books, markets, todo, seen, ready) && m in todo && todo <= markets.Keys
    ensures ReadyBut(books, markets, todo - {m}, seen + {markets[m].up, markets[m].down},
                     if BothPriceable(books, markets[m]) then ready + {m} else ready)
  {
  }

  /** Once all markets are done every token has been seen. */
  lemma AllSeen(books: map<Token, Book>, markets: map<string, Market>, seen: set<Token>, ready: set<string>)
    requires ReadyBut(books, markets, {}, seen, ready)
    ensures Tokens(markets) <= seen && IsReady(books, markets, ready)
  {
  }

  lemma ReadyStays(before: map<Token, Book>, after: map<Token, Book>, markets: map<string, Market>,
                   seen: set<Token>, ready: set<string>, now: real)
    requires IsReady(before, markets, ready) && Swept(before, after, seen, now)
    ensures IsReady(after, markets, ready)
  {
    SweptPriceable(before, after, seen, now);
    forall m | m in markets
      ensures m in ready <==> BothPriceable(after, markets[m])
    {
      assert BothPriceable(after, markets[m]) <==> BothPriceable(before, markets[m]);
    }
  }

  lemma ReadyEnds(was: Moment, after: Moment, markets: map<string, Market>, seen: set<Token>, ready: set<string>,
                  now: real)
    requires ReadyBut(was.books, markets, {}, seen, ready) && was.books.Keys == Tokens(markets)
    requires SweptTo(was, after, seen, now)
    ensures IsReady(was.books, markets, ready) && IsReady(after.books, markets, ready)
    ensures SweptTo(was, after, was.books.Keys, now)
  {
    AllSeen(was.books, markets, seen, ready);
    ReadyStays(was.books, after.books, markets, seen, ready, now);
    AllViewsSwept(was.books, was.views, after.views, seen, now);
    AllOverdue(was.books, seen, now);
  }

  lemma AllOverdue(books: map<Token, Book>, seen: set<Token>, now: real)
    requires books.Keys <= seen
    ensures AnyOverdue(books, seen, now) <==> AnyOverdue(books, books.Keys, now)
  {
  }

  lemma AllViewsSwept(books: map<Token, Book>, v0: map<Token, View>, v1: map<Token, View>, seen: set<Token>, now: real)
    requires ViewsSwept(books, v0, v1, seen, now) && books.Keys <= seen
    ensures ViewsSwept(books, v0, v1, books.Keys, now)
  {
  }

  function KeptBooks(books: map<Token, Book>, next: map<string, Market>, generation: nat): map<Token, Book> {
    map t | t in Tokens(next) :: if t in books then books[t].(generation := generation) else NewBook(generation)
  }

  ghost function KeptViews(views: map<Token, View>, next: map<string, Market>): map<Token, View> {
    map t | t in Tokens(next) :: if t in views then views[t] else Missing
  }

  lemma KeptHold(books: map<Token, Book>, views: map<Token, View>, tokens: set<Token>, was: nat,
                 next: map<string, Market>, generation: nat)
    requires Consistent(books, views, tokens, was, {})
    ensures Consistent(KeptBooks(books, next, generation), KeptViews(views, next), Tokens(next), generation, {})
  {
  }
}
