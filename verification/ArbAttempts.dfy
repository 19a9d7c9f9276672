/** Observed arbitrage attempts: started while a market qualifies, and resolved once each, when
    due or when the books they rest on are gone. */
module ArbAttempts {
  import opened Options
  import Observed = ObservedArb

  const MAX_PENDING: nat := 2048

  type LegOrder = Observed.LegOrder

  const UP_THEN_DOWN: LegOrder := Observed.UpThenDown
  const DOWN_THEN_UP: LegOrder := Observed.DownThenUp

  datatype EpisodeKey = EpisodeKey(market: string, size: real, delay: real, order: LegOrder)

  datatype Attempt = Attempt(key: EpisodeKey, terms: Observed.Terms)

  datatype Outcome = BookExecutable | Orphaned | Invalidated

  datatype Resolution = Resolution(attempt: nat, outcome: Outcome)

  function CountOf(log: seq<Resolution>, outcome: Outcome): nat {
    if log == [] then 0
    else CountOf(log[..|log| - 1], outcome) + if log[|log| - 1].outcome == outcome then 1 else 0
  }

  lemma CountMore(log: seq<Resolution>, r: Resolution, outcome: Outcome)
    ensures CountOf(log + [r], outcome) == CountOf(log, outcome) + if r.outcome == outcome then 1 else 0
  {
    assert (log + [r])[..|log|] == log;
  }

  lemma {:induction false} CountsAddUp(log: seq<Resolution>)
    ensures CountOf(log, BookExecutable) + CountOf(log, Orphaned) + CountOf(log, Invalidated) == |log|
  {
    if log != [] {
      CountsAddUp(log[..|log| - 1]);
    }
  }

  /** Undoing the resolutions one by one gives back every attempt started, numbered up to `last`:
      each resolved attempt had been pending, and was so no more afterwards. */
  ghost predicate Placed(pending: set<nat>, log: seq<Resolution>, started: set<nat>, last: nat)
    decreases log
  {
    if log == [] then started == pending && forall id :: id in started ==> 0 < id <= last
    else
      var r := log[|log| - 1];
      r.attempt !in pending && Placed(pending + {r.attempt}, log[..|log| - 1], started, last)
  }

  /** So every attempt started is pending or resolved, never both and never twice. */
  lemma {:induction false} PlacedOnce(pending: set<nat>, log: seq<Resolution>, started: set<nat>, last: nat)
    requires Placed(pending, log, started, last)
    ensures |started| == |pending| + |log| && pending <= started
    ensures forall i :: 0 <= i < |log| ==> log[i].attempt in started && log[i].attempt !in pending
    ensures forall i, j :: 0 <= i < j < |log| ==> log[i].attempt != log[j].attempt
    ensures forall id :: id in started ==> id in pending || exists i :: 0 <= i < |log| && log[i].attempt == id
    ensures forall id :: id in started ==> 0 < id <= last
    decreases log
  {
    if log != [] {
      var n := |log| - 1;
      var before, r := log[..n], log[n];
      PlacedOnce(pending + {r.attempt}, before, started, last);
      forall id | id in started
        ensures id in pending || exists i :: 0 <= i < |log| && log[i].attempt == id
      {
        if id !in pending && id != r.attempt {
          var i :| 0 <= i < |before| && before[i].attempt == id;
          assert log[i].attempt == id;
        } else {
          assert log[n] == r;
        }
      }
      forall i | 0 <= i < |log|
        ensures log[i].attempt in started && log[i].attempt !in pending
        ensures i < n ==> log[i].attempt != r.attempt
      {
        assert i < n ==> before[i] == log[i];
      }
    }
  }

  lemma {:induction false} StartPlaces(pending: set<nat>, log: seq<Resolution>, started: set<nat>, last: nat)
    requires Placed(pending, log, started, last)
    ensures last + 1 !in started && last + 1 !in pending
    ensures Placed(pending + {last + 1}, log, started + {last + 1}, last + 1)
    decreases log
  {
    if log != [] {
      var r := log[|log| - 1];
      StartPlaces(pending + {r.attempt}, log[..|log| - 1], started, last);
      assert pending + {last + 1} + {r.attempt} == pending + {r.attempt} + {last + 1};
    }
  }

  lemma ResolvePlaces(pending: set<nat>, log: seq<Resolution>, started: set<nat>, last: nat, r: Resolution)
    requires Placed(pending, log, started, last) && r.attempt in pending
    ensures Placed(pending - {r.attempt}, log + [r], started, last)
  {
    assert pending - {r.attempt} + {r.attempt} == pending;
    assert (log + [r])[..|log|] == log;
  }

  // ---- the accounts ----

  ghost predicate Accounted(pending: map<nat, Attempt>, log: seq<Resolution>, started: set<nat>, last: nat,
                            attempts: nat)
  {
    && |pending.Keys| <= MAX_PENDING
    && Placed(pending.Keys, log, started, last)
    && attempts == |pending.Keys| + |log|
  }

  predicate Counted(log: seq<Resolution>, executable: nat, orphaned: nat, invalidated: nat) {
    && executable == CountOf(log, BookExecutable)
    && orphaned == CountOf(log, Orphaned)
    && invalidated == CountOf(log, Invalidated)
  }

  lemma MoreKeys(pending: map<nat, Attempt>, id: nat, attempt: Attempt)
    requires id !in pending
    ensures pending[id := attempt].Keys == pending.Keys + {id}
    ensures |pending[id := attempt].Keys| == |pending.Keys| + 1
  {
    assert pending[id := attempt].Keys == pending.Keys + {id};
  }

  lemma FewerKeys(pending: map<nat, Attempt>, id: nat)
    requires id in pending
    ensures (pending - {id}).Keys == pending.Keys - {id}
    ensures |(pending - {id}).Keys| == |pending.Keys| - 1
  {
    assert (pending - {id}).Keys == pending.Keys - {id};
  }

  lemma StartAccounted(pending: map<nat, Attempt>, log: seq<Resolution>, started: set<nat>, last: nat, attempts: nat,
                       attempt: Attempt)
    requires Accounted(pending, log, started, last, attempts) && |pending.Keys| < MAX_PENDING
    ensures last + 1 !in started && last + 1 !in pending
    ensures Accounted(pending[last + 1 := attempt], log, started + {last + 1}, last + 1, attempts + 1)
  {
    StartPlaces(pending.Keys, log, started, last);
    MoreKeys(pending, last + 1, attempt);
  }

  lemma ResolveAccounted(pending: map<nat, Attempt>, log: seq<Resolution>, started: set<nat>, last: nat, attempts: nat,
                         r: Resolution)
    requires Accounted(pending, log, started, last, attempts) && r.attempt in pending
    ensures Accounted(pending - {r.attempt}, log + [r], started, last, attempts)
    ensures |(pending - {r.attempt}).Keys| == |pending.Keys| - 1
  {
    ResolvePlaces(pending.Keys, log, started, last, r);
    FewerKeys(pending, r.attempt);
  }

  lemma ResolveCounted(log: seq<Resolution>, executable: nat, orphaned: nat, invalidated: nat, r: Resolution)
    requires Counted(log, executable, orphaned, invalidated)
    ensures Counted(log + [r], if r.outcome == BookExecutable then executable + 1 else executable,
                    if r.outcome == Orphaned then orphaned + 1 else orphaned,
                    if r.outcome == Invalidated then invalidated + 1 else invalidated)
  {
    CountMore(log, r, BookExecutable);
    CountMore(log, r, Orphaned);
    CountMore(log, r, Invalidated);
  }

  // ---- which episodes are active ----

  /** An episode is active exactly when it qualifies, unless no more attempts could be held. */
  predicate Tracks(active: set<EpisodeKey>, full: bool, key: EpisodeKey, qualified: bool) {
    if qualified then key in active || full else key !in active
  }

  predicate TracksOrder(active: set<EpisodeKey>, full: bool, market: string, size: real, order: LegOrder,
                        delays: seq<real>, qualified: bool) {
    forall j :: 0 <= j < |delays| ==> Tracks(active, full, EpisodeKey(market, size, delays[j], order), qualified)
  }

  predicate TracksSize(active: set<EpisodeKey>, full: bool, market: string, size: real,
                       delays: seq<real>, qualified: bool) {
    && TracksOrder(active, full, market, size, UP_THEN_DOWN, delays, qualified)
    && TracksOrder(active, full, market, size, DOWN_THEN_UP, delays, qualified)
  }

  /** Episodes of another market or size, or of another order if one is given, are active or not
      as they were. */
  ghost predicate SameElsewhere(before: set<EpisodeKey>, after: set<EpisodeKey>, market: string, size: real,
                                order: Option<LegOrder>) {
    forall key: EpisodeKey :: key.market != market || key.size != size || (order.Some? && key.order != order.value) ==>
      (key in before <==> key in after)
  }

  lemma StillTracksOrder(before: set<EpisodeKey>, after: set<EpisodeKey>, full: bool, fuller: bool, market: string,
                         size: real, delays: seq<real>, qualified: bool)
    requires TracksOrder(before, full, market, size, UP_THEN_DOWN, delays, qualified) && (full ==> fuller)
    requires SameElsewhere(before, after, market, size, Some(DOWN_THEN_UP))
    ensures TracksOrder(after, fuller, market, size, UP_THEN_DOWN, delays, qualified)
  {
  }

  lemma StillTracksSize(before: set<EpisodeKey>, after: set<EpisodeKey>, full: bool, fuller: bool, market: string,
                        size: real, other: real, delays: seq<real>, qualified: bool)
    requires TracksSize(before, full, market, size, delays, qualified) && (full ==> fuller) && size != other
    requires SameElsewhere(before, after, market, other, None)
    ensures TracksSize(after, fuller, market, size, delays, qualified)
  {
  }

  /** One episode more is as it should be; the others of the order have not changed. */
  lemma TracksMore(before: set<EpisodeKey>, after: set<EpisodeKey>, full: bool, fuller: bool, key: EpisodeKey,
                   delays: seq<real>, qualified: bool)
    requires TracksOrder(before, full, key.market, key.size, key.order, delays, qualified) && (full ==> fuller)
    requires after == if !qualified then before - {key} else if full then before else before + {key}
    ensures TracksOrder(after, fuller, key.market, key.size, key.order, delays + [key.delay], qualified)
  {
  }

  lemma SameElsewhereOn(a: set<EpisodeKey>, b: set<EpisodeKey>, c: set<EpisodeKey>, key: EpisodeKey)
    requires SameElsewhere(a, b, key.market, key.size, Some(key.order)) && c in {b, b - {key}, b + {key}}
    ensures SameElsewhere(a, c, key.market, key.size, Some(key.order))
  {
  }

  predicate TracksSizes(active: set<EpisodeKey>, full: bool, market: string, sizes: seq<real>, delays: seq<real>,
                        qualified: real -> bool) {
    forall i :: 0 <= i < |sizes| ==> TracksSize(active, full, market, sizes[i], delays, qualified(sizes[i]))
  }

  /** Episodes of other markets are active or not as they were. */
  ghost predicate SameMarkets(before: set<EpisodeKey>, after: set<EpisodeKey>, market: string) {
    forall key: EpisodeKey :: key.market != market ==> (key in before <==> key in after)
  }

  lemma StillTracksSizes(before: set<EpisodeKey>, after: set<EpisodeKey>, full: bool, fuller: bool, market: string,
                         sizes: seq<real>, other: real, delays: seq<real>, qualified: real -> bool)
    requires TracksSizes(before, full, market, sizes, delays, qualified) && (full ==> fuller)
    requires TracksSize(after, fuller, market, other, delays, qualified(other))
    requires SameElsewhere(before, after, market, other, None)
    ensures TracksSizes(after, fuller, market, sizes + [other], delays, qualified)
  {
    forall i | 0 <= i < |sizes| && sizes[i] != other
      ensures TracksSize(after, fuller, market, sizes[i], delays, qualified(sizes[i]))
    {
      StillTracksSize(before, after, full, fuller, market, sizes[i], other, delays, qualified(sizes[i]));
    }
  }

  /** The attempt an episode starts on the books of its market. */
  function AttemptOn(q: Observed.Quotes, key: EpisodeKey, now: real): Attempt {
    Attempt(key, Observed.TermsOf(q, key.order, key.size, now + key.delay))
  }

  /** What a due attempt comes to: its books decide, or its market is gone. */
  function OutcomeOf(attempt: Attempt, quotes: map<string, Observed.Quotes>, now: real): Outcome {
    if attempt.key.market !in quotes then Invalidated
    else
      match Observed.Observe(attempt.terms, quotes[attempt.key.market], now).state
      case BookExecutable => BookExecutable
      case Orphaned => Orphaned
      case _ => Invalidated
  }

  /** What was pending still is, unchanged, and what is new is what its episode starts. */
  predicate Grown(before: map<nat, Attempt>, after: map<nat, Attempt>, start: EpisodeKey -> Attempt) {
    && |before.Keys| <= |after.Keys|
    && (forall id :: id in before ==> id in after && after[id] == before[id])
    && (forall id :: id in after && id !in before ==> after[id] == start(after[id].key))
  }

  lemma GrownOn(a: map<nat, Attempt>, b: map<nat, Attempt>, c: map<nat, Attempt>, start: EpisodeKey -> Attempt)
    requires Grown(a, b, start) && Grown(b, c, start)
    ensures Grown(a, c, start)
  {
  }

  lemma GrownByOne(before: map<nat, Attempt>, id: nat, key: EpisodeKey, start: EpisodeKey -> Attempt)
    requires id !in before && start(key).key == key
    ensures Grown(before, before[id := start(key)], start)
  {
    MoreKeys(before, id, start(key));
  }

  // ---- updating the episodes of a market ----

  /** Pending attempts, active episodes and the last number given out. */
  datatype Held = Held(pending: map<nat, Attempt>, active: map<EpisodeKey, nat>, last: nat) {
    predicate Full() {
      |pending.Keys| >= MAX_PENDING
    }

    predicate Numbered() {
      forall id :: id in pending ==> id <= last
    }
  }

  function Added(h: Held, key: EpisodeKey, attempt: Attempt): Held {
    Held(h.pending[h.last + 1 := attempt], h.active[key := h.last + 1], h.last + 1)
  }

  /** An episode ends for want of qualification or, if it is new and there is room, starts one
      attempt under the next number. */
  function UpdateEpisode(h: Held, key: EpisodeKey, qualified: bool, start: EpisodeKey -> Attempt): Held {
    if !qualified then h.(active := h.active - {key})
    else if key in h.active || h.Full() then h
    else Added(h, key, start(key))
  }

  function OverDelays(h: Held, market: string, size: real, order: LegOrder, delays: seq<real>, qualified: bool,
                      start: EpisodeKey -> Attempt): Held {
    if delays == [] then h
    else
      UpdateEpisode(OverDelays(h, market, size, order, delays[..|delays| - 1], qualified, start),
                    EpisodeKey(market, size, delays[|delays| - 1], order), qualified, start)
  }

  function OverOrders(h: Held, market: string, size: real, delays: seq<real>, qualified: bool,
                      start: EpisodeKey -> Attempt): Held {
    OverDelays(OverDelays(h, market, size, UP_THEN_DOWN, delays, qualified, start),
               market, size, DOWN_THEN_UP, delays, qualified, start)
  }

  function OverSizes(h: Held, market: string, sizes: seq<real>, delays: seq<real>, qualified: real -> bool,
                     start: EpisodeKey -> Attempt): Held {
    if sizes == [] then h
    else
      var n := |sizes| - 1;
      OverOrders(OverSizes(h, market, sizes[..n], delays, qualified, start),
                 market, sizes[n], delays, qualified(sizes[n]), start)
  }

  /** Nothing pending is lost or changed, what is new is what its episode starts, and full stays full. */
  ghost predicate Onward(h: Held, h': Held, start: EpisodeKey -> Attempt) {
    Grown(h.pending, h'.pending, start) && h'.Numbered() && (h.Full() ==> h'.Full())
  }

  lemma OnwardOn(a: Held, b: Held, c: Held, start: EpisodeKey -> Attempt)
    requires Onward(a, b, start) && Onward(b, c, start)
    ensures Onward(a, c, start)
  {
    GrownOn(a.pending, b.pending, c.pending, start);
  }

  lemma AddedUpdated(h: Held, key: EpisodeKey, start: EpisodeKey -> Attempt)
    requires h.Numbered() && start(key).key == key && !h.Full()
    ensures var next := Added(h, key, start(key));
            Onward(h, next, start) && next.active.Keys == h.active.Keys + {key}
  {
    GrownByOne(h.pending, h.last + 1, key, start);
    assert Added(h, key, start(key)).active.Keys == h.active.Keys + {key};
  }

  lemma EpisodeUpdated(h: Held, key: EpisodeKey, qualified: bool, start: EpisodeKey -> Attempt)
    requires h.Numbered() && start(key).key == key
    ensures var next := UpdateEpisode(h, key, qualified, start);
            && Onward(h, next, start)
            && next.active.Keys == (if !qualified then h.active.Keys - {key}
                                    else if h.Full() then h.active.Keys else h.active.Keys + {key})
  {
    var next := UpdateEpisode(h, key, qualified, start);
    if !qualified {
      assert next.active.Keys == h.active.Keys - {key};
    } else if key in h.active || h.Full() {
      assert key in h.active ==> h.active.Keys + {key} == h.active.Keys;
    } else {
      AddedUpdated(h, key, start);
    }
  }

  lemma {:induction false} DelaysUpdated(h: Held, market: string, size: real, order: LegOrder, delays: seq<real>,
                                         qualified: bool, start: EpisodeKey -> Attempt)
    requires h.Numbered() && forall key :: start(key).key == key
    ensures var next := OverDelays(h, market, size, order, delays, qualified, start);
            && Onward(h, next, start)
            && TracksOrder(next.active.Keys, next.Full(), market, size, order, delays, qualified)
            && SameElsewhere(h.active.Keys, next.active.Keys, market, size, Some(order))
  {
    if delays != [] {
      var before, key := delays[..|delays| - 1], EpisodeKey(market, size, delays[|delays| - 1], order);
      var mid := OverDelays(h, market, size, order, before, qualified, start);
      var next := UpdateEpisode(mid, key, qualified, start);
      DelaysUpdated(h, market, size, order, before, qualified, start);
      EpisodeUpdated(mid, key, qualified, start);
      OnwardOn(h, mid, next, start);
      TracksMore(mid.active.Keys, next.active.Keys, mid.Full(), next.Full(), key, before, qualified);
      SameElsewhereOn(h.active.Keys, mid.active.Keys, next.active.Keys, key);
      assert delays == before + [delays[|delays| - 1]];
    }
  }

  lemma OrdersUpdated(h: Held, market: string, size: real, delays: seq<real>, qualified: bool,
                      start: EpisodeKey -> Attempt)
    requires h.Numbered() && forall key :: start(key).key == key
    ensures var next := OverOrders(h, market, size, delays, qualified, start);
            && Onward(h, next, start)
            && TracksSize(next.active.Keys, next.Full(), market, size, delays, qualified)
            && SameElsewhere(h.active.Keys, next.active.Keys, market, size, None)
  {
    var mid := OverDelays(h, market, size, UP_THEN_DOWN, delays, qualified, start);
    var next := OverDelays(mid, market, size, DOWN_THEN_UP, delays, qualified, start);
    DelaysUpdated(h, market, size, UP_THEN_DOWN, delays, qualified, start);
    DelaysUpdated(mid, market, size, DOWN_THEN_UP, delays, qualified, start);
    OnwardOn(h, mid, next, start);
    StillTracksOrder(mid.active.Keys, next.active.Keys, mid.Full(), next.Full(), market, size, delays, qualified);
  }

  /** Afterwards the market's episodes of every size, leg order and delay are active exactly when that size
      qualifies, unless no more attempts could be held; other markets are as they were. */
  lemma {:induction false} SizesUpdated(h: Held, market: string, sizes: seq<real>, delays: seq<real>,
                                        qualified: real -> bool, start: EpisodeKey -> Attempt)
    requires h.Numbered() && forall key :: start(key).key == key
    ensures var next := OverSizes(h, market, sizes, delays, qualified, start);
            && Onward(h, next, start)
            && TracksSizes(next.active.Keys, next.Full(), market, sizes, delays, qualified)
            && SameMarkets(h.active.Keys, next.active.Keys, market)
  {
    if sizes != [] {
      var before, size := sizes[..|sizes| - 1], sizes[|sizes| - 1];
      var mid := OverSizes(h, market, before, delays, qualified, start);
      var next := OverOrders(mid, market, size, delays, qualified(size), start);
      SizesUpdated(h, market, before, delays, qualified, start);
      OrdersUpdated(mid, market, size, delays, qualified(size), start);
      OnwardOn(h, mid, next, start);
      StillTracksSizes(mid.active.Keys, next.active.Keys, mid.Full(), next.Full(), market, before, size,
                       delays, qualified);
      assert sizes == before + [size];
    }
  }

  /** From `first` on the log resolves attempts of `was` that are due, each as observed. */
  predicate ResolvesDue(was: map<nat, Attempt>, log: seq<Resolution>, first: nat, now: real,
                        observe: Attempt -> Outcome)
  {
    forall i :: first <= i < |log| ==>
      && log[i].attempt in was && was[log[i].attempt].terms.due <= now
      && log[i].outcome == observe(was[log[i].attempt])
  }

  /** From `first` on the log resolves attempts of `was` that are due, each by the quotes of its market. */
  predicate ResolvedOn(was: map<nat, Attempt>, log: seq<Resolution>, first: nat, now: real,
                       quotes: map<string, Observed.Quotes>)
  {
    forall i :: first <= i < |log| ==>
      && log[i].attempt in was && was[log[i].attempt].terms.due <= now
      && log[i].outcome == OutcomeOf(was[log[i].attempt], quotes, now)
  }

  /** The book on which the second leg of an attempt is bought can no longer be relied on: another generation or
      session, no snapshot, stale or crossed. */
  predicate SecondBookGone(t: Observed.Terms, q: Observed.Quotes) {
    var sheet := if t.order == Observed.UpThenDown then q.down else q.up;
    !(sheet.generation == t.generation && q.session == t.session && sheet.snapshot && q.synced && !sheet.crossed)
  }

  /** What the due attempts come to. An executable one pays both legs, their fees and the buffer out of its payout
      and keeps something; one is invalidated exactly when its market, its validity or its second book is gone. */
  lemma ResolutionsMean(was: map<nat, Attempt>, log: seq<Resolution>, first: nat, now: real,
                        quotes: map<string, Observed.Quotes>, i: nat)
    requires ResolvedOn(was, log, first, now, quotes) && first <= i < |log|
    ensures var a, market := was[log[i].attempt], was[log[i].attempt].key.market;
            && (log[i].outcome == BookExecutable ==>
                  && market in quotes
                  && var second := quotes[market].Buy(Observed.Other(a.terms.order), a.terms.size);
                     && Observed.LegCost(a.terms.first) + Observed.LegCost(second) + a.terms.buffer < a.terms.payout
                     && second.executable + 0.000000000001 >= a.terms.size)
            && (log[i].outcome == Invalidated <==>
                  market !in quotes || !a.terms.valid || SecondBookGone(a.terms, quotes[market]))
  {
    var a := was[log[i].attempt];
    if a.key.market in quotes {
      var q := quotes[a.key.market];
      if log[i].outcome == BookExecutable {
        Observed.ExecutableLocksProfit(a.terms, q, now);
      }
      if a.terms.valid {
        Observed.InvalidatedWithTheBook(a.terms, q, now);
      }
    }
  }

  /** From `first` on the log invalidates attempts of `was`. */
  predicate AllInvalidated(was: map<nat, Attempt>, log: seq<Resolution>, first: nat) {
    forall i :: first <= i < |log| ==> log[i].attempt in was && log[i].outcome == Invalidated
  }

  /** So far everything taken out of `was` has been invalidated in the log, once. */
  ghost predicate Invalidating(was: map<nat, Attempt>, pending: map<nat, Attempt>, before: seq<Resolution>,
                               log: seq<Resolution>)
  {
    && before <= log && pending.Keys <= was.Keys
    && |log| + |pending.Keys| == |before| + |was.Keys|
    && AllInvalidated(was, log, |before|)
  }

  lemma InvalidatedOne(was: map<nat, Attempt>, pending: map<nat, Attempt>, before: seq<Resolution>,
                       log: seq<Resolution>, id: nat)
    requires Invalidating(was, pending, before, log) && id in pending
    ensures Invalidating(was, pending - {id}, before, log + [Resolution(id, Invalidated)])
  {
    FewerKeys(pending, id);
  }

  /** What is left of `was` are the attempts still in `todo` and those not due. */
  predicate Leaves(was: map<nat, Attempt>, pending: map<nat, Attempt>, todo: set<nat>, now: real) {
    && pending.Keys <= was.Keys
    && forall id :: id in was ==>
         && (id in pending <==> id in todo || now < was[id].terms.due)
         && (id in pending ==> pending[id] == was[id])
  }

  /** Everything pending has been invalidated. */
  predicate Cleared(was: map<nat, Attempt>, before: seq<Resolution>, pending: map<nat, Attempt>,
                    log: seq<Resolution>)
  {
    pending == map[] && before <= log && |log| == |before| + |was.Keys| && AllInvalidated(was, log, |before|)
  }

  /** Everything pending has been invalidated if something has `gone`, and otherwise nothing has changed. */
  predicate ClearedIf(gone: bool, was: map<nat, Attempt>, before: seq<Resolution>, pending: map<nat, Attempt>,
                      log: seq<Resolution>)
  {
    if gone then Cleared(was, before, pending, log) else pending == was && log == before
  }

  lemma ClearedOnce(one: bool, two: bool, p0: map<nat, Attempt>, l0: seq<Resolution>, p1: map<nat, Attempt>,
                    l1: seq<Resolution>, p2: map<nat, Attempt>, l2: seq<Resolution>)
    requires ClearedIf(one, p0, l0, p1, l1) && ClearedIf(two, p1, l1, p2, l2)
    ensures ClearedIf(one || two, p0, l0, p2, l2)
  {
    if one && two {
      assert |l2| == |l1| && l2[..|l1|] == l1;
      assert l2 == l1;
    }
  }

  /** The attempts not yet due. */
  function NotDue(pending: map<nat, Attempt>, now: real): map<nat, Attempt> {
    map id | id in pending && now < pending[id].terms.due :: pending[id]
  }

  lemma LeavesNotDue(was: map<nat, Attempt>, pending: map<nat, Attempt>, now: real)
    requires Leaves(was, pending, {}, now)
    ensures pending == NotDue(was, now)
  {
  }

  class ArbAttempts {
    var pending: map<nat, Attempt>
    var activeEpisodes: map<EpisodeKey, nat>
    var sequence: nat
    var attemptsStarted: nat
    var bookExecutable: nat
    var orphaned: nat
    var invalidated: nat
    /** The resolutions audited. */
    var log: seq<Resolution>
    /** Every attempt ever started. */
    ghost var started: set<nat>

    /** Every attempt started is either pending or resolved, once; the counters count them. */
    ghost predicate Valid()
      reads `pending, `log, `started, `sequence, `attemptsStarted, `bookExecutable, `orphaned, `invalidated
    {
      && Accounted(pending, log, started, sequence, attemptsStarted)
      && Counted(log, bookExecutable, orphaned, invalidated)
    }

    constructor ()
      ensures Valid() && pending == map[] && log == [] && activeEpisodes == map[] && started == {}
    {
      pending, activeEpisodes, sequence, attemptsStarted := map[], map[], 0, 0;
      bookExecutable, orphaned, invalidated, log, started := 0, 0, 0, [], {};
    }

    /** Attempts started are those pending, executable, orphaned and invalidated. */
    lemma Conservation()
      requires Valid()
      ensures attemptsStarted == |started| == |pending.Keys| + bookExecutable + orphaned + invalidated
    {
      PlacedOnce(pending.Keys, log, started, sequence);
      CountsAddUp(log);
    }

    method Resolve(id: nat, outcome: Outcome)
      requires Valid() && id in pending
      modifies `pending, `bookExecutable, `orphaned, `invalidated, `log
      ensures Valid() && pending == old(pending) - {id} && log == old(log) + [Resolution(id, outcome)]
      ensures |pending.Keys| == |old(pending.Keys)| - 1
    {
      ResolveAccounted(pending, log, started, sequence, attemptsStarted, Resolution(id, outcome));
      ResolveCounted(log, bookExecutable, orphaned, invalidated, Resolution(id, outcome));
      match outcome {
        case BookExecutable => bookExecutable := bookExecutable + 1;
        case Orphaned => orphaned := orphaned + 1;
        case Invalidated => invalidated := invalidated + 1;
      }
      log := log + [Resolution(id, outcome)];
      pending := pending - {id};
    }

    function Value(): Held
      reads this
    {
      Held(pending, activeEpisodes, sequence)
    }

    /** One more attempt, under the next number. */
    method Start(attempt: Attempt)
      requires Valid() && |pending.Keys| < MAX_PENDING
      modifies `pending, `sequence, `attemptsStarted, `started
      ensures Valid() && sequence == old(sequence) + 1 && pending == old(pending)[sequence := attempt]
    {
      var next := sequence + 1;
      StartAccounted(pending, log, started, sequence, attemptsStarted, attempt);
      sequence, pending := next, pending[next := attempt];
      attemptsStarted, started := attemptsStarted + 1, started + {next};
      assert Accounted(pending, log, started, sequence, attemptsStarted);
    }

    method UpdateOne(key: EpisodeKey, qualified: bool, start: EpisodeKey -> Attempt)
      requires Valid()
      modifies `pending, `activeEpisodes, `sequence, `attemptsStarted, `started
      ensures Valid() && Value() == UpdateEpisode(old(Value()), key, qualified, start)
    {
      if !qualified {
        activeEpisodes := activeEpisodes - {key};
        return;
      }
      if key in activeEpisodes || |pending.Keys| >= MAX_PENDING {
        return;
      }
      ghost var added := Added(Value(), key, start(key));
      Start(start(key));
      activeEpisodes := activeEpisodes[key := sequence];
      assert Value() == added;
    }

    method UpdateDelays(market: string, size: real, order: LegOrder, delays: seq<real>, qualified: bool,
                        start: EpisodeKey -> Attempt)
      requires Valid()
      modifies `pending, `activeEpisodes, `sequence, `attemptsStarted, `started
      ensures Valid() && Value() == OverDelays(old(Value()), market, size, order, delays, qualified, start)
    {
      for k := 0 to |delays|
        invariant Valid() && Value() == OverDelays(old(Value()), market, size, order, delays[..k], qualified, start)
      {
        assert delays[..k + 1][..k] == delays[..k];
        UpdateOne(EpisodeKey(market, size, delays[k], order), qualified, start);
      }
      assert delays[..|delays|] == delays;
    }

    method UpdateSizes(market: string, sizes: seq<real>, delays: seq<real>, qualified: real -> bool,
                       start: EpisodeKey -> Attempt)
      requires Valid()
      modifies `pending, `activeEpisodes, `sequence, `attemptsStarted, `started
      ensures Valid() && Value() == OverSizes(old(Value()), market, sizes, delays, qualified, start)
    {
      for n := 0 to |sizes|
        invariant Valid() && Value() == OverSizes(old(Value()), market, sizes[..n], delays, qualified, start)
      {
        assert sizes[..n + 1][..n] == sizes[..n];
        UpdateDelays(market, sizes[n], UP_THEN_DOWN, delays, qualified(sizes[n]), start);
        UpdateDelays(market, sizes[n], DOWN_THEN_UP, delays, qualified(sizes[n]), start);
      }
      assert sizes[..|sizes|] == sizes;
    }

    lemma ValidIsNumbered()
      requires Valid()
      ensures Value().Numbered()
    {
      PlacedOnce(pending.Keys, log, started, sequence);
    }

    /** Afterwards the market's episodes of every size, leg order and delay are active exactly when that size
        qualifies on its books, unless no more attempts could be held; what started, started on them. */
    method UpdateObserved(market: string, q: Observed.Quotes, sizes: seq<real>, delays: seq<real>, now: real)
      requires Valid()
      modifies `pending, `activeEpisodes, `sequence, `attemptsStarted, `started
      ensures Valid() && Grown(old(pending), pending, key => AttemptOn(q, key, now))
      ensures TracksSizes(activeEpisodes.Keys, Value().Full(), market, sizes, delays,
                          size => Observed.Qualified(q, size))
      ensures SameMarkets(old(activeEpisodes.Keys), activeEpisodes.Keys, market)
    {
      var qualified, start := (size: real) => Observed.Qualified(q, size), (key: EpisodeKey) => AttemptOn(q, key, now);
      ValidIsNumbered();
      SizesUpdated(Value(), market, sizes, delays, qualified, start);
      UpdateSizes(market, sizes, delays, qualified, start);
    }

    method ResolveDue(now: real, observe: Attempt -> Outcome)
      requires Valid()
      modifies `pending, `bookExecutable, `orphaned, `invalidated, `log
      ensures Valid() && old(log) <= log
      ensures Leaves(old(pending), pending, {}, now)
      ensures ResolvesDue(old(pending), log, |old(log)|, now, observe)
    {
      var was, first := pending, |log|;
      var todo := pending.Keys;
      while todo != {}
        invariant Valid() && todo <= was.Keys && old(log) <= log
        invariant Leaves(was, pending, todo, now)
        invariant ResolvesDue(was, log, first, now, observe)
        decreases |todo|
      {
        var id :| id in todo;
        todo := todo - {id};
        if pending[id].terms.due <= now {
          Resolve(id, observe(pending[id]));
        }
      }
    }

    /** Every attempt that is due is resolved by what its books then are, the others stay. */
    method ProcessDue(now: real, quotes: map<string, Observed.Quotes>)
      requires Valid()
      modifies `pending, `bookExecutable, `orphaned, `invalidated, `log
      ensures Valid() && old(log) <= log && pending == NotDue(old(pending), now)
      ensures ResolvedOn(old(pending), log, |old(log)|, now, quotes)
    {
      ghost var was := pending;
      ResolveDue(now, attempt => OutcomeOf(attempt, quotes, now));
      LeavesNotDue(was, pending, now);
    }

    /** The books are gone: everything pending is invalidated and every episode forgotten. */
    method Invalidate()
      requires Valid()
      modifies `pending, `activeEpisodes, `bookExecutable, `orphaned, `invalidated, `log
      ensures Valid() && activeEpisodes == map[] && Cleared(old(pending), old(log), pending, log)
    {
      ghost var was, before := pending, log;
      while pending.Keys != {}
        invariant Valid() && Invalidating(was, pending, before, log)
        decreases |pending.Keys|
      {
        var id :| id in pending.Keys;
        InvalidatedOne(was, pending, before, log, id);
        Resolve(id, Invalidated);
      }
      activeEpisodes := map[];
    }
  }
}
