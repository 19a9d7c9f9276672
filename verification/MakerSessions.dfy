/** Generations and sessions over whole runs. */
module MakerSessions {
  import opened Options
  import opened MakerData
  import opened MakerOpening
  import opened MakerEpisodes
  import opened MakerResting
  import opened MakerRuns

  /** The bindings of the rows accepted for a market, one per row. */
  ghost function AcceptedBindings(config: Config, rows: seq<Row>, market: MarketId): seq<Binding>
    requires config.Valid()
  {
    if rows == [] then []
    else
      var before, row := rows[..|rows| - 1], rows[|rows| - 1];
      AcceptedBindings(config, before, market)
      + if row.market == market && !Dropped(Run(config, before).machine, row) then [row.binding] else []
  }

  predicate SameBindings(m: Machine, r: Machine) {
    m.lastBinding == r.lastBinding && m.seenBindings == r.seenBindings
  }

  lemma OpenKeepsBindings(m: Machine, row: Row, opening: Opening)
    requires opening.Accepted() ==> opening.outcome.Some? && opening.quote.Some?
    ensures SameBindings(m, OpenWith(m, row, opening).machine)
  {
  }

  lemma SettledKeepsBindings(config: Config, m: Machine, row: Row, q: Progress)
    ensures SameBindings(m, Settled(config, m, row, q).machine)
  {
  }

  /** A dropped row changes nothing; an accepted one only notes its own market's binding. */
  lemma BindingStep(config: Config, m: Machine, row: Row)
    requires config.Valid() && AllResting(config, m)
    ensures var r := Evaluate(config, m, row);
            if Dropped(m, row) then r.machine == m && r.events == []
            else SameBindings(NoteBinding(m, row), r.machine)
  {
    if !Dropped(m, row) {
      var noted := NoteBinding(m, row);
      if row.condition in m.episodes {
        var ep := m.episodes[row.condition];
        StepRests(config, row, BindingChanged(m, row), ep);
        SettledKeepsBindings(config, noted, row, EpisodeStep(config, row, BindingChanged(m, row), ep));
      } else {
        AcceptedOpening(row, config, View(noted, row));
        OpenKeepsBindings(noted, row, EvaluateOpening(row, config, View(noted, row)));
      }
    }
  }

  predicate Remembers(m: Machine, market: MarketId, accepted: seq<Binding>) {
    && Lookup(m.seenBindings, market).GetOr({}) == (set b | b in accepted)
    && Lookup(m.lastBinding, market) == if accepted == [] then None else Some(accepted[|accepted| - 1])
  }

  /** No going back within a generation, as far as the session labels are integers. */
  predicate ComesAfter(earlier: Binding, later: Binding) {
    && earlier.generation <= later.generation
    && (earlier.generation == later.generation && earlier.session.number.Some? && later.session.number.Some?
        ==> earlier.session.number.value <= later.session.number.value)
  }

  /** Once left, a binding is never accepted again. */
  predicate InBlocks(accepted: seq<Binding>) {
    forall i, k, j :: 0 <= i < k < j < |accepted| && accepted[i] == accepted[j] ==> accepted[k] == accepted[i]
  }

  predicate NeverBack(accepted: seq<Binding>) {
    forall i :: 0 <= i < |accepted| - 1 ==> ComesAfter(accepted[i], accepted[i + 1])
  }

  lemma AppendAccepted(accepted: seq<Binding>, b: Binding)
    requires InBlocks(accepted) && NeverBack(accepted)
    requires accepted == [] || b == accepted[|accepted| - 1]
             || (b !in accepted && ComesAfter(accepted[|accepted| - 1], b))
    ensures InBlocks(accepted + [b]) && NeverBack(accepted + [b])
  {
    var more := accepted + [b];
    forall i, k, j | 0 <= i < k < j < |more| && more[i] == more[j]
      ensures more[k] == more[i]
    {
      if j == |accepted| && k < |accepted| - 1 {
        assert accepted[i] == accepted[|accepted| - 1];
      }
    }
  }

  /** The bindings accepted for a market form contiguous blocks that never go back, and the
      machine remembers exactly which they were and which came last. */
  lemma {:induction false} BindingsOnlyAdvance(config: Config, rows: seq<Row>, market: MarketId)
    requires config.Valid()
    ensures var accepted := AcceptedBindings(config, rows, market);
            && Remembers(Run(config, rows).machine, market, accepted)
            && InBlocks(accepted) && NeverBack(accepted)
  {
    if rows != [] {
      var before, row := rows[..|rows| - 1], rows[|rows| - 1];
      var m := Run(config, before).machine;
      BindingsOnlyAdvance(config, before, market);
      BindingStep(config, m, row);
      if !Dropped(m, row) {
        BindingAdvances(m, Evaluate(config, m, row).machine, row, market, AcceptedBindings(config, before, market));
      }
    }
  }

  lemma BindingAdvances(m: Machine, r: Machine, row: Row, market: MarketId, accepted: seq<Binding>)
    requires Remembers(m, market, accepted) && InBlocks(accepted) && NeverBack(accepted)
    requires !Dropped(m, row) && SameBindings(NoteBinding(m, row), r)
    ensures var more := accepted + if row.market == market then [row.binding] else [];
            Remembers(r, market, more) && InBlocks(more) && NeverBack(more)
  {
    if row.market == market {
      NotDropped(m, row, accepted);
      AppendAccepted(accepted, row.binding);
      RemembersOneMore(m, r, row, accepted);
    } else {
      assert accepted + [] == accepted;
      RemembersOthers(m, r, row, market, accepted);
    }
  }

  lemma RemembersOneMore(m: Machine, r: Machine, row: Row, accepted: seq<Binding>)
    requires Remembers(m, row.market, accepted) && SameBindings(NoteBinding(m, row), r)
    ensures Remembers(r, row.market, accepted + [row.binding])
  {
    assert (set b | b in accepted + [row.binding]) == (set b | b in accepted) + {row.binding};
  }

  lemma RemembersOthers(m: Machine, r: Machine, row: Row, market: MarketId, accepted: seq<Binding>)
    requires Remembers(m, market, accepted) && SameBindings(NoteBinding(m, row), r) && row.market != market
    ensures Remembers(r, market, accepted)
  {
  }

  lemma NotDropped(m: Machine, row: Row, accepted: seq<Binding>)
    requires Remembers(m, row.market, accepted) && !Dropped(m, row)
    ensures accepted == [] || row.binding == accepted[|accepted| - 1]
            || (row.binding !in accepted && ComesAfter(accepted[|accepted| - 1], row.binding))
  {
  }

  /** Where sessions are integers, spelled one way each, blocks rise strictly. */
  predicate Integral(accepted: seq<Binding>) {
    && (forall i :: 0 <= i < |accepted| ==> accepted[i].session.number.Some?)
    && (forall i, j :: 0 <= i < |accepted| && 0 <= j < |accepted| ==>
          (accepted[i].session.number == accepted[j].session.number ==> accepted[i].session == accepted[j].session))
  }

  predicate Below(a: Binding, b: Binding)
    requires a.session.number.Some? && b.session.number.Some?
  {
    a.generation < b.generation
    || (a.generation == b.generation && a.session.number.value < b.session.number.value)
  }

  lemma {:induction false} IntegralBlocksRise(accepted: seq<Binding>, i: nat, j: nat)
    requires NeverBack(accepted) && Integral(accepted) && i <= j < |accepted|
    ensures accepted[i] == accepted[j] || Below(accepted[i], accepted[j])
  {
    if i < j {
      IntegralBlocksRise(accepted, i, j - 1);
      assert ComesAfter(accepted[j - 1], accepted[j - 1 + 1]);
    }
  }

  /** Accepted bindings with integer sessions are equal or strictly increasing, in lexicographic order. */
  lemma IntegerSessionsRise(config: Config, rows: seq<Row>, market: MarketId, i: nat, j: nat)
    requires config.Valid() && i < j < |AcceptedBindings(config, rows, market)|
    requires Integral(AcceptedBindings(config, rows, market))
    ensures var accepted := AcceptedBindings(config, rows, market);
            accepted[i] == accepted[j] || Below(accepted[i], accepted[j])
  {
    BindingsOnlyAdvance(config, rows, market);
    IntegralBlocksRise(AcceptedBindings(config, rows, market), i, j);
  }

  /** Markets and conditions pair off. */
  predicate OneToOne(rows: seq<Row>) {
    forall i, j :: 0 <= i < |rows| && 0 <= j < |rows| ==>
      (rows[i].market == rows[j].market <==> rows[i].condition == rows[j].condition)
  }

  ghost predicate Witnessed(m: Machine, rows: seq<Row>) {
    forall c :: c in m.episodes ==>
      exists i :: 0 <= i < |rows| && rows[i].market == m.episodes[c].market && rows[i].condition == c
  }

  ghost predicate Bound(m: Machine, rows: seq<Row>) {
    && Witnessed(m, rows)
    && forall c :: c in m.episodes ==> Lookup(m.lastBinding, m.episodes[c].market) == Some(m.episodes[c].binding)
  }

  lemma SettledBound(config: Config, m: Machine, rows: seq<Row>, row: Row, q: Progress)
    requires row.condition in m.episodes && q.ep.market == row.market && q.ep.market == m.episodes[row.condition].market
    requires forall c :: c in m.episodes && c != row.condition ==>
               Lookup(m.lastBinding, m.episodes[c].market) == Some(m.episodes[c].binding)
    requires Lookup(m.lastBinding, row.market) == Some(row.binding)
    requires q.ep.state.Terminal() || q.ep.binding == row.binding
    requires Witnessed(m, rows)
    ensures Bound(Settled(config, m, row, q).machine, rows)
  {
  }

  lemma OpenBound(m: Machine, rows: seq<Row>, row: Row, opening: Opening)
    requires Bound(m, rows) && rows != [] && rows[|rows| - 1] == row
    requires Lookup(m.lastBinding, row.market) == Some(row.binding)
    requires opening.Accepted() ==> opening.outcome.Some? && opening.quote.Some?
    ensures Bound(OpenWith(m, row, opening).machine, rows)
  {
    var reset := ResetCircuit(m, row.timestamp);
    if opening.Accepted() {
      var ep := NewEpisode(reset, row, opening);
      var r := Register(reset, row, ep);
      BoundWith(reset, r, rows, row, ep);
      assert OpenWith(m, row, opening).machine == r;
    } else {
      var r := Reject(reset, row, opening.Reasons()).machine;
      assert r.episodes == m.episodes && r.lastBinding == m.lastBinding;
      assert OpenWith(m, row, opening).machine == r;
    }
  }

  lemma BoundWith(m: Machine, r: Machine, rows: seq<Row>, row: Row, ep: Episode)
    requires Bound(m, rows) && rows != [] && rows[|rows| - 1] == row
    requires Lookup(m.lastBinding, row.market) == Some(row.binding)
    requires r.episodes == m.episodes[row.condition := ep] && r.lastBinding == m.lastBinding
    requires ep.market == row.market && ep.binding == row.binding
    ensures Bound(r, rows)
  {
  }

  lemma OneMarketEach(m: Machine, rows: seq<Row>, row: Row)
    requires Witnessed(m, rows) && OneToOne(rows + [row])
    ensures Witnessed(m, rows + [row])
    ensures forall c :: c in m.episodes ==> (m.episodes[c].market == row.market <==> c == row.condition)
  {
    var all := rows + [row];
    forall c | c in m.episodes
      ensures exists i :: 0 <= i < |all| && all[i].market == m.episodes[c].market && all[i].condition == c
      ensures m.episodes[c].market == row.market <==> c == row.condition
    {
      var i :| 0 <= i < |rows| && rows[i].market == m.episodes[c].market && rows[i].condition == c;
      assert all[i] == rows[i] && all[|rows|] == row;
    }
  }

  /** With one condition per market, a live episode is bound to the last binding accepted. */
  lemma {:induction false} LiveEpisodesAreCurrent(config: Config, rows: seq<Row>)
    requires config.Valid() && OneToOne(rows)
    ensures Bound(Run(config, rows).machine, rows)
  {
    if rows != [] {
      var before, row := rows[..|rows| - 1], rows[|rows| - 1];
      var m := Run(config, before).machine;
      assert rows == before + [row];
      LiveEpisodesAreCurrent(config, before);
      OneMarketEach(m, before, row);
      RowBound(config, m, rows, row);
    }
  }

  /** Noting a row's binding leaves the episodes of other markets bound to the last of theirs. */
  lemma NotedBound(m: Machine, rows: seq<Row>, row: Row)
    requires Bound(m, rows)
    requires forall c :: c in m.episodes ==> (m.episodes[c].market == row.market <==> c == row.condition)
    ensures Witnessed(NoteBinding(m, row), rows) && row.market in NoteBinding(m, row).lastBinding
    ensures forall c :: c in m.episodes && c != row.condition ==>
              Lookup(NoteBinding(m, row).lastBinding, m.episodes[c].market) == Some(m.episodes[c].binding)
    ensures row.condition in m.episodes && !BindingChanged(m, row) ==> m.episodes[row.condition].binding == row.binding
  {
  }

  lemma RowBound(config: Config, m: Machine, rows: seq<Row>, row: Row)
    requires config.Valid() && AllResting(config, m) && Bound(m, rows)
    requires rows != [] && rows[|rows| - 1] == row
    requires forall c :: c in m.episodes ==> (m.episodes[c].market == row.market <==> c == row.condition)
    ensures Bound(Evaluate(config, m, row).machine, rows)
  {
    if !Dropped(m, row) {
      var noted := NoteBinding(m, row);
      NotedBound(m, rows, row);
      if row.condition in m.episodes {
        var live := LivePath(config, noted, row, BindingChanged(m, row));
        LiveBound(config, noted, rows, row, BindingChanged(m, row));
        assert Evaluate(config, m, row) == live;
      } else {
        AcceptedOpening(row, config, View(noted, row));
        var opening := EvaluateOpening(row, config, View(noted, row));
        var begun := OpenWith(noted, row, opening);
        OpenBound(noted, rows, row, opening);
        assert Evaluate(config, m, row) == begun;
      }
    }
  }

  lemma LiveBound(config: Config, m: Machine, rows: seq<Row>, row: Row, bindingChanged: bool)
    requires AllResting(config, m) && row.condition in m.episodes && Witnessed(m, rows)
    requires forall c :: c in m.episodes && c != row.condition ==>
               Lookup(m.lastBinding, m.episodes[c].market) == Some(m.episodes[c].binding)
    requires Lookup(m.lastBinding, row.market) == Some(row.binding) && m.episodes[row.condition].market == row.market
    requires !bindingChanged ==> m.episodes[row.condition].binding == row.binding
    ensures Bound(LivePath(config, m, row, bindingChanged).machine, rows)
  {
    var ep := m.episodes[row.condition];
    StepRests(config, row, bindingChanged, ep);
    SettledBound(config, m, rows, row, EpisodeStep(config, row, bindingChanged, ep));
  }
}
