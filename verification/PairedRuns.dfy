/** Opportunity runs: grouping a market's opportunity events as they come, and the clusters
    they are meant to be. */
module PairedRuns {
  import opened Numbers
  import opened MapSums

  datatype Opportunity = Opportunity(market: string, condition: string, group: string, ts: real, cost: real)

  datatype OpportunityRun = OpportunityRun(market: string, condition: string, group: string,
                                           startTs: real, endTs: real, events: nat, minCost: real)

  /** `open_runs` and every run ever closed. */
  datatype Runs = Runs(open: map<string, OpportunityRun>, closed: seq<OpportunityRun>)

  predicate Near(earlier: real, later: real, maxGap: real) {
    0.0 <= later - earlier <= maxGap
  }

  function StartRun(e: Opportunity): OpportunityRun {
    OpportunityRun(e.market, e.condition, e.group, e.ts, e.ts, 1, e.cost)
  }

  function Extended(run: OpportunityRun, e: Opportunity): OpportunityRun {
    run.(endTs := e.ts, events := run.events + 1, minCost := Min(run.minCost, e.cost))
  }

  /** `_extend_run`: continue the market's open run, or close it and start another. */
  function ExtendRun(r: Runs, e: Opportunity, maxGap: real): Runs {
    if e.market in r.open && Near(r.open[e.market].endTs, e.ts, maxGap) then
      r.(open := r.open[e.market := Extended(r.open[e.market], e)])
    else
      Runs(r.open[e.market := StartRun(e)], r.closed + if e.market in r.open then [r.open[e.market]] else [])
  }

  function RunsOf(events: seq<Opportunity>, maxGap: real): Runs {
    if events == [] then Runs(map[], [])
    else ExtendRun(RunsOf(events[..|events| - 1], maxGap), events[|events| - 1], maxGap)
  }

  // ---- clusters ----

  function OfMarket(events: seq<Opportunity>, market: string): seq<Opportunity> {
    if events == [] then []
    else OfMarket(events[..|events| - 1], market)
         + if events[|events| - 1].market == market then [events[|events| - 1]] else []
  }

  function Flatten(clusters: seq<seq<Opportunity>>): seq<Opportunity> {
    if clusters == [] then [] else Flatten(clusters[..|clusters| - 1]) + clusters[|clusters| - 1]
  }

  /** Neighbours in a cluster are near each other. */
  predicate Tight(cluster: seq<Opportunity>, maxGap: real) {
    cluster != [] && forall i :: 0 < i < |cluster| ==> Near(cluster[i - 1].ts, cluster[i].ts, maxGap)
  }

  /** `events` cut into clusters as large as can be: all neighbours within a cluster are near,
      none across a cut are. */
  predicate Clustering(clusters: seq<seq<Opportunity>>, events: seq<Opportunity>, maxGap: real) {
    && Flatten(clusters) == events
    && (forall i :: 0 <= i < |clusters| ==> Tight(clusters[i], maxGap))
    && (forall i :: 0 < i < |clusters| ==> Apart(clusters[i - 1], clusters[i], maxGap))
  }

  predicate Apart(before: seq<Opportunity>, after: seq<Opportunity>, maxGap: real) {
    before != [] && after != [] && !Near(before[|before| - 1].ts, after[0].ts, maxGap)
  }

  function MinCost(cluster: seq<Opportunity>): real
    requires cluster != []
  {
    if |cluster| == 1 then cluster[0].cost else Min(MinCost(cluster[..|cluster| - 1]), cluster[|cluster| - 1].cost)
  }

  /** What a run says about its cluster. */
  function Summary(cluster: seq<Opportunity>): OpportunityRun
    requires cluster != []
  {
    var first, last := cluster[0], cluster[|cluster| - 1];
    OpportunityRun(first.market, first.condition, first.group, first.ts, last.ts, |cluster|, MinCost(cluster))
  }

  lemma {:induction false} MinCostIsLeast(cluster: seq<Opportunity>)
    requires cluster != []
    ensures forall i :: 0 <= i < |cluster| ==> MinCost(cluster) <= cluster[i].cost
    ensures exists i :: 0 <= i < |cluster| && MinCost(cluster) == cluster[i].cost
  {
    if |cluster| > 1 {
      MinCostIsLeast(cluster[..|cluster| - 1]);
      var before, last := cluster[..|cluster| - 1], cluster[|cluster| - 1];
      var i :| 0 <= i < |before| && MinCost(before) == before[i].cost;
      assert before[i] == cluster[i];
      assert MinCost(cluster) == if last.cost < MinCost(before) then cluster[|cluster| - 1].cost else cluster[i].cost;
    } else {
      assert cluster[0].cost == MinCost(cluster);
    }
  }

  /** There is only one way to cut events into largest clusters. */
  lemma {:induction false} ClusteringIsUnique(a: seq<seq<Opportunity>>, b: seq<seq<Opportunity>>,
                                              events: seq<Opportunity>, maxGap: real)
    requires Clustering(a, events, maxGap) && Clustering(b, events, maxGap)
    ensures a == b
    decreases |events|
  {
    if a == [] || b == [] {
      NoEvents(a);
      NoEvents(b);
    } else {
      var x, y := a[|a| - 1], b[|b| - 1];
      LastsAgree(a, b, events, maxGap);
      LastsAgree(b, a, events, maxGap);
      LastIsSuffix(a, events, maxGap);
      LastIsSuffix(b, events, maxGap);
      assert x == y && x != [];
      ClusteringIsUnique(a[..|a| - 1], b[..|b| - 1], events[..|events| - |x|], maxGap);
      assert a == a[..|a| - 1] + [x] && b == b[..|b| - 1] + [y];
    }
  }

  lemma NoEvents(clusters: seq<seq<Opportunity>>)
    requires forall i :: 0 <= i < |clusters| ==> clusters[i] != []
    ensures Flatten(clusters) == [] <==> clusters == []
  {
    if clusters != [] {
      assert clusters[|clusters| - 1] != [];
    }
  }

  /** Where the last cluster begins its neighbours are apart. */
  lemma CutIsApart(a: seq<seq<Opportunity>>, events: seq<Opportunity>, maxGap: real)
    requires Clustering(a, events, maxGap) && |a| >= 2
    ensures var k := |events| - |a[|a| - 1]|; 0 < k < |events| && !Near(events[k - 1].ts, events[k].ts, maxGap)
  {
    var x, before := a[|a| - 1], a[|a| - 2];
    assert Apart(before, x, maxGap) && Tight(x, maxGap) && Tight(before, maxGap);
    var earlier := Flatten(a[..|a| - 1]);
    assert events == earlier + x;
    LastOfFlatten(a[..|a| - 1]);
  }

  /** Inside the last cluster neighbours are near. */
  lemma InsideIsNear(b: seq<seq<Opportunity>>, events: seq<Opportunity>, k: nat, maxGap: real)
    requires Clustering(b, events, maxGap) && b != [] && |events| - |b[|b| - 1]| < k < |events|
    ensures Near(events[k - 1].ts, events[k].ts, maxGap)
  {
    var y := b[|b| - 1];
    assert events == Flatten(b[..|b| - 1]) + y && Tight(y, maxGap);
    var i := k - (|events| - |y|);
    assert y[i] == events[k] && y[i - 1] == events[k - 1];
  }

  lemma LastIsSuffix(a: seq<seq<Opportunity>>, events: seq<Opportunity>, maxGap: real)
    requires Clustering(a, events, maxGap) && a != []
    ensures |a[|a| - 1]| <= |events| && a[|a| - 1] == events[|events| - |a[|a| - 1]|..]
    ensures Flatten(a[..|a| - 1]) == events[..|events| - |a[|a| - 1]|]
    ensures |a| == 1 ==> a[0] == events
  {
    assert events == Flatten(a[..|a| - 1]) + a[|a| - 1];
    assert |a| == 1 ==> Flatten(a[..|a| - 1]) == [];
  }

  /** The last cluster of one cutting is not longer than that of another. */
  lemma LastsAgree(a: seq<seq<Opportunity>>, b: seq<seq<Opportunity>>, events: seq<Opportunity>, maxGap: real)
    requires Clustering(a, events, maxGap) && Clustering(b, events, maxGap) && a != [] && b != []
    ensures |b[|b| - 1]| <= |a[|a| - 1]|
  {
    LastIsSuffix(a, events, maxGap);
    LastIsSuffix(b, events, maxGap);
    if |a[|a| - 1]| < |b[|b| - 1]| {
      CutIsApart(a, events, maxGap);
      InsideIsNear(b, events, |events| - |a[|a| - 1]|, maxGap);
      assert false;
    }
  }

  lemma LastOfFlatten(clusters: seq<seq<Opportunity>>)
    requires clusters != [] && clusters[|clusters| - 1] != []
    ensures var last := clusters[|clusters| - 1];
            Flatten(clusters) != [] && Flatten(clusters)[|Flatten(clusters)| - 1] == last[|last| - 1]
  {
  }

  // ---- runs built as events come ----

  function Last<T>(xs: seq<T>): T
    requires xs != []
  {
    xs[|xs| - 1]
  }

  function Clusters(events: seq<Opportunity>, maxGap: real): (c: seq<seq<Opportunity>>)
    ensures forall i :: 0 <= i < |c| ==> c[i] != []
    ensures events != [] ==> c != []
  {
    if events == [] then []
    else
      var n := |events| - 1;
      var earlier := Clusters(events[..n], maxGap);
      if n > 0 && Near(events[n - 1].ts, events[n].ts, maxGap) then
        earlier[..|earlier| - 1] + [Last(earlier) + [events[n]]]
      else earlier + [[events[n]]]
  }

  lemma {:induction false} ClustersCluster(events: seq<Opportunity>, maxGap: real)
    ensures Clustering(Clusters(events, maxGap), events, maxGap)
  {
    if events != [] {
      var n := |events| - 1;
      var earlier := Clusters(events[..n], maxGap);
      ClustersCluster(events[..n], maxGap);
      assert events == events[..n] + [events[n]];
      if n > 0 {
        LastIsSuffix(earlier, events[..n], maxGap);
        LastEvent(earlier, events[..n], maxGap);
        if Near(events[n - 1].ts, events[n].ts, maxGap) {
          GrowLast(earlier, events[..n], events[n], maxGap);
        } else {
          AddCluster(earlier, events[..n], events[n], maxGap);
        }
      } else {
        assert earlier == [] && Flatten([[events[0]]]) == [events[0]];
      }
    }
  }

  lemma LastEvent(clusters: seq<seq<Opportunity>>, events: seq<Opportunity>, maxGap: real)
    requires Clustering(clusters, events, maxGap) && clusters != []
    ensures Last(clusters) != [] && events != [] && Last(Last(clusters)) == Last(events)
  {
    assert Tight(Last(clusters), maxGap);
    LastIsSuffix(clusters, events, maxGap);
  }

  lemma GrowLast(clusters: seq<seq<Opportunity>>, events: seq<Opportunity>, e: Opportunity, maxGap: real)
    requires Clustering(clusters, events, maxGap) && clusters != [] && events != []
    requires Last(Last(clusters)) == Last(events) && Near(Last(events).ts, e.ts, maxGap)
    ensures Clustering(clusters[..|clusters| - 1] + [Last(clusters) + [e]], events + [e], maxGap)
  {
    var before, grown := clusters[..|clusters| - 1], Last(clusters) + [e];
    var longer := before + [grown];
    assert longer[..|longer| - 1] == before;
    assert Tight(Last(clusters), maxGap);
    assert Tight(grown, maxGap);
    if |clusters| > 1 {
      assert Apart(clusters[|clusters| - 2], Last(clusters), maxGap);
      assert Apart(before[|before| - 1], grown, maxGap);
    }
  }

  lemma AddCluster(clusters: seq<seq<Opportunity>>, events: seq<Opportunity>, e: Opportunity, maxGap: real)
    requires Clustering(clusters, events, maxGap) && clusters != [] && events != [] && Last(clusters) != []
    requires Last(Last(clusters)) == Last(events) && !Near(Last(events).ts, e.ts, maxGap)
    ensures Clustering(clusters + [[e]], events + [e], maxGap)
  {
    assert (clusters + [[e]])[..|clusters|] == clusters;
    assert Apart(Last(clusters), [e], maxGap);
  }

  function Summaries(clusters: seq<seq<Opportunity>>): seq<OpportunityRun>
    requires forall i :: 0 <= i < |clusters| ==> clusters[i] != []
  {
    if clusters == [] then [] else Summaries(clusters[..|clusters| - 1]) + [Summary(Last(clusters))]
  }

  /** A market's closed runs, then its open one. */
  function RunsIn(r: Runs, market: string): seq<OpportunityRun> {
    ClosedIn(r.closed, market) + if market in r.open then [r.open[market]] else []
  }

  function ClosedIn(closed: seq<OpportunityRun>, market: string): seq<OpportunityRun> {
    if closed == [] then []
    else ClosedIn(closed[..|closed| - 1], market) + if Last(closed).market == market then [Last(closed)] else []
  }

  lemma ClosedMore(closed: seq<OpportunityRun>, run: OpportunityRun, market: string)
    ensures ClosedIn(closed + [run], market) == ClosedIn(closed, market) + if run.market == market then [run] else []
  {
    assert (closed + [run])[..|closed|] == closed;
  }

  /** The market's runs so far are its clusters; the open one is the last cluster. */
  predicate Summarises(r: Runs, market: string, events: seq<Opportunity>, maxGap: real) {
    var clusters := Clusters(events, maxGap);
    && (market in r.open <==> events != [])
    && (market in r.open ==> r.open[market].market == market && r.open[market].endTs == Last(events).ts)
    && RunsIn(r, market) == Summaries(clusters)
  }

  lemma SummaryExtends(cluster: seq<Opportunity>, e: Opportunity)
    requires cluster != []
    ensures Summary(cluster + [e]) == Extended(Summary(cluster), e)
  {
    assert (cluster + [e])[..|cluster|] == cluster;
  }

  lemma OpenSummarises(r: Runs, events: seq<Opportunity>, e: Opportunity, maxGap: real)
    requires Summarises(r, e.market, events, maxGap)
    ensures Summarises(ExtendRun(r, e, maxGap), e.market, events + [e], maxGap)
  {
    var earlier, now := Clusters(events, maxGap), Clusters(events + [e], maxGap);
    var next := ExtendRun(r, e, maxGap);
    assert (events + [e])[..|events|] == events;
    if events == [] {
      assert earlier == [] && now == [[e]];
      assert Summaries([[e]]) == [StartRun(e)] by {
        assert [[e]][..0] == [];
      }
      assert r.closed + [] == r.closed && ClosedIn(r.closed, e.market) == [];
    } else if Near(Last(events).ts, e.ts, maxGap) {
      var before := earlier[..|earlier| - 1];
      assert now[..|now| - 1] == before;
      SummaryExtends(Last(earlier), e);
      assert Last(RunsIn(r, e.market)) == r.open[e.market] == Summary(Last(earlier));
      assert ClosedIn(r.closed, e.market) == RunsIn(r, e.market)[..|RunsIn(r, e.market)| - 1] == Summaries(before);
    } else {
      assert now[..|now| - 1] == earlier;
      ClosedMore(r.closed, r.open[e.market], e.market);
    }
  }

  lemma OthersFollow(r: Runs, market: string, events: seq<Opportunity>, e: Opportunity, maxGap: real)
    requires Summarises(r, market, events, maxGap) && market != e.market
    requires e.market in r.open ==> r.open[e.market].market == e.market
    ensures Summarises(ExtendRun(r, e, maxGap), market, events, maxGap)
  {
    if e.market in r.open {
      ClosedMore(r.closed, r.open[e.market], market);
    }
    assert r.closed + [] == r.closed;
  }

  lemma {:induction false} RunsFollow(events: seq<Opportunity>, market: string, maxGap: real)
    ensures Summarises(RunsOf(events, maxGap), market, OfMarket(events, market), maxGap)
  {
    if events != [] {
      var before, e := events[..|events| - 1], Last(events);
      RunsFollow(before, market, maxGap);
      RunsFollow(before, e.market, maxGap);
      if market == e.market {
        OpenSummarises(RunsOf(before, maxGap), OfMarket(before, market), e, maxGap);
      } else {
        OthersFollow(RunsOf(before, maxGap), market, OfMarket(before, market), e, maxGap);
        assert OfMarket(before, market) + [] == OfMarket(before, market);
      }
    }
  }

  /** Whatever the order of markets, each one's closed and open runs are, in order, exactly the
      largest clusters of its opportunity events. */
  lemma RunsAreTheClusters(events: seq<Opportunity>, market: string, maxGap: real, clusters: seq<seq<Opportunity>>)
    requires Clustering(clusters, OfMarket(events, market), maxGap)
    ensures forall i :: 0 <= i < |clusters| ==> clusters[i] != []
    ensures RunsIn(RunsOf(events, maxGap), market) == Summaries(clusters)
  {
    var own := OfMarket(events, market);
    RunsFollow(events, market, maxGap);
    ClustersCluster(own, maxGap);
    ClusteringIsUnique(clusters, Clusters(own, maxGap), own, maxGap);
  }

  // ---- no event is lost ----

  function EventsIn(runs: seq<OpportunityRun>): nat {
    if runs == [] then 0 else EventsIn(runs[..|runs| - 1]) + Last(runs).events
  }

  function OpenEvents(open: map<string, OpportunityRun>): map<string, real> {
    map m | m in open :: open[m].events as real
  }

  /** Closed and open runs together count every opportunity event once. */
  lemma {:induction false} EventsAreCounted(events: seq<Opportunity>, maxGap: real)
    ensures var r := RunsOf(events, maxGap); EventsIn(r.closed) as real + Sum(OpenEvents(r.open)) == |events| as real
  {
    if events == [] {
      assert OpenEvents(map[]) == map[];
    } else {
      var before, e := events[..|events| - 1], Last(events);
      var r := RunsOf(before, maxGap);
      var next := RunsOf(events, maxGap);
      EventsAreCounted(before, maxGap);
      SumUpdate(OpenEvents(r.open), e.market, next.open[e.market].events as real);
      assert OpenEvents(next.open) == OpenEvents(r.open)[e.market := next.open[e.market].events as real];
      if e.market in r.open {
        assert (r.closed + [r.open[e.market]])[..|r.closed|] == r.closed;
      } else {
        assert r.closed + [] == r.closed;
      }
    }
  }
}
