/**
 * The plotter's request handler (`drawChart`) end to end, and its
 * configuration loader.
 */
module Plotter {
  import opened Wrappers
  import opened GoStrings
  import Capi
  import opened Palette
  import opened Expressions
  import opened Normalizer
  import opened Multisets
  import opened Collector
  import opened SeriesOrder

  /** What the handler answers: a chart to render, or an HTTP error status with a text body. */
  datatype Reply = Chart(series: seq<Series>) | Error(status: int, body: string)

  const StatusBadRequest: int := 400
  const StatusInternalServerError: int := 500
  const NoSeriesMessage: string := "there has to be atleast one series"

  /**
   * The expressions a request plots: the ones bound on the command line, or
   * else the single query composed from the URL parameters.
   */
  function Planned(bound: seq<Expr>, params: Result<Values, string>): (r: Result<seq<Expr>, string>)
    ensures |bound| > 0 ==> r == Success(bound)
    ensures |bound| == 0 ==> (r.Success? <==> CreateQuery(params).Success?)
    ensures |bound| == 0 && r.Success? ==> r.value == [Query(CreateQuery(params).value)]
    ensures r.Failure? ==> |bound| == 0 && r.error == CreateQuery(params).error
    ensures r.Success? ==> |r.value| > 0
  {
    if |bound| > 0 then Success(bound)
    else
      match CreateQuery(params)
      case Success(q) => Success([Query(q)])
      case Failure(e) => Failure(e)
  }

  /** Some query's answer fails its checks. */
  ghost predicate AnyRejected(fetches: seq<Fetch>, order: seq<nat>)
    requires forall i :: 0 <= i < |order| ==> order[i] < |fetches|
  {
    exists i :: 0 <= i < |order| && Validate(fetches[order[i]]).Failure?
  }

  /**
   * The error half of the handler's contract over the planned expressions:
   * a 500 exactly when some answer is rejected or there is no query at all,
   * carrying the first rejection's message, or else the no-series message.
   */
  ghost predicate Refused(reply: Reply, exprs: seq<Expr>, fetches: seq<Fetch>, order: seq<nat>)
    requires forall i :: 0 <= i < |order| ==> order[i] < |fetches|
  {
    && (reply.Error? <==> AnyRejected(fetches, order) || |Requests(exprs)| == 0)
    && (reply.Error? ==> reply.status == StatusInternalServerError)
    && (!AnyRejected(fetches, order) && |Requests(exprs)| == 0 ==> reply.body == NoSeriesMessage)
    && (AnyRejected(fetches, order) ==> exists i ::
      && 0 <= i < |order|
      && (forall j :: 0 <= j < i ==> Validate(fetches[order[j]]).Success?)
      && Validate(fetches[order[i]]) == Failure(reply.body))
  }

  /**
   * The chart half: one series per query, each built from its own answer,
   * rearranged into palette-rank order, followed by one flat line per
   * scalar over the first series' xs, scalar `i` in colour slot `n + 2i`.
   */
  ghost predicate Drawn(reply: Reply, collected: seq<Series>, exprs: seq<Expr>, scatter: bool, fetches: seq<Fetch>, order: seq<nat>)
    requires |fetches| == |Requests(exprs)| && IsArrivalOrder(order, |fetches|)
  {
    var n, scalars := |Requests(exprs)|, Scalars(exprs);
    reply.Chart? ==>
      && Broadcasted(reply.series, n, scalars)
      && |collected| == n
      && (forall i :: 0 <= i < n ==> Accepted(collected[i], Requests(exprs)[order[i]], fetches[order[i]], scatter))
      && multiset(reply.series[..n]) == multiset(collected)
      && RankSorted(reply.series[..n])
  }

  /**
   * `drawChart`'s handler. `params` is the parsed URL query; `fetches[k]` is
   * the backend's answer to the k-th query and `order` the order in which
   * the answers reach the collector. The ghost `collected` gives the series
   * as collected, before the colour sort.
   */
  method DrawChart(bound: seq<Expr>, params: Result<Values, string>, scatter: bool, fetches: seq<Fetch>, order: seq<nat>)
    returns (reply: Reply, ghost collected: seq<Series>)
    requires Planned(bound, params).Success? ==>
      |fetches| == |Requests(Planned(bound, params).value)| && IsArrivalOrder(order, |fetches|)
    ensures Planned(bound, params).Failure? ==> reply == Error(StatusBadRequest, Planned(bound, params).error)
    ensures Planned(bound, params).Success? ==>
      && Refused(reply, Planned(bound, params).value, fetches, order)
      && Drawn(reply, collected, Planned(bound, params).value, scatter, fetches, order)
  {
    var queries := bound;
    if |queries| == 0 {
      var q := CreateQuery(params);
      if q.Failure? {
        return Error(StatusBadRequest, q.error), [];
      }
      queries := [Query(q.value)];
    }
    assert queries == Planned(bound, params).value;
    reply, collected := Plot(queries, scatter, fetches, order);
  }

  /** The handler once the expressions are known: classify, collect, check, sort, broadcast. */
  method Plot(exprs: seq<Expr>, scatter: bool, fetches: seq<Fetch>, order: seq<nat>)
    returns (reply: Reply, ghost collected: seq<Series>)
    requires |fetches| == |Requests(exprs)| && IsArrivalOrder(order, |fetches|)
    ensures Refused(reply, exprs, fetches, order)
    ensures Drawn(reply, collected, exprs, scatter, fetches, order)
  {
    collected := [];
    var scalars, requests := Classify(exprs);
    var outcome := Collect(requests, fetches, order, scatter);
    if outcome.Failure? {
      return Error(StatusInternalServerError, outcome.error), collected;
    }
    var series := outcome.value;
    if |series| == 0 {
      return Error(StatusInternalServerError, NoSeriesMessage), collected;
    }
    collected := series;
    var n := |series|;
    assert n == |Requests(exprs)| && scalars == Scalars(exprs);
    var all := SortAndBroadcast(series, scalars);
    return Chart(all), collected;
  }

  /** The tail of the handler: the colour sort, then one flat line per scalar. */
  method SortAndBroadcast(series: seq<Series>, scalars: seq<real>) returns (all: seq<Series>)
    requires |series| > 0
    ensures Broadcasted(all, |series|, scalars)
    ensures multiset(all[..|series|]) == multiset(series) && RankSorted(all[..|series|])
  {
    var ordered := new Series[|series|](k requires 0 <= k < |series| => series[k]);
    assert ordered[..] == series;
    SortByColor(ordered);
    var sorted := ordered[..];
    all := Broadcast(sorted, scalars);
  }

  /** The request fails for want of a series exactly when every expression is a scalar. */
  lemma {:induction false} NoSeriesIffAllScalars(exprs: seq<Expr>)
    ensures |Requests(exprs)| == 0 <==> forall i :: 0 <= i < |exprs| ==> exprs[i].Scalar?
  {
    RequestsByPosition(exprs);
    if |Requests(exprs)| > 0 {
      assert exprs[QueryPositions(exprs)[0]].Query?;
    }
  }

  /** An arrival order lists every request. */
  lemma ArrivalOrderCovers(order: seq<nat>, n: nat)
    requires IsArrivalOrder(order, n)
    ensures forall k :: 0 <= k < n ==> k in order
  {
    forall k | 0 <= k < n
      ensures k in order
    {
      assert Indices(n)[k] == k;
      assert k in multiset(Indices(n));
    }
  }

  /** Whether some answer is rejected does not depend on the order the answers arrive in. */
  lemma RejectedInAnyOrder(fetches: seq<Fetch>, order: seq<nat>)
    requires IsArrivalOrder(order, |fetches|)
    ensures AnyRejected(fetches, order) <==> exists k :: 0 <= k < |fetches| && Validate(fetches[k]).Failure?
  {
    if k :| 0 <= k < |fetches| && Validate(fetches[k]).Failure? {
      ArrivalOrderCovers(order, |fetches|);
      assert k in order;
      var i :| 0 <= i < |order| && order[i] == k;
      assert Validate(fetches[order[i]]).Failure?;
    }
  }

  /**
   * The goroutines' scheduling does not show in the picture: whatever order
   * the answers arrive in, the handler either draws in both cases or fails
   * in both, and two charts give their series the same colours in the same
   * order (the colour sort undoes the arrival order).
   */
  lemma ArrivalOrderIrrelevant(
    exprs: seq<Expr>, scatter: bool, fetches: seq<Fetch>,
    o1: seq<nat>, r1: Reply, c1: seq<Series>,
    o2: seq<nat>, r2: Reply, c2: seq<Series>)
    requires |fetches| == |Requests(exprs)|
    requires IsArrivalOrder(o1, |fetches|) && IsArrivalOrder(o2, |fetches|)
    requires Refused(r1, exprs, fetches, o1) && Drawn(r1, c1, exprs, scatter, fetches, o1)
    requires Refused(r2, exprs, fetches, o2) && Drawn(r2, c2, exprs, scatter, fetches, o2)
    ensures r1.Chart? <==> r2.Chart?
    ensures r1.Chart? && r2.Chart? ==> ColorsOf(r1.series) == ColorsOf(r2.series)
  {
    RejectedInAnyOrder(fetches, o1);
    RejectedInAnyOrder(fetches, o2);
    if r1.Chart? && r2.Chart? {
      var requests := Requests(exprs);
      assert forall i :: 0 <= i < |o1| ==> c1[i].color == requests[o1[i]].color;
      assert forall i :: 0 <= i < |o2| ==> c2[i].color == requests[o2[i]].color;
      SortedChartsAgree(requests, Scalars(exprs), r1.series, c1, o1, r2.series, c2, o2);
    }
  }

  /**
   * Two charts over the same requests, each collected in its own arrival
   * order, rank-sorted and broadcast, show the same colours in the same order.
   */
  lemma SortedChartsAgree(
    requests: seq<Request>, scalars: seq<real>,
    a1: seq<Series>, c1: seq<Series>, o1: seq<nat>,
    a2: seq<Series>, c2: seq<Series>, o2: seq<nat>)
    requires IsArrivalOrder(o1, |requests|) && |c1| == |requests|
    requires IsArrivalOrder(o2, |requests|) && |c2| == |requests|
    requires forall i :: 0 <= i < |o1| ==> c1[i].color == requests[o1[i]].color
    requires forall i :: 0 <= i < |o2| ==> c2[i].color == requests[o2[i]].color
    requires Broadcasted(a1, |requests|, scalars) && Broadcasted(a2, |requests|, scalars)
    requires multiset(a1[..|requests|]) == multiset(c1) && RankSorted(a1[..|requests|])
    requires multiset(a2[..|requests|]) == multiset(c2) && RankSorted(a2[..|requests|])
    ensures ColorsOf(a1) == ColorsOf(a2)
  {
    var n := |requests|;
    var color := (x: Series) => x.color;
    var s1, s2 := a1[..n], a2[..n];
    CollectedColors(c1, requests, o1);
    CollectedColors(c2, requests, o2);
    MapPreservesMultiset(s1, c1, color);
    MapPreservesMultiset(s2, c2, color);
    ColorOrderIndependentOfArrival(s1, s2);
    forall i | 0 <= i < |a1|
      ensures ColorsOf(a1)[i] == ColorsOf(a2)[i]
    {
      if i < n {
        assert ColorsOf(s1)[i] == ColorsOf(s2)[i];
      } else {
        assert a1[n + (i - n)].color == ColorAt(n + 2 * (i - n));
      }
    }
  }

  /**
   * With at most five expressions no two requests share a colour, so the
   * colour sort fixes the whole chart: if every request's series comes out
   * the same in two runs, the two charts are equal whatever the arrival
   * orders.
   */
  lemma DistinctColorsSameChart(
    exprs: seq<Expr>, scatter: bool, fetches: seq<Fetch>, built: seq<Series>,
    o1: seq<nat>, r1: Reply, c1: seq<Series>,
    o2: seq<nat>, r2: Reply, c2: seq<Series>)
    requires |exprs| <= |Colors| && |fetches| == |Requests(exprs)| == |built|
    requires IsArrivalOrder(o1, |fetches|) && IsArrivalOrder(o2, |fetches|)
    requires Refused(r1, exprs, fetches, o1) && Drawn(r1, c1, exprs, scatter, fetches, o1)
    requires Refused(r2, exprs, fetches, o2) && Drawn(r2, c2, exprs, scatter, fetches, o2)
    requires forall i :: 0 <= i < |c1| && i < |o1| ==> c1[i] == built[o1[i]]
    requires forall i :: 0 <= i < |c2| && i < |o2| ==> c2[i] == built[o2[i]]
    ensures r1.Chart? && r2.Chart? ==> r1 == r2
  {
    if r1.Chart? && r2.Chart? {
      var requests, n := Requests(exprs), |Requests(exprs)|;
      assert forall i :: 0 <= i < n ==> c1[i].color == requests[o1[i]].color;
      assert forall i :: 0 <= i < n ==> c2[i].color == requests[o2[i]].color;
      FewExpressionsDistinctColors(exprs);
      ArrivalOrderCovers(o1, n);
      forall k | 0 <= k < n
        ensures built[k].color == requests[k].color
      {
        assert k in o1;
        var i :| 0 <= i < n && o1[i] == k;
        assert c1[i] == built[k];
      }
      SortedChartsEqual(requests, Scalars(exprs), built, r1.series, c1, o1, r2.series, c2, o2);
    }
  }

  /**
   * Two sorted and broadcast charts whose collected series are the same
   * distinctly coloured series, each in its own arrival order, are equal.
   */
  lemma SortedChartsEqual(
    requests: seq<Request>, scalars: seq<real>, built: seq<Series>,
    a1: seq<Series>, c1: seq<Series>, o1: seq<nat>,
    a2: seq<Series>, c2: seq<Series>, o2: seq<nat>)
    requires |built| == |requests|
    requires forall k :: 0 <= k < |built| ==> built[k].color == requests[k].color
    requires forall k, l :: 0 <= k < l < |requests| ==> requests[k].color != requests[l].color
    requires IsArrivalOrder(o1, |requests|) && |c1| == |requests|
    requires IsArrivalOrder(o2, |requests|) && |c2| == |requests|
    requires forall i :: 0 <= i < |o1| ==> c1[i] == built[o1[i]]
    requires forall i :: 0 <= i < |o2| ==> c2[i] == built[o2[i]]
    requires Broadcasted(a1, |requests|, scalars) && Broadcasted(a2, |requests|, scalars)
    requires multiset(a1[..|requests|]) == multiset(c1) && RankSorted(a1[..|requests|])
    requires multiset(a2[..|requests|]) == multiset(c2) && RankSorted(a2[..|requests|])
    ensures a1 == a2
  {
    var n := |requests|;
    SortedChartsAgree(requests, scalars, a1, c1, o1, a2, c2, o2);
    var s1, s2 := a1[..n], a2[..n];
    assert ColorsOf(s1) == ColorsOf(s2) by {
      assert forall k :: 0 <= k < n ==> ColorsOf(s1)[k] == ColorsOf(a1)[k] && ColorsOf(s2)[k] == ColorsOf(a2)[k];
    }
    SameColoursSameSeries(built, s1, c1, o1, s2, c2, o2);
    FlatLinesEqual(a1, a2, n, scalars);
  }

  /**
   * Two arrangements of the same distinctly coloured series, each reached
   * through its own arrival order, that show the same colours are equal.
   */
  lemma SameColoursSameSeries(
    built: seq<Series>,
    s1: seq<Series>, c1: seq<Series>, o1: seq<nat>,
    s2: seq<Series>, c2: seq<Series>, o2: seq<nat>)
    requires forall k, l :: 0 <= k < l < |built| ==> built[k].color != built[l].color
    requires IsArrivalOrder(o1, |built|) && |c1| == |built|
    requires IsArrivalOrder(o2, |built|) && |c2| == |built|
    requires forall i :: 0 <= i < |o1| ==> c1[i] == built[o1[i]]
    requires forall i :: 0 <= i < |o2| ==> c2[i] == built[o2[i]]
    requires multiset(s1) == multiset(c1) && multiset(s2) == multiset(c2)
    requires ColorsOf(s1) == ColorsOf(s2)
    ensures s1 == s2
  {
    var n := |built|;
    assert |s1| == |c1| && |s2| == |c2| by {
      assert |multiset(s1)| == |s1| && |multiset(c1)| == |c1|;
      assert |multiset(s2)| == |s2| && |multiset(c2)| == |c2|;
    }
    forall k | 0 <= k < n
      ensures s1[k] == s2[k]
    {
      assert s1[k] in multiset(c1);
      assert s2[k] in multiset(c2);
      var i1 :| 0 <= i1 < n && c1[i1] == s1[k];
      var i2 :| 0 <= i2 < n && c2[i2] == s2[k];
      assert ColorsOf(s1)[k] == ColorsOf(s2)[k];
      assert built[o1[i1]].color == built[o2[i2]].color;
    }
  }

  /** Broadcast lines are fixed by the series before them. */
  lemma FlatLinesEqual(a1: seq<Series>, a2: seq<Series>, n: nat, scalars: seq<real>)
    requires Broadcasted(a1, n, scalars) && Broadcasted(a2, n, scalars)
    requires a1[..n] == a2[..n]
    ensures a1 == a2
  {
    assert a1[0] == a1[..n][0] == a2[..n][0] == a2[0];
    forall i | 0 <= i < |a1|
      ensures a1[i] == a2[i]
    {
      if i < n {
        assert a1[i] == a1[..n][i] && a2[i] == a2[..n][i];
      } else {
        var j := i - n;
        assert IsFlat(a1[n + j], scalars[j], a1[0].xs) && IsFlat(a2[n + j], scalars[j], a2[0].xs);
        assert a1[i].ys == a2[i].ys;
      }
    }
  }

  /**
   * One query and the constant 2.5: the query's series is blue, and the
   * constant's line takes the next slot, red.
   */
  lemma QueryAndConstantColors(q: string)
    ensures Requests([Query(q), Scalar(2.5)]) == [Request(q, Blue)]
    ensures Scalars([Query(q), Scalar(2.5)]) == [2.5]
    ensures ColorAt(|Requests([Query(q), Scalar(2.5)])| + 2 * 0) == Red
  {
    var exprs := [Query(q), Scalar(2.5)];
    assert exprs[..1] == [Query(q)];
    assert [Query(q)][..0] == [];
    assert Rank(ColorAt(0)) == 0;
    assert Requests([Query(q)]) == [Request(q, ColorAt(0))];
    assert Requests(exprs) == Requests([Query(q)]);
    assert Scalars([Query(q)]) == [];
  }

  /**
   * The handler on one query: it draws exactly when the query's answer is
   * accepted, and the chart then starts with that query's series in its
   * request's colour.
   */
  lemma SingleQueryChart(exprs: seq<Expr>, f: Fetch, scatter: bool, reply: Reply, collected: seq<Series>)
    requires IsArrivalOrder([0], 1) && |Requests(exprs)| == 1
    requires Refused(reply, exprs, [f], [0]) && Drawn(reply, collected, exprs, scatter, [f], [0])
    ensures reply.Chart? <==> Validate(f).Success?
    ensures reply.Chart? ==> Broadcasted(reply.series, 1, Scalars(exprs)) && reply.series[0].color == Requests(exprs)[0].color
  {
    SingleQueryRefused(exprs, f, reply);
    if reply.Chart? {
      assert [0][0] == 0;
      assert collected[0].color == Requests(exprs)[0].color;
      SoleSeries(reply.series, collected);
    }
  }

  /** With one query the handler fails exactly when its answer is rejected. */
  lemma SingleQueryRefused(exprs: seq<Expr>, f: Fetch, reply: Reply)
    requires |Requests(exprs)| == 1 && Refused(reply, exprs, [f], [0])
    ensures reply.Chart? <==> Validate(f).Success?
  {
    assert AnyRejected([f], [0]) <==> Validate(f).Failure? by {
      assert [0][0] == 0;
    }
  }

  /** A one-element rearrangement of one collected series is that series. */
  lemma SoleSeries(series: seq<Series>, collected: seq<Series>)
    requires |collected| == 1 && |series| >= 1 && multiset(series[..1]) == multiset(collected)
    ensures series[0] == collected[0]
  {
    assert series[0] in multiset(series[..1]) by {
      assert series[..1][0] == series[0];
    }
    assert collected == [collected[0]];
  }

  /**
   * The handler on a query and the constant 2.5: it draws exactly when the
   * query's answer is accepted, and the chart then holds the query's series
   * in blue followed by a red flat line at 2.5 over the same xs.
   */
  lemma QueryAndConstantChart(q: string, exprs: seq<Expr>, f: Fetch, scatter: bool, reply: Reply, collected: seq<Series>)
    requires exprs == [Query(q), Scalar(2.5)]
    requires IsArrivalOrder([0], 1) && |Requests(exprs)| == 1
    requires Refused(reply, exprs, [f], [0]) && Drawn(reply, collected, exprs, scatter, [f], [0])
    ensures reply.Chart? <==> Validate(f).Success?
    ensures reply.Chart? ==>
      && ColorsOf(reply.series) == [Blue, Red]
      && IsFlat(reply.series[1], 2.5, reply.series[0].xs)
  {
    QueryAndConstantColors(q);
    SingleQueryChart(exprs, f, scatter, reply, collected);
    if reply.Chart? {
      SeriesThenLine(reply.series, 2.5, Blue);
    }
  }

  /** One series followed by the line of one scalar, which takes colour slot 1. */
  lemma SeriesThenLine(series: seq<Series>, scalar: real, c: Color)
    requires Broadcasted(series, 1, [scalar]) && series[0].color == c
    ensures ColorsOf(series) == [c, ColorAt(1)] && IsFlat(series[1], scalar, series[0].xs)
  {
    assert series[1 + 0].color == ColorAt(1 + 2 * 0);
  }

  datatype VcapApplication = VcapApplication(
    capiAddr: string,
    logCacheAddr: string,
    applicationID: string,
    applicationName: string,
    spaceID: string,
    applicationURIs: seq<string>)

  datatype Config = Config(httpProxy: string, port: int, scatter: bool, vcap: VcapApplication)

  /** What `envstruct.Load` extracted from the environment; an unset `PORT` is `None`. */
  datatype Environment = Environment(httpProxy: string, port: Option<int>, scatter: bool, vcap: VcapApplication)

  const DefaultPort: int := 8080

  /** The Log Cache address is derived from the (already rewritten) CAPI address. */
  function LogCacheAddrFor(capiAddr: string): (r: string)
    ensures (forall i :: !OccursAt(capiAddr, "api", i)) ==> r == capiAddr
    ensures forall i :: FirstOccurrence(capiAddr, "api", i) ==> r == capiAddr[..i] + "log-cache" + capiAddr[i + 3..]
  {
    ReplaceFirst(capiAddr, "api", "log-cache")
  }

  /**
   * `LoadConfig`: port 8080 unless set, the CAPI address rewritten to plain
   * HTTP, and the Log Cache address recomputed from it (whatever the
   * environment said). A failed load ends the process (`log.Fatal`).
   */
  method LoadConfig(loaded: Result<Environment, string>) returns (r: Result<Config, string>)
    ensures loaded.Failure? <==> r.Failure?
    ensures loaded.Failure? ==> r.error == loaded.error
    ensures loaded.Success? ==>
      var env := loaded.value;
      && r.value.port == (if env.port.Some? then env.port.value else DefaultPort)
      && r.value.httpProxy == env.httpProxy
      && r.value.scatter == env.scatter
      && r.value.vcap == env.vcap.(
        capiAddr := Capi.HttpAddr(env.vcap.capiAddr),
        logCacheAddr := LogCacheAddrFor(Capi.HttpAddr(env.vcap.capiAddr)))
  {
    var cfg := Config("", DefaultPort, false, VcapApplication("", "", "", "", "", []));
    if loaded.Failure? {
      return Failure(loaded.error);
    }
    var env := loaded.value;
    cfg := cfg.(httpProxy := env.httpProxy, scatter := env.scatter, vcap := env.vcap);
    if env.port.Some? {
      cfg := cfg.(port := env.port.value);
    }
    cfg := cfg.(vcap := cfg.vcap.(capiAddr := Capi.HttpAddr(cfg.vcap.capiAddr)));
    cfg := cfg.(vcap := cfg.vcap.(logCacheAddr := LogCacheAddrFor(cfg.vcap.capiAddr)));
    return Success(cfg);
  }

  /** A CF API address `https://api.<domain>` yields the Log Cache address `http://log-cache.<domain>`. */
  lemma LogCacheAddrOfApi(domain: string)
    ensures LogCacheAddrFor(Capi.HttpAddr("https://api." + domain)) == "http://log-cache." + domain
  {
    var tail := "." + domain;
    var https, http, scheme := "https://api." + domain, "http://api." + domain, "http://";
    assert https == "https" + ("://api" + tail);
    assert http == "http" + ("://api" + tail) == scheme + "api" + tail;
    assert scheme + "log-cache" + tail == "http://log-cache." + domain;
    Capi.HttpAddrOfHttps("://api" + tail);
    assert Capi.HttpAddr(https) == http;
    ReplaceFirstAfter(scheme, "api", "log-cache", tail);
  }
}
