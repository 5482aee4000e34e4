/**
 * The backend answers and their collection: each query's answer is checked
 * (transport, status, result type) and the collector reads one message per
 * query in arrival order, stopping at the first error.
 */
module Collector {
  import opened Wrappers
  import opened Multisets
  import opened Palette
  import opened Expressions
  import opened Normalizer

  /** A range-query answer: its status, its result type and, for a matrix, its series. */
  datatype QueryResult = QueryResult(status: string, resultType: string, result: seq<RawSeries>)

  /** What `PromQLRange` returned for one query. */
  datatype Fetch = TransportFailed(cause: string) | Fetched(answer: QueryResult)

  const SuccessStatus: string := "success"
  const MatrixType: string := "matrix"
  const RequestFailedPrefix: string := "failed to make request: "
  const InvalidStatusPrefix: string := "failed to make request (invalid status): "
  const MatrixRequired: string := "query must yield a matrix"

  /**
   * The checks each query's goroutine makes before sending its result; a
   * failed check sends an error instead.
   */
  function Validate(f: Fetch): (r: Result<seq<RawSeries>, string>)
    ensures r.Success? <==> f.Fetched? && f.answer.status == SuccessStatus && f.answer.resultType == MatrixType
    ensures r.Success? ==> r.value == f.answer.result
    ensures f.TransportFailed? ==> r == Failure(RequestFailedPrefix + f.cause)
    ensures f.Fetched? && f.answer.status != SuccessStatus ==> r == Failure(InvalidStatusPrefix + f.answer.status)
    ensures f.Fetched? && f.answer.status == SuccessStatus && f.answer.resultType != MatrixType ==>
      r == Failure(MatrixRequired)
  {
    match f
    case TransportFailed(cause) => Failure(RequestFailedPrefix + cause)
    case Fetched(answer) =>
      if answer.status != SuccessStatus then Failure(InvalidStatusPrefix + answer.status)
      else if answer.resultType != MatrixType then Failure(MatrixRequired)
      else Success(answer.result)
  }

  /** How a series is drawn: a line, or (with the scatter flag set) dots without a line. */
  datatype Style = Line | Dots

  function StyleFor(scatter: bool): (s: Style)
    ensures s == Dots <==> scatter
  {
    if scatter then Dots else Line
  }

  /** A chart series: its points, its stroke colour and its style. */
  datatype Series = Series(xs: seq<int>, ys: seq<real>, color: Color, style: Style)

  function ColorsOf(s: seq<Series>): seq<Color>
  {
    MapSeq(s, (x: Series) => x.color)
  }

  function Indices(n: nat): (r: seq<nat>)
    ensures |r| == n && forall i :: 0 <= i < n ==> r[i] == i
  {
    seq(n, i => i)
  }

  /**
   * `order` lists the requests `0 .. n-1` in the order their messages reach
   * the collector: each exactly once, since every goroutine sends exactly one.
   */
  ghost predicate IsArrivalOrder(order: seq<nat>, n: nat)
  {
    && |order| == n
    && (forall i :: 0 <= i < n ==> order[i] < n)
    && multiset(order) == multiset(Indices(n))
  }

  /** `s` is the series the collector built from an accepted answer `f` to request `req`. */
  ghost predicate Accepted(s: Series, req: Request, f: Fetch, scatter: bool)
  {
    && Validate(f).Success?
    && s.color == req.color
    && s.style == StyleFor(scatter)
    && Normalized(s.xs, s.ys, Samples(Validate(f).value))
  }

  /**
   * The collection loop. `fetches[k]` is the answer to `requests[k]`; the
   * messages arrive in `order`.
   */
  method Collect(requests: seq<Request>, fetches: seq<Fetch>, order: seq<nat>, scatter: bool)
    returns (r: Result<seq<Series>, string>)
    requires |fetches| == |requests| && IsArrivalOrder(order, |requests|)
    ensures r.Failure? <==> exists i :: 0 <= i < |order| && Validate(fetches[order[i]]).Failure?
    ensures r.Failure? ==> exists i ::
      && 0 <= i < |order|
      && (forall j :: 0 <= j < i ==> Validate(fetches[order[j]]).Success?)
      && Validate(fetches[order[i]]) == Failure(r.error)
    ensures r.Success? ==> |r.value| == |order|
    ensures r.Success? ==>
      forall i :: 0 <= i < |order| ==> Accepted(r.value[i], requests[order[i]], fetches[order[i]], scatter)
  {
    var series := [];
    for i := 0 to |order|
      invariant |series| == i
      invariant forall j :: 0 <= j < i ==> Validate(fetches[order[j]]).Success?
      invariant forall j :: 0 <= j < i ==> Accepted(series[j], requests[order[j]], fetches[order[j]], scatter)
    {
      var k := order[i];
      var one := CollectOne(requests[k], fetches[k], scatter);
      if one.Failure? {
        return Failure(one.error);
      }
      series := series + [one.value];
    }
    return Success(series);
  }

  /** One arrival: the answer is checked, then normalised into a series of the request's colour. */
  method CollectOne(req: Request, f: Fetch, scatter: bool) returns (r: Result<Series, string>)
    ensures r.Failure? <==> Validate(f).Failure?
    ensures r.Failure? ==> Validate(f) == Failure(r.error)
    ensures r.Success? ==> Accepted(r.value, req, f, scatter)
  {
    var checked := Validate(f);
    if checked.Failure? {
      return Failure(checked.error);
    }
    var xs, ys := NormalizeResult(checked.value);
    return Success(Series(xs, ys, req.color, StyleFor(scatter)));
  }

  /**
   * Whatever the arrival order, the collected series carry exactly the
   * requests' colours, each as often as it was assigned.
   */
  lemma CollectedColors(series: seq<Series>, requests: seq<Request>, order: seq<nat>)
    requires IsArrivalOrder(order, |requests|) && |series| == |order|
    requires forall i :: 0 <= i < |order| ==> series[i].color == requests[order[i]].color
    ensures multiset(ColorsOf(series)) == multiset(MapSeq(requests, (q: Request) => q.color))
  {
    var colorOf := (k: nat) => if k < |requests| then requests[k].color else Blue;
    MapPreservesMultiset(order, Indices(|requests|), colorOf);
    assert ColorsOf(series) == MapSeq(order, colorOf);
    assert MapSeq(Indices(|requests|), colorOf) == MapSeq(requests, (q: Request) => q.color);
  }
}
