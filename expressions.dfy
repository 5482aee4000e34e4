/**
 * The front of the plotter's request: composing the single query from URL
 * parameters (`createQuery`) and splitting the expressions into scalar
 * constants and backend queries, each query with its palette colour.
 */
module Expressions {
  import opened Wrappers
  import opened Palette

  /** Parsed URL query parameters (`url.Values`): each key with its values in order. */
  type Values = map<string, seq<string>>

  /** `values[key]`: the values given for `key`, none when it is absent. */
  function Param(values: Values, key: string): seq<string>
  {
    if key in values then values[key] else []
  }

  const SourceIDKey: string := "source_id"
  const MetricKey: string := "metric"
  const NeedSourceID: string := "requires a single soursce_id"
  const NeedMetric: string := "requires a single metric"

  /** The text between the metric name and the source id in a composed query. */
  const SelectorOpen: string := "{source_id=\""
  const SelectorClose: string := "\"}"

  /** `resolveSourceID`: the source id is used as given. */
  function ResolveSourceID(sourceID: string): (r: string)
    ensures r == sourceID
  {
    sourceID
  }

  /**
   * `createQuery`: exactly one `source_id` and exactly one `metric` are required;
   * they make the query `metric{source_id="id"}`. `parsed` is what
   * `url.ParseQuery` returned for the raw query string.
   */
  function CreateQuery(parsed: Result<Values, string>): (r: Result<string, string>)
    ensures r.Success? <==>
      parsed.Success? && |Param(parsed.value, SourceIDKey)| == 1 && |Param(parsed.value, MetricKey)| == 1
    ensures parsed.Failure? ==> r == Failure(parsed.error)
    ensures parsed.Success? && |Param(parsed.value, SourceIDKey)| != 1 ==> r == Failure(NeedSourceID)
    ensures parsed.Success? && |Param(parsed.value, SourceIDKey)| == 1 && |Param(parsed.value, MetricKey)| != 1 ==>
      r == Failure(NeedMetric)
    ensures r.Success? ==>
      var metric, id := Param(parsed.value, MetricKey)[0], Param(parsed.value, SourceIDKey)[0];
      && |r.value| == |metric| + |SelectorOpen| + |id| + |SelectorClose|
      && r.value[..|metric|] == metric
      && r.value[|metric|..|metric| + |SelectorOpen|] == SelectorOpen
      && r.value[|metric| + |SelectorOpen|..|r.value| - |SelectorClose|] == id
      && r.value[|r.value| - |SelectorClose|..] == SelectorClose
  {
    match parsed
    case Failure(e) => Failure(e)
    case Success(values) =>
      if |Param(values, SourceIDKey)| != 1 then Failure(NeedSourceID)
      else if |Param(values, MetricKey)| != 1 then Failure(NeedMetric)
      else
        var sourceID, metric := ResolveSourceID(Param(values, SourceIDKey)[0]), Param(values, MetricKey)[0];
        var q := metric + SelectorOpen + sourceID + SelectorClose;
        assert q[..|metric|] == metric;
        assert q[|metric|..|metric| + |SelectorOpen|] == SelectorOpen;
        assert q[|metric| + |SelectorOpen|..|q| - |SelectorClose|] == sourceID;
        assert q[|q| - |SelectorClose|..] == SelectorClose;
        Success(q)
  }

  /** A composed query always contains a brace, so it never parses as a number and is sent to the backend. */
  lemma CreatedQueryHasBrace(parsed: Result<Values, string>)
    requires CreateQuery(parsed).Success?
    ensures '{' in CreateQuery(parsed).value
  {
    var q := CreateQuery(parsed).value;
    var m := |Param(parsed.value, MetricKey)[0]|;
    assert q[m..m + |SelectorOpen|][0] == '{';
    assert q[m] == '{';
  }

  /** One input expression, classified by whether `strconv.ParseFloat` accepts it. */
  datatype Expr = Scalar(value: real) | Query(text: string)

  /** A backend request started for one query: the query and the colour of its slot. */
  datatype Request = Request(query: string, color: Color)

  /** The scalar constants, in input order. */
  function Scalars(exprs: seq<Expr>): seq<real>
  {
    if exprs == [] then []
    else
      var last := exprs[|exprs| - 1];
      Scalars(exprs[..|exprs| - 1]) + (if last.Scalar? then [last.value] else [])
  }

  /** The requests, in input order; the query at position `i` of `exprs` gets colour slot `i`. */
  function Requests(exprs: seq<Expr>): seq<Request>
  {
    if exprs == [] then []
    else
      var i := |exprs| - 1;
      Requests(exprs[..i]) + (if exprs[i].Query? then [Request(exprs[i].text, ColorAt(i))] else [])
  }

  /** The positions in `exprs` of its queries, in increasing order. */
  function QueryPositions(exprs: seq<Expr>): seq<nat>
  {
    if exprs == [] then []
    else
      var i := |exprs| - 1;
      QueryPositions(exprs[..i]) + (if exprs[i].Query? then [i] else [])
  }

  /** The classification loop: scalars are collected, every other expression becomes a request. */
  method Classify(exprs: seq<Expr>) returns (scalars: seq<real>, requests: seq<Request>)
    ensures scalars == Scalars(exprs) && requests == Requests(exprs)
    ensures |scalars| + |requests| == |exprs|
  {
    scalars, requests := [], [];
    for i := 0 to |exprs|
      invariant scalars == Scalars(exprs[..i]) && requests == Requests(exprs[..i])
      invariant |scalars| + |requests| == i
    {
      assert exprs[..i + 1][..i] == exprs[..i];
      match exprs[i] {
        case Scalar(f) =>
          scalars := scalars + [f];
        case Query(q) =>
          requests := requests + [Request(q, ColorAt(i))];
      }
    }
    assert exprs[..|exprs|] == exprs;
  }

  /**
   * Each request is the query at some position `p` of the input, coloured by
   * `p` itself: scalars before it still use up colour slots. Positions are
   * increasing and every query of the input is among them.
   */
  lemma {:induction false} RequestsByPosition(exprs: seq<Expr>)
    ensures |QueryPositions(exprs)| == |Requests(exprs)|
    ensures forall k :: 0 <= k < |Requests(exprs)| ==>
      var p := QueryPositions(exprs)[k];
      && p < |exprs| && exprs[p].Query?
      && Requests(exprs)[k] == Request(exprs[p].text, ColorAt(p))
    ensures forall k, l :: 0 <= k < l < |QueryPositions(exprs)| ==> QueryPositions(exprs)[k] < QueryPositions(exprs)[l]
    ensures forall p :: 0 <= p < |exprs| && exprs[p].Query? ==> p in QueryPositions(exprs)
  {
    if exprs != [] {
      var i := |exprs| - 1;
      RequestsByPosition(exprs[..i]);
      assert forall p :: 0 <= p < i ==> exprs[..i][p] == exprs[p];
    }
  }

  /** Scalars and requests together account for every expression. */
  lemma {:induction false} ScalarsAndRequestsPartition(exprs: seq<Expr>)
    ensures |Scalars(exprs)| + |Requests(exprs)| == |exprs|
  {
    if exprs != [] {
      ScalarsAndRequestsPartition(exprs[..|exprs| - 1]);
    }
  }

  /** A scalar between two queries uses up a colour slot: the second query gets green, not red. */
  lemma ScalarTakesASlot()
    ensures Requests([Query("a"), Scalar(2.5), Query("b")]) == [Request("a", Blue), Request("b", Green)]
  {
    assert [Query("a"), Scalar(2.5), Query("b")][..2] == [Query("a"), Scalar(2.5)];
    assert [Query("a"), Scalar(2.5)][..1] == [Query("a")];
    assert [Query("a")][..0] == [];
  }
}
