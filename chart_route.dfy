/**
 * The chart endpoint: range lookup, and the zip-and-filter that turns the
 * provider's parallel arrays into chart points.
 */
module ChartRoute {
  import opened Wrappers
  import opened Http

  /** `RANGE_QUERY[range] ?? RANGE_QUERY["30d"]`, after `range || "30d"`. */
  function RangeQuery(range: Option<string>): (q: string)
    ensures q == "1mo" || q == "3mo" || q == "1y"
    ensures range.None? || range == Some("") || range == Some("30d") ==> q == "1mo"
    ensures range == Some("3mo") ==> q == "3mo"
    ensures range == Some("1y") ==> q == "1y"
    ensures range.Some? && range.value !in {"", "30d", "3mo", "1y"} ==> q == "1mo"
  {
    var r := if range.None? || range.value == "" then "30d" else range.value;
    if r == "30d" then "1mo"
    else if r == "3mo" then "3mo"
    else if r == "1y" then "1y"
    else "1mo"
  }

  /** One entry of `indicators.quote`: the parallel price arrays, each possibly missing. */
  datatype QuoteSeries = QuoteSeries(
    close: Option<seq<Option<real>>>,
    open: Option<seq<Option<real>>>,
    high: Option<seq<Option<real>>>,
    low: Option<seq<Option<real>>>)

  /** One entry of `chart.result`: timestamps in seconds and `indicators.quote`. */
  datatype ChartResult = ChartResult(timestamp: Option<seq<int>>, indicatorsQuote: Option<seq<QuoteSeries>>)

  /** The chart body as far as `chart.result` goes. */
  type ChartBody = Option<seq<ChartResult>>

  /** A point before filtering: `close` may be missing. */
  datatype Draft = Draft(t: int, close: Option<real>, open: Option<real>, high: Option<real>, low: Option<real>)

  /** A point of the response: `close` is always a number. */
  datatype ChartPoint = ChartPoint(t: int, close: real, open: Option<real>, high: Option<real>, low: Option<real>)

  /** `arr[i]`, which is `undefined` past the end. */
  function At(arr: seq<Option<real>>, i: nat): Option<real> {
    if i < |arr| then arr[i] else None
  }

  /** The `map` step: one draft per timestamp, seconds turned into milliseconds. */
  function Drafts(ts: seq<int>, closes: seq<Option<real>>, opens: seq<Option<real>>,
                  highs: seq<Option<real>>, lows: seq<Option<real>>): (ds: seq<Draft>)
    ensures |ds| == |ts|
    ensures forall i :: 0 <= i < |ts| ==>
      ds[i] == Draft(ts[i] * 1000, At(closes, i), At(opens, i), At(highs, i), At(lows, i))
  {
    seq(|ts|, i requires 0 <= i < |ts| => Draft(ts[i] * 1000, At(closes, i), At(opens, i), At(highs, i), At(lows, i)))
  }

  function ToPoint(d: Draft): ChartPoint
    requires d.close.Some?
  {
    ChartPoint(d.t, d.close.value, d.open, d.high, d.low)
  }

  /** The `filter` step: keep the drafts whose close is a number. */
  function KeepClosed(ds: seq<Draft>): (ps: seq<ChartPoint>)
    ensures |ps| <= |ds|
    decreases |ds|
  {
    if |ds| == 0 then []
    else
      var last := ds[|ds| - 1];
      KeepClosed(ds[..|ds| - 1]) + (if last.close.Some? then [ToPoint(last)] else [])
  }

  /** The positions of the drafts whose close is a number, in increasing order. */
  ghost function ClosedIndices(ds: seq<Draft>): seq<nat>
    decreases |ds|
  {
    if |ds| == 0 then []
    else ClosedIndices(ds[..|ds| - 1]) + (if ds[|ds| - 1].close.Some? then [|ds| - 1] else [])
  }

  /**
   * The filter keeps exactly the drafts with a close, one point per such
   * draft, in the drafts' order.
   */
  lemma {:induction false} KeepClosedSpec(ds: seq<Draft>)
    ensures var ps, idx := KeepClosed(ds), ClosedIndices(ds);
      && |ps| == |idx|
      && (forall j :: 0 <= j < |idx| ==> idx[j] < |ds| && ds[idx[j]].close.Some? && ps[j] == ToPoint(ds[idx[j]]))
      && (forall j, k :: 0 <= j < k < |idx| ==> idx[j] < idx[k])
      && (forall i :: 0 <= i < |ds| && ds[i].close.Some? ==> i in idx)
    decreases |ds|
  {
    if |ds| > 0 {
      var init := ds[..|ds| - 1];
      KeepClosedSpec(init);
      assert forall i :: 0 <= i < |init| ==> init[i] == ds[i];
    }
  }

  /** The points for the provider's parallel arrays. */
  function Points(ts: seq<int>, closes: seq<Option<real>>, opens: seq<Option<real>>,
                  highs: seq<Option<real>>, lows: seq<Option<real>>): (ps: seq<ChartPoint>)
    ensures |ps| <= |ts|
  {
    KeepClosed(Drafts(ts, closes, opens, highs, lows))
  }

  /**
   * There is one point per index `i` of the timestamps whose close is a
   * number, no other point, each built from index `i` of every array with the
   * timestamp in milliseconds, in the order of the timestamps.
   */
  lemma PointsSpec(ts: seq<int>, closes: seq<Option<real>>, opens: seq<Option<real>>,
                   highs: seq<Option<real>>, lows: seq<Option<real>>)
    ensures var ps, idx := Points(ts, closes, opens, highs, lows), ClosedIndices(Drafts(ts, closes, opens, highs, lows));
      && |ps| == |idx|
      && (forall j :: 0 <= j < |idx| ==>
            var i := idx[j];
            && i < |ts| && i < |closes| && closes[i].Some?
            && ps[j] == ChartPoint(ts[i] * 1000, closes[i].value, At(opens, i), At(highs, i), At(lows, i)))
      && (forall j, k :: 0 <= j < k < |idx| ==> idx[j] < idx[k])
      && (forall i :: 0 <= i < |ts| && i < |closes| && closes[i].Some? ==> i in idx)
  {
    var ds := Drafts(ts, closes, opens, highs, lows);
    KeepClosedSpec(ds);
  }

  /** Every point has a close, whatever the arrays hold. */
  lemma PointsHaveCloses(ts: seq<int>, closes: seq<Option<real>>, opens: seq<Option<real>>,
                         highs: seq<Option<real>>, lows: seq<Option<real>>, p: ChartPoint)
    requires p in Points(ts, closes, opens, highs, lows)
    ensures exists i :: 0 <= i < |ts| && i < |closes| && closes[i] == Some(p.close) && p.t == ts[i] * 1000
  {
    PointsSpec(ts, closes, opens, highs, lows);
    var ps := Points(ts, closes, opens, highs, lows);
    var j :| 0 <= j < |ps| && ps[j] == p;
    var i := ClosedIndices(Drafts(ts, closes, opens, highs, lows))[j];
    assert 0 <= i < |ts| && i < |closes| && closes[i] == Some(p.close) && p.t == ts[i] * 1000;
  }

  /** The points of a chart body; a missing result or missing arrays give no points. */
  function PointsOf(body: ChartBody): (ps: seq<ChartPoint>)
    ensures FirstResult(body).None? ==> ps == []
    ensures FirstResult(body).Some? && FirstResult(body).value.timestamp.None? ==> ps == []
    ensures FirstResult(body).Some? ==>
      var result := FirstResult(body).value;
      var series := FirstResult(result.indicatorsQuote);
      ps == Points(result.timestamp.GetOr([]),
                   if series.Some? then series.value.close.GetOr([]) else [],
                   if series.Some? then series.value.open.GetOr([]) else [],
                   if series.Some? then series.value.high.GetOr([]) else [],
                   if series.Some? then series.value.low.GetOr([]) else [])
  {
    match FirstResult(body)
    case None => []
    case Some(result) =>
      var series := FirstResult(result.indicatorsQuote);
      var closes := if series.Some? then series.value.close.GetOr([]) else [];
      var opens := if series.Some? then series.value.open.GetOr([]) else [];
      var highs := if series.Some? then series.value.high.GetOr([]) else [];
      var lows := if series.Some? then series.value.low.GetOr([]) else [];
      Points(result.timestamp.GetOr([]), closes, opens, highs, lows)
  }

  /** The request the endpoint sends upstream. */
  datatype ChartRequest = ChartRequest(symbol: string, interval: string, range: string)

  datatype ChartReply = BadRequest | ServerError | ChartOk(symbol: string, points: seq<ChartPoint>)

  /** The upstream request for a query; none is sent without a symbol. */
  function ChartUpstream(symbol: Option<string>, range: Option<string>): (req: Option<ChartRequest>)
    ensures req.None? <==> symbol.None? || symbol.value == ""
    ensures req.Some? ==> req.value == ChartRequest(symbol.value, "1d", RangeQuery(range))
  {
    if symbol.None? || symbol.value == "" then None
    else Some(ChartRequest(symbol.value, "1d", RangeQuery(range)))
  }

  /** `GET /api/chart`, given what the upstream fetch produced. */
  function ChartGet(symbol: Option<string>, range: Option<string>, res: HttpOutcome<ChartBody>): (reply: ChartReply)
    ensures symbol.None? || symbol == Some("") ==> reply == BadRequest
    ensures ChartUpstream(symbol, range).Some? ==>
      reply == (if res.Response? && res.ok then ChartOk(symbol.value, PointsOf(res.body)) else ServerError)
  {
    if symbol.None? || symbol.value == "" then BadRequest
    else
      match res
      case Threw => ServerError
      case Response(ok, body) => if !ok then ServerError else ChartOk(symbol.value, PointsOf(body))
  }
}
