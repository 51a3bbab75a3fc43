/**
 * The USD/KRW endpoint: the latest rate, and a previous rate found by looking
 * back at most seven days for the first day with a positive rate.
 */
module ForexRoute {
  import opened Wrappers
  import opened Http

  /** How many days back the previous rate is looked for. */
  const LookbackDays: nat := 7

  /** A day's rate response: its body is `rates.KRW`, if present. */
  type DayOutcome = HttpOutcome<Option<real>>

  /** `data?.rates?.KRW ?? 0`. */
  function RateOf(body: Option<real>): real {
    body.GetOr(0.0)
  }

  /** An ok response whose rate is positive ends the lookback. */
  predicate Positive(d: DayOutcome) {
    d.Response? && d.ok && RateOf(d.body) > 0.0
  }

  /** A response that ends the lookback: a positive rate, or a thrown error. */
  predicate Stops(d: DayOutcome) {
    d.Threw? || Positive(d)
  }

  /** An ok response: its rate is read, even when it is not positive. */
  predicate IsOk(d: DayOutcome) {
    d.Response? && d.ok
  }

  /** The rate of the last ok response, or 0 when no response was ok. */
  function LastOkRate(days: seq<DayOutcome>): (rate: real)
    ensures (forall k :: 0 <= k < |days| ==> !IsOk(days[k])) ==> rate == 0.0
    ensures |days| > 0 && IsOk(days[|days| - 1]) ==> rate == RateOf(days[|days| - 1].body)
    decreases |days|
  {
    if |days| == 0 then 0.0
    else
      var last := days[|days| - 1];
      if IsOk(last) then RateOf(last.body) else LastOkRate(days[..|days| - 1])
  }

  /** Whatever precedes it, the rate is that of the last ok response, when there is one. */
  lemma {:induction false} LastOkRateIsLast(days: seq<DayOutcome>, k: nat)
    requires k < |days| && IsOk(days[k])
    requires forall j :: k < j < |days| ==> !IsOk(days[j])
    ensures LastOkRate(days) == RateOf(days[k].body)
    decreases |days|
  {
    if k < |days| - 1 {
      var init := days[..|days| - 1];
      assert forall j :: 0 <= j < |init| ==> init[j] == days[j];
      LastOkRateIsLast(init, k);
    }
  }

  /** Reading one more day either takes its rate, when it is ok, or keeps the last ok rate so far. */
  lemma LastOkRateStep(days: seq<DayOutcome>, i: nat)
    requires 1 <= i <= |days|
    ensures LastOkRate(days[..i]) == if IsOk(days[i - 1]) then RateOf(days[i - 1].body) else LastOkRate(days[..i - 1])
  {
    assert days[..i][..i - 1] == days[..i - 1];
  }

  /** Outcome of the lookback: how many requests were made, whether one threw, and `prevRate`. */
  datatype Lookback = Lookback(requests: nat, threw: bool, prevRate: real)

  /**
   * The `for (i = 1; i <= 7; i++)` loop; `days[i - 1]` is the response for
   * the day `i` days before the latest date. Non-ok responses are skipped,
   * the first positive rate or thrown error ends the loop.
   */
  method PreviousRate(days: seq<DayOutcome>) returns (r: Lookback)
    requires |days| == LookbackDays
    ensures 1 <= r.requests <= LookbackDays
    ensures forall k :: 0 <= k < r.requests - 1 ==> !Stops(days[k])
    ensures r.requests < LookbackDays ==> Stops(days[r.requests - 1])
    ensures r.threw <==> days[r.requests - 1].Threw?
    ensures !r.threw ==> r.prevRate == LastOkRate(days[..r.requests])
  {
    var prevRate := 0.0;
    var i := 1;
    while i <= LookbackDays
      invariant 1 <= i <= LookbackDays + 1
      invariant forall k :: 0 <= k < i - 1 ==> !Stops(days[k])
      invariant prevRate == LastOkRate(days[..i - 1])
    {
      var d := days[i - 1];
      LastOkRateStep(days, i);
      if d.Threw? {
        return Lookback(i, true, prevRate);
      }
      if !d.ok {
        i := i + 1;
        continue;
      }
      prevRate := RateOf(d.body);
      if prevRate > 0.0 {
        return Lookback(i, false, prevRate);
      }
      i := i + 1;
    }
    r := Lookback(LookbackDays, false, prevRate);
  }

  /** The previous rate is positive exactly when some day before the stop had a positive rate, and then it is that day's rate. */
  lemma {:induction false} LookbackResult(days: seq<DayOutcome>, n: nat)
    requires 1 <= n <= |days|
    requires forall k :: 0 <= k < n - 1 ==> !Stops(days[k])
    requires !days[n - 1].Threw?
    ensures Positive(days[n - 1]) ==> LastOkRate(days[..n]) == RateOf(days[n - 1].body) > 0.0
    ensures !Positive(days[n - 1]) ==> LastOkRate(days[..n]) <= 0.0
  {
    NoPositiveRate(days[..n]);
  }

  /** Without a positive rate among the responses, the last ok rate is not positive. */
  lemma {:induction false} NoPositiveRate(days: seq<DayOutcome>)
    requires forall k :: 0 <= k < |days| - 1 ==> !Positive(days[k])
    ensures !(|days| > 0 && Positive(days[|days| - 1])) ==> LastOkRate(days) <= 0.0
    decreases |days|
  {
    if |days| > 0 {
      var init := days[..|days| - 1];
      assert forall k :: 0 <= k < |init| ==> init[k] == days[k];
      NoPositiveRate(init);
    }
  }

  /** The latest-rate body: `rates.KRW`, if present. */
  type LatestBody = Option<real>

  datatype ForexReply = ForexReply(status: nat, rate: real, prevRate: real)

  /** `GET /api/forex`, given the latest response and the seven day responses. */
  method ForexGet(latest: HttpOutcome<LatestBody>, days: seq<DayOutcome>) returns (reply: ForexReply, requests: nat)
    requires |days| == LookbackDays
    ensures !(latest.Response? && latest.ok) ==> reply == ForexReply(500, 0.0, 0.0) && requests == 0
    ensures latest.Response? && latest.ok ==> 1 <= requests <= LookbackDays
    ensures latest.Response? && latest.ok ==>
      && (forall k :: 0 <= k < requests - 1 ==> !Stops(days[k]))
      && (requests < LookbackDays ==> Stops(days[requests - 1]))
    ensures reply.status == 500 ==> reply.rate == 0.0 && reply.prevRate == 0.0
    ensures reply.status == 200 ==>
      && latest.Response? && latest.ok && reply.rate == RateOf(latest.body)
      && (forall k :: 0 <= k < requests ==> !days[k].Threw?)
      && reply.prevRate == LastOkRate(days[..requests])
    ensures reply.status == 200 || reply.status == 500
    ensures reply.status == 500 <==> !(latest.Response? && latest.ok) || days[requests - 1].Threw?
  {
    if latest.Threw? || !latest.ok {
      return ForexReply(500, 0.0, 0.0), 0;
    }
    var rate := RateOf(latest.body);
    var r := PreviousRate(days);
    requests := r.requests;
    if r.threw {
      reply := ForexReply(500, 0.0, 0.0);
    } else {
      reply := ForexReply(200, rate, r.prevRate);
    }
  }
}
