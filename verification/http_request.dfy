/**
 * The retry policy of `get_response` and the success rule of
 * `_delivery_request` (utils/http_request.py). The network is an oracle
 * giving the transport outcome of the i-th attempt; sleeping is an effect
 * the model records as the sleep time of each failed attempt.
 */
module HttpRequest {
  import opened Wrappers

  const StatusOk := 200

  /** Built-in schedule used when the caller passes -1 (the default). */
  const DefaultSchedule: seq<int> := [30, 60, 120, 180, 240, 300, 600, 1200, 1800, 3600]

  datatype Response = Response(statusCode: int, text: string)

  /** What `requests.request` did: answered, or raised `RequestException`. */
  datatype Transport = Answered(response: Response) | RequestFailed

  /** `retry_interval`: a list of sleep times, or one fixed sleep time. */
  datatype RetryInterval = Schedule(intervals: seq<int>) | Every(seconds: int)

  /** The arguments of one `_delivery_request` call; -1 means "no failure number". */
  datatype Call = Call(sleepTime: int, failNumber: int)

  /** What one `_delivery_request` call does: return the response, sleep and return None, or raise from `time.sleep`. */
  datatype Delivery = Returned(response: Response) | Slept | SleepRaised

  /** The result of `get_response`: a response, None, or the `ValueError` a negative sleep raises. */
  datatype Outcome = Delivered(response: Response) | NoResponse | Raised

  /**
   * `_delivery_request`: only a 200 answer is returned; any other status or
   * a transport exception sleeps `sleep_time` (which Python refuses when
   * negative) and gives None.
   */
  function DeliveryRequest(sleepTime: int, t: Transport): (d: Delivery)
    ensures d.Returned? <==> t.Answered? && t.response.statusCode == StatusOk
    ensures d.Returned? ==> d.response == t.response
    ensures d.SleepRaised? <==> !d.Returned? && sleepTime < 0
  {
    if t.Answered? && t.response.statusCode == StatusOk then Returned(t.response)
    else if sleepTime < 0 then SleepRaised
    else Slept
  }

  /** The interval actually used: -1 stands for the default schedule. */
  function Effective(interval: RetryInterval): RetryInterval {
    if interval == Every(-1) then Schedule(DefaultSchedule) else interval
  }

  /** The largest number of attempts, or None when attempts repeat until one succeeds. */
  function AttemptBound(interval: RetryInterval, retryNumber: int): Option<nat> {
    match Effective(interval)
    case Schedule(xs) => Some(|xs|)
    case Every(_) =>
      if retryNumber == 0 then None
      else if retryNumber < 0 then Some(0)
      else Some(retryNumber)
  }

  /** The arguments of the i-th attempt (counting from 0). */
  function PlannedCall(interval: RetryInterval, retryNumber: int, i: nat): Call
    requires AttemptBound(interval, retryNumber).Some? ==> i < AttemptBound(interval, retryNumber).value
  {
    match Effective(interval)
    case Schedule(xs) => Call(xs[i], i + 1)
    case Every(s) => if retryNumber == 0 then Call(s, -1) else Call(s, i + 1)
  }

  /** Whether the i-th attempt ends the retrying. */
  predicate Stops(interval: RetryInterval, retryNumber: int, network: nat -> Transport, i: nat)
    requires AttemptBound(interval, retryNumber).Some? ==> i < AttemptBound(interval, retryNumber).value
  {
    !DeliveryRequest(PlannedCall(interval, retryNumber, i).sleepTime, network(i)).Slept?
  }

  /**
   * `get_response`. `calls` lists the `_delivery_request` calls made, in
   * order; they follow the plan, every call but the last slept, and the
   * result is the last call's response when it returned one, None when the
   * plan ran out with every call failing, and an error when a sleep was
   * negative. With `retry_number == 0` and a fixed interval the loop is
   * endless, so the model requires that some attempt eventually stops it.
   */
  method GetResponse(interval: RetryInterval, retryNumber: int, network: nat -> Transport)
    returns (result: Outcome, calls: seq<Call>)
    requires AttemptBound(interval, retryNumber).None? ==> exists k: nat :: Stops(interval, retryNumber, network, k)
    ensures AttemptBound(interval, retryNumber).Some? ==> |calls| <= AttemptBound(interval, retryNumber).value
    ensures forall i :: 0 <= i < |calls| ==> calls[i] == PlannedCall(interval, retryNumber, i)
    ensures forall i :: 0 <= i < |calls| - 1 ==> !Stops(interval, retryNumber, network, i)
    ensures result.Delivered? <==>
      |calls| > 0 && DeliveryRequest(calls[|calls| - 1].sleepTime, network(|calls| - 1)).Returned?
    ensures result.Delivered? ==> result.response == network(|calls| - 1).response
    ensures result.Raised? <==>
      |calls| > 0 && DeliveryRequest(calls[|calls| - 1].sleepTime, network(|calls| - 1)).SleepRaised?
    ensures result.NoResponse? <==>
      AttemptBound(interval, retryNumber).Some? && |calls| == AttemptBound(interval, retryNumber).value &&
      forall i :: 0 <= i < |calls| ==> !Stops(interval, retryNumber, network, i)
  {
    var iv := interval;
    if iv == Every(-1) {
      iv := Schedule(DefaultSchedule);
    }
    assert iv == Effective(interval);
    if iv.Schedule? {
      result, calls := RetryListed(interval, retryNumber, network, iv.intervals);
    } else if retryNumber != 0 {
      result, calls := RetryCounted(interval, retryNumber, network, iv.seconds);
    } else {
      result, calls := RetryForever(interval, retryNumber, network, iv.seconds);
    }
  }

  /** The `for` loop over a list of sleep times. */
  method RetryListed(interval: RetryInterval, retryNumber: int, network: nat -> Transport, intervals: seq<int>)
    returns (result: Outcome, calls: seq<Call>)
    requires Effective(interval) == Schedule(intervals)
    ensures AttemptBound(interval, retryNumber).Some? ==> |calls| <= AttemptBound(interval, retryNumber).value
    ensures forall i :: 0 <= i < |calls| ==> calls[i] == PlannedCall(interval, retryNumber, i)
    ensures forall i :: 0 <= i < |calls| - 1 ==> !Stops(interval, retryNumber, network, i)
    ensures result.Delivered? <==>
      |calls| > 0 && DeliveryRequest(calls[|calls| - 1].sleepTime, network(|calls| - 1)).Returned?
    ensures result.Delivered? ==> result.response == network(|calls| - 1).response
    ensures result.Raised? <==>
      |calls| > 0 && DeliveryRequest(calls[|calls| - 1].sleepTime, network(|calls| - 1)).SleepRaised?
    ensures result.NoResponse? <==>
      AttemptBound(interval, retryNumber).Some? && |calls| == AttemptBound(interval, retryNumber).value &&
      forall i :: 0 <= i < |calls| ==> !Stops(interval, retryNumber, network, i)
  {
    result := NoResponse;
    calls := [];
    var i := 0;
    while i < |intervals|
      invariant 0 <= i <= |intervals| && |calls| == i
      invariant forall j :: 0 <= j < i ==> calls[j] == PlannedCall(interval, retryNumber, j)
      invariant forall j :: 0 <= j < i ==> !Stops(interval, retryNumber, network, j)
    {
      assert PlannedCall(interval, retryNumber, i) == Call(intervals[i], i + 1);
      var d := DeliveryRequest(intervals[i], network(i));
      calls := calls + [Call(intervals[i], i + 1)];
      assert Stops(interval, retryNumber, network, i) <==> !d.Slept?;
      if d.Returned? {
        result := Delivered(d.response);
        return;
      } else if d.SleepRaised? {
        result := Raised;
        return;
      }
      i := i + 1;
    }
    AllFailed(interval, retryNumber, network, calls);
  }

  /** The `for` loop of `retry_number` attempts at a fixed interval. */
  method RetryCounted(interval: RetryInterval, retryNumber: int, network: nat -> Transport, seconds: int)
    returns (result: Outcome, calls: seq<Call>)
    requires Effective(interval) == Every(seconds) && retryNumber != 0
    ensures AttemptBound(interval, retryNumber).Some? ==> |calls| <= AttemptBound(interval, retryNumber).value
    ensures forall i :: 0 <= i < |calls| ==> calls[i] == PlannedCall(interval, retryNumber, i)
    ensures forall i :: 0 <= i < |calls| - 1 ==> !Stops(interval, retryNumber, network, i)
    ensures result.Delivered? <==>
      |calls| > 0 && DeliveryRequest(calls[|calls| - 1].sleepTime, network(|calls| - 1)).Returned?
    ensures result.Delivered? ==> result.response == network(|calls| - 1).response
    ensures result.Raised? <==>
      |calls| > 0 && DeliveryRequest(calls[|calls| - 1].sleepTime, network(|calls| - 1)).SleepRaised?
    ensures result.NoResponse? <==>
      AttemptBound(interval, retryNumber).Some? && |calls| == AttemptBound(interval, retryNumber).value &&
      forall i :: 0 <= i < |calls| ==> !Stops(interval, retryNumber, network, i)
  {
    result := NoResponse;
    calls := [];
    var i := 0;
    while i < retryNumber
      invariant 0 <= i <= (if retryNumber > 0 then retryNumber else 0) && |calls| == i
      invariant forall j :: 0 <= j < i ==> calls[j] == PlannedCall(interval, retryNumber, j)
      invariant forall j :: 0 <= j < i ==> !Stops(interval, retryNumber, network, j)
    {
      var d := DeliveryRequest(seconds, network(i));
      calls := calls + [Call(seconds, i + 1)];
      assert calls[i] == PlannedCall(interval, retryNumber, i);
      assert Stops(interval, retryNumber, network, i) <==> !d.Slept?;
      if d.Returned? {
        result := Delivered(d.response);
        return;
      } else if d.SleepRaised? {
        result := Raised;
        return;
      }
      i := i + 1;
    }
    AllFailed(interval, retryNumber, network, calls);
  }

  /** The `while True` loop at a fixed interval when `retry_number` is 0. */
  method RetryForever(interval: RetryInterval, retryNumber: int, network: nat -> Transport, seconds: int)
    returns (result: Outcome, calls: seq<Call>)
    requires Effective(interval) == Every(seconds) && retryNumber == 0
    requires exists k: nat :: Stops(interval, retryNumber, network, k)
    ensures AttemptBound(interval, retryNumber).Some? ==> |calls| <= AttemptBound(interval, retryNumber).value
    ensures forall i :: 0 <= i < |calls| ==> calls[i] == PlannedCall(interval, retryNumber, i)
    ensures forall i :: 0 <= i < |calls| - 1 ==> !Stops(interval, retryNumber, network, i)
    ensures result.Delivered? <==>
      |calls| > 0 && DeliveryRequest(calls[|calls| - 1].sleepTime, network(|calls| - 1)).Returned?
    ensures result.Delivered? ==> result.response == network(|calls| - 1).response
    ensures result.Raised? <==>
      |calls| > 0 && DeliveryRequest(calls[|calls| - 1].sleepTime, network(|calls| - 1)).SleepRaised?
    ensures result.NoResponse? <==>
      AttemptBound(interval, retryNumber).Some? && |calls| == AttemptBound(interval, retryNumber).value &&
      forall i :: 0 <= i < |calls| ==> !Stops(interval, retryNumber, network, i)
  {
    result := NoResponse;
    calls := [];
    ghost var k: nat :| Stops(interval, retryNumber, network, k);
    var i := 0;
    while true
      invariant 0 <= i <= k && |calls| == i
      invariant forall j :: 0 <= j < i ==> calls[j] == PlannedCall(interval, retryNumber, j)
      invariant forall j :: 0 <= j < i ==> !Stops(interval, retryNumber, network, j)
      decreases k - i
    {
      var d := DeliveryRequest(seconds, network(i));
      calls := calls + [Call(seconds, -1)];
      assert calls[i] == PlannedCall(interval, retryNumber, i);
      assert Stops(interval, retryNumber, network, i) <==> !d.Slept?;
      if d.Returned? {
        result := Delivered(d.response);
        return;
      } else if d.SleepRaised? {
        result := Raised;
        return;
      }
      i := i + 1;
    }
  }

  /** When no planned call stops the retrying, none of them returned a response or raised. */
  lemma AllFailed(interval: RetryInterval, retryNumber: int, network: nat -> Transport, calls: seq<Call>)
    requires AttemptBound(interval, retryNumber).Some? ==> |calls| <= AttemptBound(interval, retryNumber).value
    requires forall j :: 0 <= j < |calls| ==> calls[j] == PlannedCall(interval, retryNumber, j)
    requires forall j :: 0 <= j < |calls| ==> !Stops(interval, retryNumber, network, j)
    ensures |calls| > 0 ==> DeliveryRequest(calls[|calls| - 1].sleepTime, network(|calls| - 1)).Slept?
  {
    if |calls| > 0 {
      assert !Stops(interval, retryNumber, network, |calls| - 1);
    }
  }

  /** The default: ten attempts with the built-in sleeps, numbered 1 to 10, sleeping 8130 seconds in all if every one fails. */
  lemma DefaultPolicy(retryNumber: int)
    ensures AttemptBound(Every(-1), retryNumber) == Some(10)
    ensures forall i :: 0 <= i < 10 ==> PlannedCall(Every(-1), retryNumber, i) == Call(DefaultSchedule[i], i + 1)
    ensures TotalSleep(DefaultSchedule) == 8130
  {
  }

  /** Sum of a schedule's sleep times. */
  function TotalSleep(xs: seq<int>): int {
    if xs == [] then 0 else xs[0] + TotalSleep(xs[1..])
  }

  /** A schedule ignores `retry_number`; a fixed interval with n != 0 makes at most max(n, 0) attempts, numbered from 1. */
  lemma PlanShapes(xs: seq<int>, s: int, n: int, m: int)
    ensures AttemptBound(Schedule(xs), n) == AttemptBound(Schedule(xs), m) == Some(|xs|)
    ensures s != -1 && n > 0 ==> AttemptBound(Every(s), n) == Some(n)
    ensures s != -1 && n < 0 ==> AttemptBound(Every(s), n) == Some(0)
    ensures s != -1 ==> AttemptBound(Every(s), 0).None?
  {
  }

  /** The production call: interval 1 second, 10 attempts numbered 1 to 10. */
  lemma ProductionPolicy()
    ensures AttemptBound(Every(1), 10) == Some(10)
    ensures forall i :: 0 <= i < 10 ==> PlannedCall(Every(1), 10, i) == Call(1, i + 1)
  {
  }

  /** Every sleep time the plan can use is non-negative. */
  predicate NonNegativeSleeps(interval: RetryInterval) {
    match Effective(interval)
    case Schedule(xs) => forall k :: 0 <= k < |xs| ==> xs[k] >= 0
    case Every(s) => s >= 0
  }

  /**
   * With non-negative sleep times no attempt raises, so `get_response`
   * returns a response or None; the default schedule and the production
   * interval of one second are such plans.
   */
  lemma NeverRaises(interval: RetryInterval, retryNumber: int, network: nat -> Transport, i: nat)
    requires NonNegativeSleeps(interval)
    requires AttemptBound(interval, retryNumber).Some? ==> i < AttemptBound(interval, retryNumber).value
    ensures !DeliveryRequest(PlannedCall(interval, retryNumber, i).sleepTime, network(i)).SleepRaised?
    ensures NonNegativeSleeps(Every(-1)) && NonNegativeSleeps(Every(1))
  {
  }

  /** Text appended to a logged body that was cut short. */
  const TruncationMark := "...(已截断)"

  /** A logged body longer than `limit` keeps its first `limit` characters and gets the mark. */
  function TruncateForLog(s: string, limit: nat): (r: string)
    ensures |s| <= limit ==> r == s
    ensures |s| > limit ==> |r| == limit + |TruncationMark| && r[..limit] == s[..limit] && r[limit..] == TruncationMark
  {
    if |s| > limit then s[..limit] + TruncationMark else s
  }
}
