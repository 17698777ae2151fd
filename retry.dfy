/** The retry loop of `fetch_warehouses`: up to three GET requests, a
    fixed wait before each one, a retry only on HTTP 429 while attempts
    remain, and normalisation of the first 200 response. The server's
    replies are supplied as a sequence; the waits are recorded, not
    slept. */
module Retry {
  import opened Json
  import opened Outcomes
  import opened Normalize

  /** Seconds to wait before each attempt; zero means no wait. */
  const Backoffs: seq<nat> := [0, 3, 7]

  /** What one `requests.get` call produces: a reply with its status code,
      its text and its body decoded as JSON (None when the body does not
      decode), or an exception raised by the request itself. */
  datatype Response = Reply(status: int, text: string, json: Option<Value>) | Raised

  /** The reply to the request at attempt `i`: a request beyond the
      supplied replies is one that raised. */
  function ResponseAt(responses: seq<Response>, i: nat): Response
  {
    if i < |responses| then responses[i] else Raised
  }

  /** One run of the loop: its outcome, the waits actually slept, in
      order, and the number of requests made. */
  datatype FetchRun = FetchRun(outcome: Outcome, sleeps: seq<nat>, requests: nat)

  predicate RateLimited(resp: Response)
  {
    resp.Reply? && resp.status == 429
  }

  /** The handling of a 200 reply: its body must decode to a JSON list,
      which is then normalised. */
  function OnSuccess(json: Option<Value>): (r: Outcome)
    ensures json.None? ==> r == Fail(BodyNotJson)
    ensures json.Some? && !json.value.Arr? ==> r == Fail(UnexpectedResponse(json.value))
    ensures json.Some? && json.value.Arr? ==> r == NormalizeRows(json.value.items)
  {
    match json
    case None => Fail(BodyNotJson)
    case Some(data) => if data.Arr? then NormalizeRows(data.items) else Fail(UnexpectedResponse(data))
  }

  /** The outcome of an attempt that is not retried. */
  function Final(resp: Response): Outcome
  {
    match resp
    case Raised => Fail(RequestRaised)
    case Reply(status, text, json) =>
      if status == 200 then OnSuccess(json) else Fail(ApiStatus(status, text))
  }

  /** The wait slept before attempt `i`: none when its backoff is zero. */
  function SleepBefore(i: nat): seq<nat>
    requires i < |Backoffs|
  {
    if Backoffs[i] != 0 then [Backoffs[i]] else []
  }

  /** The loop from attempt `i` on. The case `i == |Backoffs|` is the
      `return []` after the loop. */
  function Attempt(responses: seq<Response>, i: nat): FetchRun
    requires i <= |Backoffs|
    decreases |Backoffs| - i
  {
    if i == |Backoffs| then FetchRun(Ok([]), [], 0)
    else
      var pre := SleepBefore(i);
      match ResponseAt(responses, i)
      case Raised => FetchRun(Fail(RequestRaised), pre, 1)
      case Reply(status, text, json) =>
        if status == 200 then FetchRun(OnSuccess(json), pre, 1)
        else if status == 429 && i < |Backoffs| - 1 then
          var rest := Attempt(responses, i + 1);
          FetchRun(rest.outcome, pre + rest.sleeps, 1 + rest.requests)
        else FetchRun(Fail(ApiStatus(status, text)), pre, 1)
  }

  /** A whole call of `fetch_warehouses` against the given replies. */
  function Fetch(responses: seq<Response>): FetchRun
  {
    Attempt(responses, 0)
  }

  /** `run` preceded by `requests` earlier attempts that slept `sleeps`. */
  function After(sleeps: seq<nat>, requests: nat, run: FetchRun): FetchRun
  {
    FetchRun(run.outcome, sleeps + run.sleeps, requests + run.requests)
  }

  /** The nonzero entries of `s`, in order. */
  function NonZero(s: seq<nat>): (r: seq<nat>)
    ensures forall k :: 0 <= k < |r| ==> r[k] != 0
    ensures |r| <= |s|
  {
    if s == [] then []
    else if s[0] != 0 then [s[0]] + NonZero(s[1..])
    else NonZero(s[1..])
  }

  /** The loop itself. */
  method FetchWarehouses(responses: seq<Response>) returns (outcome: Outcome, sleeps: seq<nat>, requests: nat)
    ensures FetchRun(outcome, sleeps, requests) == Fetch(responses)
  {
    var backoffs := Backoffs;
    sleeps, requests := [], 0;
    for i := 0 to |backoffs|
      invariant requests == i
      invariant Fetch(responses) == After(sleeps, requests, Attempt(responses, i))
    {
      var wait := backoffs[i];
      ghost var before := sleeps;
      if wait != 0 {
        sleeps := sleeps + [wait];
      }
      assert sleeps == before + SleepBefore(i);
      var resp := ResponseAt(responses, i);
      requests := requests + 1;
      if resp.Raised? {
        outcome := Fail(RequestRaised);
        return;
      }
      if resp.status == 200 {
        if resp.json.None? {
          outcome := Fail(BodyNotJson);
          return;
        }
        var data := resp.json.value;
        if !data.Arr? {
          outcome := Fail(UnexpectedResponse(data));
          return;
        }
        outcome := NormalizeAll(data.items);
        return;
      } else if resp.status == 429 && i < |backoffs| - 1 {
        continue;
      } else {
        outcome := Fail(ApiStatus(resp.status, resp.text));
        return;
      }
    }
    outcome := Ok([]);
  }

  lemma {:induction false} NonZeroAppend(a: seq<nat>, b: seq<nat>)
    ensures NonZero(a + b) == NonZero(a) + NonZero(b)
    decreases |a|
  {
    if a == [] {
      assert a + b == b;
    } else {
      assert (a + b)[0] == a[0] && (a + b)[1..] == a[1..] + b;
      NonZeroAppend(a[1..], b);
    }
  }

  /** Everything about the loop from attempt `i` on: it makes at least one
      and at most the remaining number of requests; it sleeps exactly the
      nonzero backoffs of the attempts it makes; every attempt but the last
      was answered with 429; the last one is not a 429 unless no attempt
      remains; and the last response alone decides the outcome. */
  lemma {:induction false} AttemptShape(responses: seq<Response>, i: nat)
    requires i < |Backoffs|
    ensures var r := Attempt(responses, i);
      && 1 <= r.requests <= |Backoffs| - i
      && r.sleeps == NonZero(Backoffs[i .. i + r.requests])
      && (forall j :: i <= j < i + r.requests - 1 ==> RateLimited(ResponseAt(responses, j)))
      && (i + r.requests < |Backoffs| ==> !RateLimited(ResponseAt(responses, i + r.requests - 1)))
      && r.outcome == Final(ResponseAt(responses, i + r.requests - 1))
    decreases |Backoffs| - i
  {
    var r := Attempt(responses, i);
    var resp := ResponseAt(responses, i);
    assert Backoffs[i .. i + 1] == [Backoffs[i]];
    if RateLimited(resp) && i < |Backoffs| - 1 {
      AttemptShape(responses, i + 1);
      var rest := Attempt(responses, i + 1);
      assert Backoffs[i .. i + r.requests] == [Backoffs[i]] + Backoffs[i + 1 .. i + 1 + rest.requests];
      NonZeroAppend([Backoffs[i]], Backoffs[i + 1 .. i + 1 + rest.requests]);
    }
  }

  /** The whole fetch, characterised by the response that decides it:
      between one and three requests, the sleeps are the nonzero backoffs
      of the attempts made (none before the first), all earlier replies
      were 429, and a 429 is fatal only on the last attempt. */
  lemma FetchShape(responses: seq<Response>)
    ensures var r := Fetch(responses);
      && 1 <= r.requests <= |Backoffs|
      && r.sleeps == NonZero(Backoffs[..r.requests])
      && |r.sleeps| == r.requests - 1
      && (forall j :: 0 <= j < r.requests - 1 ==> RateLimited(ResponseAt(responses, j)))
      && (RateLimited(ResponseAt(responses, r.requests - 1)) ==> r.requests == |Backoffs|)
      && r.outcome == Final(ResponseAt(responses, r.requests - 1))
  {
    AttemptShape(responses, 0);
    var r := Fetch(responses);
    assert Backoffs[0 .. r.requests] == Backoffs[..r.requests];
    assert r.requests == 1 || r.requests == 2 || r.requests == 3;
  }

  /** The `return []` after the loop is never reached: a successful fetch
      always comes from a 200 reply whose body is a JSON list, and its
      records are that list normalised. */
  lemma NeverFallsThrough(responses: seq<Response>)
    ensures var r := Fetch(responses);
      r.outcome.Ok? ==>
        var last := ResponseAt(responses, r.requests - 1);
        && last.Reply? && last.status == 200
        && last.json.Some? && last.json.value.Arr?
        && r.outcome == NormalizeRows(last.json.value.items)
  {
  }

  /** 429, 429, 200: waits of 3 then 7 seconds, and the third body is used. */
  lemma RetryThenSucceed(responses: seq<Response>)
    requires |responses| >= 3
    requires RateLimited(responses[0]) && RateLimited(responses[1])
    requires responses[2].Reply? && responses[2].status == 200
    ensures Fetch(responses) == FetchRun(OnSuccess(responses[2].json), [3, 7], 3)
  {
  }

  /** 429 three times: the third 429 fails, after waits of 3 and 7 seconds. */
  lemma RateLimitedThrice(responses: seq<Response>)
    requires |responses| >= 3
    requires RateLimited(responses[0]) && RateLimited(responses[1]) && RateLimited(responses[2])
    ensures Fetch(responses) == FetchRun(Fail(ApiStatus(429, responses[2].text)), [3, 7], 3)
  {
  }

  /** Any status other than 200 and 429 fails at that attempt, with no
      further request. */
  lemma OtherStatusStops(responses: seq<Response>, k: nat)
    requires k < |Backoffs| && k < |responses|
    requires forall j :: 0 <= j < k ==> RateLimited(responses[j])
    requires responses[k].Reply? && responses[k].status != 200 && responses[k].status != 429
    ensures Fetch(responses).outcome == Fail(ApiStatus(responses[k].status, responses[k].text))
    ensures Fetch(responses).requests == k + 1
  {
  }

  /** A 200 reply whose body is not a list fails at that attempt: nothing
      is normalised, no later wait is slept and no further request is made. */
  lemma NonListStops(responses: seq<Response>, k: nat)
    requires k < |Backoffs| && k < |responses|
    requires forall j :: 0 <= j < k ==> RateLimited(responses[j])
    requires responses[k].Reply? && responses[k].status == 200
    requires responses[k].json.Some? && !responses[k].json.value.Arr?
    ensures Fetch(responses).outcome == Fail(UnexpectedResponse(responses[k].json.value))
    ensures Fetch(responses).requests == k + 1
    ensures Fetch(responses).sleeps == NonZero(Backoffs[..k + 1])
  {
    FetchShape(responses);
  }

  /** A 200 reply whose body does not decode as JSON fails at that attempt,
      with no further wait or request. */
  lemma BodyNotJsonStops(responses: seq<Response>, k: nat)
    requires k < |Backoffs| && k < |responses|
    requires forall j :: 0 <= j < k ==> RateLimited(responses[j])
    requires responses[k].Reply? && responses[k].status == 200 && responses[k].json.None?
    ensures Fetch(responses).outcome == Fail(BodyNotJson)
    ensures Fetch(responses).requests == k + 1
    ensures Fetch(responses).sleeps == NonZero(Backoffs[..k + 1])
  {
    FetchShape(responses);
  }
}
