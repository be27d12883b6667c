/** The retry and back-off policy of `binance_api_request`. The network is replaced
    by a script: the outcome each attempt would meet, in order. The model yields the
    parsed body (or no result) and the pauses the loop sleeps, in seconds. */
module ApiRequest {
  import opened Common

  const MaxRetries: nat := 3

  /** What one attempt meets. */
  datatype Attempt<B> =
    /** `urlopen` returned a response with this status; `body` is the parsed JSON,
        or `None` when `json.loads` raises on it. */
    | Response(status: int, body: Option<B>)
    /** `urllib.error.HTTPError` with this code. */
    | HttpError(code: int)
    /** Any other exception: timeout, refused connection, DNS failure. */
    | ConnectionFailure

  /** What the loop does after one attempt: stop with a result, or go on after
      sleeping `pause` seconds (0 means it does not sleep). */
  datatype Step<B> = Done(result: Option<B>) | Retry(pause: nat)

  function Pow2(n: nat): (r: nat)
    ensures r >= 1
  {
    if n == 0 then 1 else 2 * Pow2(n - 1)
  }

  /** The body of one iteration of `for attempt in range(max_retries)`. */
  function StepOf<B>(a: Attempt<B>, attempt: nat): Step<B> {
    match a
    case Response(status, body) =>
      if status == 200 then
        (if body.Some? then Done(body) else Retry(1))
      else if status == 401 then Done(None)
      else if status == 429 then Retry(Pow2(attempt))
      else if status >= 500 then Retry(1)
      else Retry(0)
    case HttpError(code) =>
      if code == 451 || code == 401 then Done(None)
      else if code == 429 then Retry(Pow2(attempt))
      else if code >= 500 then Retry(1)
      else Retry(0)
    case ConnectionFailure => Retry(1)
  }

  /** The pauses actually slept: a pause of 0 is no sleep. */
  function Slept(pause: nat): seq<nat> {
    if pause > 0 then [pause] else []
  }

  /** The outcome of a whole request: its result, the sleeps taken and the number
      of attempts made. */
  datatype Outcome<B> = Outcome(result: Option<B>, sleeps: seq<nat>, attempts: nat)

  /** The request from attempt `attempt` on. */
  function Run<B>(script: seq<Attempt<B>>, attempt: nat): (r: Outcome<B>)
    requires attempt <= MaxRetries <= |script|
    ensures attempt < MaxRetries ==> attempt < r.attempts <= MaxRetries
    ensures attempt == MaxRetries ==> r == Outcome(None, [], MaxRetries)
    ensures |r.sleeps| <= MaxRetries - attempt
    ensures forall i :: 0 <= i < |r.sleeps| ==> r.sleeps[i] in {1, 2, 4}
    decreases MaxRetries - attempt
  {
    if attempt == MaxRetries then Outcome(None, [], MaxRetries)
    else
      match StepOf(script[attempt], attempt)
      case Done(result) => Outcome(result, [], attempt + 1)
      case Retry(pause) =>
        var rest := Run(script, attempt + 1);
        assert pause in {0, 1, 2, 4} by {
          assert attempt <= 2;
          assert Pow2(attempt) in {1, 2, 4};
        }
        Outcome(rest.result, Slept(pause) + rest.sleeps, rest.attempts)
  }

  /** `binance_api_request`: at most three attempts, stopping at the first
      response that decides the request. */
  method BinanceApiRequest<B>(script: seq<Attempt<B>>) returns (result: Option<B>, sleeps: seq<nat>)
    requires |script| >= MaxRetries
    ensures result == Run(script, 0).result
    ensures sleeps == Run(script, 0).sleeps
  {
    sleeps := [];
    for attempt := 0 to MaxRetries
      invariant sleeps + Run(script, attempt).sleeps == Run(script, 0).sleeps
      invariant Run(script, attempt).result == Run(script, 0).result
    {
      RunUnfold(script, attempt);
      ghost var step := StepOf(script[attempt], attempt);
      ghost var before := sleeps;
      match script[attempt] {
        case Response(status, body) =>
          if status == 200 {
            if body.Some? {
              return body, sleeps;
            }
            assert step == Retry(1);
            sleeps := sleeps + [1];
          } else {
            if status == 401 {
              return None, sleeps;
            }
            if status == 429 {
              assert step == Retry(Pow2(attempt));
              sleeps := sleeps + [Pow2(attempt)];
            } else if status >= 500 {
              assert step == Retry(1);
              sleeps := sleeps + [1];
            } else {
              assert step == Retry(0);
            }
          }
        case HttpError(code) =>
          if code == 451 {
            return None, sleeps;
          }
          if code == 401 {
            return None, sleeps;
          }
          if code == 429 {
            assert step == Retry(Pow2(attempt));
            sleeps := sleeps + [Pow2(attempt)];
          } else if code >= 500 {
            assert step == Retry(1);
            sleeps := sleeps + [1];
          } else {
            assert step == Retry(0);
          }
        case ConnectionFailure =>
          assert step == Retry(1);
          sleeps := sleeps + [1];
      }
      assert step.Retry? && sleeps == before + Slept(step.pause);
      AppendAssoc(before, Slept(step.pause), Run(script, attempt + 1).sleeps);
    }
    result := None;
  }

  lemma AppendAssoc(a: seq<nat>, b: seq<nat>, c: seq<nat>)
    ensures (a + b) + c == a + (b + c)
  {
  }

  lemma RunUnfold<B>(script: seq<Attempt<B>>, attempt: nat)
    requires attempt < MaxRetries <= |script|
    ensures StepOf(script[attempt], attempt).Done? ==>
      Run(script, attempt).result == StepOf(script[attempt], attempt).result
    ensures StepOf(script[attempt], attempt).Retry? ==>
      Run(script, attempt).result == Run(script, attempt + 1).result &&
      Run(script, attempt).sleeps == Slept(StepOf(script[attempt], attempt).pause) + Run(script, attempt + 1).sleeps
  {
  }

  /** Only the first three outcomes of the script are ever looked at. */
  lemma {:induction false} OnlyThreeAttemptsMatter<B>(script: seq<Attempt<B>>, other: seq<Attempt<B>>, attempt: nat)
    requires attempt <= MaxRetries <= |script| && MaxRetries <= |other|
    requires script[..MaxRetries] == other[..MaxRetries]
    ensures Run(script, attempt) == Run(other, attempt)
    decreases MaxRetries - attempt
  {
    if attempt < MaxRetries {
      assert script[attempt] == script[..MaxRetries][attempt] == other[attempt];
      OnlyThreeAttemptsMatter(script, other, attempt + 1);
    }
  }

  /** Whether the loop stops at an attempt that meets `a`. */
  predicate Decisive<B>(a: Attempt<B>) {
    match a
    case Response(status, body) => (status == 200 && body.Some?) || status == 401
    case HttpError(code) => code == 451 || code == 401
    case ConnectionFailure => false
  }

  /** The request's result is the one of the first decisive attempt; with no
      decisive attempt among the three the request yields no result. */
  lemma {:induction false} FirstDecisiveWins<B>(script: seq<Attempt<B>>, attempt: nat, k: nat)
    requires attempt <= k < MaxRetries <= |script|
    requires forall j :: attempt <= j < k ==> !Decisive(script[j])
    requires Decisive(script[k])
    ensures Run(script, attempt).result == StepOf(script[k], k).result
    ensures Run(script, attempt).attempts == k + 1
    decreases k - attempt
  {
    if attempt < k {
      FirstDecisiveWins(script, attempt + 1, k);
    }
  }

  lemma {:induction false} NoDecisiveNoResult<B>(script: seq<Attempt<B>>, attempt: nat)
    requires attempt <= MaxRetries <= |script|
    requires forall j :: attempt <= j < MaxRetries ==> !Decisive(script[j])
    ensures Run(script, attempt).result == None
    ensures Run(script, attempt).attempts == MaxRetries
    decreases MaxRetries - attempt
  {
    if attempt < MaxRetries {
      NoDecisiveNoResult(script, attempt + 1);
    }
  }

  /** Credentials refused (401, as a response or as an HTTPError) or access
      blocked (HTTPError 451): the request gives up at once, without sleeping. */
  lemma FailFast<B>(script: seq<Attempt<B>>)
    requires |script| >= MaxRetries
    requires script[0] == HttpError(401) || script[0] == HttpError(451) || (script[0].Response? && script[0].status == 401)
    ensures Run(script, 0) == Outcome(None, [], 1)
  {
  }

  /** A first 200 with a readable body is returned as it is. */
  lemma FirstOkReturned<B>(script: seq<Attempt<B>>, body: B)
    requires |script| >= MaxRetries
    requires script[0] == Response(200, Some(body))
    ensures Run(script, 0) == Outcome(Some(body), [], 1)
  {
  }

  /** Three rate-limit refusals in a row: the sleeps double, 1, 2 then 4 seconds,
      and the request yields no result. */
  lemma RateLimitBackoff<B>(script: seq<Attempt<B>>)
    requires |script| >= MaxRetries
    requires forall i :: 0 <= i < MaxRetries ==> script[i] == HttpError(429)
    ensures Run(script, 0) == Outcome(None, [1, 2, 4], 3)
  {
    assert StepOf(script[0], 0) == Retry(1);
    assert StepOf(script[1], 1) == Retry(2);
    assert StepOf(script[2], 2) == Retry(4);
    assert Run(script, 2) == Outcome(None, [4], 3);
    assert Run(script, 1) == Outcome(None, [2, 4], 3);
  }

  /** A rate-limit refusal (status 429, as a response or as an HTTPError). */
  predicate RateLimited<B>(a: Attempt<B>) {
    (a.Response? && a.status == 429) || (a.HttpError? && a.code == 429)
  }

  /** The back-off after a rate-limit refusal at attempt `i` (counted from 0) is
      `2^i` seconds: 1, 2 or 4 for the three attempts, doubling each time; the
      request then goes on with the next attempt. */
  lemma RateLimitPause<B>(script: seq<Attempt<B>>, i: nat)
    requires i < MaxRetries <= |script| && RateLimited(script[i])
    ensures Run(script, i).sleeps == [Pow2(i)] + Run(script, i + 1).sleeps
    ensures Run(script, i).result == Run(script, i + 1).result
    ensures Pow2(i) == [1, 2, 4][i]
    ensures i > 0 ==> Pow2(i) == 2 * Pow2(i - 1)
  {
    RunUnfold(script, i);
    assert StepOf(script[i], i) == Retry(Pow2(i));
    if i == 2 {
      assert Pow2(2) == 4;
    }
  }

  /** Server errors and connection failures cost one second each, other client
      errors nothing. */
  lemma TransientFailures<B>(script: seq<Attempt<B>>)
    requires |script| >= MaxRetries
    requires script[0] == HttpError(503) && script[1] == ConnectionFailure && script[2] == HttpError(404)
    ensures Run(script, 0) == Outcome(None, [1, 1], 3)
  {
    assert Run(script, 2) == Outcome(None, [], 3);
    assert Run(script, 1) == Outcome(None, [1], 3);
  }
}
