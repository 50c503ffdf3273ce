/**
 * `retryAsync`: call an operation up to `maxAttempts` times, waiting longer
 * after each retryable failure, and `fetchWithRetry`, which retries HTTP
 * requests that fail for reasons other than the client's.
 *
 * The operation is a function from the attempt number (1, 2, ...) to what that
 * call resolves or rejects with; instead of sleeping, the loop records the
 * waits it would make, in order.
 */
module Retry {
  import opened Wrappers
  import opened Errors
  import opened Assoc
  import opened Text

  /** `RetryOptions` once merged with the defaults. */
  datatype Options = Options(
    maxAttempts: int,
    delayMs: real,
    backoffMultiplier: Option<real>,
    shouldRetry: Thrown -> bool)

  /** `Partial<RetryOptions>`: the options a caller spells out. */
  datatype Partial = Partial(
    maxAttempts: Option<int>,
    delayMs: Option<real>,
    backoffMultiplier: Option<real>,
    shouldRetry: Option<Thrown -> bool>)

  const NoOptions := Partial(None, None, None, None)

  /** The default `shouldRetry`: an `Error` with a numeric `status` is retried only for a
      server error; everything else is retried. */
  function DefaultShouldRetry(e: Thrown): (retry: bool)
    ensures e.Plain? && e.status.Some? ==> (retry <==> e.status.value >= 500)
    ensures !(e.Plain? && e.status.Some?) ==> retry
  {
    match e
    case Plain(_, _, _, Some(status)) => status >= 500
    case _ => true
  }

  /** `{ ...defaultRetryOptions, ...options }`. */
  function Merge(p: Partial): (o: Options)
    ensures o.maxAttempts == p.maxAttempts.GetOr(3) && o.delayMs == p.delayMs.GetOr(1000.0)
  {
    Options(p.maxAttempts.GetOr(3), p.delayMs.GetOr(1000.0),
            if p.backoffMultiplier.Some? then p.backoffMultiplier else Some(2.0),
            p.shouldRetry.GetOr(DefaultShouldRetry))
  }

  /** `backoffMultiplier || 2`. */
  function Multiplier(o: Options): real {
    if o.backoffMultiplier.Some? && o.backoffMultiplier.value != 0.0 then o.backoffMultiplier.value else 2.0
  }

  function Pow(m: real, n: nat): real {
    if n == 0 then 1.0 else m * Pow(m, n - 1)
  }

  /** The wait after failed attempt `attempt`: `delayMs * multiplier^(attempt - 1)`. */
  function Delay(o: Options, attempt: nat): real
    requires attempt >= 1
  {
    o.delayMs * Pow(Multiplier(o), attempt - 1)
  }

  /** What a retry run comes to: the value returned or the error thrown, how many calls
      were made, and the waits between them. */
  datatype Outcome<T> = Outcome(result: Result<T, Thrown>, calls: nat, waits: seq<real>)

  /** The value `lastError` holds before any attempt. */
  const Undefined := ThrownOther("undefined")

  /** The run from attempt `attempt` on, `lastError` being the last error so far. */
  function Attempts<T>(fn: nat -> Result<T, Thrown>, o: Options, attempt: nat, lastError: Thrown): Outcome<T>
    requires attempt >= 1
    decreases o.maxAttempts + 1 - attempt
  {
    if attempt > o.maxAttempts then Outcome(Err(lastError), attempt - 1, [])
    else match fn(attempt)
      case Ok(v) => Outcome(Ok(v), attempt, [])
      case Err(e) =>
        if attempt == o.maxAttempts || !o.shouldRetry(e) then Outcome(Err(e), attempt, [])
        else
          var rest := Attempts(fn, o, attempt + 1, e);
          Outcome(rest.result, rest.calls, [Delay(o, attempt)] + rest.waits)
  }

  function Prepend<T>(waits: seq<real>, out: Outcome<T>): Outcome<T> {
    Outcome(out.result, out.calls, waits + out.waits)
  }

  /** The whole run of `retryAsync(fn, options)`. */
  function RetrySpec<T>(fn: nat -> Result<T, Thrown>, options: Partial): Outcome<T> {
    Attempts(fn, Merge(options), 1, Undefined)
  }

  /** `retryAsync`. */
  method RetryAsync<T>(fn: nat -> Result<T, Thrown>, options: Partial) returns (r: Result<T, Thrown>, calls: nat, waits: seq<real>)
    ensures Outcome(r, calls, waits) == RetrySpec(fn, options)
  {
    var opts := Merge(options);
    var lastError := Undefined;
    waits := [];
    calls := 0;
    var attempt := 1;
    while attempt <= opts.maxAttempts
      invariant attempt >= 1 && calls == attempt - 1
      invariant RetrySpec(fn, options) == Prepend(waits, Attempts(fn, opts, attempt, lastError))
      decreases opts.maxAttempts - attempt
    {
      var res := fn(attempt);
      calls := attempt;
      if res.Ok? {
        assert waits + [] == waits;
        return res, calls, waits;
      }
      lastError := res.error;
      if attempt == opts.maxAttempts || !opts.shouldRetry(res.error) {
        assert waits + [] == waits;
        return Err(lastError), calls, waits;
      }
      var delay := Delay(opts, attempt);
      ConcatAssoc(waits, [delay], Attempts(fn, opts, attempt + 1, lastError).waits);
      waits := waits + [delay];
      attempt := attempt + 1;
    }
    assert waits + [] == waits;
    r := Err(lastError);
  }

  /** What a run from attempt `attempt` on does: at most the attempts left; a wait before
      every further attempt, growing by the multiplier; every failure before the last was
      retryable; a success is the first one; a failure is the last error received, after
      the final attempt or one `shouldRetry` refused. */
  lemma {:induction false} AttemptsFacts<T>(fn: nat -> Result<T, Thrown>, o: Options, attempt: nat, lastError: Thrown)
    requires attempt >= 1
    ensures var out := Attempts(fn, o, attempt, lastError);
            && (attempt > o.maxAttempts ==> out == Outcome(Err(lastError), attempt - 1, []))
            && (attempt <= o.maxAttempts ==> attempt <= out.calls <= o.maxAttempts)
            && (attempt <= o.maxAttempts ==> |out.waits| == out.calls - attempt)
            && (forall i :: 0 <= i < |out.waits| ==> out.waits[i] == Delay(o, attempt + i))
            && (forall k :: attempt <= k < out.calls ==> fn(k).Err? && o.shouldRetry(fn(k).error))
            && (out.result.Ok? ==> out.calls >= attempt && out.result == fn(out.calls))
            && (out.result.Err? && attempt <= o.maxAttempts ==>
                  && fn(out.calls).Err? && out.result.error == fn(out.calls).error
                  && (out.calls == o.maxAttempts || !o.shouldRetry(out.result.error)))
    decreases o.maxAttempts + 1 - attempt
  {
    if attempt <= o.maxAttempts && fn(attempt).Err? && attempt != o.maxAttempts && o.shouldRetry(fn(attempt).error) {
      AttemptsFacts(fn, o, attempt + 1, fn(attempt).error);
      var rest := Attempts(fn, o, attempt + 1, fn(attempt).error);
      var out := Attempts(fn, o, attempt, lastError);
      assert out.waits == [Delay(o, attempt)] + rest.waits;
      assert forall i :: 1 <= i < |out.waits| ==> out.waits[i] == rest.waits[i - 1];
    }
  }

  /** `retryAsync`'s promises, from the first attempt: `fn` runs at most `maxAttempts`
      times and never when that is not positive (and then `undefined` is thrown); the waits
      are `delayMs`, `delayMs * m`, ... one before each further call; a result is the first
      success; an error is the last one received. */
  lemma RetryFacts<T>(fn: nat -> Result<T, Thrown>, options: Partial)
    ensures var o := Merge(options);
            var out := RetrySpec(fn, options);
            && (o.maxAttempts <= 0 ==> out == Outcome(Err(Undefined), 0, []))
            && (o.maxAttempts >= 1 ==> 1 <= out.calls <= o.maxAttempts && |out.waits| == out.calls - 1)
            && (forall i :: 0 <= i < |out.waits| ==> out.waits[i] == o.delayMs * Pow(Multiplier(o), i))
            && (forall k :: 1 <= k < out.calls ==> fn(k).Err? && o.shouldRetry(fn(k).error))
            && (out.result.Ok? ==> out.result == fn(out.calls))
            && (out.result.Err? && o.maxAttempts >= 1 ==>
                  && fn(out.calls).Err? && out.result == Err(fn(out.calls).error)
                  && (out.calls == o.maxAttempts || !o.shouldRetry(out.result.error)))
  {
    AttemptsFacts(fn, Merge(options), 1, Undefined);
  }

  /** With the default options and every call failing in a retryable way, there are three
      calls with waits of one and then two seconds between them, and the third error is
      thrown. */
  lemma DefaultSchedule<T>(fn: nat -> Result<T, Thrown>)
    requires forall k :: 1 <= k <= 3 ==> fn(k).Err? && DefaultShouldRetry(fn(k).error)
    ensures RetrySpec(fn, NoOptions) == Outcome(Err(fn(3).error), 3, [1000.0, 2000.0])
  {
    var o := Merge(NoOptions);
    assert Multiplier(o) == 2.0;
    assert Delay(o, 1) == 1000.0;
    assert Delay(o, 2) == 2000.0 by { assert Pow(2.0, 1) == 2.0; }
    assert Attempts(fn, o, 3, fn(2).error) == Outcome(Err(fn(3).error), 3, []);
  }

  // ---------------------------------------------------------------------------
  // `fetchWithRetry`

  /** A response's `ok`, `status` and `statusText`. */
  datatype Response = Response(ok: bool, status: int, statusText: string)

  /** What one `fetch` call does: answer, reject with a `TypeError`, or throw something else. */
  datatype FetchResult = Answered(response: Response) | TypeError(message: string) | Failed(error: Thrown)

  /** One attempt of `fetchWithRetry`: a response that is not ok becomes a `NetworkError`
      recording the URL and the status, a `TypeError` about fetching becomes one recording the
      URL, anything else is thrown as it came. */
  function FetchAttempt(url: string, f: FetchResult): (r: Result<Response, Thrown>)
    ensures f.Answered? ==> (r.Ok? <==> f.response.ok)
    ensures r.Ok? ==> f.Answered? && r.value == f.response
  {
    match f
    case Answered(resp) =>
      if resp.ok then Ok(resp)
      else Err(App(NewNetworkError("HTTP " + IntToString(resp.status) + ": " + resp.statusText,
                                   Some(HttpContext(url, resp)), None)))
    case TypeError(m) =>
      if Contains(m, "fetch") then Err(App(NewNetworkError("Network error: " + m, Some([("url", Str(url))]), None)))
      else Err(Plain("TypeError", m, None, None))
    case Failed(e) => Err(e)
  }

  function HttpContext(url: string, resp: Response): seq<(string, Value)> {
    [("url", Str(url)), ("status", Num(resp.status)), ("statusText", Str(resp.statusText))]
  }

  /** `fetchWithRetry`'s `shouldRetry`: a `NetworkError` with a (non-zero) status is retried
      for server errors and for 429; everything else is retried. */
  function FetchShouldRetry(e: Thrown): bool {
    if e.App? && e.app.kind == Network && e.app.context.Some? then
      var status := Get(e.app.context.value, "status");
      if status.Some? && status.value.Num? then
        status.value.n == 0 || status.value.n >= 500 || status.value.n == 429
      else true
    else true
  }

  /** The options `fetchWithRetry` hands on: its own `shouldRetry` unless the caller gives one. */
  function FetchOptions(retryOptions: Partial): Partial {
    retryOptions.(shouldRetry := Some(retryOptions.shouldRetry.GetOr(FetchShouldRetry)))
  }

  lemma HttpContextStatus(url: string, resp: Response)
    ensures Get(HttpContext(url, resp), "status") == Some(Num(resp.status))
  {
    var m := HttpContext(url, resp);
    assert m[0].0 != "status";
    assert m[1..][0] == ("status", Num(resp.status));
  }

  /** A response that is not ok is retried exactly when its status is a server error or 429
      (a status of 0 being no status); a failure to reach the server is always retried. */
  lemma FetchRetryClassification(url: string, f: FetchResult)
    requires FetchAttempt(url, f).Err?
    ensures var e := FetchAttempt(url, f).error;
            && (f.Answered? ==> (FetchShouldRetry(e) <==> f.response.status == 0 || f.response.status >= 500 || f.response.status == 429))
            && (f.TypeError? ==> FetchShouldRetry(e))
  {
    if f.Answered? {
      HttpContextStatus(url, f.response);
    } else if f.TypeError? && Contains(f.message, "fetch") {
      var m := [("url", Str(url))];
      assert Get(m, "status") == None by { assert m[1..] == []; }
    }
  }

  /** `fetchWithRetry(url, options, retryOptions)`, with `fetch` answering call `k`. */
  method FetchWithRetry(url: string, fetch: nat -> FetchResult, retryOptions: Partial)
    returns (r: Result<Response, Thrown>, calls: nat, waits: seq<real>)
    ensures Outcome(r, calls, waits) == RetrySpec(k => FetchAttempt(url, fetch(k)), FetchOptions(retryOptions))
  {
    r, calls, waits := RetryAsync(k => FetchAttempt(url, fetch(k)), FetchOptions(retryOptions));
  }

  /** With the default options, a first answer of 404 ends the run after one call, thrown as
      a `NetworkError` (whose own code is 500) that records the 404. */
  lemma NotFoundNotRetried(url: string, fetch: nat -> FetchResult)
    requires fetch(1) == Answered(Response(false, 404, "Not Found"))
    ensures var out := RetrySpec(k => FetchAttempt(url, fetch(k)), FetchOptions(NoOptions));
            && out.calls == 1 && out.waits == []
            && out.result.Err? && out.result.error.App? && out.result.error.app.kind == Network
            && out.result.error.app.statusCode == 500
            && Get(out.result.error.app.context.value, "status") == Some(Num(404))
  {
    var fn := k => FetchAttempt(url, fetch(k));
    HttpContextStatus(url, Response(false, 404, "Not Found"));
    FetchRetryClassification(url, fetch(1));
    assert !FetchShouldRetry(fn(1).error);
  }
}
