/**
 * What the generate route does before generating, and how it answers when
 * something is thrown: the rate limit of five requests a minute per client
 * address, the request check, and the mapping of a thrown value to an HTTP
 * status and message.
 */
module GenerateRoute {
  import opened Wrappers
  import opened Errors
  import opened Validation

  /** The client address: `x-forwarded-for`, else `x-real-ip`, else `unknown`; an empty
      header counts as missing. */
  function ClientIp(forwardedFor: Option<string>, realIp: Option<string>): (ip: string)
    ensures forwardedFor.Some? && forwardedFor.value != "" ==> ip == forwardedFor.value
    ensures (forwardedFor.None? || forwardedFor.value == "") && realIp.Some? && realIp.value != "" ==> ip == realIp.value
    ensures ip != ""
  {
    if forwardedFor.Some? && forwardedFor.value != "" then forwardedFor.value
    else if realIp.Some? && realIp.value != "" then realIp.value
    else "unknown"
  }

  const GenericFailure := "An unexpected error occurred. Please try again."
  const TooMany := "Too many requests. Please try again later."

  /** The route's catch: an `AppError` answers with its own status and message, anything
      else with 500 and a fixed text. */
  function ErrorResponse(e: Thrown): (r: (int, string))
    ensures e.App? ==> r == (e.app.statusCode, e.app.message)
    ensures !e.App? ==> r == (500, GenericFailure)
  {
    if e.App? then (e.app.statusCode, e.app.message) else (500, GenericFailure)
  }

  /** Every error the route answers with is a server error except those of the
      `AppError` classes, which carry their own codes. */
  lemma ResponseCodes(e: Thrown)
    requires e.App? ==> Constructed(e.app) && e.app.kind != Base
    ensures ErrorResponse(e).0 in {400, 429, 500, 502}
    ensures ErrorResponse(e).0 == 400 <==> e.App? && e.app.kind == Validation
  {
  }

  /** The check ahead of generation, as the route is written: one request counted against the
      client's limit, then `validateInput` with the message `Invalid request data`. */
  function Admit(counts: map<string, Window>, ip: string, now: int, req: GenerateRequest,
                 describe: GenerateRequest -> string): (map<string, Window>, Result<GenerateRequest, Thrown>)
  {
    var (after, allowed) := Check(counts, ip, 5, 60000, now);
    if !allowed then (after, Err(App(NewRateLimitError(Some(TooMany), None))))
    else (after, ValidateInput(req, "Invalid request data", describe))
  }

  /** A client over its limit is answered 429, with the request left unread and the count
      unchanged. */
  lemma OverLimitIs429(counts: map<string, Window>, ip: string, now: int, req: GenerateRequest,
                       describe: GenerateRequest -> string)
    requires !Check(counts, ip, 5, 60000, now).1
    ensures var (after, res) := Admit(counts, ip, now, req, describe);
            after == counts && res.Err? && ErrorResponse(res.error) == (429, TooMany)
  {
  }

  /** As written, a request the schema refuses is answered 500 with the generic text: the
      plain `Error` from `validateInput` is not an `AppError`, so the 400 of
      `ValidationError` is never used. */
  lemma InvalidRequestIs500(counts: map<string, Window>, ip: string, now: int, req: GenerateRequest,
                            describe: GenerateRequest -> string)
    requires Check(counts, ip, 5, 60000, now).1 && !ValidRequest(req)
    ensures var res := Admit(counts, ip, now, req, describe).1;
            res.Err? && ErrorResponse(res.error) == (500, GenericFailure)
  {
  }

  /** A refused request reported as the client's fault: a `ValidationError` with the same
      message. */
  function ValidateInputCorrected(r: GenerateRequest, errorMessage: string, describe: GenerateRequest -> string)
    : (res: Result<GenerateRequest, Thrown>)
    ensures res.Ok? <==> ValidRequest(r)
    ensures res.Ok? ==> res.value == r
  {
    match ValidateInput(r, errorMessage, describe)
    case Ok(v) => Ok(v)
    case Err(e) => Err(App(NewValidationError(GetErrorMessage(e), None, None)))
  }

  function AdmitCorrected(counts: map<string, Window>, ip: string, now: int, req: GenerateRequest,
                          describe: GenerateRequest -> string): (map<string, Window>, Result<GenerateRequest, Thrown>)
  {
    var (after, allowed) := Check(counts, ip, 5, 60000, now);
    if !allowed then (after, Err(App(NewRateLimitError(Some(TooMany), None))))
    else (after, ValidateInputCorrected(req, "Invalid request data", describe))
  }

  /** With the correction a refused request is answered 400 with the schema's issues, and
      everything else is answered as before. */
  lemma InvalidRequestIs400Corrected(counts: map<string, Window>, ip: string, now: int, req: GenerateRequest,
                                     describe: GenerateRequest -> string)
    ensures var (after, res) := AdmitCorrected(counts, ip, now, req, describe);
            && after == Admit(counts, ip, now, req, describe).0
            && (res.Ok? <==> Admit(counts, ip, now, req, describe).1.Ok?)
            && (res.Ok? ==> res == Admit(counts, ip, now, req, describe).1)
            && (Check(counts, ip, 5, 60000, now).1 && !ValidRequest(req) ==>
                  res.Err? && ErrorResponse(res.error) == (400, "Invalid request data" + ": " + describe(req)))
            && (!Check(counts, ip, 5, 60000, now).1 ==> res == Admit(counts, ip, now, req, describe).1)
  {
  }
}
