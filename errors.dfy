/**
 * The application's error classes (`AppError` and its four subclasses), the
 * values a `throw` can carry, and the helpers that read a message or a
 * logging context out of any thrown value.
 */
module Errors {
  import opened Wrappers
  import opened Assoc

  /** A property value of a context record: a string, a number, a boolean, or `undefined`. */
  datatype Value = Str(s: string) | Num(n: int) | Bool(b: bool) | Undefined

  /** Which class of the hierarchy constructed the error. */
  datatype Kind = Base | Validation | Network | ExternalService(service: string) | RateLimit

  /** An instance of `AppError` or of one of its subclasses. */
  datatype AppError = AppError(
    kind: Kind,
    message: string,
    statusCode: int,
    isOperational: bool,
    context: Option<seq<(string, Value)>>,
    stack: Option<string>)

  /** What a `throw` carries: an application error, another `Error` object (with its
      numeric `status` property if it has one), a string, or any other value (kept as
      `String(value)`). */
  datatype Thrown =
    | App(app: AppError)
    | Plain(name: string, message: string, stack: Option<string>, status: Option<int>)
    | ThrownString(text: string)
    | ThrownOther(repr: string)

  /** `this.constructor.name`. */
  function Name(k: Kind): string {
    match k
    case Base => "AppError"
    case Validation => "ValidationError"
    case Network => "NetworkError"
    case ExternalService(_) => "ExternalServiceError"
    case RateLimit => "RateLimitError"
  }

  /** The status code each subclass passes to `AppError`. */
  function ClassStatus(k: Kind): Option<int> {
    match k
    case Base => None
    case Validation => Some(400)
    case Network => Some(500)
    case ExternalService(_) => Some(502)
    case RateLimit => Some(429)
  }

  /** `new AppError(message, statusCode?, isOperational?, context?)`: status 500 and
      operational unless told otherwise. */
  function NewAppError(message: string, statusCode: Option<int>, isOperational: Option<bool>,
                       context: Option<seq<(string, Value)>>, stack: Option<string>): (e: AppError)
    ensures e.kind == Base && e.message == message && e.context == context
    ensures statusCode.None? ==> e.statusCode == 500
    ensures isOperational.None? ==> e.isOperational
  {
    AppError(Base, message, statusCode.GetOr(500), isOperational.GetOr(true), context, stack)
  }

  function NewValidationError(message: string, context: Option<seq<(string, Value)>>, stack: Option<string>): AppError {
    AppError(Validation, message, 400, true, context, stack)
  }

  function NewNetworkError(message: string, context: Option<seq<(string, Value)>>, stack: Option<string>): AppError {
    AppError(Network, message, 500, true, context, stack)
  }

  function NewExternalServiceError(service: string, message: string, context: Option<seq<(string, Value)>>,
                                   stack: Option<string>): AppError {
    AppError(ExternalService(service), service + " error: " + message, 502, true, context, stack)
  }

  function NewRateLimitError(message: Option<string>, stack: Option<string>): AppError {
    AppError(RateLimit, message.GetOr("Rate limit exceeded"), 429, true, None, stack)
  }

  /** The errors the constructors above can build: a subclass always carries its class's code
      and is operational. */
  predicate Constructed(e: AppError) {
    match ClassStatus(e.kind)
    case Some(code) => e.statusCode == code && e.isOperational && (e.kind.RateLimit? ==> e.context.None?)
    case None => true
  }

  /** Every subclass constructor builds a `Constructed` error with the code of its class,
      and the message each one promises. */
  lemma SubclassCodes(message: string, service: string, ctx: Option<seq<(string, Value)>>, stack: Option<string>)
    ensures var e := NewValidationError(message, ctx, stack); Constructed(e) && e.statusCode == 400 && e.message == message
    ensures var e := NewNetworkError(message, ctx, stack); Constructed(e) && e.statusCode == 500 && e.message == message
    ensures var e := NewExternalServiceError(service, message, ctx, stack);
            Constructed(e) && e.statusCode == 502 && e.message == service + " error: " + message
    ensures var e := NewRateLimitError(None, stack); Constructed(e) && e.statusCode == 429 && e.message == "Rate limit exceeded"
    ensures var e := NewRateLimitError(Some(message), stack); Constructed(e) && e.message == message
    ensures Constructed(NewAppError(message, None, None, ctx, stack))
  {
  }

  /** `getErrorMessage`: an `Error`'s message, a thrown string itself, or a fixed text. */
  function GetErrorMessage(e: Thrown): (r: string)
    ensures e.App? ==> r == e.app.message
    ensures e.Plain? ==> r == e.message
    ensures e.ThrownString? ==> r == e.text
    ensures e.ThrownOther? ==> r == "An unknown error occurred"
  {
    match e
    case App(a) => a.message
    case Plain(_, m, _, _) => m
    case ThrownString(s) => s
    case ThrownOther(_) => "An unknown error occurred"
  }

  /** `{ ...base, ...extra }`: each entry of `extra`, in order, overrides or extends `base`. */
  function Spread(base: seq<(string, Value)>, extra: seq<(string, Value)>): (r: seq<(string, Value)>)
    requires DistinctKeys(base)
    ensures DistinctKeys(r)
    ensures |r| >= |base| && forall i :: 0 <= i < |base| ==> r[i].0 == base[i].0
    decreases |extra|
  {
    if extra == [] then base
    else Spread(Put(base, extra[0].0, extra[0].1), extra[1..])
  }

  /** A key of the spread object reads as its last value in `extra`, else as in `base`. */
  lemma {:induction false} GetSpread(base: seq<(string, Value)>, extra: seq<(string, Value)>, k: string)
    requires DistinctKeys(base)
    ensures Get(Spread(base, extra), k) == if k in Keys(extra) then LastValue(extra, k) else Get(base, k)
    decreases |extra|
  {
    if extra != [] {
      var b2 := Put(base, extra[0].0, extra[0].1);
      GetSpread(b2, extra[1..], k);
      GetPut(base, extra[0].0, extra[0].1, k);
      assert Keys(extra) == [extra[0].0] + Keys(extra[1..]);
    }
  }

  /** The value of the last entry for `k`. */
  function LastValue(m: seq<(string, Value)>, k: string): Option<Value>
  {
    if m == [] then None
    else if k in Keys(m[1..]) then LastValue(m[1..], k)
    else if m[0].0 == k then Some(m[0].1)
    else None
  }

  /** `getErrorContext`: what gets logged about a thrown value. */
  function GetErrorContext(e: Thrown): (r: seq<(string, Value)>)
    ensures DistinctKeys(r)
    ensures e.App? ==> |r| >= 3 && Keys(r)[..3] == ["name", "statusCode", "isOperational"]
    ensures e.Plain? ==> r == [("name", Str(e.name)), ("stack", if e.stack.Some? then Str(e.stack.value) else Undefined)]
    ensures e.ThrownString? ==> r == [("error", Str(e.text))]
    ensures e.ThrownOther? ==> r == [("error", Str(e.repr))]
  {
    match e
    case App(a) =>
      var base := [("name", Str(Name(a.kind))), ("statusCode", Num(a.statusCode)), ("isOperational", Bool(a.isOperational))];
      var r := Spread(base, a.context.GetOr([]));
      assert Keys(r)[..3] == [r[0].0, r[1].0, r[2].0];
      r
    case Plain(n, _, st, _) => [("name", Str(n)), ("stack", if st.Some? then Str(st.value) else Undefined)]
    case ThrownString(s) => [("error", Str(s))]
    case ThrownOther(s) => [("error", Str(s))]
  }

  /** For an application error the context's own entries win over the three standard ones,
      which keep their values otherwise. */
  lemma AppContextOverrides(a: AppError, k: string)
    ensures var r := GetErrorContext(App(a));
            var ctx := a.context.GetOr([]);
            Get(r, k) == if k in Keys(ctx) then LastValue(ctx, k)
                         else if k == "name" then Some(Str(Name(a.kind)))
                         else if k == "statusCode" then Some(Num(a.statusCode))
                         else if k == "isOperational" then Some(Bool(a.isOperational))
                         else None
  {
    var base := [("name", Str(Name(a.kind))), ("statusCode", Num(a.statusCode)), ("isOperational", Bool(a.isOperational))];
    GetStandard(Str(Name(a.kind)), Num(a.statusCode), Bool(a.isOperational), k);
    GetSpread(base, a.context.GetOr([]), k);
  }

  lemma GetStandard(name: Value, status: Value, operational: Value, k: string)
    ensures var base := [("name", name), ("statusCode", status), ("isOperational", operational)];
            && DistinctKeys(base)
            && Get(base, k) == if k == "name" then Some(name)
                               else if k == "statusCode" then Some(status)
                               else if k == "isOperational" then Some(operational)
                               else None
  {
    var base := [("name", name), ("statusCode", status), ("isOperational", operational)];
    assert base[1..] == [("statusCode", status), ("isOperational", operational)];
    assert base[1..][1..] == [("isOperational", operational)];
  }
}
