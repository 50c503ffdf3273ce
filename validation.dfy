/**
 * Input checking: the request and slug schemas as predicates, `validateInput`,
 * `sanitizeText`, and the fixed-window rate limiter with its per-identifier
 * table of request counts.
 */
module Validation {
  import opened Wrappers
  import opened Text
  import opened Errors

  // ---------------------------------------------------------------------------
  // Schemas

  predicate IsAsciiLetterOrDigit(c: char) {
    ('a' <= c <= 'z') || ('A' <= c <= 'Z') || ('0' <= c <= '9')
  }

  /** The class `[a-zA-Z0-9\s\-_.,!?]`. */
  predicate TopicChar(c: char) {
    IsAsciiLetterOrDigit(c) || IsSpace(c) || c == '-' || c == '_' || c == '.' || c == ',' || c == '!' || c == '?'
  }

  /** The class `[a-zA-Z0-9\-_.]`. */
  predicate ModelChar(c: char) {
    IsAsciiLetterOrDigit(c) || c == '-' || c == '_' || c == '.'
  }

  /** The class `[a-zA-Z0-9\-_]`. */
  predicate SlugChar(c: char) {
    IsAsciiLetterOrDigit(c) || c == '-' || c == '_'
  }

  /** The body of a generate request, with each field of the type the schema asks for;
      `maxSources` is a JavaScript number. */
  datatype GenerateRequest = GenerateRequest(
    topic: string,
    targetQuestions: seq<string>,
    maxSources: Option<real>,
    audience: Option<string>,
    tone: Option<string>,
    useLLM: Option<bool>,
    model: Option<string>)

  predicate ValidTopic(t: string) {
    3 <= |t| <= 200 && forall i :: 0 <= i < |t| ==> TopicChar(t[i])
  }

  predicate ValidQuestions(qs: seq<string>) {
    1 <= |qs| <= 10 && forall i :: 0 <= i < |qs| ==> 5 <= |qs[i]| <= 500
  }

  predicate IsInteger(x: real) {
    x.Floor as real == x
  }

  predicate ValidMaxSources(m: Option<real>) {
    m.None? || (IsInteger(m.value) && 3.0 <= m.value <= 10.0)
  }

  predicate ValidModel(m: Option<string>) {
    m.None? || (|m.value| >= 1 && forall i :: 0 <= i < |m.value| ==> ModelChar(m.value[i]))
  }

  /** `generateRequestSchema`. */
  predicate ValidRequest(r: GenerateRequest) {
    && ValidTopic(r.topic)
    && ValidQuestions(r.targetQuestions)
    && ValidMaxSources(r.maxSources)
    && (r.audience.None? || |r.audience.value| <= 100)
    && (r.tone.None? || |r.tone.value| <= 100)
    && ValidModel(r.model)
  }

  /** `slugSchema`. */
  predicate ValidSlug(s: string) {
    1 <= |s| <= 200 && forall i :: 0 <= i < |s| ==> SlugChar(s[i])
  }

  /** `validateInput(generateRequestSchema, data, errorMessage)`: the data itself when the
      schema accepts it, otherwise a plain `Error` whose message is the given text, a colon
      and the schema's issues (`describe` renders those). */
  function ValidateInput(r: GenerateRequest, errorMessage: string, describe: GenerateRequest -> string)
    : (res: Result<GenerateRequest, Thrown>)
    ensures res.Ok? <==> ValidRequest(r)
    ensures res.Ok? ==> res.value == r
    ensures res.Err? ==> res.error.Plain? && res.error.status.None?
                         && res.error.message == errorMessage + ": " + describe(r)
  {
    if ValidRequest(r) then Ok(r) else Err(Plain("Error", errorMessage + ": " + describe(r), None, None))
  }

  /** A question count the schema accepts fits the title's "Answers to <n> Key Questions",
      and an accepted `maxSources` is one of the caps the researcher allows. */
  lemma AcceptedBounds(r: GenerateRequest)
    requires ValidRequest(r)
    ensures 1 <= |r.targetQuestions| <= 10
    ensures r.maxSources.Some? ==> var n := r.maxSources.value.Floor; 3 <= n <= 10 && n as real == r.maxSources.value
  {
  }

  // ---------------------------------------------------------------------------
  // `sanitizeText`

  predicate IsAngle(c: char) {
    c == '<' || c == '>'
  }

  /** The class `[\x00-\x1f\x7f-\x9f]`. */
  predicate IsControl(c: char) {
    c as int <= 0x1f || (0x7f <= c as int <= 0x9f)
  }

  /** `s.replace(/[...]/g, '')`: every character of the class goes, the others stay in order. */
  function Remove(s: string, drop: char -> bool): (r: string)
    ensures |r| <= |s|
    ensures forall i :: 0 <= i < |r| ==> !drop(r[i])
    ensures forall c :: c in r <==> c in s && !drop(c)
  {
    if s == [] then []
    else
      var rest := Remove(s[1..], drop);
      assert forall c :: c in s <==> c == s[0] || c in s[1..];
      if drop(s[0]) then rest else [s[0]] + rest
  }

  /** With nothing to remove, `replace` returns the string unchanged. */
  lemma {:induction false} RemoveNothing(s: string, drop: char -> bool)
    requires forall i :: 0 <= i < |s| ==> !drop(s[i])
    ensures Remove(s, drop) == s
  {
    if s != [] {
      assert forall i :: 0 <= i < |s[1..]| ==> s[1..][i] == s[i + 1];
      RemoveNothing(s[1..], drop);
    }
  }

  /** `sanitizeText`. */
  function Sanitize(s: string): string {
    Trim(Remove(Remove(s, IsAngle), IsControl))
  }

  /** The sanitised text holds no angle bracket and no control character, has no whitespace
      at either end, and every character of it comes from the input. */
  lemma SanitizeClean(s: string)
    ensures var r := Sanitize(s);
            && IsTrimmed(r)
            && (forall i :: 0 <= i < |r| ==> !IsAngle(r[i]) && !IsControl(r[i]))
            && (forall c :: c in r ==> c in s)
  {
    var x := Remove(Remove(s, IsAngle), IsControl);
    TrimPiece(x);
    var k := |x| - |TrimStart(x)|;
    forall i | 0 <= i < |Trim(x)| ensures !IsAngle(Trim(x)[i]) && !IsControl(Trim(x)[i]) && Trim(x)[i] in s {
      assert Trim(x)[i] == x[k + i];
      assert x[k + i] in x;
    }
    forall c | c in Trim(x) ensures c in s {
      var i :| 0 <= i < |Trim(x)| && Trim(x)[i] == c;
    }
  }

  /** A text is left unchanged exactly when it is already clean and trimmed. */
  lemma SanitizeFixed(s: string)
    ensures Sanitize(s) == s <==> IsTrimmed(s) && forall i :: 0 <= i < |s| ==> !IsAngle(s[i]) && !IsControl(s[i])
  {
    SanitizeClean(s);
    if IsTrimmed(s) && forall i :: 0 <= i < |s| ==> !IsAngle(s[i]) && !IsControl(s[i]) {
      RemoveNothing(s, IsAngle);
      RemoveNothing(s, IsControl);
      TrimTrimmed(s);
    }
  }

  /** Sanitising twice is sanitising once. */
  lemma SanitizeIdempotent(s: string)
    ensures Sanitize(Sanitize(s)) == Sanitize(s)
  {
    SanitizeClean(s);
    SanitizeFixed(Sanitize(s));
  }

  /** A slug the schema accepts survives sanitising unchanged. */
  lemma SlugSurvivesSanitize(s: string)
    requires ValidSlug(s)
    ensures Sanitize(s) == s
  {
    assert forall i :: 0 <= i < |s| ==> !IsSpace(s[i]) && !IsAngle(s[i]) && !IsControl(s[i]);
    SanitizeFixed(s);
  }

  // ---------------------------------------------------------------------------
  // Rate limiting

  /** One identifier's entry: requests counted in the current window, and when it ends. */
  datatype Window = Window(count: nat, resetTime: int)

  /** `checkRateLimit` on the table `counts` at time `now`: whether the request may go ahead,
      and the table afterwards. */
  function Check(counts: map<string, Window>, id: string, maxRequests: int, windowMs: int, now: int)
    : (map<string, Window>, bool)
  {
    if id !in counts || now > counts[id].resetTime then (counts[id := Window(1, now + windowMs)], true)
    else if counts[id].count >= maxRequests then (counts, false)
    else (counts[id := counts[id].(count := counts[id].count + 1)], true)
  }

  /** Only the caller's entry changes, and a request that is let through is counted. */
  lemma CheckTouchesCaller(counts: map<string, Window>, id: string, maxRequests: int, windowMs: int, now: int)
    ensures var (after, ok) := Check(counts, id, maxRequests, windowMs, now);
            && after.Keys == counts.Keys + {id}
            && (forall k :: k in counts && k != id ==> after[k] == counts[k])
            && (!ok ==> after == counts)
            && (ok && id in counts && now <= counts[id].resetTime ==> after[id].count == counts[id].count + 1)
  {
  }

  /** A sequence of requests from one identifier at the given times, in order. */
  function Run(counts: map<string, Window>, id: string, maxRequests: int, windowMs: int, times: seq<int>)
    : (r: (map<string, Window>, seq<bool>))
    ensures |r.1| == |times|
    decreases |times|
  {
    if times == [] then (counts, [])
    else
      var (after, ok) := Check(counts, id, maxRequests, windowMs, times[0]);
      var (last, oks) := Run(after, id, maxRequests, windowMs, times[1..]);
      (last, [ok] + oks)
  }

  /** Inside one window, the i-th further request goes ahead exactly when the count so far
      plus i is below the limit; the window's end does not move. */
  lemma {:induction false} RunInsideWindow(counts: map<string, Window>, id: string, maxRequests: int, windowMs: int, times: seq<int>)
    requires id in counts
    requires forall i :: 0 <= i < |times| ==> times[i] <= counts[id].resetTime
    ensures var (last, oks) := Run(counts, id, maxRequests, windowMs, times);
            && (forall i :: 0 <= i < |times| ==> (oks[i] <==> counts[id].count + i < maxRequests))
            && id in last && last[id].resetTime == counts[id].resetTime
    decreases |times|
  {
    if times != [] {
      var (after, ok) := Check(counts, id, maxRequests, windowMs, times[0]);
      assert forall i :: 0 <= i < |times[1..]| ==> times[1..][i] == times[i + 1];
      RunInsideWindow(after, id, maxRequests, windowMs, times[1..]);
    }
  }

  /** The generate route's limit of five per minute: of six requests within a minute of a
      first one that opens a new window, the five first go ahead and the sixth is refused. */
  lemma SixthRequestRefused(counts: map<string, Window>, id: string, times: seq<int>)
    requires |times| == 6
    requires id !in counts || times[0] > counts[id].resetTime
    requires forall i :: 1 <= i < 6 ==> times[i] <= times[0] + 60000
    ensures Run(counts, id, 5, 60000, times).1 == [true, true, true, true, true, false]
  {
    var (after, ok) := Check(counts, id, 5, 60000, times[0]);
    assert after[id] == Window(1, times[0] + 60000);
    var rest := times[1..];
    assert forall i :: 0 <= i < |rest| ==> rest[i] == times[i + 1];
    RunInsideWindow(after, id, 5, 60000, rest);
    var oks := Run(after, id, 5, 60000, rest).1;
    assert Run(counts, id, 5, 60000, times).1 == [ok] + oks;
  }

  /** The window's end belongs to the window: a full window still refuses at exactly
      `resetTime`, and a new one opens just after. */
  lemma WindowEndInclusive(counts: map<string, Window>, id: string, maxRequests: int, windowMs: int)
    requires id in counts && counts[id].count >= maxRequests
    ensures !Check(counts, id, maxRequests, windowMs, counts[id].resetTime).1
    ensures var t := counts[id].resetTime + 1;
            Check(counts, id, maxRequests, windowMs, t) == (counts[id := Window(1, t + windowMs)], true)
  {
  }

  /** `getRateLimitInfo`'s result. */
  datatype RateInfo = RateInfo(remaining: int, resetTime: int)

  /** `getRateLimitInfo`: nothing for an unknown identifier; otherwise the requests left under
      a limit of ten, never negative, and the window's end. */
  function Info(counts: map<string, Window>, id: string): (r: Option<RateInfo>)
    ensures r.None? <==> id !in counts
    ensures r.Some? ==> r.value.remaining >= 0 && r.value.resetTime == counts[id].resetTime
  {
    if id !in counts then None
    else Some(RateInfo(if 10 - counts[id].count > 0 then 10 - counts[id].count else 0, counts[id].resetTime))
  }

  /** Under the default limit of ten, inside the window, a request goes ahead exactly when
      `getRateLimitInfo` reports some left, and then one fewer is left. */
  lemma InfoAgreesWithDefaultLimit(counts: map<string, Window>, id: string, windowMs: int, now: int)
    requires id in counts && now <= counts[id].resetTime
    ensures var (after, ok) := Check(counts, id, 10, windowMs, now);
            && (ok <==> Info(counts, id).value.remaining > 0)
            && (ok ==> Info(after, id).value.remaining == Info(counts, id).value.remaining - 1)
  {
  }

  /** The module's `requestCounts` table. */
  class RateLimiter {
    var counts: map<string, Window>

    constructor ()
      ensures counts == map[]
    {
      counts := map[];
    }

    /** `checkRateLimit(identifier, maxRequests, windowMs)` at time `now`. */
    method CheckRateLimit(id: string, maxRequests: int, windowMs: int, now: int) returns (allowed: bool)
      modifies this
      ensures (counts, allowed) == Check(old(counts), id, maxRequests, windowMs, now)
    {
      if id !in counts || now > counts[id].resetTime {
        counts := counts[id := Window(1, now + windowMs)];
        return true;
      }
      var existing := counts[id];
      if existing.count >= maxRequests {
        return false;
      }
      counts := counts[id := existing.(count := existing.count + 1)];
      allowed := true;
    }

    method GetRateLimitInfo(id: string) returns (r: Option<RateInfo>)
      ensures r == Info(counts, id)
    {
      r := Info(counts, id);
    }
  }
}
