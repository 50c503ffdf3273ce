/**
 * The streaming generate route: the looser request schema it parses the body
 * with, the `event:` / `data:` frames its `send` writes (a subset of the
 * text/event-stream format of the WHATWG HTML Living Standard, section 9.2,
 * Server-sent events), and the order of the events it emits while running
 * research, analysis, strategy and the save of the Markdown file.
 */
module StreamRoute {
  import opened Wrappers
  import opened Errors
  import opened Text
  import opened Validation
  import opened AgentTypes
  import Json
  import Researcher
  import Analyst
  import Strategist
  import Orchestrator

  /** The route's own schema: a topic of at least three characters, at least one question
      of at least three characters each, and `maxSources` absent or an integer from 3 to
      10; the other fields are optional strings and a boolean with no further check. */
  predicate StreamAccepts(r: GenerateRequest) {
    && |r.topic| >= 3
    && |r.targetQuestions| >= 1
    && (forall i :: 0 <= i < |r.targetQuestions| ==> |r.targetQuestions[i]| >= 3)
    && ValidMaxSources(r.maxSources)
  }

  /** Everything the generate route's schema accepts, this one accepts too. */
  lemma GenerateSchemaStricter(r: GenerateRequest)
    requires ValidRequest(r)
    ensures StreamAccepts(r)
  {
  }

  /** The converse fails: a three-letter question passes here and not on the generate
      route. */
  lemma StreamSchemaLooser()
    ensures var r := GenerateRequest("abc", ["why"], None, None, None, None, None);
            StreamAccepts(r) && !ValidRequest(r)
  {
    var r := GenerateRequest("abc", ["why"], None, None, None, None, None);
    assert |r.targetQuestions[0]| == 3;
  }

  /** The parsed body handed to the stages: an accepted `maxSources` is an integer. */
  function ToInput(r: GenerateRequest): (input: Orchestrator.Input)
    ensures input.topic == r.topic && input.targetQuestions == r.targetQuestions
    ensures input.audience == r.audience && input.tone == r.tone
    ensures input.useLLM == r.useLLM && input.model == r.model
    ensures input.maxSources.None? <==> r.maxSources.None?
    ensures ValidMaxSources(r.maxSources) && r.maxSources.Some? ==>
              input.maxSources.value as real == r.maxSources.value && 3 <= input.maxSources.value <= 10
  {
    Orchestrator.Input(r.topic, r.targetQuestions,
                       if r.maxSources.Some? then Some(r.maxSources.value.Floor) else None,
                       r.audience, r.tone, r.useLLM, r.model)
  }

  /** One event: its name and its payload, an object whose properties are strings. */
  datatype Event = Event(name: string, payload: seq<(string, string)>)

  function Status(phase: string, message: string): Event {
    Event("status", [("phase", phase), ("message", message)])
  }

  function Done(slug: string, title: string): Event {
    Event("done", [("slug", slug), ("title", title)])
  }

  /** The catch around the stages: an `Error`'s message, anything else `Unknown error`. */
  function ErrorMessage(e: Thrown): (msg: string)
    ensures e.App? ==> msg == e.app.message
    ensures e.Plain? ==> msg == e.message
    ensures e.ThrownString? || e.ThrownOther? ==> msg == "Unknown error"
  {
    match e
    case App(a) => a.message
    case Plain(_, m, _, _) => m
    case _ => "Unknown error"
  }

  function Failure(e: Thrown): Event {
    Event("error", [("message", ErrorMessage(e))])
  }

  /** The first of the two chunks `send` enqueues. */
  function EventLine(name: string): string {
    "event: " + name + "\n"
  }

  /** The second chunk: the payload as JSON and the blank line that ends the frame. */
  function DataLine(payload: seq<(string, string)>): string {
    "data: " + Json.EncodeObject(payload) + "\n\n"
  }

  /** The two chunks of one event. */
  function FrameChunks(e: Event): seq<string> {
    [EventLine(e.name), DataLine(e.payload)]
  }

  /** The chunks enqueued for the events, in order: the two lines of event `i` are the
      chunks at `2i` and `2i + 1`. */
  function Chunks(events: seq<Event>): (r: seq<string>)
    ensures |r| == 2 * |events|
  {
    seq(2 * |events|, i requires 0 <= i < 2 * |events| =>
      if i % 2 == 0 then EventLine(events[i / 2].name) else DataLine(events[i / 2].payload))
  }

  lemma ChunksSnoc(events: seq<Event>, e: Event)
    ensures Chunks(events + [e]) == Chunks(events) + FrameChunks(e)
  {
    var a := Chunks(events + [e]);
    var b := Chunks(events) + FrameChunks(e);
    forall i | 0 <= i < |a| ensures a[i] == b[i] {
      if i < 2 * |events| {
        assert (events + [e])[i / 2] == events[i / 2];
      }
    }
  }

  /** The stage messages; the ellipsis is U+2026. */
  const StartingResearch := "Starting research\U{2026}"
  const AnalyzingSources := "Analyzing sources\U{2026}"
  const DraftingPost := "Drafting post\U{2026}"
  const SavingMarkdown := "Saving markdown\U{2026}"

  function Found(n: nat): string {
    "Found " + NatToString(n) + " sources"
  }

  function Analyzed(n: nat): string {
    "Analyzed " + NatToString(n) + " sources"
  }

  /** `mkdir` of `content/posts` and `writeFile` of the Markdown under the given file
      name: `None` when both succeed, otherwise what they threw. */
  type Save = (string, string) -> Option<Thrown>

  /** The six statuses of a complete run, given the number of sources found and analysed. */
  function Statuses(found: nat, analyzed: nat): (r: seq<Event>)
    ensures |r| == 6
  {
    [Status("research", StartingResearch), Status("research", Found(found)),
     Status("analysis", AnalyzingSources), Status("analysis", Analyzed(analyzed)),
     Status("strategy", DraftingPost), Status("save", SavingMarkdown)]
  }

  /** The first `reached` statuses, then the event that ends the stream. */
  function Trail(found: nat, analyzed: nat, reached: nat, last: Event): (r: seq<Event>)
    requires 1 <= reached <= 6
    ensures |r| == reached + 1
  {
    Statuses(found, analyzed)[..reached] + [last]
  }

  /** The phases of the six statuses of a complete run. */
  const Phases: seq<string> := ["research", "research", "analysis", "analysis", "strategy", "save"]

  /** The event's payload starts with the given `phase`. */
  predicate PhaseIs(e: Event, phase: string) {
    |e.payload| > 0 && e.payload[0] == ("phase", phase)
  }

  /** Before its last event, a trail holds only statuses, of the phases in their fixed
      order. */
  lemma TrailStatuses(found: nat, analyzed: nat, reached: nat, last: Event)
    requires 1 <= reached <= 6
    ensures var t := Trail(found, analyzed, reached, last);
            && t[reached] == last
            && (forall i :: 0 <= i < reached ==> t[i].name == "status" && PhaseIs(t[i], Phases[i]))
            && (reached >= 2 ==> t[1] == Status("research", Found(found)))
            && (reached >= 4 ==> t[3] == Status("analysis", Analyzed(analyzed)))
  {
    var t := Trail(found, analyzed, reached, last);
    var s := Statuses(found, analyzed);
    assert forall i :: 0 <= i < reached ==> t[i] == s[i];
    assert s[0].payload[0] == ("phase", Phases[0]);
    assert s[1].payload[0] == ("phase", Phases[1]);
    assert s[2].payload[0] == ("phase", Phases[2]);
    assert s[3].payload[0] == ("phase", Phases[3]);
    assert s[4].payload[0] == ("phase", Phases[4]);
    assert s[5].payload[0] == ("phase", Phases[5]);
  }

  /** The last event once the post is drafted: `done` with its slug and title when the
      Markdown is saved as `<slug>.md`, else the error. */
  function Outcome(out: StrategyOutput, save: Save): Event {
    match save(out.slug + ".md", out.markdown)
    case Some(e) => Failure(e)
    case None => Done(out.slug, out.title)
  }

  lemma OutcomeDone(out: StrategyOutput, save: Save)
    requires save(out.slug + ".md", out.markdown).None?
    ensures Outcome(out, save) == Done(out.slug, out.title)
  {
  }

  /** The events emitted for an accepted request, in order. After the first status the
      research runs (`maxSources ?? 6`), and its failure is reported at once; analysis
      cannot fail; after the fifth status the strategy runs, after the sixth the file is
      saved, and the last event is `done` or `error`. */
  function StreamEvents(input: Orchestrator.Input, w: Orchestrator.World, save: Save): seq<Event> {
    match Orchestrator.Research(input, w)
    case Err(e) => Trail(0, 0, 1, Failure(e))
    case Ok(research) => AfterResearch(input, w, save, research.sources)
  }

  /** The events of a run whose research found the given sources. */
  function AfterResearch(input: Orchestrator.Input, w: Orchestrator.World, save: Save, sources: seq<Source>): seq<Event> {
    var useLLM := input.useLLM.GetOr(false);
    var analyzed := Analyst.Analysis(sources, useLLM, w.hasApiKey, input.model, w.analyse);
    Ending(|sources|, |analyzed|,
           Strategist.StrategySpec(input.topic, input.targetQuestions, analyzed, input.audience, input.tone,
                                   useLLM, w.hasApiKey, input.model, w.date, w.makeSlug, w.plan, w.write),
           save)
  }

  /** The events once the strategy has run: its error after five statuses, or the sixth
      status and the outcome of the save. */
  function Ending(found: nat, analyzed: nat, strategy: Result<StrategyOutput, Thrown>, save: Save): seq<Event> {
    match strategy
    case Err(e) => Trail(found, analyzed, 5, Failure(e))
    case Ok(out) => Trail(found, analyzed, 6, Outcome(out, save))
  }

  /** Every event but the last is a status, of the phases in their fixed order; the last
      is `done` or `error`, so exactly one of those ends every stream. */
  lemma EventOrder(input: Orchestrator.Input, w: Orchestrator.World, save: Save)
    ensures var ev := StreamEvents(input, w, save);
            && 2 <= |ev| <= 7
            && (forall i :: 0 <= i < |ev| - 1 ==> ev[i].name == "status" && PhaseIs(ev[i], Phases[i]))
            && (ev[|ev| - 1].name == "done" || ev[|ev| - 1].name == "error")
  {
    var ev := StreamEvents(input, w, save);
    match Orchestrator.Research(input, w)
    case Err(e) =>
      TrailStatuses(0, 0, 1, Failure(e));
    case Ok(research) =>
      var useLLM := input.useLLM.GetOr(false);
      var analyzed := Analyst.Analysis(research.sources, useLLM, w.hasApiKey, input.model, w.analyse);
      var n := |research.sources|;
      match Strategist.StrategySpec(input.topic, input.targetQuestions, analyzed, input.audience, input.tone,
                                    useLLM, w.hasApiKey, input.model, w.date, w.makeSlug, w.plan, w.write)
      case Err(e) =>
        TrailStatuses(n, |analyzed|, 5, Failure(e));
      case Ok(out) =>
        TrailStatuses(n, |analyzed|, 6, Outcome(out, save));
  }

  /** The stream runs the stages of `generatePost`: when that throws, the last event is
      the error with the thrown value's message; when it succeeds, the stream reaches the
      save, and ends with `done` and the post's slug and title exactly when the file is
      written. */
  lemma StreamMatchesGeneratePost(input: Orchestrator.Input, w: Orchestrator.World, save: Save)
    ensures var ev := StreamEvents(input, w, save);
            var g := Orchestrator.GeneratePost(input, w);
            && (g.Err? ==> ev[|ev| - 1] == Failure(g.error) && |ev| <= 6)
            && (g.Ok? ==> |ev| == 7 && ev[6] == Outcome(g.value, save))
            && (ev[|ev| - 1].name == "done" <==> g.Ok? && save(g.value.slug + ".md", g.value.markdown).None?)
  {
    match Orchestrator.Research(input, w)
    case Err(e) =>
      TrailStatuses(0, 0, 1, Failure(e));
    case Ok(research) =>
      var useLLM := input.useLLM.GetOr(false);
      var analyzed := Analyst.Analysis(research.sources, useLLM, w.hasApiKey, input.model, w.analyse);
      var n := |research.sources|;
      match Strategist.StrategySpec(input.topic, input.targetQuestions, analyzed, input.audience, input.tone,
                                    useLLM, w.hasApiKey, input.model, w.date, w.makeSlug, w.plan, w.write)
      case Err(e) =>
        TrailStatuses(n, |analyzed|, 5, Failure(e));
      case Ok(out) =>
        TrailStatuses(n, |analyzed|, 6, Outcome(out, save));
  }

  /** Once research succeeds, the second and fourth statuses report the number of sources
      found, the same number both times, which is at most ten, at most six without a
      `maxSources`, and at most an accepted `maxSources`. */
  lemma SourceCounts(input: Orchestrator.Input, w: Orchestrator.World, save: Save)
    requires Orchestrator.Research(input, w).Ok?
    ensures var n := |Orchestrator.Research(input, w).value.sources|;
            var ev := StreamEvents(input, w, save);
            && |ev| >= 6
            && ev[1] == Status("research", Found(n))
            && ev[3] == Status("analysis", Analyzed(n))
            && n <= 10
            && (input.maxSources.None? ==> n <= 6)
            && (input.maxSources.Some? && 1 <= input.maxSources.value <= 10 ==> n <= input.maxSources.value)
  {
    Researcher.ResearchGuarantees(input.topic, Some(input.maxSources.GetOr(6)), w.search, w.fetch);
    var research := Orchestrator.Research(input, w).value;
    var n := |research.sources|;
    var useLLM := input.useLLM.GetOr(false);
    var analyzed := Analyst.Analysis(research.sources, useLLM, w.hasApiKey, input.model, w.analyse);
    match Strategist.StrategySpec(input.topic, input.targetQuestions, analyzed, input.audience, input.tone,
                                  useLLM, w.hasApiKey, input.model, w.date, w.makeSlug, w.plan, w.write)
    case Err(e) =>
      TrailStatuses(n, |analyzed|, 5, Failure(e));
    case Ok(out) =>
      TrailStatuses(n, |analyzed|, 6, Outcome(out, save));
  }

  /** The route's answer: a 400 JSON body when the body is not JSON (`Err` with the parse
      error's message) or the schema refuses it, else the event stream. */
  datatype Response =
    | Streamed(headers: seq<(string, string)>, events: seq<Event>)
    | Rejected(status: int, headers: seq<(string, string)>, body: string)

  const StreamHeaders: seq<(string, string)> :=
    [("content-type", "text/event-stream"), ("cache-control", "no-cache, no-transform"),
     ("connection", "keep-alive"), ("access-control-allow-origin", "*")]

  /** `JSON.stringify({ ok: false, error: msg })`. */
  function RejectBody(msg: string): string {
    "{\"ok\":false,\"error\":" + Json.Quote(msg) + "}"
  }

  /** `POST`, with `describe` rendering the schema's issues as the `ZodError`'s message. */
  function Post(body: Result<GenerateRequest, string>, describe: GenerateRequest -> string,
                w: Orchestrator.World, save: Save): (r: Response)
    ensures r.Streamed? <==> body.Ok? && StreamAccepts(body.value)
    ensures r.Rejected? ==> r.status == 400 && r.headers == [("content-type", "application/json")]
    ensures body.Err? ==> r.Rejected? && r.body == RejectBody(body.error)
    ensures body.Ok? && !StreamAccepts(body.value) ==> r.Rejected? && r.body == RejectBody(describe(body.value))
  {
    match body
    case Err(msg) => Rejected(400, [("content-type", "application/json")], RejectBody(msg))
    case Ok(data) =>
      if !StreamAccepts(data) then Rejected(400, [("content-type", "application/json")], RejectBody(describe(data)))
      else Streamed(StreamHeaders, StreamEvents(ToInput(data), w, save))
  }

  /** An accepted request is streamed, and the stream of every accepted request ends in
      exactly one `done` or `error` after the statuses. */
  lemma AcceptedStreams(body: Result<GenerateRequest, string>, describe: GenerateRequest -> string,
                        w: Orchestrator.World, save: Save)
    requires body.Ok? && StreamAccepts(body.value)
    ensures var r := Post(body, describe, w, save);
            r.Streamed? && r.headers == StreamHeaders && |r.events| >= 2
            && (forall i :: 0 <= i < |r.events| - 1 ==> r.events[i].name == "status")
            && (r.events[|r.events| - 1].name == "done" || r.events[|r.events| - 1].name == "error")
  {
    EventOrder(ToInput(body.value), w, save);
  }

  /** `ReadableStreamDefaultController`: what has been enqueued, and whether the stream is
      closed. */
  class Controller {
    var chunks: seq<string>
    var closed: bool

    constructor ()
      ensures chunks == [] && !closed
    {
      chunks := [];
      closed := false;
    }

    method Enqueue(chunk: string)
      requires !closed
      modifies this
      ensures chunks == old(chunks) + [chunk] && !closed
    {
      chunks := chunks + [chunk];
    }

    method Close()
      requires !closed
      modifies this
      ensures chunks == old(chunks) && closed
    {
      closed := true;
    }
  }

  /** `send`: the event line, then the data line. */
  method Send(c: Controller, e: Event)
    requires !c.closed
    modifies c
    ensures c.chunks == old(c.chunks) + FrameChunks(e) && !c.closed
  {
    c.Enqueue(EventLine(e.name));
    c.Enqueue(DataLine(e.payload));
  }

  lemma PrefixSnoc<T>(s: seq<T>, k: nat)
    requires k < |s|
    ensures s[..k + 1] == s[..k] + [s[k]]
  {
  }

  /** `send` of the status at position `k` of a run, after the ones before it. */
  method SendNext(c: Controller, found: nat, analyzed: nat, k: nat, e: Event)
    requires k < 6 && e == Statuses(found, analyzed)[k]
    requires !c.closed && c.chunks == Chunks(Statuses(found, analyzed)[..k])
    modifies c
    ensures !c.closed && c.chunks == Chunks(Statuses(found, analyzed)[..k + 1])
  {
    ghost var before := Statuses(found, analyzed)[..k];
    Send(c, e);
    ChunksSnoc(before, e);
    PrefixSnoc(Statuses(found, analyzed), k);
  }

  /** `send` of the event that ends the stream, then `close`. */
  method Finish(c: Controller, found: nat, analyzed: nat, k: nat, e: Event)
    requires 1 <= k <= 6
    requires !c.closed && c.chunks == Chunks(Statuses(found, analyzed)[..k])
    modifies c
    ensures c.closed && c.chunks == Chunks(Trail(found, analyzed, k, e))
  {
    Send(c, e);
    ChunksSnoc(Statuses(found, analyzed)[..k], e);
    c.Close();
  }

  /** The first status does not depend on the counts. */
  lemma OpeningStatus(found: nat, analyzed: nat)
    ensures Statuses(found, analyzed)[..1] == Statuses(0, 0)[..1]
  {
  }

  /** The stream's `start`: the stages run one after the other with a status before each and
      after the first two; any exception is sent as the one error event, and the stream is
      closed on either path. */
  method Start(c: Controller, input: Orchestrator.Input, w: Orchestrator.World, save: Save)
    requires c.chunks == [] && !c.closed
    modifies c
    ensures c.chunks == Chunks(StreamEvents(input, w, save)) && c.closed
  {
    SendNext(c, 0, 0, 0, Status("research", StartingResearch));
    var research := Researcher.RunResearch(input.topic, Some(input.maxSources.GetOr(6)), w.search, w.fetch);
    assert research == Orchestrator.Research(input, w);
    if research.Err? {
      Finish(c, 0, 0, 1, Failure(research.error));
      assert StreamEvents(input, w, save) == Trail(0, 0, 1, Failure(research.error));
      return;
    }
    Draft(c, input, w, save, research.value.sources);
  }

  /** `start` after the research: the analysis and the strategy, with their statuses. */
  method Draft(c: Controller, input: Orchestrator.Input, w: Orchestrator.World, save: Save, sources: seq<Source>)
    requires !c.closed && c.chunks == Chunks(Statuses(0, 0)[..1])
    modifies c
    ensures c.closed && c.chunks == Chunks(AfterResearch(input, w, save, sources))
  {
    var n := |sources|;
    OpeningStatus(n, n);
    SendNext(c, n, n, 1, Status("research", Found(|sources|)));
    SendNext(c, n, n, 2, Status("analysis", AnalyzingSources));
    var useLLM := input.useLLM.GetOr(false);
    var analyzed := Analyst.RunAnalysis(sources, useLLM, w.hasApiKey, input.model, w.analyse);
    assert |analyzed| == n;
    Strategize(c, input, w, save, n, analyzed);
  }

  /** `start` after the analysis: its status, the strategy and the rest. */
  method Strategize(c: Controller, input: Orchestrator.Input, w: Orchestrator.World, save: Save, n: nat,
                    analyzed: seq<AnalyzedSource>)
    requires |analyzed| == n
    requires !c.closed && c.chunks == Chunks(Statuses(n, n)[..3])
    modifies c
    ensures c.closed
    ensures c.chunks == Chunks(Ending(n, n, Strategist.StrategySpec(input.topic, input.targetQuestions, analyzed,
                                 input.audience, input.tone, input.useLLM.GetOr(false), w.hasApiKey, input.model,
                                 w.date, w.makeSlug, w.plan, w.write), save))
  {
    SendNext(c, n, n, 3, Status("analysis", Analyzed(|analyzed|)));
    SendNext(c, n, n, 4, Status("strategy", DraftingPost));
    var strategy := Strategist.RunStrategy(input.topic, input.targetQuestions, analyzed, input.audience, input.tone,
                                           input.useLLM.GetOr(false), w.hasApiKey, input.model, w.date, w.makeSlug,
                                           w.plan, w.write);
    Conclude(c, n, strategy, save);
  }

  /** The rest of `start` once the strategy has run: its error, or the save and its
      outcome; then `close`. */
  method Conclude(c: Controller, n: nat, strategy: Result<StrategyOutput, Thrown>, save: Save)
    requires !c.closed && c.chunks == Chunks(Statuses(n, n)[..5])
    modifies c
    ensures c.closed && c.chunks == Chunks(Ending(n, n, strategy, save))
  {
    if strategy.Err? {
      Finish(c, n, n, 5, Failure(strategy.error));
      assert Ending(n, n, strategy, save) == Trail(n, n, 5, Failure(strategy.error));
      return;
    }
    SendNext(c, n, n, 5, Status("save", SavingMarkdown));
    var saved := save(strategy.value.slug + ".md", strategy.value.markdown);
    ghost var ending := Ending(n, n, strategy, save);
    assert ending == Trail(n, n, 6, Outcome(strategy.value, save));
    if saved.Some? {
      assert Outcome(strategy.value, save) == Failure(saved.value);
      Finish(c, n, n, 6, Failure(saved.value));
    } else {
      OutcomeDone(strategy.value, save);
      Finish(c, n, n, 6, Done(strategy.value.slug, strategy.value.title));
    }
  }
}
