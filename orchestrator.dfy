/**
 * `generatePost`: research, then analysis of the research's sources, then the
 * strategy over the analysed sources, with no state of its own and no catch,
 * so any stage's exception is the caller's.
 */
module Orchestrator {
  import opened Wrappers
  import opened Errors
  import opened AgentTypes
  import Researcher
  import Analyst
  import Strategist
  import Text

  /** `OrchestratorInput`; an absent `useLLM` is `undefined`, which is falsy. */
  datatype Input = Input(
    topic: string,
    targetQuestions: seq<string>,
    maxSources: Option<int>,
    audience: Option<string>,
    tone: Option<string>,
    useLLM: Option<bool>,
    model: Option<string>)

  /** Everything the three stages ask of the outside world: search, page fetch, the
      three model calls, whether an API key is configured, today's date and the slug
      function. */
  datatype World = World(
    search: Researcher.Search,
    fetch: Researcher.Fetch,
    analyse: Analyst.Llm,
    plan: Strategist.PlanLlm,
    write: Strategist.WriteLlm,
    hasApiKey: bool,
    date: string,
    makeSlug: string -> string)

  /** The research stage as `generatePost` calls it: `maxSources ?? 6`. */
  function Research(input: Input, w: World): Result<Researcher.Collect, Thrown> {
    Researcher.ResearchSpec(input.topic, Some(input.maxSources.GetOr(6)), w.search, w.fetch)
  }

  /** The stages in order, each fed the previous one's output; the strategy's result is
      returned as it is. */
  function GeneratePost(input: Input, w: World): (r: Result<StrategyOutput, Thrown>)
    ensures Research(input, w).Err? ==> r == Err(Research(input, w).error)
    ensures r.Ok? ==> Research(input, w).Ok?
  {
    match Research(input, w)
    case Err(e) => Err(e)
    case Ok(research) =>
      var useLLM := input.useLLM.GetOr(false);
      var analyzed := Analyst.Analysis(research.sources, useLLM, w.hasApiKey, input.model, w.analyse);
      Strategist.StrategySpec(input.topic, input.targetQuestions, analyzed, input.audience, input.tone,
                              useLLM, w.hasApiKey, input.model, w.date, w.makeSlug, w.plan, w.write)
  }

  /** A post's sources are the research's sources, position by position, cut down to
      title and URL; so there are at most as many as the cap, never more than ten, and
      six when no maximum is given. */
  lemma GeneratePostSources(input: Input, w: World)
    requires GeneratePost(input, w).Ok?
    ensures var out := GeneratePost(input, w).value;
            var research := Research(input, w).value;
            && |out.sources| == |research.sources| <= Researcher.Cap(Some(input.maxSources.GetOr(6))) <= 10
            && (input.maxSources.None? ==> |out.sources| <= 6)
            && forall i :: 0 <= i < |out.sources| ==>
                 out.sources[i] == Source(research.sources[i].title, research.sources[i].url, None, None)
  {
    var research := Research(input, w).value;
    var useLLM := input.useLLM.GetOr(false);
    var analyzed := Analyst.Analysis(research.sources, useLLM, w.hasApiKey, input.model, w.analyse);
    Researcher.ResearchGuarantees(input.topic, Some(input.maxSources.GetOr(6)), w.search, w.fetch);
    Strategist.StrategyProperties(input.topic, input.targetQuestions, analyzed, input.audience, input.tone,
                                  useLLM, w.hasApiKey, input.model, w.date, w.makeSlug, w.plan, w.write);
  }

  /** The post's title counts the target questions, its slug comes from the date and the
      title, and its front matter records the topic, audience and tone as given, with
      the strategy's defaults for the last two. */
  lemma GeneratePostFrontMatter(input: Input, w: World)
    requires GeneratePost(input, w).Ok?
    ensures var out := GeneratePost(input, w).value;
            && out.title == input.topic + ": Answers to " + Text.NatToString(|input.targetQuestions|) + " Key Questions"
            && out.slug == w.makeSlug(w.date + "-" + out.title)
            && Strategist.ReadFrontMatter(out.markdown)
               == Some([("title", out.title), ("date", w.date), ("slug", out.slug), ("topic", input.topic),
                        ("audience", input.audience.GetOr("General tech audience")),
                        ("tone", input.tone.GetOr("Informative and concise"))])
  {
    var research := Research(input, w).value;
    var useLLM := input.useLLM.GetOr(false);
    var analyzed := Analyst.Analysis(research.sources, useLLM, w.hasApiKey, input.model, w.analyse);
    Strategist.StrategyProperties(input.topic, input.targetQuestions, analyzed, input.audience, input.tone,
                                  useLLM, w.hasApiKey, input.model, w.date, w.makeSlug, w.plan, w.write);
    Strategist.StrategyFrontMatter(input.topic, input.targetQuestions, analyzed, input.audience, input.tone,
                                   useLLM, w.hasApiKey, input.model, w.date, w.makeSlug, w.plan, w.write);
  }

  /** Without the model, the post's outline is the heuristic one built from the analysed
      research sources. */
  lemma GeneratePostHeuristic(input: Input, w: World)
    requires GeneratePost(input, w).Ok?
    requires !(input.useLLM.GetOr(false) && w.hasApiKey)
    ensures var research := Research(input, w).value;
            var analyzed := seq(|research.sources|, i requires 0 <= i < |research.sources| => Analyst.Heuristic(research.sources[i]));
            GeneratePost(input, w).value.outline
            == Strategist.HeuristicOutline(input.topic, input.targetQuestions, Strategist.TakeawaysFor(input.targetQuestions, analyzed))
  {
    var research := Research(input, w).value;
    var useLLM := input.useLLM.GetOr(false);
    var analyzed := Analyst.Analysis(research.sources, useLLM, w.hasApiKey, input.model, w.analyse);
    assert analyzed == seq(|research.sources|, i requires 0 <= i < |research.sources| => Analyst.Heuristic(research.sources[i]));
    Strategist.StrategyProperties(input.topic, input.targetQuestions, analyzed, input.audience, input.tone,
                                  useLLM, w.hasApiKey, input.model, w.date, w.makeSlug, w.plan, w.write);
  }
}
