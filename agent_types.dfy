/**
 * The records the three agents pass to each other, and the answers of the
 * outside services they call (web search, page fetching and extraction).
 */
module AgentTypes {
  import opened Wrappers

  /** A web source: where it is, what the search said about it, and its text. */
  datatype Source = Source(title: string, url: string, snippet: Option<string>, content: Option<string>)

  /** A source with the analyst's summary and key takeaways (`Source & { … }`). */
  datatype AnalyzedSource = AnalyzedSource(source: Source, summary: string, keyTakeaways: seq<string>)

  /** One outline section: a heading and its bullet points. */
  datatype Section = Section(heading: string, points: seq<string>)

  datatype StrategyOutput = StrategyOutput(
    title: string,
    outline: seq<Section>,
    markdown: string,
    slug: string,
    sources: seq<Source>)

  /** One hit of the web search. */
  datatype SearchResult = SearchResult(title: string, url: string, snippet: Option<string>)

  /** The title and text that content extraction takes out of a fetched page. */
  datatype Extracted = Extracted(title: string, text: string)

  /** `input.model || 'gpt-4o-mini'`. */
  function ModelName(model: Option<string>): (r: string)
    ensures model.Some? && model.value != "" ==> r == model.value
    ensures model.GetOr("") == "" ==> r == "gpt-4o-mini"
  {
    if model.GetOr("") != "" then model.value else "gpt-4o-mini"
  }
}
