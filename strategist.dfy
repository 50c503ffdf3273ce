/**
 * The strategist agent: the post title, the slug, the heuristic outline, the
 * Markdown rendering with its front matter, and the optional rewrites of the
 * outline and the body by a language model. The date, the slug maker and the
 * model are parameters.
 */
module Strategist {
  import opened Wrappers
  import opened Text
  import opened Json
  import opened Errors
  import opened AgentTypes

  const DefaultAudience := "General tech audience"
  const DefaultTone := "Informative and concise"

  /** The opening section of every heuristic outline. */
  function Intro(topic: string): Section {
    Section("Introduction to " + topic, ["Why " + topic + " matters", "What this post covers"])
  }

  const Conclusion := Section("Conclusion", ["Key takeaways", "Next steps and further reading"])

  /** `targetQuestions.map((_, i) => analyzed[i]?.keyTakeaways || [])`: positional pairing. */
  function TakeawaysFor(questions: seq<string>, analyzed: seq<AnalyzedSource>): (r: seq<seq<string>>)
    ensures |r| == |questions|
    ensures forall i :: 0 <= i < |questions| ==> r[i] == if i < |analyzed| then analyzed[i].keyTakeaways else []
  {
    seq(|questions|, i requires 0 <= i < |questions| => if i < |analyzed| then analyzed[i].keyTakeaways else [])
  }

  /** The section for question `i`: the question and at most five of its takeaways. */
  function QuestionSection(questions: seq<string>, takeaways: seq<seq<string>>, i: nat): Section
    requires i < |questions|
  {
    Section(questions[i], if i < |takeaways| then Take(takeaways[i], 5) else [])
  }

  /** The outline `buildOutline` produces. */
  function HeuristicOutline(topic: string, questions: seq<string>, takeaways: seq<seq<string>>): seq<Section> {
    [Intro(topic)]
    + seq(|questions|, i requires 0 <= i < |questions| => QuestionSection(questions, takeaways, i))
    + [Conclusion]
  }

  /** `buildOutline`: pushes the introduction, one section per question, and the conclusion. */
  method BuildOutline(topic: string, questions: seq<string>, takeaways: seq<seq<string>>) returns (outline: seq<Section>)
    ensures outline == HeuristicOutline(topic, questions, takeaways)
  {
    outline := [Intro(topic)];
    for i := 0 to |questions|
      invariant |outline| == i + 1 && outline[0] == Intro(topic)
      invariant forall j :: 0 <= j < i ==> outline[j + 1] == QuestionSection(questions, takeaways, j)
    {
      outline := outline + [QuestionSection(questions, takeaways, i)];
    }
    outline := outline + [Conclusion];
  }

  /** The heuristic outline has `n + 2` sections: the introduction, then the questions in
      order, each with the first five takeaways of the source at the same position (none when
      there is no such source), then the conclusion. */
  lemma OutlineLayout(topic: string, questions: seq<string>, analyzed: seq<AnalyzedSource>)
    ensures var o := HeuristicOutline(topic, questions, TakeawaysFor(questions, analyzed));
            && |o| == |questions| + 2
            && o[0].heading == "Introduction to " + topic
            && o[|questions| + 1] == Section("Conclusion", ["Key takeaways", "Next steps and further reading"])
            && forall i :: 0 <= i < |questions| ==>
                 && o[i + 1].heading == questions[i]
                 && |o[i + 1].points| <= 5
                 && o[i + 1].points == if i < |analyzed| then Take(analyzed[i].keyTakeaways, 5) else []
  {
    var tk := TakeawaysFor(questions, analyzed);
    var o := HeuristicOutline(topic, questions, tk);
    forall i | 0 <= i < |questions|
      ensures o[i + 1] == QuestionSection(questions, tk, i)
    {
    }
  }

  /** `${topic}: Answers to ${targetQuestions.length} Key Questions`. */
  function Title(topic: string, questions: seq<string>): string {
    topic + ": Answers to " + NatToString(|questions|) + " Key Questions"
  }

  /** The title names the question count in decimal, read back by its digits. */
  lemma TitleCount(topic: string, questions: seq<string>)
    ensures var t := Title(topic, questions);
            && StartsWith(t, topic + ": Answers to ")
            && var digits := t[|topic| + 13..|t| - 14];
               && (forall i :: 0 <= i < |digits| ==> IsDigit(digits[i]))
               && DigitsValue(digits) == |questions|
  {
    var t := Title(topic, questions);
    var n := NatToString(|questions|);
    assert t == (topic + ": Answers to ") + n + " Key Questions";
    assert t[..|topic| + 13] == topic + ": Answers to ";
    assert t[|topic| + 13..|t| - 14] == n;
    NatToStringValue(|questions|);
  }

  /** One front-matter line: `${k}: ${JSON.stringify(v)}`. */
  function EntryLine(e: (string, string)): string {
    e.0 + ": " + Quote(e.1)
  }

  /** The entry lines and the closing fence. */
  function EntryLines(fm: seq<(string, string)>): (r: seq<string>)
    ensures |r| == |fm| + 1 && r[|fm|] == "---"
    ensures forall i :: 0 <= i < |fm| ==> r[i] == EntryLine(fm[i])
  {
    if fm == [] then ["---"] else [EntryLine(fm[0])] + EntryLines(fm[1..])
  }

  /** The front matter's lines, fences included: `['---', ...entries, '---']`. */
  function FrontMatterLines(fm: seq<(string, string)>): (r: seq<string>)
    ensures |r| == |fm| + 2 && r[0] == "---" && r[|r| - 1] == "---"
    ensures forall i :: 0 <= i < |fm| ==> r[i + 1] == EntryLine(fm[i])
  {
    ["---"] + EntryLines(fm)
  }

  /** The front matter of a post, in the order title, date, slug, topic, audience, tone. */
  function FrontMatter(title: string, date: string, slug: string, topic: string, audience: string, tone: string): seq<(string, string)> {
    [("title", title), ("date", date), ("slug", slug), ("topic", topic), ("audience", audience), ("tone", tone)]
  }

  /** The body's lines for one section: its heading, a bullet per point, a blank line. */
  function SectionLines(sec: Section): seq<string> {
    ["## " + sec.heading] + seq(|sec.points|, i requires 0 <= i < |sec.points| => "- " + sec.points[i]) + [""]
  }

  function OutlineLines(outline: seq<Section>): seq<string> {
    if outline == [] then [] else SectionLines(outline[0]) + OutlineLines(outline[1..])
  }

  /** One line per source: `- [title](url)`. */
  function SourceLines(sources: seq<(string, string)>): (r: seq<string>)
    ensures |r| == |sources|
  {
    seq(|sources|, i requires 0 <= i < |sources| => "- [" + sources[i].0 + "](" + sources[i].1 + ")")
  }

  function BodyLines(title: string, outline: seq<Section>, sources: seq<(string, string)>): seq<string> {
    ["# " + title, ""] + OutlineLines(outline) + ["## Sources"] + SourceLines(sources) + [""]
  }

  /** `toMarkdown`: the front matter, a blank line, then the body. */
  function ToMarkdown(title: string, outline: seq<Section>, sources: seq<(string, string)>, fm: seq<(string, string)>): string {
    Join(FrontMatterLines(fm), "\n") + "\n\n" + Join(BodyLines(title, outline, sources), "\n")
  }

  /** The Markdown written from the model's body: the same front matter, a blank line, and
      the trimmed body. */
  function LlmMarkdown(fm: seq<(string, string)>, body: string): string {
    Join(FrontMatterLines(fm) + ["", Trim(body)], "\n")
  }

  /** A front-matter line `key: "…"` read back: the key up to the first colon, then a space
      and one JSON string literal. */
  function ReadEntry(line: string): Option<(string, string)> {
    var key := Split(line, ':')[0];
    if |key| + 2 > |line| || line[|key|..|key| + 2] != ": " then None
    else
      match ParseString(line[|key| + 2..])
      case None => None
      case Some(v) => Some((key, v))
  }

  function ReadEntries(lines: seq<string>): Option<seq<(string, string)>> {
    if lines == [] then None
    else if lines[0] == "---" then Some([])
    else
      match ReadEntry(lines[0])
      case None => None
      case Some(e) =>
        match ReadEntries(lines[1..])
        case None => None
        case Some(es) => Some([e] + es)
  }

  /** Reading a post's front matter: the entries between the opening `---` line and the
      next `---` line. */
  function ReadFrontMatter(markdown: string): Option<seq<(string, string)>> {
    var lines := Split(markdown, '\n');
    if lines[0] != "---" then None else ReadEntries(lines[1..])
  }

  /** Keys the reader can find again: no colon and no line break. */
  predicate PlainKeys(fm: seq<(string, string)>) {
    forall i :: 0 <= i < |fm| ==> ':' !in fm[i].0 && '\n' !in fm[i].0
  }

  lemma EntryLineNoBreak(e: (string, string))
    requires '\n' !in e.0
    ensures '\n' !in EntryLine(e) && EntryLine(e) != "---"
  {
    QuoteNoControl(e.1);
    var q := Quote(e.1);
    assert EntryLine(e) == e.0 + ": " + q;
    assert forall i :: 0 <= i < |q| ==> q[i] != '\n';
    assert EntryLine(e)[|EntryLine(e)| - 1] == '"';
  }

  lemma ReadEntryLine(e: (string, string))
    requires ':' !in e.0
    ensures ReadEntry(EntryLine(e)) == Some(e)
  {
    var line := EntryLine(e);
    assert ": " == [':'] + " ";
    ConcatAssoc(e.0, [':'], " ");
    ConcatAssoc(e.0 + [':'], " ", Quote(e.1));
    SplitConcat(e.0, ':', " " + Quote(e.1));
    assert line[|e.0| + 2..] == Quote(e.1);
    ParseStringQuote(e.1);
  }

  lemma ReadEntriesCons(line: string, e: (string, string), tail: seq<string>, es: seq<(string, string)>)
    requires line != "---" && ReadEntry(line) == Some(e) && ReadEntries(tail) == Some(es)
    ensures ReadEntries([line] + tail) == Some([e] + es)
  {
    assert ([line] + tail)[0] == line && ([line] + tail)[1..] == tail;
  }

  lemma PlainKeysTail(fm: seq<(string, string)>)
    requires fm != [] && PlainKeys(fm)
    ensures PlainKeys(fm[1..]) && ':' !in fm[0].0 && '\n' !in fm[0].0
  {
    assert forall i :: 0 <= i < |fm[1..]| ==> fm[1..][i] == fm[i + 1];
  }

  lemma EntryLinesCons(fm: seq<(string, string)>, rest: seq<string>)
    requires fm != []
    ensures EntryLines(fm) + rest == [EntryLine(fm[0])] + (EntryLines(fm[1..]) + rest)
    ensures [fm[0]] + fm[1..] == fm
  {
    ConcatAssoc([EntryLine(fm[0])], EntryLines(fm[1..]), rest);
  }

  lemma {:induction false} ReadEntriesLines(fm: seq<(string, string)>, rest: seq<string>)
    requires PlainKeys(fm)
    ensures ReadEntries(EntryLines(fm) + rest) == Some(fm)
    decreases |fm|
  {
    if fm == [] {
      assert (EntryLines(fm) + rest)[0] == "---";
    } else {
      ReadEntryLine(fm[0]);
      EntryLineNoBreak(fm[0]);
      PlainKeysTail(fm);
      ReadEntriesLines(fm[1..], rest);
      ReadEntriesCons(EntryLine(fm[0]), fm[0], EntryLines(fm[1..]) + rest, fm[1..]);
      EntryLinesCons(fm, rest);
    }
  }

  lemma LinesNoBreak(fm: seq<(string, string)>)
    requires PlainKeys(fm)
    ensures forall i :: 0 <= i < |FrontMatterLines(fm)| ==> '\n' !in FrontMatterLines(fm)[i]
  {
    var lines := FrontMatterLines(fm);
    forall i | 0 <= i < |lines| ensures '\n' !in lines[i] {
      if 0 < i < |lines| - 1 {
        EntryLineNoBreak(fm[i - 1]);
      }
    }
  }

  /** Whatever follows a front matter and a line break, the front matter reads back as
      written, values unchanged: string values are JSON-escaped, so none breaks a line. */
  lemma FrontMatterRoundTrip(fm: seq<(string, string)>, more: string)
    requires PlainKeys(fm)
    ensures ReadFrontMatter(Join(FrontMatterLines(fm), "\n") + "\n" + more) == Some(fm)
  {
    var lines := FrontMatterLines(fm);
    LinesNoBreak(fm);
    SplitJoinMore(lines, '\n', more);
    var all := Split(Join(lines, "\n") + "\n" + more, '\n');
    TailOfLines(fm, Split(more, '\n'), all);
    ReadEntriesLines(fm, Split(more, '\n'));
  }

  lemma TailOfLines(fm: seq<(string, string)>, rest: seq<string>, all: seq<string>)
    requires all == FrontMatterLines(fm) + rest
    ensures all[0] == "---" && all[1..] == EntryLines(fm) + rest
  {
    ConcatAssoc(["---"], EntryLines(fm), rest);
  }

  lemma BreakShape(f: string, b: string)
    ensures f + "\n\n" + b == f + "\n" + ("\n" + b)
  {
    assert "\n\n" == "\n" + "\n";
    ConcatAssoc(f, "\n", "\n");
    ConcatAssoc(f + "\n", "\n", b);
  }

  /** The heuristic rendering carries the front matter that reads back as written. */
  lemma MarkdownFrontMatter(title: string, outline: seq<Section>, sources: seq<(string, string)>, fm: seq<(string, string)>)
    requires PlainKeys(fm)
    ensures ReadFrontMatter(ToMarkdown(title, outline, sources, fm)) == Some(fm)
  {
    var f := Join(FrontMatterLines(fm), "\n");
    var b := Join(BodyLines(title, outline, sources), "\n");
    BreakShape(f, b);
    FrontMatterRoundTrip(fm, "\n" + b);
  }

  /** The title, the headings, the points and the source titles and urls hold no line
      break. */
  predicate PlainBody(title: string, outline: seq<Section>, sources: seq<(string, string)>) {
    && '\n' !in title
    && (forall i :: 0 <= i < |outline| ==> PlainSection(outline[i]))
    && (forall i :: 0 <= i < |sources| ==> '\n' !in sources[i].0 && '\n' !in sources[i].1)
  }

  predicate PlainSection(sec: Section) {
    '\n' !in sec.heading && forall j :: 0 <= j < |sec.points| ==> '\n' !in sec.points[j]
  }

  lemma SectionNoBreak(sec: Section)
    requires PlainSection(sec)
    ensures forall k :: 0 <= k < |SectionLines(sec)| ==> '\n' !in SectionLines(sec)[k]
  {
    var lines := SectionLines(sec);
    forall k | 0 <= k < |lines| ensures '\n' !in lines[k] {
      if k == 0 {
        assert lines[k] == "## " + sec.heading;
      } else if k <= |sec.points| {
        assert lines[k] == "- " + sec.points[k - 1];
      } else {
        assert lines[k] == "";
      }
    }
  }

  lemma {:induction false} OutlineNoBreak(outline: seq<Section>)
    requires forall i :: 0 <= i < |outline| ==> PlainSection(outline[i])
    ensures forall k :: 0 <= k < |OutlineLines(outline)| ==> '\n' !in OutlineLines(outline)[k]
    decreases |outline|
  {
    if outline != [] {
      var tail := outline[1..];
      assert forall i :: 0 <= i < |tail| ==> tail[i] == outline[i + 1];
      OutlineNoBreak(tail);
      SectionNoBreak(outline[0]);
    }
  }

  lemma BodyNoBreak(title: string, outline: seq<Section>, sources: seq<(string, string)>)
    requires PlainBody(title, outline, sources)
    ensures var lines := BodyLines(title, outline, sources);
      lines != [] && forall k :: 0 <= k < |lines| ==> '\n' !in lines[k]
  {
    var head := ["# " + title, ""];
    var sections := OutlineLines(outline);
    var refs := SourceLines(sources);
    var lines := BodyLines(title, outline, sources);
    OutlineNoBreak(outline);
    assert lines == head + sections + ["## Sources"] + refs + [""];
    forall k | 0 <= k < |lines| ensures '\n' !in lines[k] {
      if k < 2 {
        assert lines[k] == head[k];
      } else if k < 2 + |sections| {
        assert lines[k] == sections[k - 2];
      } else if k == 2 + |sections| {
        assert lines[k] == "## Sources";
      } else if k < 3 + |sections| + |refs| {
        var i := k - 3 - |sections|;
        assert lines[k] == "- [" + sources[i].0 + "](" + sources[i].1 + ")";
      } else {
        assert lines[k] == "";
      }
    }
  }

  /** The heuristic Markdown, cut at its line breaks: the front-matter lines, one blank
      line, then the body's lines — `# title`, a blank line, per section in order its
      `## heading`, a `- point` line per point and a blank line, then `## Sources`, a
      `- [title](url)` line per source in order, and a last empty line. */
  lemma MarkdownLines(title: string, outline: seq<Section>, sources: seq<(string, string)>, fm: seq<(string, string)>)
    requires PlainKeys(fm) && PlainBody(title, outline, sources)
    ensures Split(ToMarkdown(title, outline, sources, fm), '\n')
            == FrontMatterLines(fm) + [""] + BodyLines(title, outline, sources)
  {
    var f := Join(FrontMatterLines(fm), "\n");
    var lines := BodyLines(title, outline, sources);
    var b := Join(lines, "\n");
    BreakShape(f, b);
    LinesNoBreak(fm);
    SplitJoinMore(FrontMatterLines(fm), '\n', "\n" + b);
    BodyNoBreak(title, outline, sources);
    JoinSplit(lines, '\n');
    assert ("\n" + b)[1..] == b;
    assert Split("\n" + b, '\n') == [""] + lines;
    ConcatAssoc(FrontMatterLines(fm), [""], lines);
  }

  /** So does the rendering around the model's body. */
  lemma LlmMarkdownFrontMatter(fm: seq<(string, string)>, body: string)
    requires PlainKeys(fm)
    ensures ReadFrontMatter(LlmMarkdown(fm, body)) == Some(fm)
  {
    AroundFrontMatter(fm, Trim(body));
  }

  lemma AroundFrontMatter(fm: seq<(string, string)>, t: string)
    requires PlainKeys(fm)
    ensures ReadFrontMatter(Join(FrontMatterLines(fm) + ["", t], "\n")) == Some(fm)
  {
    JoinAppend(FrontMatterLines(fm), ["", t], "\n");
    BlankThen(t);
    FrontMatterRoundTrip(fm, "\n" + t);
  }

  lemma BlankThen(t: string)
    ensures Join(["", t], "\n") == "\n" + t
  {
    assert ["", t][1..] == [t];
  }

  /** The model's reply to the outline request: nothing usable (the call threw, the reply
      was not JSON, or held no `outline` array), an outline, or an array that the renderer
      cannot walk, which makes it throw. */
  datatype OutlineReply = NoOutline | Outline(sections: seq<Section>) | Unrenderable(error: Thrown)

  /** The outline request: model name, topic, audience, tone, questions, and the analysed
      sources' titles with at most five takeaways each. */
  type PlanLlm = (string, string, string, string, seq<string>, seq<(string, seq<string>)>) -> OutlineReply
  /** The writing request: model name, title, outline, source list, tone, audience; `None`
      when the call threw. */
  type WriteLlm = (string, string, seq<Section>, seq<(string, string)>, string, string) -> Option<string>

  /** `analyzed.map(a => ({ title: a.title, url: a.url }))`. */
  function TitleUrls(analyzed: seq<AnalyzedSource>): (r: seq<(string, string)>)
    ensures |r| == |analyzed|
    ensures forall i :: 0 <= i < |analyzed| ==> r[i] == (analyzed[i].source.title, analyzed[i].source.url)
  {
    seq(|analyzed|, i requires 0 <= i < |analyzed| => (analyzed[i].source.title, analyzed[i].source.url))
  }

  function Evidence(analyzed: seq<AnalyzedSource>): seq<(string, seq<string>)> {
    seq(|analyzed|, i requires 0 <= i < |analyzed| => (analyzed[i].source.title, Take(analyzed[i].keyTakeaways, 5)))
  }

  /** The output's sources: title and URL only. */
  function OutputSources(analyzed: seq<AnalyzedSource>): (r: seq<Source>)
    ensures |r| == |analyzed|
    ensures forall i :: 0 <= i < |analyzed| ==> r[i] == Source(analyzed[i].source.title, analyzed[i].source.url, None, None)
  {
    seq(|analyzed|, i requires 0 <= i < |analyzed| => Source(analyzed[i].source.title, analyzed[i].source.url, None, None))
  }

  /** What `runStrategy` returns: a `TypeError` from the renderer when the model's outline is
      unrenderable, else the output. */
  function StrategySpec(topic: string, questions: seq<string>, analyzed: seq<AnalyzedSource>,
                        audience: Option<string>, tone: Option<string>, useLLM: bool, hasApiKey: bool,
                        model: Option<string>, date: string, makeSlug: string -> string,
                        plan: PlanLlm, write: WriteLlm): Result<StrategyOutput, Thrown>
  {
    var aud := audience.GetOr(DefaultAudience);
    var tn := tone.GetOr(DefaultTone);
    var title := Title(topic, questions);
    var slug := makeSlug(date + "-" + title);
    var heuristic := HeuristicOutline(topic, questions, TakeawaysFor(questions, analyzed));
    var llm := useLLM && hasApiKey;
    var reply := if llm then plan(ModelName(model), topic, aud, tn, questions, Evidence(analyzed)) else NoOutline;
    match reply
    case Unrenderable(e) => Err(e)
    case _ =>
      var outline := if reply.Outline? then reply.sections else heuristic;
      var fm := FrontMatter(title, date, slug, topic, aud, tn);
      var body := if llm then write(ModelName(model), title, outline, TitleUrls(analyzed), tn, aud) else None;
      var markdown := if body.Some? then LlmMarkdown(fm, body.value) else ToMarkdown(title, outline, TitleUrls(analyzed), fm);
      Ok(StrategyOutput(title, outline, markdown, slug, OutputSources(analyzed)))
  }

  /** `runStrategy`: the outline and the Markdown start heuristic and are replaced when the
      model delivers. */
  method RunStrategy(topic: string, questions: seq<string>, analyzed: seq<AnalyzedSource>,
                     audience: Option<string>, tone: Option<string>, useLLM: bool, hasApiKey: bool,
                     model: Option<string>, date: string, makeSlug: string -> string,
                     plan: PlanLlm, write: WriteLlm)
    returns (r: Result<StrategyOutput, Thrown>)
    ensures r == StrategySpec(topic, questions, analyzed, audience, tone, useLLM, hasApiKey, model, date, makeSlug, plan, write)
  {
    var aud := audience.GetOr(DefaultAudience);
    var tn := tone.GetOr(DefaultTone);
    var title := Title(topic, questions);
    var slug := makeSlug(date + "-" + title);
    var outline := BuildOutline(topic, questions, TakeawaysFor(questions, analyzed));
    if useLLM && hasApiKey {
      var reply := plan(ModelName(model), topic, aud, tn, questions, Evidence(analyzed));
      if reply.Outline? {
        outline := reply.sections;
      } else if reply.Unrenderable? {
        return Err(reply.error);
      }
    }
    var fm := FrontMatter(title, date, slug, topic, aud, tn);
    var markdown := ToMarkdown(title, outline, TitleUrls(analyzed), fm);
    if useLLM && hasApiKey {
      var body := write(ModelName(model), title, outline, TitleUrls(analyzed), tn, aud);
      if body.Some? {
        markdown := LlmMarkdown(fm, body.value);
      }
    }
    r := Ok(StrategyOutput(title, outline, markdown, slug, OutputSources(analyzed)));
  }

  /** What every strategy result satisfies: the title names the question count, the slug is
      made from the date and the title, the sources are the analysed ones' titles and URLs in
      order, and without the model the outline is the heuristic one. */
  lemma StrategyProperties(topic: string, questions: seq<string>, analyzed: seq<AnalyzedSource>,
                           audience: Option<string>, tone: Option<string>, useLLM: bool, hasApiKey: bool,
                           model: Option<string>, date: string, makeSlug: string -> string,
                           plan: PlanLlm, write: WriteLlm)
    requires StrategySpec(topic, questions, analyzed, audience, tone, useLLM, hasApiKey, model, date, makeSlug, plan, write).Ok?
    ensures var out := StrategySpec(topic, questions, analyzed, audience, tone, useLLM, hasApiKey, model, date, makeSlug, plan, write).value;
            && out.title == topic + ": Answers to " + NatToString(|questions|) + " Key Questions"
            && out.slug == makeSlug(date + "-" + out.title)
            && |out.sources| == |analyzed|
            && (forall i :: 0 <= i < |analyzed| ==> out.sources[i].title == analyzed[i].source.title && out.sources[i].url == analyzed[i].source.url)
            && (!(useLLM && hasApiKey) ==> out.outline == HeuristicOutline(topic, questions, TakeawaysFor(questions, analyzed)))
  ensures useLLM && hasApiKey ==>
            var aud := audience.GetOr(DefaultAudience);
            var tn := tone.GetOr(DefaultTone);
            var reply := plan(ModelName(model), topic, aud, tn, questions, Evidence(analyzed));
            var out := StrategySpec(topic, questions, analyzed, audience, tone, useLLM, hasApiKey, model, date, makeSlug, plan, write).value;
            var fm := FrontMatter(out.title, date, out.slug, topic, aud, tn);
            var body := write(ModelName(model), out.title, out.outline, TitleUrls(analyzed), tn, aud);
            && (reply.NoOutline? ==> out.outline == HeuristicOutline(topic, questions, TakeawaysFor(questions, analyzed)))
            && (reply.Outline? ==> out.outline == reply.sections)
            && (body.None? ==> out.markdown == ToMarkdown(out.title, out.outline, TitleUrls(analyzed), fm))
            && (body.Some? ==> out.markdown == LlmMarkdown(fm, body.value))
  {
  }

  /** The strategy fails only in LLM mode, and only when the model's outline cannot be
      rendered; it then fails with the renderer's error. */
  lemma StrategyFails(topic: string, questions: seq<string>, analyzed: seq<AnalyzedSource>,
                      audience: Option<string>, tone: Option<string>, useLLM: bool, hasApiKey: bool,
                      model: Option<string>, date: string, makeSlug: string -> string,
                      plan: PlanLlm, write: WriteLlm)
    ensures var reply := plan(ModelName(model), topic, audience.GetOr(DefaultAudience), tone.GetOr(DefaultTone), questions, Evidence(analyzed));
            var r := StrategySpec(topic, questions, analyzed, audience, tone, useLLM, hasApiKey, model, date, makeSlug, plan, write);
            && (r.Err? <==> useLLM && hasApiKey && reply.Unrenderable?)
            && (r.Err? ==> r.error == reply.error)
  {
  }

  /** As written, a model outline whose section has no `points` array makes `toMarkdown`
      throw outside any `try`, so the strategy fails although a heuristic outline exists. */
  lemma PointlessOutlineThrows(topic: string, questions: seq<string>, analyzed: seq<AnalyzedSource>, date: string,
                               makeSlug: string -> string, write: WriteLlm)
    ensures var e := Plain("TypeError", "Cannot read properties of undefined (reading 'map')", None, None);
            var plan: PlanLlm := (m, tp, a, tn, q, ev) => Unrenderable(e);
            StrategySpec(topic, questions, analyzed, None, None, true, true, None, date, makeSlug, plan, write) == Err(e)
  {
  }

  /** The model's outline with an unrenderable reply read as no outline. */
  function Renderable(plan: PlanLlm): (p: PlanLlm)
    ensures forall m, tp, a, tn, q, ev :: !p(m, tp, a, tn, q, ev).Unrenderable?
  {
    (m, tp, a, tn, q, ev) => var reply := plan(m, tp, a, tn, q, ev); if reply.Unrenderable? then NoOutline else reply
  }

  /** The strategy as intended: an unrenderable outline falls back to the heuristic one, so
      the strategy always produces a post. */
  function StrategyCorrected(topic: string, questions: seq<string>, analyzed: seq<AnalyzedSource>,
                             audience: Option<string>, tone: Option<string>, useLLM: bool, hasApiKey: bool,
                             model: Option<string>, date: string, makeSlug: string -> string,
                             plan: PlanLlm, write: WriteLlm): (out: StrategyOutput)
    ensures var reply := plan(ModelName(model), topic, audience.GetOr(DefaultAudience), tone.GetOr(DefaultTone), questions, Evidence(analyzed));
            out.outline == if useLLM && hasApiKey && reply.Outline? then reply.sections
                           else HeuristicOutline(topic, questions, TakeawaysFor(questions, analyzed))
    ensures out.title == Title(topic, questions) && out.sources == OutputSources(analyzed)
  {
    StrategyFails(topic, questions, analyzed, audience, tone, useLLM, hasApiKey, model, date, makeSlug, Renderable(plan), write);
    StrategySpec(topic, questions, analyzed, audience, tone, useLLM, hasApiKey, model, date, makeSlug, Renderable(plan), write).value
  }

  lemma FrontMatterPlain(title: string, date: string, slug: string, topic: string, audience: string, tone: string)
    ensures PlainKeys(FrontMatter(title, date, slug, topic, audience, tone))
  {
    var fm := FrontMatter(title, date, slug, topic, audience, tone);
    assert fm[0].0 == "title" && fm[1].0 == "date" && fm[2].0 == "slug";
    assert fm[3].0 == "topic" && fm[4].0 == "audience" && fm[5].0 == "tone";
  }

  /** The front matter of every strategy result reads back as title, date, slug, topic,
      audience and tone, with their defaults. */
  lemma StrategyFrontMatter(topic: string, questions: seq<string>, analyzed: seq<AnalyzedSource>,
                            audience: Option<string>, tone: Option<string>, useLLM: bool, hasApiKey: bool,
                            model: Option<string>, date: string, makeSlug: string -> string,
                            plan: PlanLlm, write: WriteLlm)
    requires StrategySpec(topic, questions, analyzed, audience, tone, useLLM, hasApiKey, model, date, makeSlug, plan, write).Ok?
    ensures var out := StrategySpec(topic, questions, analyzed, audience, tone, useLLM, hasApiKey, model, date, makeSlug, plan, write).value;
            ReadFrontMatter(out.markdown) == Some([("title", out.title), ("date", date), ("slug", out.slug), ("topic", topic),
                                                   ("audience", audience.GetOr("General tech audience")),
                                                   ("tone", tone.GetOr("Informative and concise"))])
  {
    var aud := audience.GetOr(DefaultAudience);
    var tn := tone.GetOr(DefaultTone);
    var title := Title(topic, questions);
    var slug := makeSlug(date + "-" + title);
    var fm := FrontMatter(title, date, slug, topic, aud, tn);
    FrontMatterPlain(title, date, slug, topic, aud, tn);
    var out := StrategySpec(topic, questions, analyzed, audience, tone, useLLM, hasApiKey, model, date, makeSlug, plan, write).value;
    var body := if useLLM && hasApiKey then write(ModelName(model), title, out.outline, TitleUrls(analyzed), tn, aud) else None;
    if body.Some? {
      assert out.markdown == LlmMarkdown(fm, body.value);
      LlmMarkdownFrontMatter(fm, body.value);
    } else {
      assert out.markdown == ToMarkdown(title, out.outline, TitleUrls(analyzed), fm);
      MarkdownFrontMatter(title, out.outline, TitleUrls(analyzed), fm);
    }
  }
}
