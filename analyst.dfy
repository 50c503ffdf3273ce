/**
 * The analyst agent: a naive sentence splitter, the heuristic summary and
 * bullet extraction built on it, and the per-source analysis, by heuristics
 * alone or by a language model whose every failure falls back to them.
 * The language model is a parameter.
 */
module Analyst {
  import opened Wrappers
  import opened Text
  import opened AgentTypes

  /** The sentence terminators of the pattern `[^.!?]+[.!?]`. */
  predicate IsTerm(c: char) {
    c == '.' || c == '!' || c == '?'
  }

  /** The length of the longest prefix holding no terminator. */
  function RunLength(s: string): (n: nat)
    ensures n <= |s|
    ensures forall i :: 0 <= i < n ==> !IsTerm(s[i])
    ensures n < |s| ==> IsTerm(s[n])
  {
    if s == [] || IsTerm(s[0]) then 0 else 1 + RunLength(s[1..])
  }

  /** What one match of `[^.!?]+[.!?]` looks like. */
  predicate IsSentence(x: string) {
    |x| >= 2 && IsTerm(x[|x| - 1]) && forall i :: 0 <= i < |x| - 1 ==> !IsTerm(x[i])
  }

  /** `s.match(/[^.!?]+[.!?]/g) || []`: the matches, in order. A match starts at the first
      non-terminator and runs to the next terminator; text after the last terminator
      matches nothing. */
  function Sentences(s: string): (r: seq<string>)
    ensures forall i :: 0 <= i < |r| ==> IsSentence(r[i])
    decreases |s|
  {
    if s == [] then []
    else if IsTerm(s[0]) then Sentences(s[1..])
    else
      var n := RunLength(s);
      if n == |s| then [] else [s[..n + 1]] + Sentences(s[n + 1..])
  }

  /** Somewhere a non-terminator is directly followed by a terminator. */
  predicate HasSentence(s: string) {
    exists i :: 0 <= i < |s| - 1 && !IsTerm(s[i]) && IsTerm(s[i + 1])
  }

  /** The pattern matches somewhere exactly when a non-terminator is followed by a terminator. */
  lemma {:induction false} SentencesEmpty(s: string)
    ensures Sentences(s) == [] <==> !HasSentence(s)
    decreases |s|
  {
    if s != [] {
      if IsTerm(s[0]) {
        SentencesEmpty(s[1..]);
        if HasSentence(s) {
          var i :| 0 <= i < |s| - 1 && !IsTerm(s[i]) && IsTerm(s[i + 1]);
          assert s[1..][i - 1] == s[i] && s[1..][i] == s[i + 1];
        }
        if HasSentence(s[1..]) {
          var j :| 0 <= j < |s[1..]| - 1 && !IsTerm(s[1..][j]) && IsTerm(s[1..][j + 1]);
          assert s[j + 1] == s[1..][j] && s[j + 2] == s[1..][j + 1];
        }
      } else {
        var n := RunLength(s);
        if n < |s| {
          assert !IsTerm(s[n - 1]) && IsTerm(s[n]);
        } else {
          assert forall i :: 0 <= i < |s| ==> !IsTerm(s[i]);
        }
      }
    }
  }

  /** Every character of `g` is a terminator. */
  predicate AllTerms(g: string) {
    forall i :: 0 <= i < |g| ==> IsTerm(g[i])
  }

  /** `gaps[0] + parts[0] + gaps[1] + parts[1] + …`. */
  function Weave(gaps: seq<string>, parts: seq<string>): string
    requires |gaps| == |parts|
  {
    if parts == [] then [] else gaps[0] + parts[0] + Weave(gaps[1..], parts[1..])
  }

  lemma WeaveCons(g0: string, m: string, gaps: seq<string>, parts: seq<string>)
    requires |gaps| == |parts|
    ensures Weave([g0] + gaps, [m] + parts) == g0 + m + Weave(gaps, parts)
  {
    assert ([g0] + gaps)[1..] == gaps && ([m] + parts)[1..] == parts;
  }

  /** A terminator in front of a text widens its first gap. */
  lemma WeaveWiden(c: char, gaps: seq<string>, parts: seq<string>)
    requires |gaps| == |parts| && gaps != []
    ensures Weave([[c] + gaps[0]] + gaps[1..], parts) == [c] + Weave(gaps, parts)
  {
    assert ([[c] + gaps[0]] + gaps[1..])[1..] == gaps[1..];
  }

  lemma NoSentenceAfterTerm(s: string)
    requires s != [] && IsTerm(s[0]) && !HasSentence(s[1..])
    ensures !HasSentence(s)
  {
  }

  /** A layout of the matches of a text, as `SentencesLayout` states it. */
  predicate Layout(s: string, gaps: seq<string>, parts: seq<string>, tail: string) {
    && |gaps| == |parts|
    && (forall k :: 0 <= k < |gaps| ==> AllTerms(gaps[k]))
    && !HasSentence(tail)
    && s == Weave(gaps, parts) + tail
  }

  /** A leading terminator joins the first gap, or the tail when there is no match. */
  lemma LayoutAfterTerm(s: string, gaps: seq<string>, parts: seq<string>, tail: string)
      returns (gaps': seq<string>, tail': string)
    requires s != [] && IsTerm(s[0]) && Layout(s[1..], gaps, parts, tail)
    ensures Layout(s, gaps', parts, tail')
  {
    if gaps == [] {
      assert s[1..] == tail;
      NoSentenceAfterTerm(s);
      gaps', tail' := [], s;
    } else {
      WeaveWiden(s[0], gaps, parts);
      gaps', tail' := [[s[0]] + gaps[0]] + gaps[1..], tail;
      assert AllTerms(gaps'[0]);
      assert forall k :: 1 <= k < |gaps'| ==> gaps'[k] == gaps[k];
      assert s == [s[0]] + s[1..];
    }
  }

  /** A match at the front comes after an empty gap. */
  lemma LayoutAfterMatch(s: string, n: nat, gaps: seq<string>, parts: seq<string>, tail: string)
      returns (gaps': seq<string>)
    requires n < |s| && Layout(s[n + 1..], gaps, parts, tail)
    ensures Layout(s, gaps', [s[..n + 1]] + parts, tail)
  {
    WeaveCons([], s[..n + 1], gaps, parts);
    gaps' := [[]] + gaps;
    assert forall k :: 1 <= k < |gaps'| ==> gaps'[k] == gaps[k - 1];
    assert s == s[..n + 1] + s[n + 1..];
  }

  /** The matches are read left to right: the text is a run of terminators, the first match,
      a run of terminators, the second match, and so on, then a tail holding no match. */
  lemma {:induction false} SentencesLayout(s: string) returns (gaps: seq<string>, tail: string)
    ensures |gaps| == |Sentences(s)|
    ensures forall k :: 0 <= k < |gaps| ==> AllTerms(gaps[k])
    ensures !HasSentence(tail)
    ensures s == Weave(gaps, Sentences(s)) + tail
    decreases |s|
  {
    if s == [] {
      gaps, tail := [], [];
    } else if IsTerm(s[0]) {
      var g, t := SentencesLayout(s[1..]);
      assert Sentences(s) == Sentences(s[1..]);
      gaps, tail := LayoutAfterTerm(s, g, Sentences(s[1..]), t);
    } else {
      var n := RunLength(s);
      if n == |s| {
        gaps, tail := [], s;
        assert Sentences(s) == [];
      } else {
        var g, t := SentencesLayout(s[n + 1..]);
        assert Sentences(s) == [s[..n + 1]] + Sentences(s[n + 1..]);
        gaps := LayoutAfterMatch(s, n, g, Sentences(s[n + 1..]), t);
        tail := t;
      }
    }
  }

  /** The number of places where a non-terminator is directly followed by a terminator. */
  function Ends(s: string): (n: nat)
    ensures n <= |s|
    decreases |s|
  {
    if |s| < 2 then 0 else (if !IsTerm(s[0]) && IsTerm(s[1]) then 1 else 0) + Ends(s[1..])
  }

  lemma {:induction false} EndsNone(s: string)
    requires forall i :: 0 <= i < |s| ==> !IsTerm(s[i])
    ensures Ends(s) == 0
    decreases |s|
  {
    if |s| >= 2 {
      EndsNone(s[1..]);
    }
  }

  lemma {:induction false} EndsAfterRun(s: string, n: nat)
    requires 1 <= n < |s| && IsTerm(s[n])
    requires forall i :: 0 <= i < n ==> !IsTerm(s[i])
    ensures Ends(s) == 1 + Ends(s[n + 1..])
    decreases n
  {
    if n == 1 {
      assert s[1..][1..] == s[2..];
    } else {
      EndsAfterRun(s[1..], n - 1);
      assert s[1..][n..] == s[n + 1..];
    }
  }

  /** There is one match per place where a non-terminator meets a terminator, so no match is
      missed. */
  lemma {:induction false} SentencesCount(s: string)
    ensures |Sentences(s)| == Ends(s)
    decreases |s|
  {
    if s != [] {
      if IsTerm(s[0]) {
        SentencesCount(s[1..]);
      } else {
        var n := RunLength(s);
        if n == |s| {
          EndsNone(s);
        } else {
          SentencesCount(s[n + 1..]);
          EndsAfterRun(s, n);
        }
      }
    }
  }

  /** `summarize(text, maxSentences)`: the first sentences of the whitespace-collapsed text
      joined by spaces, or the text itself when it has no sentence, then trimmed. */
  function Summarize(text: string, maxSentences: nat): (r: string)
    ensures IsTrimmed(r)
    ensures Sentences(Collapse(text)) == [] && maxSentences >= 1 ==> r == Trim(text)
    ensures Sentences(Collapse(text)) != [] ==> r == Trim(Join(Take(Sentences(Collapse(text)), maxSentences), " "))
  {
    var ss := Sentences(Collapse(text));
    var parts := if ss == [] then [text] else ss;
    var picked := Take(parts, maxSentences);
    assert ss == [] && maxSentences >= 1 ==> picked == [text];
    Trim(Join(picked, " "))
  }

  /** A join starts with its first part. */
  lemma JoinFirst(parts: seq<string>, sep: string)
    requires parts != []
    ensures |Join(parts, sep)| >= |parts[0]| && Join(parts, sep)[..|parts[0]|] == parts[0]
  {
    if |parts| > 1 {
      assert Join(parts, sep) == parts[0] + (sep + Join(parts[1..], sep));
    }
  }

  /** The summary is empty exactly when no sentence is asked for or the text is blank. */
  lemma SummarizeEmpty(text: string, maxSentences: nat)
    ensures Summarize(text, maxSentences) == [] <==> maxSentences == 0 || Trim(text) == []
  {
    var ss := Sentences(Collapse(text));
    if ss != [] && maxSentences >= 1 {
      var j := Join(Take(ss, maxSentences), " ");
      JoinFirst(Take(ss, maxSentences), " ");
      var first := ss[0];
      assert IsSentence(first);
      assert j[|first| - 1] == first[|first| - 1];
      assert !IsSpace(j[|first| - 1]);
      TrimEmpty(j);
      assert CharIn(text, first[|first| - 1]) by {
        SentenceIn(Collapse(text), 0);
        assert CharIn(Collapse(text), first[|first| - 1]);
        CollapseKeepsNonSpace(text, first[|first| - 1]);
      }
      var k :| 0 <= k < |text| && text[k] == first[|first| - 1];
      TrimEmpty(text);
    } else if maxSentences >= 1 {
      assert Summarize(text, maxSentences) == Trim(text);
    }
  }

  /** Character `c` occurs in `s`. */
  predicate CharIn(s: string, c: char) {
    exists k :: 0 <= k < |s| && s[k] == c
  }

  /** Every character of a sentence occurs in the text it was found in. */
  lemma {:induction false} SentenceIn(s: string, i: nat)
    requires i < |Sentences(s)|
    ensures forall k :: 0 <= k < |Sentences(s)[i]| ==> CharIn(s, Sentences(s)[i][k])
    decreases |s|
  {
    if IsTerm(s[0]) {
      SentenceIn(s[1..], i);
      forall k | 0 <= k < |Sentences(s)[i]| ensures CharIn(s, Sentences(s)[i][k]) {
        var m :| 0 <= m < |s[1..]| && s[1..][m] == Sentences(s)[i][k];
        assert s[m + 1] == s[1..][m];
      }
    } else {
      var n := RunLength(s);
      if i == 0 {
        forall k | 0 <= k < |Sentences(s)[0]| ensures CharIn(s, Sentences(s)[0][k]) {
          assert s[k] == Sentences(s)[0][k];
        }
      } else {
        SentenceIn(s[n + 1..], i - 1);
        forall k | 0 <= k < |Sentences(s)[i]| ensures CharIn(s, Sentences(s)[i][k]) {
          var m :| 0 <= m < |s[n + 1..]| && s[n + 1..][m] == Sentences(s)[i][k];
          assert s[m + n + 1] == s[n + 1..][m];
        }
      }
    }
  }

  /** Collapsing whitespace keeps every character that is not whitespace. */
  lemma {:induction false} CollapseKeepsNonSpace(s: string, c: char)
    requires !IsSpace(c) && CharIn(Collapse(s), c)
    ensures CharIn(s, c)
    decreases |s|
  {
    var r := Collapse(s);
    var k :| 0 <= k < |r| && r[k] == c;
    if IsSpace(s[0]) {
      var t := TrimStart(s[1..]);
      assert r == " " + Collapse(t);
      assert Collapse(t)[k - 1] == c;
      CollapseKeepsNonSpace(t, c);
      var m :| 0 <= m < |t| && t[m] == c;
      assert s[1..][|s[1..]| - |t| + m] == c;
      assert s[1 + |s[1..]| - |t| + m] == c;
    } else if k == 0 {
      assert s[0] == c;
    } else {
      assert r == [s[0]] + Collapse(s[1..]);
      assert Collapse(s[1..])[k - 1] == c;
      CollapseKeepsNonSpace(s[1..], c);
      var m :| 0 <= m < |s[1..]| && s[1..][m] == c;
      assert s[m + 1] == c;
    }
  }

  /** `a` is a subsequence of `b`: `b` with some elements left out. */
  predicate Subseq<T(==)>(a: seq<T>, b: seq<T>)
    decreases |b|
  {
    a == [] || (b != [] && (if a[0] == b[0] then Subseq(a[1..], b[1..]) else Subseq(a, b[1..])))
  }

  /** `.map(s => s.trim())`. */
  function TrimAll(xs: seq<string>): (r: seq<string>)
    ensures |r| == |xs| && forall i :: 0 <= i < |xs| ==> r[i] == Trim(xs[i])
    ensures forall i :: 0 <= i < |r| ==> IsTrimmed(r[i])
  {
    seq(|xs|, i requires 0 <= i < |xs| => Trim(xs[i]))
  }

  /** `.filter(s => s.length > 60)`: exactly the long elements, in their order. */
  function LongOnes(xs: seq<string>): (r: seq<string>)
    ensures forall i :: 0 <= i < |r| ==> |r[i]| > 60
    ensures Subseq(r, xs)
    ensures (forall i :: 0 <= i < |xs| ==> IsTrimmed(xs[i])) ==> forall i :: 0 <= i < |r| ==> IsTrimmed(r[i])
  {
    if xs == [] then []
    else
      var t := LongOnes(xs[1..]);
      if |xs[0]| > 60 then
        var r := [xs[0]] + t;
        assert r[1..] == t;
        r
      else
        assert t == [] || t[0] != xs[0];
        t
  }

  /** The filter keeps every long element and nothing else. */
  lemma {:induction false} LongOnesMembers(xs: seq<string>, x: string)
    ensures x in LongOnes(xs) <==> x in xs && |x| > 60
  {
    if xs != [] {
      LongOnesMembers(xs[1..], x);
      assert x in xs <==> x == xs[0] || x in xs[1..];
    }
  }

  /** The trimmed sentences of `text` longer than 60 characters, in text order. */
  function Candidates(text: string): seq<string> {
    LongOnes(TrimAll(Sentences(text)))
  }

  /** `extractBullets(text)`: the first five candidate sentences, or, when there is none, the
      one-sentence summary; never empty. */
  function ExtractBullets(text: string): (r: seq<string>)
    ensures 1 <= |r| <= 5
    ensures Candidates(text) == [] ==> r == [Summarize(text, 1)]
    ensures Candidates(text) != [] ==>
              && |r| <= |Candidates(text)| && r == Candidates(text)[..|r|]
              && forall i :: 0 <= i < |r| ==> |r[i]| > 60 && IsTrimmed(r[i])
    ensures Candidates(text) != [] ==>
              |r| == if |Candidates(text)| < 5 then |Candidates(text)| else 5
  {
    var cs := Candidates(text);
    var c := Take(cs, 5);
    assert forall i :: 0 <= i < |c| ==> c[i] == cs[i];
    if c != [] then c else [Summarize(text, 1)]
  }

  /** `s.content || s.snippet || ''`. */
  function AnalyzedText(s: Source): (r: string)
    ensures s.content.Some? && s.content.value != "" ==> r == s.content.value
    ensures r == "" <==> s.content.GetOr("") == "" && s.snippet.GetOr("") == ""
    ensures r != "" && s.content.GetOr("") == "" ==> s.snippet == Some(r)
  {
    if s.content.GetOr("") != "" then s.content.value
    else if s.snippet.GetOr("") != "" then s.snippet.value
    else ""
  }

  /** What the model's reply yields: nothing when the request threw, else the fields of the
      parsed JSON (an unparsable reply parses as `{}`). */
  datatype Reply = Failed | Parsed(summary: Option<string>, takeaways: Option<seq<string>>)

  /** The model: asked with a model name, and a source's title, URL and first 8000
      characters of text. */
  type Llm = (string, string, string, string) -> Reply

  /** The heuristic analysis of one source. */
  function Heuristic(s: Source): (r: AnalyzedSource)
    ensures r.source == s && 1 <= |r.keyTakeaways| <= 5
  {
    AnalyzedSource(s, Summarize(AnalyzedText(s), 3), ExtractBullets(AnalyzedText(s)))
  }

  /** One source analysed from the model's reply: an empty or missing summary, or empty or
      missing takeaways, are replaced by the heuristic ones. */
  function FromReply(s: Source, reply: Reply): (r: AnalyzedSource)
    ensures r.source == s && |r.keyTakeaways| >= 1
    ensures reply.Parsed? && reply.summary.GetOr("") != "" ==> r.summary == reply.summary.value
    ensures !(reply.Parsed? && reply.summary.GetOr("") != "") ==> r.summary == Heuristic(s).summary
    ensures reply.Parsed? && reply.takeaways.GetOr([]) != [] ==> r.keyTakeaways == reply.takeaways.value
    ensures !(reply.Parsed? && reply.takeaways.GetOr([]) != []) ==> r.keyTakeaways == Heuristic(s).keyTakeaways
  {
    match reply
    case Failed => Heuristic(s)
    case Parsed(summary, takeaways) =>
      AnalyzedSource(
        s,
        if summary.GetOr("") != "" then summary.value else Summarize(AnalyzedText(s), 3),
        if takeaways.GetOr([]) != [] then takeaways.value else ExtractBullets(AnalyzedText(s)))
  }

  /** The model is used only with `useLLM` set and an API key configured. */
  predicate LlmMode(useLLM: bool, hasApiKey: bool) {
    useLLM && hasApiKey
  }

  /** The analysis of source `s` in the chosen mode. */
  function AnalyzeOne(s: Source, useLLM: bool, hasApiKey: bool, model: Option<string>, llm: Llm): (r: AnalyzedSource)
    ensures r.source == s && |r.keyTakeaways| >= 1
  {
    if LlmMode(useLLM, hasApiKey) then FromReply(s, llm(ModelName(model), s.title, s.url, Take(AnalyzedText(s), 8000)))
    else Heuristic(s)
  }

  /** One pass of the model loop: ask the model about `s` and fall back where it fails. */
  method AskModel(s: Source, useLLM: bool, hasApiKey: bool, model: Option<string>, llm: Llm) returns (a: AnalyzedSource)
    requires LlmMode(useLLM, hasApiKey)
    ensures a == AnalyzeOne(s, useLLM, hasApiKey, model, llm)
  {
    var reply := llm(ModelName(model), s.title, s.url, Take(AnalyzedText(s), 8000));
    a := FromReply(s, reply);
  }

  /** `f` applied to every element, in order. */
  function Each(sources: seq<Source>, f: Source -> AnalyzedSource): (r: seq<AnalyzedSource>)
    ensures |r| == |sources| && forall i :: 0 <= i < |sources| ==> r[i] == f(sources[i])
  {
    seq(|sources|, i requires 0 <= i < |sources| => f(sources[i]))
  }

  lemma EachSnoc(sources: seq<Source>, f: Source -> AnalyzedSource, i: nat)
    requires i < |sources|
    ensures Each(sources[..i + 1], f) == Each(sources[..i], f) + [f(sources[i])]
  {
    var l := Each(sources[..i + 1], f);
    var r := Each(sources[..i], f) + [f(sources[i])];
    assert forall j :: 0 <= j < i + 1 ==> l[j] == r[j];
  }

  /** The analysis of every source, in input order. */
  function Analysis(sources: seq<Source>, useLLM: bool, hasApiKey: bool, model: Option<string>, llm: Llm): (r: seq<AnalyzedSource>)
    ensures |r| == |sources|
    ensures forall i :: 0 <= i < |sources| ==> r[i].source == sources[i] && |r[i].keyTakeaways| >= 1
  {
    Each(sources, s => AnalyzeOne(s, useLLM, hasApiKey, model, llm))
  }

  /** `runAnalysis`: one analysed entry per source, in order. The model branch is a loop,
      the heuristic branch a map. */
  method RunAnalysis(sources: seq<Source>, useLLM: bool, hasApiKey: bool, model: Option<string>, llm: Llm)
    returns (analyzed: seq<AnalyzedSource>)
    ensures analyzed == Analysis(sources, useLLM, hasApiKey, model, llm)
  {
    if useLLM && hasApiKey {
      analyzed := AskEach(sources, useLLM, hasApiKey, model, llm);
    } else {
      analyzed := seq(|sources|, i requires 0 <= i < |sources| => Heuristic(sources[i]));
      AnalysisHeuristic(sources, useLLM, hasApiKey, model, llm);
    }
  }

  /** The model branch of `runAnalysis`: one request per source, in order. */
  method AskEach(sources: seq<Source>, useLLM: bool, hasApiKey: bool, model: Option<string>, llm: Llm)
    returns (analyzed: seq<AnalyzedSource>)
    requires LlmMode(useLLM, hasApiKey)
    ensures analyzed == Analysis(sources, useLLM, hasApiKey, model, llm)
  {
    var f := s => AnalyzeOne(s, useLLM, hasApiKey, model, llm);
    analyzed := [];
    for i := 0 to |sources|
      invariant analyzed == Each(sources[..i], f)
    {
      var a := AskModel(sources[i], useLLM, hasApiKey, model, llm);
      EachSnoc(sources, f, i);
      analyzed := analyzed + [a];
    }
    assert sources[..|sources|] == sources;
  }

  /** Outside model mode the analysis is the heuristic one for every source. */
  lemma AnalysisHeuristic(sources: seq<Source>, useLLM: bool, hasApiKey: bool, model: Option<string>, llm: Llm)
    requires !LlmMode(useLLM, hasApiKey)
    ensures Analysis(sources, useLLM, hasApiKey, model, llm) == seq(|sources|, i requires 0 <= i < |sources| => Heuristic(sources[i]))
  {
  }

  /** Every entry carries its source unchanged and at least one takeaway; outside model mode,
      or wherever the model failed, the entry is the heuristic one. */
  lemma AnalysisProperties(s: Source, useLLM: bool, hasApiKey: bool, model: Option<string>, llm: Llm)
    ensures AnalyzeOne(s, useLLM, hasApiKey, model, llm).source == s
    ensures |AnalyzeOne(s, useLLM, hasApiKey, model, llm).keyTakeaways| >= 1
    ensures !LlmMode(useLLM, hasApiKey) ==> AnalyzeOne(s, useLLM, hasApiKey, model, llm) == Heuristic(s)
    ensures llm(ModelName(model), s.title, s.url, Take(AnalyzedText(s), 8000)) in {Failed, Parsed(None, None)}
            ==> AnalyzeOne(s, useLLM, hasApiKey, model, llm) == Heuristic(s)
  {
  }
}
