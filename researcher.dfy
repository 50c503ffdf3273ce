/**
 * The research agent: searches the web with four derived queries, fetches each
 * new result page once, keeps pages with enough text, stops at the cap, and
 * falls back to a search for the bare topic when too little was found.
 * The search engine and the page fetcher are parameters.
 */
module Researcher {
  import opened Wrappers
  import opened Text
  import opened Errors
  import opened AgentTypes

  /** A search: the results for a query and a wanted count, or the error it threw. */
  type Search = (string, nat) -> Result<seq<SearchResult>, Thrown>
  /** Fetching a page and extracting its content: `None` when either threw. */
  type Fetch = string -> Option<Extracted>

  const MinBody: nat := 500
  const MaxContent: nat := 15000

  /** `Math.min(Math.max(maxSources ?? 6, 1), 10)`. */
  function Cap(maxSources: Option<int>): (cap: nat)
    ensures 1 <= cap <= 10
    ensures maxSources.None? ==> cap == 6
    ensures maxSources.Some? && 1 <= maxSources.value <= 10 ==> cap == maxSources.value
    ensures maxSources.Some? && maxSources.value < 1 ==> cap == 1
    ensures maxSources.Some? && maxSources.value > 10 ==> cap == 10
  {
    var m := maxSources.GetOr(6);
    if m < 1 then 1 else if m > 10 then 10 else m
  }

  function Queries(topic: string): seq<string> {
    [topic + " overview", topic + " latest news", topic + " research analysis", topic + " trends 2025"]
  }

  predicate IsLineTerminator(c: char) {
    c == '\n' || c == '\r' || c == '\U{2028}' || c == '\U{2029}'
  }

  /** `url.replace(/[#?].*$/, '')`: the URL cut at the first `#` or `?` from which the rest
      of the URL holds no line break (`.` does not match one). */
  function KeyOf(url: string): (key: string)
    ensures |key| <= |url| && key == url[..|key|]
    ensures '#' !in url && '?' !in url ==> key == url
  {
    if url == [] then []
    else if (url[0] == '#' || url[0] == '?') && forall i :: 1 <= i < |url| ==> !IsLineTerminator(url[i]) then []
    else [url[0]] + KeyOf(url[1..])
  }

  /** Without line breaks, the key is the URL up to its first `#` or `?`: it holds
      neither, and it is the whole URL or is followed by one of them. */
  lemma {:induction false} KeyOfClean(url: string)
    requires forall i :: 0 <= i < |url| ==> !IsLineTerminator(url[i])
    ensures '#' !in KeyOf(url) && '?' !in KeyOf(url)
    ensures KeyOf(url) == url || url[|KeyOf(url)|] == '#' || url[|KeyOf(url)|] == '?'
    ensures KeyOf(KeyOf(url)) == KeyOf(url)
  {
    if url != [] && !(url[0] == '#' || url[0] == '?') {
      assert forall i :: 0 <= i < |url[1..]| ==> url[1..][i] == url[i + 1];
      KeyOfClean(url[1..]);
    }
  }

  /** The source the agent builds from a search hit and its extracted page. */
  function Made(r: SearchResult, ex: Extracted): Source {
    Source(if r.title != "" then r.title else ex.title, r.url, r.snippet, Some(Take(Normalize(ex.text), MaxContent)))
  }

  /** The loop state: keys already seen, sources kept, queries searched and URLs fetched. */
  datatype Collect = Collect(seen: set<string>, sources: seq<Source>, searched: seq<string>, fetched: seq<string>)

  /** One search hit, with fewer sources than the cap. */
  function Visit(st: Collect, r: SearchResult, fetch: Fetch): Collect {
    var key := KeyOf(r.url);
    if key in st.seen then st
    else
      var st1 := st.(seen := st.seen + {key}, fetched := st.fetched + [r.url]);
      match fetch(r.url)
      case None => st1
      case Some(ex) =>
        if |Normalize(ex.text)| < MinBody then st1
        else st1.(sources := st1.sources + [Made(r, ex)])
  }

  /** The inner loop over one search's results, leaving once the cap is reached. */
  function Scan(st: Collect, rs: seq<SearchResult>, cap: nat, fetch: Fetch): Collect
    decreases |rs|
  {
    if rs == [] || |st.sources| >= cap then st
    else Scan(Visit(st, rs[0], fetch), rs[1..], cap, fetch)
  }

  lemma ScanStep(st: Collect, rs: seq<SearchResult>, cap: nat, fetch: Fetch)
    requires rs != [] && |st.sources| < cap
    ensures Scan(st, rs, cap, fetch) == Scan(Visit(st, rs[0], fetch), rs[1..], cap, fetch)
  {
  }

  lemma ScanDone(st: Collect, rs: seq<SearchResult>, cap: nat, fetch: Fetch)
    requires rs == [] || |st.sources| >= cap
    ensures Scan(st, rs, cap, fetch) == st
  {
  }

  /** The outer loop over the queries; a failing search aborts the agent. */
  function Derived(st: Collect, qs: seq<string>, cap: nat, search: Search, fetch: Fetch): Result<Collect, Thrown>
    decreases |qs|
  {
    if qs == [] || |st.sources| >= cap then Ok(st)
    else
      match search(qs[0], cap)
      case Err(e) => Err(e)
      case Ok(rs) => Derived(Scan(st.(searched := st.searched + [qs[0]]), rs, cap, fetch), qs[1..], cap, search, fetch)
  }

  const Start := Collect({}, [], [], [])

  /** Fewer than `min(3, cap)` sources after the derived queries calls for the fallback. */
  predicate NeedsFallback(st: Collect, cap: nat) {
    |st.sources| < if cap < 3 then cap else 3
  }

  /** What `runResearch` does: the derived queries, then maybe the bare topic. */
  function ResearchSpec(topic: string, maxSources: Option<int>, search: Search, fetch: Fetch): Result<Collect, Thrown> {
    var cap := Cap(maxSources);
    match Derived(Start, Queries(topic), cap, search, fetch)
    case Err(e) => Err(e)
    case Ok(st) =>
      if NeedsFallback(st, cap) then
        match search(topic, cap)
        case Err(e) => Err(e)
        case Ok(rs) => Ok(Scan(st.(searched := st.searched + [topic]), rs, cap, fetch))
      else Ok(st)
  }

  /** Source `s` was built from hit `r` of the search for `q`, whose page was long enough. */
  ghost predicate Hit(q: string, r: SearchResult, s: Source, searched: seq<string>, cap: nat, search: Search, fetch: Fetch) {
    && q in searched && search(q, cap).Ok? && r in search(q, cap).value
    && fetch(r.url).Some? && |Normalize(fetch(r.url).value.text)| >= MinBody
    && s == Made(r, fetch(r.url).value)
  }

  ghost predicate FromSearch(s: Source, searched: seq<string>, cap: nat, search: Search, fetch: Fetch) {
    exists q, r :: Hit(q, r, s, searched, cap, search, fetch)
  }

  /** Sources have pairwise different keys, each of them marked seen. */
  ghost predicate SourcesUnique(st: Collect) {
    && (forall i, j :: 0 <= i < j < |st.sources| ==> KeyOf(st.sources[i].url) != KeyOf(st.sources[j].url))
    && (forall i :: 0 <= i < |st.sources| ==> KeyOf(st.sources[i].url) in st.seen)
  }

  /** No key was fetched twice, and every fetched key is marked seen. */
  ghost predicate FetchedOnce(st: Collect) {
    && (forall i, j :: 0 <= i < j < |st.fetched| ==> KeyOf(st.fetched[i]) != KeyOf(st.fetched[j]))
    && (forall i :: 0 <= i < |st.fetched| ==> KeyOf(st.fetched[i]) in st.seen)
  }

  ghost predicate AllFromSearch(sources: seq<Source>, searched: seq<string>, cap: nat, search: Search, fetch: Fetch) {
    forall i :: 0 <= i < |sources| ==> FromSearch(sources[i], searched, cap, search, fetch)
  }

  /** What holds of the loop state throughout: at most `cap` sources, one per key; no URL
      key fetched twice; each source built from a hit of a search made. */
  ghost predicate Good(st: Collect, cap: nat, search: Search, fetch: Fetch) {
    && |st.sources| <= cap
    && SourcesUnique(st)
    && FetchedOnce(st)
    && AllFromSearch(st.sources, st.searched, cap, search, fetch)
  }

  /** Recording one more query keeps the state good. */
  lemma GoodSearched(st: Collect, q: string, cap: nat, search: Search, fetch: Fetch)
    requires Good(st, cap, search, fetch)
    ensures Good(st.(searched := st.searched + [q]), cap, search, fetch)
  {
    var searched := st.searched + [q];
    forall i | 0 <= i < |st.sources| ensures FromSearch(st.sources[i], searched, cap, search, fetch) {
      assert FromSearch(st.sources[i], st.searched, cap, search, fetch);
      var q0, r0 :| Hit(q0, r0, st.sources[i], st.searched, cap, search, fetch);
      assert Hit(q0, r0, st.sources[i], searched, cap, search, fetch);
    }
  }

  /** Marking a new key seen and fetching its URL keeps the state good. */
  lemma MarkGood(st: Collect, url: string, cap: nat, search: Search, fetch: Fetch)
    requires Good(st, cap, search, fetch) && KeyOf(url) !in st.seen
    ensures Good(st.(seen := st.seen + {KeyOf(url)}, fetched := st.fetched + [url]), cap, search, fetch)
  {
  }

  /** Keeping a source whose key is seen but differs from every kept one keeps the state good. */
  lemma AddGood(st: Collect, s: Source, cap: nat, search: Search, fetch: Fetch)
    requires Good(st, cap, search, fetch) && |st.sources| < cap
    requires KeyOf(s.url) in st.seen && forall i :: 0 <= i < |st.sources| ==> KeyOf(st.sources[i].url) != KeyOf(s.url)
    requires FromSearch(s, st.searched, cap, search, fetch)
    ensures Good(st.(sources := st.sources + [s]), cap, search, fetch)
  {
    AddUnique(st, s);
    AddFromSearch(st.sources, s, st.searched, cap, search, fetch);
  }

  lemma AddUnique(st: Collect, s: Source)
    requires SourcesUnique(st)
    requires KeyOf(s.url) in st.seen && forall i :: 0 <= i < |st.sources| ==> KeyOf(st.sources[i].url) != KeyOf(s.url)
    ensures SourcesUnique(st.(sources := st.sources + [s]))
  {
    var ss := st.sources + [s];
    assert forall i :: 0 <= i < |st.sources| ==> ss[i] == st.sources[i];
  }

  lemma AddFromSearch(sources: seq<Source>, s: Source, searched: seq<string>, cap: nat, search: Search, fetch: Fetch)
    requires AllFromSearch(sources, searched, cap, search, fetch)
    requires FromSearch(s, searched, cap, search, fetch)
    ensures AllFromSearch(sources + [s], searched, cap, search, fetch)
  {
    var ss := sources + [s];
    assert forall i :: 0 <= i < |sources| ==> ss[i] == sources[i];
  }

  /** A visit records no query and drops no source. */
  lemma VisitKeeps(st: Collect, r: SearchResult, fetch: Fetch)
    ensures var st2 := Visit(st, r, fetch);
            && st2.searched == st.searched
            && |st2.sources| >= |st.sources| && st2.sources[..|st.sources|] == st.sources
  {
    var key := KeyOf(r.url);
    if key in st.seen {
      assert Visit(st, r, fetch) == st;
    } else {
      var st1 := st.(seen := st.seen + {key}, fetched := st.fetched + [r.url]);
      if fetch(r.url).None? || |Normalize(fetch(r.url).value.text)| < MinBody {
        assert Visit(st, r, fetch) == st1;
      } else {
        var s := Made(r, fetch(r.url).value);
        assert Visit(st, r, fetch) == st1.(sources := st.sources + [s]);
        AppendPrefix(st.sources, [s]);
      }
    }
  }

  /** Visiting a hit of a search made keeps the state good. */
  lemma VisitGood(st: Collect, q: string, r: SearchResult, cap: nat, search: Search, fetch: Fetch)
    requires Good(st, cap, search, fetch) && |st.sources| < cap
    requires q in st.searched && search(q, cap).Ok? && r in search(q, cap).value
    ensures Good(Visit(st, r, fetch), cap, search, fetch)
  {
    var key := KeyOf(r.url);
    if key !in st.seen {
      var st1 := st.(seen := st.seen + {key}, fetched := st.fetched + [r.url]);
      MarkGood(st, r.url, cap, search, fetch);
      if fetch(r.url).Some? && |Normalize(fetch(r.url).value.text)| >= MinBody {
        var s := Made(r, fetch(r.url).value);
        assert Hit(q, r, s, st1.searched, cap, search, fetch);
        assert forall i :: 0 <= i < |st.sources| ==> KeyOf(st.sources[i].url) in st.seen;
        AddGood(st1, s, cap, search, fetch);
        assert Visit(st, r, fetch) == st1.(sources := st1.sources + [s]);
      } else {
        assert Visit(st, r, fetch) == st1;
      }
    } else {
      assert Visit(st, r, fetch) == st;
    }
  }

  /** The inner loop records no query and drops no source. */
  lemma {:induction false} ScanKeeps(st: Collect, rs: seq<SearchResult>, cap: nat, fetch: Fetch)
    ensures var st2 := Scan(st, rs, cap, fetch);
            && st2.searched == st.searched
            && |st2.sources| >= |st.sources| && st2.sources[..|st.sources|] == st.sources
    decreases |rs|
  {
    if rs != [] && |st.sources| < cap {
      var st1 := Visit(st, rs[0], fetch);
      VisitKeeps(st, rs[0], fetch);
      ScanKeeps(st1, rs[1..], cap, fetch);
      var st2 := Scan(st1, rs[1..], cap, fetch);
      assert st2.sources[..|st.sources|] == st2.sources[..|st1.sources|][..|st.sources|];
    }
  }

  /** The inner loop over hits of a search made keeps the state good. */
  lemma {:induction false} ScanGood(st: Collect, q: string, rs: seq<SearchResult>, cap: nat, search: Search, fetch: Fetch)
    requires Good(st, cap, search, fetch)
    requires q in st.searched && search(q, cap).Ok? && forall x :: x in rs ==> x in search(q, cap).value
    ensures Good(Scan(st, rs, cap, fetch), cap, search, fetch)
    decreases |rs|
  {
    if rs != [] && |st.sources| < cap {
      var st1 := Visit(st, rs[0], fetch);
      VisitGood(st, q, rs[0], cap, search, fetch);
      VisitKeeps(st, rs[0], fetch);
      assert forall x :: x in rs[1..] ==> x in rs;
      ScanGood(st1, q, rs[1..], cap, search, fetch);
    }
  }

  /** The outer loop searches a prefix of its queries, in order, and leaves queries
      unsearched only once the cap is reached. */
  lemma {:induction false} DerivedSearched(st: Collect, qs: seq<string>, cap: nat, search: Search, fetch: Fetch)
    ensures var r := Derived(st, qs, cap, search, fetch);
            r.Ok? ==>
              && |st.searched| <= |r.value.searched| <= |st.searched| + |qs|
              && r.value.searched == st.searched + qs[..|r.value.searched| - |st.searched|]
              && (|r.value.searched| < |st.searched| + |qs| ==> |r.value.sources| >= cap)
    decreases |qs|
  {
    if qs != [] && |st.sources| < cap && search(qs[0], cap).Ok? {
      var st1 := st.(searched := st.searched + [qs[0]]);
      ScanKeeps(st1, search(qs[0], cap).value, cap, fetch);
      var st2 := Scan(st1, search(qs[0], cap).value, cap, fetch);
      DerivedSearched(st2, qs[1..], cap, search, fetch);
      var r := Derived(st2, qs[1..], cap, search, fetch);
      assert Derived(st, qs, cap, search, fetch) == r;
      assert st2.searched == st.searched + [qs[0]];
      if r.Ok? {
        PrefixStep(st.searched, qs, |r.value.searched| - |st2.searched|);
      }
    }
  }

  lemma PrefixStep(a: seq<string>, qs: seq<string>, k: nat)
    requires qs != [] && k <= |qs| - 1
    ensures a + [qs[0]] + qs[1..][..k] == a + qs[..k + 1]
  {
    assert [qs[0]] + qs[1..][..k] == qs[..k + 1];
  }

  /** The outer loop keeps the state good. */
  lemma {:induction false} DerivedGood(st: Collect, qs: seq<string>, cap: nat, search: Search, fetch: Fetch)
    requires Good(st, cap, search, fetch)
    ensures Derived(st, qs, cap, search, fetch).Ok? ==> Good(Derived(st, qs, cap, search, fetch).value, cap, search, fetch)
    decreases |qs|
  {
    if qs != [] && |st.sources| < cap && search(qs[0], cap).Ok? {
      var st1 := st.(searched := st.searched + [qs[0]]);
      GoodSearched(st, qs[0], cap, search, fetch);
      ScanGood(st1, qs[0], search(qs[0], cap).value, cap, search, fetch);
      DerivedGood(Scan(st1, search(qs[0], cap).value, cap, fetch), qs[1..], cap, search, fetch);
    }
  }

  /** The result of `runResearch` is a good state. */
  lemma ResearchGood(topic: string, maxSources: Option<int>, search: Search, fetch: Fetch)
    requires ResearchSpec(topic, maxSources, search, fetch).Ok?
    ensures Good(ResearchSpec(topic, maxSources, search, fetch).value, Cap(maxSources), search, fetch)
  {
    var cap := Cap(maxSources);
    assert Good(Start, cap, search, fetch);
    DerivedGood(Start, Queries(topic), cap, search, fetch);
    var st := Derived(Start, Queries(topic), cap, search, fetch).value;
    if NeedsFallback(st, cap) {
      var st1 := st.(searched := st.searched + [topic]);
      GoodSearched(st, topic, cap, search, fetch);
      ScanGood(st1, topic, search(topic, cap).value, cap, search, fetch);
    }
  }

  /** What `runResearch` guarantees about its result: at most `cap` sources with pairwise
      different keys, no URL key fetched twice, and every source taken from a hit of a search
      made, its page text normalised, at least 500 characters long and cut to 15000. */
  lemma ResearchGuarantees(topic: string, maxSources: Option<int>, search: Search, fetch: Fetch)
    requires ResearchSpec(topic, maxSources, search, fetch).Ok?
    ensures var out := ResearchSpec(topic, maxSources, search, fetch).value;
            var cap := Cap(maxSources);
            && |out.sources| <= cap <= 10
            && (forall i, j :: 0 <= i < j < |out.sources| ==> KeyOf(out.sources[i].url) != KeyOf(out.sources[j].url))
            && (forall i, j :: 0 <= i < j < |out.fetched| ==> KeyOf(out.fetched[i]) != KeyOf(out.fetched[j]))
            && (forall i :: 0 <= i < |out.sources| ==> FromSearch(out.sources[i], out.searched, cap, search, fetch))
            && (forall i :: 0 <= i < |out.sources| ==> out.sources[i].content.Some? && |out.sources[i].content.value| <= MaxContent)
  {
    ResearchGood(topic, maxSources, search, fetch);
    GoodFacts(ResearchSpec(topic, maxSources, search, fetch).value, Cap(maxSources), search, fetch);
  }

  /** A good state, spelt out, with the content bound that every hit's source meets. */
  lemma GoodFacts(st: Collect, cap: nat, search: Search, fetch: Fetch)
    requires Good(st, cap, search, fetch)
    ensures && |st.sources| <= cap
            && (forall i, j :: 0 <= i < j < |st.sources| ==> KeyOf(st.sources[i].url) != KeyOf(st.sources[j].url))
            && (forall i, j :: 0 <= i < j < |st.fetched| ==> KeyOf(st.fetched[i]) != KeyOf(st.fetched[j]))
            && (forall i :: 0 <= i < |st.sources| ==> FromSearch(st.sources[i], st.searched, cap, search, fetch))
            && (forall i :: 0 <= i < |st.sources| ==> st.sources[i].content.Some? && |st.sources[i].content.value| <= MaxContent)
  {
    forall i | 0 <= i < |st.sources|
      ensures st.sources[i].content.Some? && |st.sources[i].content.value| <= MaxContent
    {
      SearchedContent(st.sources[i], st.searched, cap, search, fetch);
    }
  }

  lemma SearchedContent(s: Source, searched: seq<string>, cap: nat, search: Search, fetch: Fetch)
    requires FromSearch(s, searched, cap, search, fetch)
    ensures s.content.Some? && MinBody <= |s.content.value| <= MaxContent
    ensures Collapsed(s.content.value) && !IsSpace(s.content.value[0])
  {
    var q, r :| Hit(q, r, s, searched, cap, search, fetch);
    var ex := fetch(r.url).value;
    assert s == Made(r, ex);
    TakeNormalized(ex.text);
  }

  /** A cut of normalised text is still collapsed and free of leading whitespace. */
  lemma TakeNormalized(text: string)
    requires |Normalize(text)| >= MinBody
    ensures var c := Take(Normalize(text), MaxContent);
            MinBody <= |c| && Collapsed(c) && !IsSpace(c[0])
  {
    var body := Normalize(text);
    var c := Take(body, MaxContent);
    assert forall i :: 0 <= i < |c| ==> c[i] == body[i];
  }

  /** The queries go out in the fixed order, stopping at the cap, and the bare topic is
      searched last exactly when fewer than `min(3, cap)` sources came from them; the
      fallback only adds sources after those already found. */
  lemma ResearchQueryOrder(topic: string, maxSources: Option<int>, search: Search, fetch: Fetch)
    requires ResearchSpec(topic, maxSources, search, fetch).Ok?
    ensures var cap := Cap(maxSources);
            var st := Derived(Start, Queries(topic), cap, search, fetch).value;
            var out := ResearchSpec(topic, maxSources, search, fetch).value;
            && |st.searched| <= 4 && st.searched == Queries(topic)[..|st.searched|]
            && (|st.searched| < 4 ==> |st.sources| >= cap)
            && out.searched == st.searched + (if NeedsFallback(st, cap) then [topic] else [])
            && |out.sources| >= |st.sources| && out.sources[..|st.sources|] == st.sources
  {
    var cap := Cap(maxSources);
    DerivedSearched(Start, Queries(topic), cap, search, fetch);
    var st := Derived(Start, Queries(topic), cap, search, fetch).value;
    if NeedsFallback(st, cap) {
      ScanKeeps(st.(searched := st.searched + [topic]), search(topic, cap).value, cap, fetch);
    }
  }

  /** `runResearch`, as the agent runs it: nested loops over the queries and their results. */
  method RunResearch(topic: string, maxSources: Option<int>, search: Search, fetch: Fetch)
    returns (r: Result<Collect, Thrown>)
    ensures r == ResearchSpec(topic, maxSources, search, fetch)
  {
    var cap := Cap(maxSources);
    var queries := Queries(topic);
    var seen: set<string> := {};
    var sources: seq<Source> := [];
    var searched: seq<string> := [];
    var fetched: seq<string> := [];
    var i := 0;
    while i < |queries| && |sources| < cap
      invariant 0 <= i <= |queries|
      invariant Derived(Start, queries, cap, search, fetch)
             == Derived(Collect(seen, sources, searched, fetched), queries[i..], cap, search, fetch)
    {
      var q := queries[i];
      var res := search(q, cap);
      if res.Err? {
        return Err(res.error);
      }
      searched := searched + [q];
      seen, sources, fetched := ScanResults(res.value, cap, fetch, seen, sources, searched, fetched);
      i := i + 1;
    }
    assert Derived(Start, queries, cap, search, fetch) == Ok(Collect(seen, sources, searched, fetched));
    if |sources| < (if cap < 3 then cap else 3) {
      var res := search(topic, cap);
      if res.Err? {
        return Err(res.error);
      }
      searched := searched + [topic];
      seen, sources, fetched := ScanResults(res.value, cap, fetch, seen, sources, searched, fetched);
    }
    r := Ok(Collect(seen, sources, searched, fetched));
  }

  /** The loop `for (const r of results)` shared by both phases. */
  method ScanResults(rs: seq<SearchResult>, cap: nat, fetch: Fetch,
                     seen0: set<string>, sources0: seq<Source>, searched: seq<string>, fetched0: seq<string>)
    returns (seen: set<string>, sources: seq<Source>, fetched: seq<string>)
    ensures Collect(seen, sources, searched, fetched) == Scan(Collect(seen0, sources0, searched, fetched0), rs, cap, fetch)
  {
    seen, sources, fetched := seen0, sources0, fetched0;
    var j := 0;
    while j < |rs| && |sources| < cap
      invariant 0 <= j <= |rs|
      invariant Scan(Collect(seen0, sources0, searched, fetched0), rs, cap, fetch)
             == Scan(Collect(seen, sources, searched, fetched), rs[j..], cap, fetch)
    {
      ScanStep(Collect(seen, sources, searched, fetched), rs[j..], cap, fetch);
      assert rs[j..][1..] == rs[j + 1..];
      seen, sources, fetched := VisitResult(rs[j], fetch, seen, sources, searched, fetched);
      j := j + 1;
    }
    ScanDone(Collect(seen, sources, searched, fetched), rs[j..], cap, fetch);
  }

  /** One pass of the loop body: skip a seen key, else mark it, fetch, and keep a long enough page. */
  method VisitResult(x: SearchResult, fetch: Fetch,
                     seen0: set<string>, sources0: seq<Source>, searched: seq<string>, fetched0: seq<string>)
    returns (seen: set<string>, sources: seq<Source>, fetched: seq<string>)
    ensures Collect(seen, sources, searched, fetched) == Visit(Collect(seen0, sources0, searched, fetched0), x, fetch)
  {
    seen, sources, fetched := seen0, sources0, fetched0;
    var key := KeyOf(x.url);
    if key in seen {
      return;
    }
    seen := seen + {key};
    fetched := fetched + [x.url];
    var page := fetch(x.url);
    if page.None? {
      return;
    }
    var body := Normalize(page.value.text);
    if |body| < MinBody {
      return;
    }
    sources := sources + [Source(if x.title != "" then x.title else page.value.title, x.url, x.snippet, Some(Take(body, MaxContent)))];
  }
}
