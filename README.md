# mr-blog, modelled in Dafny

mr-blog generates a blog post from a topic and a list of questions. A
*research* agent searches the web and collects sources. An *analyst*
summarises each source and picks its key takeaways. A *strategist* builds an
outline and renders Markdown with a front matter. The orchestrator runs the
three stages in order. A streaming HTTP route reports each stage to the
browser as server-sent events, and the home page reads that stream back.
Around this sit a three-tier cache (memory, optional Redis, optional
database), a fixed-window rate limiter, request validation and a sanitiser, a
retry loop with exponential backoff, a performance monitor with budgets, the
error classes and their HTTP codes, and the aggregation arithmetic of the
database services.

This project models that core and proves what the code promises about it.
The form of each module follows the source:

- Code that changes state step by step becomes Dafny methods with loops and
  invariants, proved equal to a specification function. The functions' own
  properties are then proved as lemmas. This covers the research loop, the
  per-source LLM loop of the analyst, `buildOutline`, the retry loop, the
  analytics tallies, the client's frame loop, and the stream controller.
- Objects whose methods update fields become classes with `modifies` frames:
  `DatabaseCache`, `MultiTierCache`, the cache counters, the rate limiter and
  the two performance monitors.
- Pure code becomes functions with lemmas.

Everything the core gets from outside is a parameter of the model:

- **Oracles** (function parameters): web search, page fetch and extraction,
  the LLM replies, the slug maker, the date, the file write, and the outcome
  of each Redis or database call (a `Faults` flag per tier).
- **Values passed in**: clocks, as integers or reals.
- **Input lists**: Prisma query results.

Modules, one per source file, plus shared helpers:

| module | source |
|---|---|
| `AgentTypes` | `src/lib/agents/types.ts`, the model-name default |
| `Researcher` | `src/lib/agents/researcher.ts` |
| `Analyst` | `src/lib/agents/analyst.ts` |
| `Strategist` | `src/lib/agents/strategist.ts` |
| `Orchestrator` | `src/lib/orchestrator.ts` |
| `Cache` | `src/lib/utils/cache.ts` |
| `Validation` | `src/lib/utils/validation.ts` |
| `Retry` | `src/lib/utils/retry.ts` |
| `Performance` | `src/lib/utils/performance.ts` |
| `Errors` | `src/lib/utils/errors.ts` |
| `Database` | the pure parts of `src/lib/utils/database.ts` |
| `StreamRoute` | `src/app/api/generate/stream/route.ts` |
| `GenerateRoute` | the error mapping of `src/app/api/generate/route.ts` |
| `ClientPage` | the question splitting and the frame loop of `src/app/page.tsx` |
| `Json` | `JSON.stringify` of strings and string-valued objects, and the matching `JSON.parse` |
| `Text` | trim, whitespace collapse, split and join, number formatting, code-point order |
| `Assoc` | insertion-ordered maps as key-value lists |
| `Arrays` | stable sort by comparator, sums, counting |
| `Wrappers` | `Option` and `Result` |

## Model

| member | source | states |
|---|---|---|
| AgentTypes.ModelName | src/lib/agents/analyst.ts:35 | `model \|\| 'gpt-4o-mini'`. A non-empty model is used as given. An absent or empty one gives `gpt-4o-mini`. |
| Researcher.Cap | src/lib/agents/researcher.ts:6 | The cap is always between 1 and 10. It is 6 when `maxSources` is absent. A request between 1 and 10 is taken as it is, one below 1 gives 1, and one above 10 gives 10. |
| Researcher.KeyOf | src/lib/agents/researcher.ts:23 | The dedup key is a prefix of the URL. A URL with no `#` or `?` is its own key. |
| Researcher.KeyOfClean | src/lib/agents/researcher.ts:23 | For a URL without line breaks, the key is the URL up to its first `#` or `?`: it holds neither, and it is the whole URL or is followed by one of them. Normalising a key again changes nothing. |
| Researcher.ScanStep | src/lib/agents/researcher.ts:21-22 | Below the cap, scanning search results visits the first result and then scans the rest. |
| Researcher.ScanDone | src/lib/agents/researcher.ts:21-22 | Scanning stops once the results run out or the cap is reached. |
| Researcher.VisitKeeps | src/lib/agents/researcher.ts:22-34 | Visiting one result never drops or reorders the sources already collected. |
| Researcher.VisitGood | src/lib/agents/researcher.ts:22-34 | Visiting a result keeps the collector's invariant. The invariant covers the cap, distinct keys of sources and of fetched URLs, each source coming from a search result, and bounded content. |
| Researcher.MarkGood | src/lib/agents/researcher.ts:24-25 | Marking an unseen key as seen before fetching keeps the invariant. |
| Researcher.AddGood | src/lib/agents/researcher.ts:29-31 | Adding a source with a fresh key, one that came from a search, keeps the invariant while below the cap. |
| Researcher.AddUnique | src/lib/agents/researcher.ts:24-31 | Adding a source whose key is seen but not yet among the sources keeps the keys distinct. |
| Researcher.AddFromSearch | src/lib/agents/researcher.ts:26-31 | Appending a source that came from a search keeps every source traceable to a search. |
| Researcher.GoodSearched | src/lib/agents/researcher.ts:18-20 | Recording one more searched query keeps the invariant. |
| Researcher.ScanKeeps | src/lib/agents/researcher.ts:21-35 | Scanning keeps the list of searched queries and only appends sources. |
| Researcher.ScanGood | src/lib/agents/researcher.ts:20-35 | Scanning the results of a performed search keeps the invariant. |
| Researcher.DerivedSearched | src/lib/agents/researcher.ts:8-19 | The derived queries are searched as a prefix of the fixed list. The list stops early only once the cap is reached. |
| Researcher.DerivedGood | src/lib/agents/researcher.ts:18-36 | The derived-query phase keeps the invariant. |
| Researcher.ResearchGood | src/lib/agents/researcher.ts:6-58 | The whole research run ends in a state satisfying the invariant. |
| Researcher.ResearchGuarantees | src/lib/agents/researcher.ts:19-58 | The run returns at most cap (≤ 10) sources. Their keys are pairwise distinct, and no key is fetched twice, fallback included. Each source comes from a search result with content of at most 15000 characters. |
| Researcher.GoodFacts | src/lib/agents/researcher.ts:19-58 | The invariant implies the cap bound, both kinds of key distinctness, search provenance and the content bound. |
| Researcher.SearchedContent | src/lib/agents/researcher.ts:29-31 | A source that came from a search carries content of 500 to 15000 characters. The content has no whitespace at its start, and each whitespace run is a single space. See also line 30 of the same file. |
| Researcher.ResearchQueryOrder | src/lib/agents/researcher.ts:8-40 | The queries run in the order "overview", "latest news", "research analysis", "trends 2025", stopping only at the cap. The raw topic is searched afterwards exactly when fewer than min(3, cap) sources were found. Fallback sources are appended after the others. |
| Researcher.RunResearch | src/lib/agents/researcher.ts:5-59 | The imperative collector with its `seen` set and loops returns exactly the research specification. |
| Researcher.ScanResults | src/lib/agents/researcher.ts:21-35 | The loop over one query's results equals the scan specification. |
| Researcher.VisitResult | src/lib/agents/researcher.ts:22-34 | One iteration computes exactly what the visit specification does. That specification covers the seen check, marking before fetch, extraction failure skipped, the length filter at 500, truncation, and title fallback. |
| Analyst.RunLength | src/lib/agents/analyst.ts:7 | The length of the longest prefix free of `.`, `!` and `?`, with the terminator right after it. |
| Analyst.Sentences | src/lib/agents/analyst.ts:7-13 | Every match of `[^.!?]+[.!?]` is a non-empty run of non-terminators ended by one terminator. SentencesLayout and SentencesCount say where the matches lie and how many there are. |
| Analyst.SentencesLayout | src/lib/agents/analyst.ts:7 | The matches occur in the text left to right: the text is a run of terminators, the first match, a run of terminators, the second match, and so on, then a tail holding no match. |
| Analyst.SentencesCount | src/lib/agents/analyst.ts:7 | There is exactly one match per place where a non-terminator is directly followed by a terminator, so no match is missed. |
| Analyst.SentencesEmpty | src/lib/agents/analyst.ts:7-13 | There are no matches exactly when the text holds no terminator preceded by a non-terminator. |
| Analyst.Summarize | src/lib/agents/analyst.ts:4-9 | The summary is trimmed. With no sentence match it is the trimmed text. Otherwise it is the first `maxSentences` matches of the whitespace-collapsed text, joined by one space and trimmed. |
| Analyst.SummarizeEmpty | src/lib/agents/analyst.ts:4-9 | The summary is empty exactly when `maxSentences` is 0 or the text is blank. |
| Analyst.SentenceIn | src/lib/agents/analyst.ts:7 | Every character of a sentence occurs in the text. |
| Analyst.CollapseKeepsNonSpace | src/lib/agents/analyst.ts:6 | Collapsing whitespace adds no non-space character. |
| Analyst.TrimAll | src/lib/agents/analyst.ts:14 | Each sentence is trimmed, one for one. |
| Analyst.LongOnes | src/lib/agents/analyst.ts:15 | The kept sentences are longer than 60, keep their order (a subsequence) and stay trimmed. |
| Analyst.LongOnesMembers | src/lib/agents/analyst.ts:15 | A sentence is kept exactly when it occurs in the input and is longer than 60. |
| Analyst.ExtractBullets | src/lib/agents/analyst.ts:11-18 | There are 1 to 5 bullets. With n candidates, the bullets are exactly the first min(5, n) candidates in text order, each trimmed and longer than 60. Without candidates there is exactly `[summarize(text, 1)]`. |
| Analyst.AnalyzedText | src/lib/agents/analyst.ts:40-56 | The analysed text is the content if non-empty, else the snippet, else empty. |
| Analyst.Heuristic | src/lib/agents/analyst.ts:53-57 | The heuristic entry keeps the source unchanged and has 1 to 5 takeaways. |
| Analyst.FromReply | src/lib/agents/analyst.ts:36-49 | A parsed reply's non-empty summary and takeaways are used. A missing or empty one falls back to the heuristic value. The source is kept. |
| Analyst.AnalyzeOne | src/lib/agents/analyst.ts:23-57 | Each entry keeps its source and has at least one takeaway, in either mode. |
| Analyst.AskModel | src/lib/agents/analyst.ts:27-50 | One LLM-mode iteration, including the catch of a failed request, equals the per-source specification. |
| Analyst.Each | src/lib/agents/analyst.ts:53-57 | A map: one result per source, in order. |
| Analyst.EachSnoc | src/lib/agents/analyst.ts:23-51 | Mapping a longer prefix appends one entry. This is the step of the LLM loop. |
| Analyst.Analysis | src/lib/agents/analyst.ts:20-58 | There is exactly one entry per input source, in input order. Each keeps its source and has at least one takeaway. |
| Analyst.RunAnalysis | src/lib/agents/analyst.ts:20-58 | `runAnalysis`, in both modes, returns exactly the analysis specification. |
| Analyst.AskEach | src/lib/agents/analyst.ts:23-51 | The LLM loop that pushes one entry per source equals the analysis specification. |
| Analyst.AnalysisHeuristic | src/lib/agents/analyst.ts:21-57 | Without `useLLM` and an API key, the result is the heuristic map. |
| Analyst.AnalysisProperties | src/lib/agents/analyst.ts:21-57 | The source is kept and there is at least one takeaway. Heuristic mode gives the heuristic entry. A failed call, or a reply with neither field, also gives the heuristic entry. |
| Strategist.TakeawaysFor | src/lib/agents/strategist.ts:43 | Question i is paired with `analyzed[i]`'s takeaways when that entry exists, else with none. |
| Strategist.BuildOutline | src/lib/agents/strategist.ts:6-20 | The pushing loop builds exactly the heuristic outline. |
| Strategist.OutlineLayout | src/lib/agents/strategist.ts:6-43 | There are n + 2 sections. The first is "Introduction to <topic>", then one per question in order with at most its first 5 takeaways (none without an entry), then "Conclusion" with its two fixed points. |
| Strategist.TitleCount | src/lib/agents/strategist.ts:41 | The title is "<topic>: Answers to <n> Key Questions", whose digits spell the number of questions. |
| Strategist.EntryLines | src/lib/agents/strategist.ts:23 | One `key: JSON(value)` line per entry, in order, then the closing `---`. |
| Strategist.FrontMatterLines | src/lib/agents/strategist.ts:23 | The front matter is `---`, the entry lines in order, and `---`. |
| Strategist.SourceLines | src/lib/agents/strategist.ts:33 | One `- [title](url)` line per source. |
| Strategist.EntryLineNoBreak | src/lib/agents/strategist.ts:23 | An entry line holds no line break and is not a fence, since JSON escapes the value. |
| Strategist.ReadEntryLine | src/lib/agents/strategist.ts:23 | An entry line with a colon-free key reads back to the same key and value. |
| Strategist.ReadEntriesLines | src/lib/agents/strategist.ts:23 | The entry lines read back to the entries, whatever follows the closing fence. |
| Strategist.LinesNoBreak | src/lib/agents/strategist.ts:23 | No front-matter line holds a line break. |
| Strategist.FrontMatterRoundTrip | src/lib/agents/strategist.ts:23-36 | A front matter followed by a line break and any text reads back to the same entries. |
| Strategist.MarkdownFrontMatter | src/lib/agents/strategist.ts:22-37 | The heuristic Markdown's front matter reads back as written. |
| Strategist.MarkdownLines | src/lib/agents/strategist.ts:22-37 | Without line breaks in the texts, the Markdown cut at its line breaks has this layout: the front-matter lines, a blank line, `# title`, a blank line, each section's heading, points and blank line, `## Sources`, one line per source, and an empty last line. |
| Strategist.SectionNoBreak | src/lib/agents/strategist.ts:27-31 | A section's lines hold no line break when its heading and points hold none. |
| Strategist.OutlineNoBreak | src/lib/agents/strategist.ts:27-31 | The same for all sections. |
| Strategist.BodyNoBreak | src/lib/agents/strategist.ts:24-35 | The same for the whole body. |
| Strategist.LlmMarkdownFrontMatter | src/lib/agents/strategist.ts:77-109 | The Markdown around the model's body carries the same front matter, which reads back. |
| Strategist.AroundFrontMatter | src/lib/agents/strategist.ts:98-107 | A front matter, a blank line and any text read back to the front matter's entries. |
| Strategist.TitleUrls | src/lib/agents/strategist.ts:33 | The (title, url) pairs of the analysed sources, in order and one for one. See also line 110 of the same file. |
| Strategist.OutputSources | src/lib/agents/strategist.ts:110 | The returned sources are the analysed sources' title and url, in order and one for one. |
| Strategist.RunStrategy | src/lib/agents/strategist.ts:39-111 | `runStrategy`, with its reassigned outline and Markdown, returns exactly the strategy specification. |
| Strategist.StrategyProperties | src/lib/agents/strategist.ts:40-110 | The title is "<topic>: Answers to <n> Key Questions" and the slug is made from "<date>-<title>". The sources are the analysed titles and urls. Without LLM mode the outline is the heuristic one. In LLM mode, the model's outline replaces the heuristic one exactly when the reply holds one, and otherwise the heuristic one is kept. The model's body replaces the heuristic Markdown when the writing call succeeds, and otherwise the heuristic Markdown is kept. See also lines 93-108 of the same file. |
| Strategist.StrategyFails | src/lib/agents/strategist.ts:56-69 | The strategy fails exactly in LLM mode with an unrenderable model outline, and it fails with the renderer's error. |
| Strategist.PointlessOutlineThrows | src/lib/agents/strategist.ts:29 | As written, an outline section without `points` makes `toMarkdown` throw a TypeError out of `runStrategy`. |
| Strategist.StrategyCorrected | src/lib/agents/strategist.ts:39-111 | With an unrenderable reply read as no outline, the strategy always produces a post. Its outline is the model's when the reply holds one, else the heuristic one. |
| Strategist.FrontMatterPlain | src/lib/agents/strategist.ts:69-76 | The six front-matter keys have no colon or line break. |
| Strategist.StrategyFrontMatter | src/lib/agents/strategist.ts:40-110 | In either mode, the post's front matter reads back as title, date, slug, topic, audience and tone. Audience and tone take their defaults when absent. |
| Orchestrator.GeneratePost | src/lib/orchestrator.ts:16-30 | A research failure is the result unchanged. A success implies research succeeded. |
| Orchestrator.GeneratePostSources | src/lib/orchestrator.ts:17-29 | There are as many output sources as research sources, position by position (title, url). Their number is at most the cap, at most 10, and at most 6 when `maxSources` is absent. |
| Orchestrator.GeneratePostFrontMatter | src/lib/orchestrator.ts:18-29 | The title counts the questions and the slug comes from the date and the title. The front matter reads back with the caller's topic, audience and tone, or their defaults. |
| Orchestrator.GeneratePostHeuristic | src/lib/orchestrator.ts:18-29 | Without LLM mode the outline is built from the heuristic analysis of exactly the research sources. |
| Cache.Parse | src/lib/utils/cache.ts:188-191 | A stored text is returned exactly when it is neither empty nor `null`. |
| Cache.DbGet | src/lib/utils/cache.ts:65-93 | A failing tier changes nothing and returns `null`. A missing row counts a miss. An expired row (expiresAt < now) is deleted and counts a miss and a delete. A live row is returned and counts a hit. |
| Cache.NewRow | src/lib/utils/cache.ts:95-113 | The upserted row holds the value. It expires ttl after now when ttl is truthy, else never. Its tags are comma-joined, or left as before when none are given. |
| Cache.DbSet | src/lib/utils/cache.ts:95-122 | The key gets the new row and a set is counted. Other rows are unchanged. A failure changes nothing. |
| Cache.DbDelete | src/lib/utils/cache.ts:124-137 | An existing row is removed and a delete counted. Otherwise, or on failure, nothing changes. |
| Cache.DbInvalidate | src/lib/utils/cache.ts:139-158 | Exactly the rows whose tag string contains one of the tags are removed. The others are unchanged. |
| Cache.DbCleanup | src/lib/utils/cache.ts:160-179 | Exactly the rows with expiresAt ≤ now are removed. The others are unchanged. |
| Cache.TtlOf | src/lib/utils/cache.ts:237 | The memory ttl is the caller's when truthy, else 900000. |
| Cache.HitRate | src/lib/utils/cache.ts:301-307 | hits / (hits + misses), between 0 and 1, and 0 when there were no lookups. |
| Cache.SetThenGet | src/lib/utils/cache.ts:236-258 | After `set`, `get` of the key returns the value from memory and counts one hit, nothing else. See also lines 186-192 of the same file. |
| Cache.GetMemoryFirst | src/lib/utils/cache.ts:186-192 | A memory hit is returned first and counts a hit. |
| Cache.GetRedisBackfill | src/lib/utils/cache.ts:195-212 | A Redis hit after a memory miss is copied into memory with ttl 900000. Redis and the database are unchanged. One hit is counted. |
| Cache.GetDbBackfill | src/lib/utils/cache.ts:215-230 | A database hit is copied into memory, and into Redis with 900 s when Redis answers. One hit is counted. |
| Cache.MissCountedTwice | src/lib/utils/cache.ts:72 | A miss in every tier with a database counts two misses and changes nothing else. See also line 232 of the same file. |
| Cache.MissCountedOnce | src/lib/utils/cache.ts:232 | Without a database a total miss counts one miss. |
| Cache.SetCounts | src/lib/utils/cache.ts:114 | `set` counts two sets with a working database and one otherwise. Hits and misses are unchanged. See also line 257 of the same file. |
| Cache.SetWritesAll | src/lib/utils/cache.ts:236-258 | Memory gets the value with the ttl (default 900000). Redis gets it with floor(ttl/1000) s. The database gets it with the caller's ttl, or no expiry. See also line 97 of the same file. |
| Cache.DeleteRemoves | src/lib/utils/cache.ts:260-279 | The key is gone from every working tier, the other memory entries are kept, and the delete count is right. |
| Cache.InvalidateClears | src/lib/utils/cache.ts:281-299 | Memory is cleared and Redis flushed whatever the tags. The database keeps exactly the untagged rows. The stats are unchanged. |
| Cache.InvalidateBySubstring | src/lib/utils/cache.ts:139-148 | A row tagged "posts" is removed by tag "post", because the match is on a substring, and kept by tag "news". |
| Cache.ExpiryBoundary | src/lib/utils/cache.ts:77-81 | A row expiring at now is still served by `get` but removed by `cleanup`. One step later `get` deletes it. See also lines 162-167 of the same file. |
| Cache.NoTtlNeverExpires | src/lib/utils/cache.ts:97 | A row set without ttl is served and survives cleanup at any later time. |
| Cache.InvalidateStep | src/lib/utils/cache.ts:141-148 | Each tag of the loop removes the rows whose tag string contains it. |
| Cache.Stats.constructor | src/lib/utils/cache.ts:25-30 | All counters start at 0. |
| Cache.DatabaseCache.constructor | src/lib/utils/cache.ts:62-63 | An empty table over the shared counters. |
| Cache.DatabaseCache.Get | src/lib/utils/cache.ts:65-93 | Rows and counters change exactly as `DbGet` says, and the result is its value. |
| Cache.DatabaseCache.Set | src/lib/utils/cache.ts:95-122 | Rows and counters change exactly as `DbSet` says. |
| Cache.DatabaseCache.Delete | src/lib/utils/cache.ts:124-137 | Rows and counters change exactly as `DbDelete` says. |
| Cache.DatabaseCache.InvalidateByTags | src/lib/utils/cache.ts:139-158 | The loop over tags leaves exactly `DbInvalidate`'s rows. |
| Cache.DatabaseCache.Cleanup | src/lib/utils/cache.ts:160-179 | The rows become exactly `DbCleanup`'s. |
| Cache.MultiTierCache.constructor | src/lib/utils/cache.ts:183-184 | Empty memory, an empty or absent Redis, the given database tier, shared counters. |
| Cache.MultiTierCache.Get | src/lib/utils/cache.ts:186-234 | The read-through with back-fill changes the tiers and counters exactly as the specification says. |
| Cache.MultiTierCache.Set | src/lib/utils/cache.ts:236-258 | Write-to-all, exactly as the specification says. |
| Cache.MultiTierCache.Delete | src/lib/utils/cache.ts:260-279 | Delete from every tier, exactly as the specification says. |
| Cache.MultiTierCache.InvalidateByTags | src/lib/utils/cache.ts:281-299 | Invalidation, exactly as the specification says. |
| Cache.MultiTierCache.GetStats | src/lib/utils/cache.ts:301-307 | The counters and their hit rate. |
| Cache.KeysDetermineArgument | src/lib/utils/cache.ts:311-322 | Post, content, HTML, analysis and tag keys are injective in their argument. |
| Validation.ValidateInput | src/lib/utils/validation.ts:80-94 | The request is accepted exactly when the schema holds, and then returned unchanged. Otherwise it throws a plain `Error` "<message>: <issues>". It uses the schema of lines 5-37 of the same file. |
| Validation.AcceptedBounds | src/lib/utils/validation.ts:9-20 | An accepted request has 1 to 10 questions and `maxSources` absent or an integer 3 to 10. |
| Validation.Remove | src/lib/utils/validation.ts:60-62 | Removal keeps exactly the characters not dropped, and no dropped one remains. |
| Validation.RemoveNothing | src/lib/utils/validation.ts:60-62 | Removing from clean text is the identity. |
| Validation.SanitizeClean | src/lib/utils/validation.ts:59-64 | The result is trimmed, has no `<`, `>`, U+0000-U+001F or U+007F-U+009F, and adds no character. |
| Validation.SanitizeFixed | src/lib/utils/validation.ts:59-64 | Text is left unchanged exactly when it is already trimmed and clean. |
| Validation.SanitizeIdempotent | src/lib/utils/validation.ts:59-64 | Sanitising twice equals sanitising once. |
| Validation.SlugSurvivesSanitize | src/lib/utils/validation.ts:39-64 | A valid slug is unchanged by the sanitiser. |
| Validation.CheckTouchesCaller | src/lib/utils/validation.ts:99-121 | Only the caller's entry changes. A refusal changes nothing. An accepted call inside the window increments the count. |
| Validation.Run | src/lib/utils/validation.ts:99-121 | One answer per call in a sequence of calls. |
| Validation.RunInsideWindow | src/lib/utils/validation.ts:115-120 | Inside one window, call i is accepted exactly when count + i < maxRequests, and the reset time stays. |
| Validation.SixthRequestRefused | src/lib/utils/validation.ts:104-120 | With limit 5 and a 60 s window, six calls in one window are answered true five times, then false. |
| Validation.WindowEndInclusive | src/lib/utils/validation.ts:109-115 | At now == resetTime a full window still refuses. One step later the window restarts with count 1. |
| Validation.Info | src/lib/utils/validation.ts:123-136 | `null` exactly for an unknown identifier. Otherwise remaining ≥ 0 and the stored reset time. |
| Validation.InfoAgreesWithDefaultLimit | src/lib/utils/validation.ts:115-135 | With limit 10, a call inside the window is accepted exactly when some requests remain, and then one fewer remains. |
| Validation.RateLimiter.constructor | src/lib/utils/validation.ts:97 | The counts start empty. |
| Validation.RateLimiter.CheckRateLimit | src/lib/utils/validation.ts:99-121 | The map update and the answer are exactly those of the fixed-window check. |
| Validation.RateLimiter.GetRateLimitInfo | src/lib/utils/validation.ts:123-136 | The answer is `Info` of the current counts. |
| Retry.DefaultShouldRetry | src/lib/utils/retry.ts:15-23 | An `Error` with a numeric status is retried exactly when status ≥ 500. Everything else is retried. |
| Retry.Merge | src/lib/utils/retry.ts:11-31 | Missing options take 3 attempts and 1000 ms. |
| Retry.RetryAsync | src/lib/utils/retry.ts:26-76 | The attempt loop (its result, the number of calls and the waits) is exactly the retry specification. |
| Retry.AttemptsFacts | src/lib/utils/retry.ts:33-68 | From attempt k: calls stay within maxAttempts, and one wait `Delay(k+i)` follows each retried failure. Every earlier call failed and was retryable. A success is returned at once. A failure ends the loop only at the last attempt or when shouldRetry refuses. |
| Retry.RetryFacts | src/lib/utils/retry.ts:33-75 | fn is called 1 to maxAttempts times (never when maxAttempts ≤ 0). The waits are delayMs·m^i, one fewer than the calls. The thrown error is the last one received. |
| Retry.DefaultSchedule | src/lib/utils/retry.ts:11-66 | With the defaults and three retryable failures: three calls, waits of 1000 and 2000 ms, and the third error thrown. |
| Retry.FetchAttempt | src/lib/utils/retry.ts:84-106 | An answer is a success exactly when `ok`. A success is that response. |
| Retry.HttpContextStatus | src/lib/utils/retry.ts:93-99 | The NetworkError of a non-ok response carries its status. |
| Retry.FetchRetryClassification | src/lib/utils/retry.ts:93-116 | A non-ok answer is retried exactly when its status is ≥ 500 or 429, or 0, which `\|\|` treats as missing. A TypeError is always retried. |
| Retry.FetchWithRetry | src/lib/utils/retry.ts:78-119 | `fetchWithRetry` is the retry loop over fetch attempts with the fetch classification. |
| Retry.NotFoundNotRetried | src/lib/utils/retry.ts:93-116 | A 404 answer is thrown after one call with no wait, as a NetworkError (500) carrying status 404. |
| Performance.Round | src/lib/utils/performance.ts:69 | `Math.round`: the nearest integer, halves rounded up. |
| Performance.StartSpec | src/lib/utils/performance.ts:24-29 | `start` inserts or overwrites one entry and keeps the keys distinct. Nothing is stored. |
| Performance.EndFacts | src/lib/utils/performance.ts:39-86 | An unknown id gives 0 and leaves everything unchanged. A known id gives now − startTime and removes only that entry. Round(duration), the status and the metadata are stored only when a service exists and does not fail. |
| Performance.StartThenEnd | src/lib/utils/performance.ts:24-86 | `end` after `start` returns the elapsed time, removes the entry, keeps the other entries as before, and stores at most one record. |
| Performance.PerformanceMonitor.constructor | src/lib/utils/performance.ts:19-21 | No metrics, nothing stored, with or without a service. |
| Performance.PerformanceMonitor.Start | src/lib/utils/performance.ts:24-36 | The state becomes exactly `StartSpec`'s. |
| Performance.PerformanceMonitor.End | src/lib/utils/performance.ts:39-86 | The state and the duration are exactly `EndSpec`'s. |
| Performance.PerformanceMonitor.GetCurrentMetrics | src/lib/utils/performance.ts:89-91 | The values of the map, in insertion order. |
| Performance.PerformanceMonitor.MeasureAsync | src/lib/utils/performance.ts:126-146 | The outcome of `fn` is passed through. The monitor ends with `success` on resolve and `error` on reject. |
| Performance.MeasureStatus | src/lib/utils/performance.ts:137-145 | With a working service, one record is stored, with status success exactly when `fn` resolved, and the rounded duration. |
| Performance.ClassifyMonotone | src/lib/utils/performance.ts:239-266 | With warning ≤ error, a longer duration never gets a better verdict. At the error threshold the verdict is not exceeded, and at the warning threshold it is pass. Both comparisons are strict. |
| Performance.ErrorCheckedFirst | src/lib/utils/performance.ts:243-263 | With warning > error the warning verdict is unreachable, because the error check comes first. |
| Performance.AddAll | src/lib/utils/performance.ts:292-294 | Adding budgets one by one keeps one entry per operation. |
| Performance.AddAllFresh | src/lib/utils/performance.ts:292-294 | Distinct budgets added to an empty monitor give one entry per budget, in order. |
| Performance.GlobalBudgets | src/lib/utils/performance.ts:274-317 | The global monitor holds the six defaults, each found under its operation. |
| Performance.DefaultsDistinct | src/lib/utils/performance.ts:274-281 | The six default operations are distinct. |
| Performance.DefaultVerdicts | src/lib/utils/performance.ts:239-281 | Post generation at 45 s is a warning and at 61 s exceeds. A page render at 1 s passes. An unknown operation passes. |
| Performance.PerformanceBudgetMonitor.constructor | src/lib/utils/performance.ts:232-233 | No budgets. |
| Performance.PerformanceBudgetMonitor.AddBudget | src/lib/utils/performance.ts:235-237 | The budget replaces any budget with the same operation, in place. |
| Performance.PerformanceBudgetMonitor.CheckBudget | src/lib/utils/performance.ts:239-266 | The verdict is the classification of the stored budget. |
| Performance.PerformanceBudgetMonitor.GetBudgets | src/lib/utils/performance.ts:268-270 | The stored budgets in insertion order. |
| Performance.PerformanceBudgetMonitor.AddDefaults | src/lib/utils/performance.ts:312-314 | The `forEach` adds the six defaults in order. |
| Performance.GlobalBudgetMonitor | src/lib/utils/performance.ts:309-317 | A fresh monitor holding exactly the defaults. |
| Errors.NewAppError | src/lib/utils/errors.ts:6-20 | The message and context are kept. The status code defaults to 500 and `isOperational` to true. |
| Errors.SubclassCodes | src/lib/utils/errors.ts:23-48 | Validation is 400, Network 500, ExternalService 502 with "<service> error: <message>", and RateLimit 429 with the default "Rate limit exceeded". |
| Errors.GetErrorMessage | src/lib/utils/errors.ts:54-62 | An error's message, a string unchanged, or "An unknown error occurred". |
| Errors.Spread | src/lib/utils/errors.ts:70 | Object spread keeps the existing keys first and keeps keys distinct. |
| Errors.GetSpread | src/lib/utils/errors.ts:70 | After the spread, a key takes its last value in the spread object, else its old value. |
| Errors.GetErrorContext | src/lib/utils/errors.ts:64-80 | An AppError lists name, statusCode and isOperational first. A plain Error gives name and stack. Anything else gives `{error: String(e)}`. |
| Errors.AppContextOverrides | src/lib/utils/errors.ts:65-71 | The AppError's context entries override the three standard fields. |
| Errors.GetStandard | src/lib/utils/errors.ts:66-69 | Lookup in the three standard fields. |
| GenerateRoute.ClientIp | src/app/api/generate/route.ts:58 | `x-forwarded-for`, else `x-real-ip`, else "unknown". Never empty. |
| GenerateRoute.ErrorResponse | src/app/api/generate/route.ts:125-138 | An AppError answers its status code and message. Anything else answers 500 with the generic message. |
| GenerateRoute.ResponseCodes | src/app/api/generate/route.ts:125-138 | Subclass errors answer 400, 429, 500 or 502. The answer is 400 exactly for a ValidationError. See also src/lib/utils/errors.ts:23-48. |
| GenerateRoute.OverLimitIs429 | src/app/api/generate/route.ts:58-62 | A client over the limit gets 429 "Too many requests…", with the counts unchanged. |
| GenerateRoute.InvalidRequestIs500 | src/app/api/generate/route.ts:65-66 | As written, a request the schema refuses is answered 500 with the generic message. See also lines 125-138 of the same file. |
| GenerateRoute.ValidateInputCorrected | src/lib/utils/validation.ts:80-94 | The same acceptance as `validateInput`, with refusals thrown as `ValidationError`. |
| GenerateRoute.InvalidRequestIs400Corrected | src/app/api/generate/route.ts:57-66 | With the correction, a refused request gets 400 with the issues. Every other answer and the rate-limit state are as before. See also lines 125-130 of the same file. |
| Database.GetPostBySlug | src/lib/utils/database.ts:77-122 | A post is returned only if `includeUnpublished` is set or it is published. A cache write happens only for a returned post, under the post key with 30 minutes and tags post and posts. |
| Database.PostBySlugCases | src/lib/utils/database.ts:82-110 | An admissible cached post is returned with no write. Otherwise the stored post is returned exactly when it exists and is admissible, and exactly then it is cached. |
| Database.PaginationDefaults | src/lib/utils/database.ts:136-174 | A falsy page is 1 and a falsy limit is 10, and the status defaults to published. take = limit and skip + take = page·limit. |
| Database.Ceil | src/lib/utils/database.ts:182 | `Math.ceil`: the least integer not below x. |
| Database.TotalPagesBounds | src/lib/utils/database.ts:182 | The pages cover all posts and the last one starts before total. There are zero pages exactly when there are no posts. |
| Database.ListUnderCaches | src/lib/utils/database.ts:140-192 | A miss runs the query and counts. It builds totalPages and currentPage and caches the result under the key. A later call with the same key returns that result whatever its options. |
| Database.DraftsServedPublishedList | src/lib/utils/database.ts:136-146 | As written, a drafts listing after a published listing on page 1 returns the published list. |
| Database.CorrectedKeyDeterminesQuery | src/lib/utils/database.ts:140-158 | With status and tag in the key, equal keys mean equal queries. |
| Database.StatusNamesPlain | src/lib/utils/database.ts:138 | A status name holds no colon. |
| Database.StatusNameInjective | src/lib/utils/database.ts:138 | Different statuses have different names. |
| Database.CorrectedDraftsQueried | src/lib/utils/database.ts:136-192 | With the corrected key, a drafts listing after a published one runs the drafts query. |
| Database.Countries | src/lib/utils/database.ts:306-310 | The truthy countries, at most one per view. |
| Database.Dates | src/lib/utils/database.ts:318-321 | One date per view, in order. |
| Database.TallyDistinct | src/lib/utils/database.ts:305-310 | The tally has one entry per key. |
| Database.TallyCounts | src/lib/utils/database.ts:305-321 | The tally maps a key to its number of occurrences, and lacks exactly the absent keys. |
| Database.TallyEntries | src/lib/utils/database.ts:305-321 | Distinct keys, each count ≥ 1, and exactly the keys that occur. |
| Database.TallyTotal | src/lib/utils/database.ts:317-321 | The counts add up to the number of keys. |
| Database.CountOrderTotal | src/lib/utils/database.ts:313 | The count-descending comparator is a total preorder. |
| Database.DateOrderTotal | src/lib/utils/database.ts:324 | The date comparator is a total preorder. |
| Database.IpsMembers | src/lib/utils/database.ts:301 | The distinct ips are exactly the views' ips, no more of them than views. |
| Database.CountriesMembers | src/lib/utils/database.ts:306-310 | A country is counted exactly when some view has it and it is non-empty. |
| Database.AnalyticsViewCounts | src/lib/utils/database.ts:300-301 | totalViews = number of views, and 1 ≤ uniqueViews ≤ totalViews when there are views. |
| Database.SortedTally | src/lib/utils/database.ts:311-324 | Sorting a tally keeps its keys, counts and sum. |
| Database.TopCountries | src/lib/utils/database.ts:305-314 | At most 10 entries, sorted by count descending, one per distinct non-empty country with its count. A country left out means ten entries, each at least as frequent. |
| Database.TopCountriesBelow | src/lib/utils/database.ts:313-314 | A country cut by the slice is no more frequent than any of the ten kept. |
| Database.ViewsOverTime | src/lib/utils/database.ts:317-324 | One entry per distinct date, ascending, with its count. The counts sum to totalViews. |
| Database.CountCountries | src/lib/utils/database.ts:305-310 | The forEach over views builds exactly the tally of countries. |
| Database.CountDates | src/lib/utils/database.ts:317-321 | The forEach over views builds exactly the tally of dates. |
| Database.GetPostAnalytics | src/lib/utils/database.ts:279-332 | A missing post throws "Post not found". Otherwise the analytics of the views. |
| Database.TotalWordsBySpaces | src/lib/utils/database.ts:398-403 | The total is the sum over sources of the space-split piece count, 0 for missing content, and at least the number of sources with content. |
| Database.TotalWordsExamples | src/lib/utils/database.ts:398-403 | No sources gives 0, and `["two words", missing, ""]` gives 3. |
| Database.DurationOn | src/lib/utils/database.ts:466-474 | A date without metrics has no duration. |
| Database.GroupsDistinct | src/lib/utils/database.ts:466-474 | One group per date. |
| Database.GroupByDateGet | src/lib/utils/database.ts:466-474 | A date's group holds its number of metrics and their total duration. |
| Database.GroupsNonEmpty | src/lib/utils/database.ts:466-474 | Every group counts at least one metric. |
| Database.GroupTotal | src/lib/utils/database.ts:460-474 | The group counts add up to totalOperations. |
| Database.Points | src/lib/utils/database.ts:477-481 | One point per group, in order. |
| Database.PointsSort | src/lib/utils/database.ts:476-482 | Sorting points by date is sorting groups by date, then mapping. |
| Database.PointsSum | src/lib/utils/database.ts:477-481 | Mapping to points keeps the count sum. |
| Database.GroupOrderTotal | src/lib/utils/database.ts:482 | The date comparator on groups is a total preorder. |
| Database.Successes | src/lib/utils/database.ts:461 | At most all metrics succeed. |
| Database.OperationsOverTime | src/lib/utils/database.ts:460-482 | Strictly ascending dates, each with count ≥ 1 and average = total/count. The counts sum to totalOperations. Successes ≤ total. |
| Database.SortedGroups | src/lib/utils/database.ts:466-482 | The sorted groups are ordered and distinct, with their counts and durations, and the counts sum to the metrics. |
| Database.GroupMetrics | src/lib/utils/database.ts:466-474 | The forEach builds exactly the date grouping. |
| Database.GetPerformanceStats | src/lib/utils/database.ts:456-489 | The statistics of the metrics. |
| StreamRoute.GenerateSchemaStricter | src/app/api/generate/stream/route.ts:9-17 | Every request the full schema accepts, the stream schema accepts. See also src/lib/utils/validation.ts:5-37. |
| StreamRoute.StreamSchemaLooser | src/app/api/generate/stream/route.ts:9-17 | The stream schema also accepts a request the full schema refuses (a 3-character question). |
| StreamRoute.ToInput | src/app/api/generate/stream/route.ts:34-49 | The fields are passed through, and an integer `maxSources` keeps its value between 3 and 10. |
| StreamRoute.ErrorMessage | src/app/api/generate/stream/route.ts:60 | An Error's message, else "Unknown error". |
| StreamRoute.Chunks | src/app/api/generate/stream/route.ts:27-30 | Two chunks per event. |
| StreamRoute.ChunksSnoc | src/app/api/generate/stream/route.ts:27-30 | Sending one more event appends its two chunks. |
| StreamRoute.Statuses | src/app/api/generate/stream/route.ts:33-52 | Six statuses. |
| StreamRoute.Trail | src/app/api/generate/stream/route.ts:33-63 | The statuses reached and then the last event. |
| StreamRoute.TrailStatuses | src/app/api/generate/stream/route.ts:33-63 | The statuses come in phase order, and the second research and analysis statuses report the counts. The last event closes the trail. |
| StreamRoute.OutcomeDone | src/app/api/generate/stream/route.ts:52-57 | A successful save ends with `done{slug, title}`. |
| StreamRoute.EventOrder | src/app/api/generate/stream/route.ts:33-63 | 2 to 7 events, statuses in phase order, and the last one is `done` or `error`. |
| StreamRoute.StreamMatchesGeneratePost | src/app/api/generate/stream/route.ts:33-63 | A stage error ends with exactly one `error` event carrying its message. A success gives seven events. `done` comes exactly when generation and the save succeed. See also src/lib/orchestrator.ts:16-30. |
| StreamRoute.SourceCounts | src/app/api/generate/stream/route.ts:34-39 | The second research and analysis statuses report the number of sources, at most 10, and at most 6 by default. |
| StreamRoute.Post | src/app/api/generate/stream/route.ts:19-82 | The response streams exactly when the body parses and the schema accepts it. Otherwise it is a 400 JSON response with the message. |
| StreamRoute.AcceptedStreams | src/app/api/generate/stream/route.ts:25-74 | An accepted request streams with the event-stream headers, statuses and then `done` or `error`. |
| StreamRoute.Controller.constructor | src/app/api/generate/stream/route.ts:25-26 | An open controller with no chunks. |
| StreamRoute.Controller.Enqueue | src/app/api/generate/stream/route.ts:28-29 | One chunk appended. |
| StreamRoute.Controller.Close | src/app/api/generate/stream/route.ts:58-62 | Closed, chunks kept. |
| StreamRoute.Send | src/app/api/generate/stream/route.ts:27-30 | `send` appends `event: <name>\n` and `data: <JSON>\n\n`. |
| StreamRoute.SendNext | src/app/api/generate/stream/route.ts:33-52 | Each status sent extends the chunks by the next status. |
| StreamRoute.Finish | src/app/api/generate/stream/route.ts:57-62 | The final event and close give the trail's chunks. |
| StreamRoute.Start | src/app/api/generate/stream/route.ts:26-64 | The controller ends closed, holding exactly the chunks of the specified events. |
| StreamRoute.Draft | src/app/api/generate/stream/route.ts:35-63 | After research, the chunks are those of the specified continuation. |
| StreamRoute.Strategize | src/app/api/generate/stream/route.ts:39-50 | After the analysis, the chunks are those of the specified ending for the strategy run on the analysed sources. |
| StreamRoute.Conclude | src/app/api/generate/stream/route.ts:41-63 | After the strategy, the chunks are those of the specified ending. |
| ClientPage.Kept | src/app/page.tsx:31 | Every kept question is non-empty and trimmed. |
| ClientPage.QuestionsShape | src/app/page.tsx:31 | Questions are non-empty, trimmed and free of line breaks. |
| ClientPage.KeptNoNewline | src/app/page.tsx:31 | Trimming and filtering lines adds no line break. |
| ClientPage.KeptAll | src/app/page.tsx:31 | Non-empty trimmed lines are all kept. |
| ClientPage.QuestionsRoundTrip | src/app/page.tsx:31 | Questions typed one per line are read back exactly. |
| ClientPage.BlankFrom | src/app/page.tsx:47 | `indexOf('\n\n')` from k: the first blank line at or after k, or none. |
| ClientPage.FirstBlank | src/app/page.tsx:47 | The first blank line is the one found. |
| ClientPage.BlankAppend | src/app/page.tsx:45-47 | Appending text does not move a blank line already present. |
| ClientPage.Frames | src/app/page.tsx:45-49 | The buffer left after cutting frames holds no blank line. |
| ClientPage.FramesAppend | src/app/page.tsx:42-49 | Cutting frames from a + b is cutting from a, then from the rest followed by b. |
| ClientPage.ConcatSnoc | src/app/page.tsx:45 | The buffer grows by each piece. |
| ClientPage.FirstLine | src/app/page.tsx:51-52 | The line found starts with the prefix. |
| ClientPage.Receive | src/app/page.tsx:57-67 | As written, no frame ever sets the page's error. |
| ClientPage.ErrorText | src/app/page.tsx:63 | `payload.message \|\| 'Generation error'`, never empty. |
| ClientPage.FoldAppend | src/app/page.tsx:47-69 | Handling a + b is handling a, then b. |
| ClientPage.FoldSnoc | src/app/page.tsx:47-69 | Handling one more frame is one more step. |
| ClientPage.Drain | src/app/page.tsx:47-69 | The inner `while` loop handles exactly the complete frames of the buffer and leaves the incomplete tail. |
| ClientPage.Read | src/app/page.tsx:40-70 | The reading loop depends only on the concatenated pieces. It handles exactly their frames and keeps the tail. |
| ClientPage.FrameTextBody | src/app/page.tsx:47-49 | A sent frame is its body followed by a blank line. See also src/app/api/generate/stream/route.ts:28-29. |
| ClientPage.EventPartNewlines | src/app/api/generate/stream/route.ts:28 | The event line ends with its only line break. |
| ClientPage.DataPartShape | src/app/api/generate/stream/route.ts:29 | The data part starts `d`, ends `}` and holds no line break. |
| ClientPage.BodyNewlines | src/app/api/generate/stream/route.ts:28-29 | The body of a frame has one line break, after the event line. |
| ClientPage.FramesOfOne | src/app/page.tsx:47-49 | A sent frame is cut as exactly one frame with nothing left over. |
| ClientPage.BodyLines | src/app/page.tsx:50 | A frame's body splits into its `event:` and `data:` lines. |
| ClientPage.ParseTwoLines | src/app/page.tsx:50-56 | The event and data lines are found and their prefixes trimmed off. |
| ClientPage.PartsTrim | src/app/page.tsx:53-56 | Removing `event:` or `data:` and trimming gives the name and the JSON back. |
| ClientPage.ParseFrameBody | src/app/page.tsx:47-56 | A sent frame with a trimmed, newline-free name parses back to the same name and payload. See also src/app/api/generate/stream/route.ts:28-29. |
| ClientPage.StepOnFrame | src/app/page.tsx:47-67 | Reading a sent frame hands its event and payload to the handler. |
| ClientPage.WireSnoc | src/app/api/generate/stream/route.ts:27-30 | The wire text grows by each event's frame. |
| ClientPage.Bodies | src/app/page.tsx:47-49 | One frame body per event. |
| ClientPage.WireFrames | src/app/page.tsx:45-49 | The server's text cuts into exactly one frame per event, in order, with nothing left. See also src/app/api/generate/stream/route.ts:27-30. |
| ClientPage.FoldBodies | src/app/page.tsx:47-67 | Handling those frames is handling the events in order. |
| ClientPage.ClientReadsStream | src/app/page.tsx:40-70 | However the stream is split into pieces, the client sees exactly the server's events in order. See also src/app/api/generate/stream/route.ts:27-30. |
| ClientPage.Log | src/app/page.tsx:58 | One progress line per status. |
| ClientPage.StatusLine | src/app/page.tsx:58 | A status shows as "<phase>: <message>". |
| ClientPage.FailureText | src/app/page.tsx:63 | The error frame's text is the thrown message or "Generation error". See also src/app/api/generate/stream/route.ts:60-61. |
| ClientPage.ReplayStatuses | src/app/page.tsx:57-58 | Statuses append their lines to progress and change nothing else. |
| ClientPage.ReplayCorrectedStatuses | src/app/page.tsx:57-58 | The correction handles statuses as before. |
| ClientPage.FinishedFramable | src/app/api/generate/stream/route.ts:27-63 | The route's event names are framable. |
| ClientPage.ReadFinished | src/app/page.tsx:40-70 | A finished stream leaves no tail. Progress gets one line per status. As written the error stays unchanged. `done` sets slug and title. |
| ClientPage.ReadFinishedCorrected | src/app/page.tsx:57-67 | With the correction, `done` sets slug and title with no error. An `error` frame sets the page's error. |
| ClientPage.PageAsWritten | src/app/page.tsx:40-70 | As written, whatever the server does, the page's error is unchanged. A failed generation leaves slug and title unchanged. |
| ClientPage.Shown | src/app/page.tsx:63 | The text a thrown error shows, never empty. See also src/app/api/generate/stream/route.ts:60. |
| ClientPage.PageCorrected | src/app/page.tsx:57-85 | With the correction, a failing stage or save shows its message as the page's error. Success sets slug and title with no error. |
| ClientPage.LogAt | src/app/page.tsx:58 | Line i of the log is status i's line. |
| ClientPage.ReadCounts | src/app/page.tsx:58 | Progress keeps the old lines and shows the research and analysis counts at places 2 and 4. |
| ClientPage.PageShowsCounts | src/app/page.tsx:58 | With research done, the page shows "research: Found n sources" and "analysis: Analyzed n sources". See also src/app/api/generate/stream/route.ts:35, 39. |
| ClientPage.PageOfPost | src/app/page.tsx:32-37 | A refused request shows "Failed to start generation" with progress unchanged. An accepted one leaves no tail. See also src/app/api/generate/stream/route.ts:75-80. |
| Json.ParseEncodedObject | src/app/page.tsx:56 | `JSON.parse(JSON.stringify(o))` gives o back for string-valued objects. See also src/app/api/generate/stream/route.ts:29. |
| Json.EncodeObjectNoControl | src/app/api/generate/stream/route.ts:29 | The JSON of an object has no control character, so no line break. |
| Json.ParseStringQuote | src/lib/agents/strategist.ts:23 | A JSON string literal parses back to its string. |
| Json.Field | src/app/page.tsx:58-61 | A property is found exactly when the object has it. |
| Text.Trim | src/lib/agents/researcher.ts:29 | `trim`: no whitespace at either end. |
| Text.Normalize | src/lib/agents/researcher.ts:29 | `replace(/\s+/g, ' ').trim()`: trimmed, with no two spaces in a row, never longer. |
| Text.Collapse | src/lib/agents/analyst.ts:6 | Whitespace runs become single spaces, never longer, empty exactly for empty text. |
| Text.Split | src/app/page.tsx:31-50 | `split(c)`: at least one piece, and no piece holds the separator. |
| Text.SplitJoin | src/app/page.tsx:50 | Joining the pieces of a split gives the text back. |
| Text.JoinSplit | src/app/page.tsx:31 | Lines without the separator, joined, split back into the same lines. |
| Text.SplitLength | src/lib/utils/database.ts:401 | `split(c).length` is the number of separators plus one. |
| Text.NatToStringValue | src/lib/agents/strategist.ts:41 | The decimal digits spell the number. |
| Text.IntToStringInjective | src/lib/utils/cache.ts:316 | Different integers have different decimal forms. |
| Text.LexLeTotal | src/lib/utils/database.ts:324 | Code-point order is total. |
| Text.LexLeTrans | src/lib/utils/database.ts:324 | Code-point order is transitive. |
| Arrays.SortPermutes | src/lib/utils/database.ts:313 | `sort` only reorders. See also lines 324 and 482 of the same file. |
| Arrays.SortSorted | src/lib/utils/database.ts:313 | `sort` orders its result by any total comparator. See also lines 324 and 482 of the same file. |
| Arrays.SortStable | src/lib/utils/database.ts:313 | `sort` is stable: elements the comparator ranks as ties keep their input order, so `Filter(sort(s), ties) == Filter(s, ties)`. |
| Arrays.SortKeys | src/lib/utils/database.ts:311-313 | Sorting key-value entries keeps distinct, identical keys. |
| Arrays.SortSum | src/lib/utils/database.ts:322-324 | Sorting keeps every sum. |
| Arrays.OccurrencesCount | src/lib/utils/database.ts:308 | The count of x is its multiplicity, positive exactly for elements. |
| Assoc.GetPut | src/lib/utils/performance.ts:25 | `Map.set` then `get` returns the new value for that key and the old value for the others. See also line 236 of the same file. |
| Assoc.GetRemove | src/lib/utils/performance.ts:83 | `Map.delete` removes only that key. |

## Left out

- Web search, page fetching and extraction, and the LLM client are oracle parameters. So are `slugify` and `dayjs`, which supply the slug and the date.
- Prisma persistence is not modelled: post creation, publishing, view tracking, the research cache upserts, metric inserts and the client singleton. Query results come in as input lists, and database time filters such as `sinceDate` are not modelled.
- LRU internals (eviction at 1000 entries, stale reads, age updates), Redis key expiry and the Redis client lifecycle are left out. Memory and Redis are maps; Redis presence is a flag.
- Cross-request concurrency on the module-level cache, rate-limit and monitor maps is left out; each operation is one sequential step.
- Floating-point results are not modelled: avgLoadTime, avgDuration and successRate, and `performance.now()` timestamps (modelled as reals). The per-date average in `operationsOverTime` is stated as total / count over reals.
- Researcher.Visit, Researcher.Made, Analyst.LongOnes, Analyst.AnalyzedText, Validation.ValidTopic, Validation.ValidQuestions, StreamRoute.ToInput and Text.LexLe: strings are sequences of Unicode scalar values, not UTF-16 code units. So the lengths measured (`MinBody` 500, `MaxContent` 15000, the 60-character bullet filter, the 8000-character prompt cut, the schemas' min and max), the cuts made and the order compared all count characters, whereas JavaScript's `.length`, `.slice`, zod and string comparison count code units. Text outside the Basic Multilingual Plane can therefore be kept, filtered, cut or ordered differently, and a `slice` that splits a surrogate pair is not expressible.
- `ensureInitialized` (`src/app/api/generate/route.ts:15-34`, awaited at line 37 outside the `try`) calls `initializeOrchestrator`, which `src/lib/orchestrator.ts` does not export. As written, the call in the `catch` block fails again and escapes, so every request would fail before line 58. The GenerateRoute members describe lines 58-138 as if initialisation had succeeded.
- Errors.GetErrorContext: JavaScript's object spread lists integer-like keys (such as `"0"`) before all other keys. An AppError context with such keys would therefore not start with name, statusCode and isOperational. The model keeps insertion order for every key.
- Cache.DbGet, Cache.DatabaseCache.Get: one `fails` flag stands for both database calls of a `get`. As written, the lookup can succeed and the delete of an expired row (`src/lib/utils/cache.ts:76-80`) can then fail inside `delete`'s own `catch` (lines 124-136): the row stays and a miss is counted, but no delete. The model cannot express this; it either changes nothing or removes the row and counts both.
- Cache.DbInvalidate, Cache.DatabaseCache.InvalidateByTags: one `fails` flag stands for every `deleteMany` of `invalidateByTags` (lines 141-149). As written, a throw on tag i leaves the rows of the earlier tags deleted. The model cannot express this; it deletes the rows of all tags or of none.
- Cache.MultiTierCache.Get: the `Faults` value has one `redis` flag, which stands for both Redis calls of a `get`: the lookup and the back-fill `setEx` after a database hit. So a Redis lookup that succeeds (a miss) followed by a failing back-fill, or the opposite, is not expressible. Cache.MultiGet has the same limit.
- `localeCompare` is modelled as code-point order (`Text.LexLe`). It agrees with the locale order on the ISO dates it sorts here, but not on arbitrary text.
- Only the DRAFT and PUBLISHED post statuses are modelled.
- zod's error messages are a parameter (`describe`). A NaN page or limit, a non-integer `maxAttempts`, options explicitly set to `undefined`, and a non-numeric status in an error context are not modelled.
- `JSON.stringify` and `JSON.parse` are modelled only for strings and objects whose properties are all strings. In the stream frames, a payload with another value type is treated as malformed. The model replies of the analyst and the strategist are oracles (`Reply`, `OutlineReply`), not parsed text.
- Analyst.FromReply: the `Reply` oracle carries a string summary and a list of takeaways. `src/lib/agents/analyst.ts:40-41` also accepts other truthy values, such as the number 5 as a summary or the string "abc" (length 3) as the takeaways, and such replies are not expressible.
- `dayjs()` is called three times in `runStrategy` (`src/lib/agents/strategist.ts:42, 71, 100`). The model passes one `date`, so a run across midnight whose slug date differs from its front-matter date is not expressible.
- `memoryCache` and `redisClient` are module globals in `src/lib/utils/cache.ts` (lines 13 and 23), so every instance that `initializeCache()` creates (lines 334-337) shares them. In the model they are fields of each `MultiTierCache`, so two instances do not see each other's entries.
- The response pieces are strings, so `TextDecoder` is not modelled.
- After the read loop, the page sets the slug from a stale closure and fetches the Markdown (`src/app/page.tsx:71-82`). That part and the rest of the React state are left out.
- `mkdir` and the path join are folded into the save oracle of the stream route.
- A type error from `req.json()` on a malformed body is modelled only as `Err(message)`.
- `sanitizeHtml` (DOMPurify) and `sanitizeUrl` (URL parsing) are foreign libraries and are left out. So are `trackWebVitals`, `measureSync`, the `withPerformance` decorator and the logger, which only log or do I/O.
- Route initialisation, the file write of `src/app/api/generate/route.ts` and its success body are left out.
- Cache-aside inside the orchestrator, per-stage timings and metadata are left out.
- `initializeOrchestrator` and `clearCache` are imported by the routes but are not defined in `src/lib/orchestrator.ts`, so they are not part of this model.
- Strategist.SourceLines: states only the number of lines. Their form is in the body, and `MarkdownLines` gives the whole layout.

## Findings

| source | as written | input that shows it | evidently intended | confidence | as-written member | corrected member |
|---|---|---|---|---|---|---|
| src/lib/utils/validation.ts:90-92, src/app/api/generate/route.ts:125-138 | `validateInput` throws a plain `Error`, so the route answers an invalid request with 500 "An unexpected error occurred" | a request with topic "ab", within the rate limit | a 400 `ValidationError` carrying the schema's issues | not executed; high | GenerateRoute.InvalidRequestIs500 | GenerateRoute.InvalidRequestIs400Corrected |
| src/lib/utils/database.ts:140 | the posts-list cache key is `posts:list:<page>:<limit>`, without status or tag | `getPosts({})` and then `getPosts({status: DRAFT})` on page 1 | a key that also holds status and tag, so a drafts listing queries drafts | not executed; high | Database.DraftsServedPublishedList | Database.CorrectedDraftsQueried |
| src/lib/agents/strategist.ts:29 | `toMarkdown`, called at line 69 outside any `try`, runs `sec.points.map` on every section of an outline the model returned as an array | an LLM reply `{"outline":[{"heading":"x"}]}` | the strategist degrades to the heuristic outline, as it does for an unusable reply | not executed; medium | Strategist.PointlessOutlineThrows | Strategist.StrategyCorrected |
| src/app/page.tsx:62-67 | the `throw` for an `error` frame is caught by the `catch` meant for malformed chunks, so the page never shows the error | any stream whose research stage throws | the error reaches the outer `catch` (lines 83-85) and is shown | not executed; medium | ClientPage.PageAsWritten | ClientPage.PageCorrected |
