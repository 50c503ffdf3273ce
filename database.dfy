/**
 * The computations of the post, research and performance services that do
 * not touch the database: which cached or stored post `getPostBySlug` hands
 * out, the pagination and cache key of `getPosts`, the view analytics of
 * `getPostAnalytics`, the word count of `calculateTotalWords` and the daily
 * grouping of `getPerformanceStats`. What the database returns is an input.
 */
module Database {
  import opened Wrappers
  import opened Text
  import opened Assoc
  import opened Arrays
  import opened Errors
  import Cache

  /** The statuses the services use. */
  datatype PostStatus = Draft | Published

  function StatusName(s: PostStatus): string {
    match s
    case Draft => "DRAFT"
    case Published => "PUBLISHED"
  }

  datatype Post = Post(slug: string, status: PostStatus, title: string)

  /** A `cache.set(key, value, options)` the service issues. */
  datatype CacheWrite<T> = CacheWrite(key: string, value: T, options: Cache.Options)

  const PostTtl := 1000 * 60 * 30
  const ListTtl := 1000 * 60 * 15
  const PostTag := "post"
  const PostsTag := "posts"

  // ---------------------------------------------------------------------------
  // getPostBySlug

  /** `cached` is what the cache holds under `post:<slug>` (nothing without a cache),
      `stored` what the database holds for the slug. A cached post is used when unpublished
      posts are wanted or it is published; otherwise the stored post, if it may be shown,
      is returned and written to the cache for thirty minutes. */
  function GetPostBySlug(slug: string, includeUnpublished: bool, cached: Option<Post>, stored: Option<Post>)
    : (r: (Option<Post>, Option<CacheWrite<Post>>))
    ensures r.0.Some? ==> includeUnpublished || r.0.value.status == Published
    ensures r.1.Some? ==> r.0.Some? && r.1.value == CacheWrite(Cache.PostKey(slug), r.0.value,
                                                               Cache.Options(Some(PostTtl), Some([PostTag, PostsTag])))
  {
    if cached.Some? && (includeUnpublished || cached.value.status == Published) then (cached, None)
    else if stored.None? then (None, None)
    else if !includeUnpublished && stored.value.status != Published then (None, None)
    else (stored, Some(CacheWrite(Cache.PostKey(slug), stored.value,
                                  Cache.Options(Some(PostTtl), Some([PostTag, PostsTag])))))
  }

  /** The cases: a usable cached post is returned with no write; otherwise the stored post
      is returned and cached exactly when it exists and may be shown, and nothing that is
      hidden is ever written to the cache. */
  lemma PostBySlugCases(slug: string, includeUnpublished: bool, cached: Option<Post>, stored: Option<Post>)
    ensures var (post, write) := GetPostBySlug(slug, includeUnpublished, cached, stored);
            && (cached.Some? && (includeUnpublished || cached.value.status == Published) ==>
                  post == cached && write.None?)
            && (!(cached.Some? && (includeUnpublished || cached.value.status == Published)) ==>
                  && (post.Some? <==> stored.Some? && (includeUnpublished || stored.value.status == Published))
                  && (post.Some? ==> post == stored)
                  && (write.Some? <==> post.Some?))
  {
  }

  // ---------------------------------------------------------------------------
  // getPosts

  datatype ListOptions = ListOptions(page: Option<int>, limit: Option<int>, status: Option<PostStatus>, tag: Option<string>)

  /** `options.page || 1`. */
  function PageOf(o: ListOptions): int {
    if o.page.Some? && o.page.value != 0 then o.page.value else 1
  }

  /** `options.limit || 10`. */
  function LimitOf(o: ListOptions): int {
    if o.limit.Some? && o.limit.value != 0 then o.limit.value else 10
  }

  /** `options.status || PUBLISHED`: every status name is a non-empty string. */
  function StatusOf(o: ListOptions): PostStatus {
    if o.status.Some? then o.status.value else Published
  }

  /** What the database is asked: the status, the tag filter when the tag is non-empty, and
      the page window. */
  datatype Query = Query(status: PostStatus, tag: Option<string>, skip: int, take: int)

  function QueryOf(o: ListOptions): Query {
    Query(StatusOf(o), if o.tag.Some? && o.tag.value != "" then o.tag else None,
          (PageOf(o) - 1) * LimitOf(o), LimitOf(o))
  }

  /** The page and limit defaults, and the window they select. */
  lemma PaginationDefaults(o: ListOptions)
    ensures PageOf(o) != 0 && LimitOf(o) != 0
    ensures o.page.None? || o.page == Some(0) ==> PageOf(o) == 1
    ensures o.limit.None? || o.limit == Some(0) ==> LimitOf(o) == 10
    ensures QueryOf(ListOptions(None, None, None, None)) == Query(Published, None, 0, 10)
    ensures var q := QueryOf(o); q.take == LimitOf(o) && q.skip + q.take == PageOf(o) * LimitOf(o)
  {
  }

  /** `Math.ceil`. */
  function Ceil(x: real): (n: int)
    ensures x <= n as real < x + 1.0
  {
    -((-x).Floor)
  }

  function TotalPages(total: nat, limit: int): int
    requires limit != 0
  {
    Ceil(total as real / limit as real)
  }

  /** Multiplying by a positive number keeps the order. */
  lemma MulMono(a: real, b: real, c: real)
    requires a <= b && c > 0.0
    ensures a * c <= b * c
  {}

  lemma MulStrict(a: real, b: real, c: real)
    requires a < b && c > 0.0
    ensures a * c < b * c
  {}

  /** With a positive limit the pages cover every post and the last page starts before
      `total`; there are no pages exactly when there are no posts. */
  lemma TotalPagesBounds(total: nat, limit: int)
    requires limit >= 1
    ensures var n := TotalPages(total, limit);
            && total <= n * limit
            && (total > 0 ==> (n - 1) * limit < total)
            && (n == 0 <==> total == 0)
  {
    var n := TotalPages(total, limit);
    var t, l := total as real, limit as real;
    var q := t / l;
    assert q * l == t;
    MulMono(q, n as real, l);
    MulStrict(n as real - 1.0, q, l);
    assert (n * limit) as real == n as real * l;
    assert ((n - 1) * limit) as real == (n as real - 1.0) * l;
    if total == 0 {
      assert q == 0.0;
      assert 0.0 <= n as real < 1.0;
    } else {
      assert n * limit >= total;
      assert n > 0;
    }
  }

  datatype PostList = PostList(posts: seq<Post>, total: nat, totalPages: int, currentPage: int)

  /** `getPosts` around a given cache key: a cached list is returned as it is; otherwise
      the database's page and count for the query become the list, which is cached for
      fifteen minutes under the key. */
  function ListUnder(key: string, o: ListOptions, lookup: string -> Option<PostList>,
                     run: Query -> (seq<Post>, nat)): (PostList, Option<CacheWrite<PostList>>)
  {
    if lookup(key).Some? then (lookup(key).value, None)
    else
      var (posts, total) := run(QueryOf(o));
      var result := PostList(posts, total, TotalPages(total, LimitOf(o)), PageOf(o));
      (result, Some(CacheWrite(key, result, Cache.Options(Some(ListTtl), Some([PostsTag])))))
  }

  /** The cache after a write. */
  function Stored(lookup: string -> Option<PostList>, w: Option<CacheWrite<PostList>>): string -> Option<PostList> {
    k => if w.Some? && k == w.value.key then Some(w.value.value) else lookup(k)
  }

  /** A miss answers from the query and writes the answer; a second call with the same
      key is then answered from the cache with the same list. */
  lemma ListUnderCaches(key: string, o: ListOptions, o2: ListOptions, lookup: string -> Option<PostList>,
                        run: Query -> (seq<Post>, nat), run2: Query -> (seq<Post>, nat))
    requires lookup(key).None?
    ensures var (result, write) := ListUnder(key, o, lookup, run);
            && result.posts == run(QueryOf(o)).0 && result.total == run(QueryOf(o)).1
            && result.totalPages == TotalPages(result.total, LimitOf(o)) && result.currentPage == PageOf(o)
            && write.Some? && write.value.key == key
            && ListUnder(key, o2, Stored(lookup, write), run2) == (result, None)
  {
  }

  /** `getPosts` as written: the key `posts:list:<page>:<limit>`. */
  function GetPosts(o: ListOptions, lookup: string -> Option<PostList>, run: Query -> (seq<Post>, nat))
    : (PostList, Option<CacheWrite<PostList>>)
  {
    ListUnder(Cache.PostListKey(PageOf(o), LimitOf(o)), o, lookup, run)
  }

  /** As written, the key leaves out the status and the tag: once the default list is
      cached, a request for drafts on the same page is answered with it, whatever the
      database holds. */
  lemma DraftsServedPublishedList(lookup: string -> Option<PostList>, run: Query -> (seq<Post>, nat),
                                  run2: Query -> (seq<Post>, nat))
    requires lookup(Cache.PostListKey(1, 10)).None?
    ensures var published := ListOptions(None, None, None, None);
            var drafts := ListOptions(None, None, Some(Draft), None);
            var (first, write) := GetPosts(published, lookup, run);
            && QueryOf(published).status == Published && QueryOf(drafts).status == Draft
            && GetPosts(drafts, Stored(lookup, write), run2).0 == first
  {
  }

  /** The tag as it enters the key: nothing when it is absent or empty. */
  function TagPart(o: ListOptions): string {
    if o.tag.Some? then o.tag.value else ""
  }

  /** A key naming every field of the query: `posts:list:<page>:<limit>:<status>:<tag>`. */
  function ListKeyCorrected(o: ListOptions): string {
    "posts:list:" + Join([IntToString(PageOf(o)), IntToString(LimitOf(o)), StatusName(StatusOf(o))], ":") + ":" + TagPart(o)
  }

  function GetPostsCorrected(o: ListOptions, lookup: string -> Option<PostList>, run: Query -> (seq<Post>, nat))
    : (PostList, Option<CacheWrite<PostList>>)
  {
    ListUnder(ListKeyCorrected(o), o, lookup, run)
  }

  /** With the corrected key, two calls share a cache entry only when they put the same
      query to the database. */
  lemma CorrectedKeyDeterminesQuery(o1: ListOptions, o2: ListOptions)
    requires ListKeyCorrected(o1) == ListKeyCorrected(o2)
    ensures QueryOf(o1) == QueryOf(o2)
  {
    var l1 := [IntToString(PageOf(o1)), IntToString(LimitOf(o1)), StatusName(StatusOf(o1))];
    var l2 := [IntToString(PageOf(o2)), IntToString(LimitOf(o2)), StatusName(StatusOf(o2))];
    var t1, t2 := TagPart(o1), TagPart(o2);
    StatusNamesPlain(StatusOf(o1));
    StatusNamesPlain(StatusOf(o2));
    ConcatAssoc("posts:list:", Join(l1, ":"), ":");
    ConcatAssoc("posts:list:", Join(l1, ":") + ":", t1);
    ConcatAssoc("posts:list:", Join(l2, ":"), ":");
    ConcatAssoc("posts:list:", Join(l2, ":") + ":", t2);
    Cache.PrefixCancel("posts:list:", Join(l1, ":") + ":" + t1, Join(l2, ":") + ":" + t2);
    SplitJoinMore(l1, ':', t1);
    SplitJoinMore(l2, ':', t2);
    var s1, s2 := l1 + Split(t1, ':'), l2 + Split(t2, ':');
    assert s1 == s2;
    assert l1 == s1[..3] && l2 == s2[..3];
    assert Split(t1, ':') == s1[3..] && Split(t2, ':') == s2[3..];
    SplitJoin(t1, ':');
    SplitJoin(t2, ':');
    IntToStringInjective(PageOf(o1), PageOf(o2));
    IntToStringInjective(LimitOf(o1), LimitOf(o2));
    StatusNameInjective(StatusOf(o1), StatusOf(o2));
  }

  lemma StatusNamesPlain(s: PostStatus)
    ensures ':' !in StatusName(s)
  {
  }

  lemma StatusNameInjective(a: PostStatus, b: PostStatus)
    requires StatusName(a) == StatusName(b)
    ensures a == b
  {
    assert StatusName(a)[0] == StatusName(b)[0];
  }

  /** So the corrected service never answers a request with a list cached for another
      query: a drafts request after the default list was cached goes to the database. */
  lemma CorrectedDraftsQueried(lookup: string -> Option<PostList>, run: Query -> (seq<Post>, nat),
                               run2: Query -> (seq<Post>, nat))
    requires lookup(ListKeyCorrected(ListOptions(None, None, Some(Draft), None))).None?
    ensures var published := ListOptions(None, None, None, None);
            var drafts := ListOptions(None, None, Some(Draft), None);
            var (_, write) := GetPostsCorrected(published, lookup, run);
            GetPostsCorrected(drafts, Stored(lookup, write), run2).0.posts == run2(QueryOf(drafts)).0
  {
    var published := ListOptions(None, None, None, None);
    var drafts := ListOptions(None, None, Some(Draft), None);
    if ListKeyCorrected(published) == ListKeyCorrected(drafts) {
      CorrectedKeyDeterminesQuery(published, drafts);
    }
  }

  // ---------------------------------------------------------------------------
  // getPostAnalytics

  /** A recorded view: the client address, the country when known, and the day of the
      view as `YYYY-MM-DD`. */
  datatype View = View(ip: Option<string>, country: Option<string>, date: string)

  /** The countries of the views that have a non-empty one, in order. */
  function Countries(views: seq<View>): (r: seq<string>)
    ensures |r| <= |views|
  {
    if views == [] then []
    else
      var c := views[|views| - 1].country;
      Countries(views[..|views| - 1]) + (if c.Some? && c.value != "" then [c.value] else [])
  }

  function Dates(views: seq<View>): (r: seq<string>)
    ensures |r| == |views| && forall i :: 0 <= i < |views| ==> r[i] == views[i].date
  {
    if views == [] then [] else Dates(views[..|views| - 1]) + [views[|views| - 1].date]
  }

  function Succ(n: nat): nat { n + 1 }

  /** `map.set(k, (map.get(k) || 0) + 1)`. */
  function Bump(m: seq<(string, nat)>, k: string): (r: seq<(string, nat)>)
  {
    Update(m, k, 0, Succ)
  }

  /** The `Map` of occurrence counts built one key at a time, in first-occurrence order. */
  function Tally(keys: seq<string>): (m: seq<(string, nat)>)
  {
    if keys == [] then [] else Bump(Tally(keys[..|keys| - 1]), keys[|keys| - 1])
  }

  lemma {:induction false} TallyDistinct(keys: seq<string>)
    ensures DistinctKeys(Tally(keys))
  {
    if keys != [] {
      TallyDistinct(keys[..|keys| - 1]);
      UpdateDistinct(Tally(keys[..|keys| - 1]), keys[|keys| - 1], 0, Succ);
    }
  }

  /** Each key of the tally is counted as often as it occurs, and exactly the keys that
      occur are there. */
  lemma {:induction false} TallyCounts(keys: seq<string>, k: string)
    ensures Get(Tally(keys), k) == if Occurrences(keys, k) == 0 then None else Some(Occurrences(keys, k))
  {
    if keys != [] {
      var init, last := keys[..|keys| - 1], keys[|keys| - 1];
      var m := Tally(init);
      TallyCounts(init, k);
      assert Tally(keys) == Bump(m, last);
      GetUpdate(m, last, 0, Succ, k);
      assert Occurrences(keys, k) == Occurrences(init, k) + (if last == k then 1 else 0);
    }
  }

  /** An entry of the tally is a key with its number of occurrences, and exactly the keys
      that occur have one. */
  lemma TallyEntries(keys: seq<string>)
    ensures DistinctKeys(Tally(keys))
    ensures forall i :: 0 <= i < |Tally(keys)| ==> Tally(keys)[i].1 == Occurrences(keys, Tally(keys)[i].0) >= 1
    ensures forall k :: k in keys <==> k in Keys(Tally(keys))
  {
    var m := Tally(keys);
    TallyDistinct(keys);
    forall i | 0 <= i < |m| ensures m[i].1 == Occurrences(keys, m[i].0) >= 1 {
      GetAt(m, i);
      TallyCounts(keys, m[i].0);
    }
    forall k ensures k in keys <==> k in Keys(m) {
      TallyCounts(keys, k);
      OccurrencesCount(keys, k);
    }
  }

  function CountOf(e: (string, nat)): int { e.1 }

  /** The counts of the tally add up to the number of keys. */
  lemma {:induction false} TallyTotal(keys: seq<string>)
    ensures SumOf(Tally(keys), CountOf) == |keys|
  {
    if keys != [] {
      var init, k := keys[..|keys| - 1], keys[|keys| - 1];
      var m := Tally(init);
      TallyTotal(init);
      UpdateSum(m, k, 0, Succ, CountOf);
      if k in Keys(m) {
        assert Get(m, k).Some?;
      }
    }
  }

  /** `(a, b) => b.count - a.count`, as an order: more views first. */
  function ByCountDesc(a: (string, nat), b: (string, nat)): bool { a.1 >= b.1 }

  /** `(a, b) => a.date.localeCompare(b.date)`, as an order. */
  function ByDate(a: (string, nat), b: (string, nat)): bool { LexLe(a.0, b.0) }

  lemma CountOrderTotal()
    ensures TotalPreorder(ByCountDesc)
  {
  }

  lemma DateOrderTotal()
    ensures TotalPreorder(ByDate)
  {
    forall a: (string, nat), b: (string, nat) ensures ByDate(a, b) || ByDate(b, a) {
      LexLeTotal(a.0, b.0);
    }
    forall a: (string, nat), b: (string, nat), c: (string, nat) | ByDate(a, b) && ByDate(b, c)
      ensures ByDate(a, c)
    {
      LexLeTrans(a.0, b.0, c.0);
    }
  }

  /** The distinct client addresses, `new Set(views.map(v => v.ip))`. */
  function Ips(views: seq<View>): (r: set<Option<string>>)
  {
    if views == [] then {} else Ips(views[..|views| - 1]) + {views[|views| - 1].ip}
  }

  lemma {:induction false} IpsMembers(views: seq<View>)
    ensures forall i :: 0 <= i < |views| ==> views[i].ip in Ips(views)
    ensures forall x :: x in Ips(views) ==> exists i :: 0 <= i < |views| && views[i].ip == x
    ensures |Ips(views)| <= |views|
  {
    if views != [] {
      var init := views[..|views| - 1];
      IpsMembers(init);
      assert forall i :: 0 <= i < |init| ==> init[i] == views[i];
    }
  }

  lemma {:induction false} CountriesMembers(views: seq<View>)
    ensures forall c :: c in Countries(views) <==>
              c != "" && exists i :: 0 <= i < |views| && views[i].country == Some(c)
  {
    if views != [] {
      var init := views[..|views| - 1];
      CountriesMembers(init);
      assert forall i :: 0 <= i < |init| ==> init[i] == views[i];
    }
  }

  datatype PostAnalytics = PostAnalytics(totalViews: nat, uniqueViews: nat,
                                         topCountries: seq<(string, nat)>,
                                         viewsOverTime: seq<(string, nat)>)

  /** The figures for the views of the period: how many, from how many addresses, the ten
      countries with the most views, and the views per day in date order. */
  function Analytics(views: seq<View>): PostAnalytics {
    PostAnalytics(|views|, |Ips(views)|,
                  Take(Sort(Tally(Countries(views)), ByCountDesc), 10),
                  Sort(Tally(Dates(views)), ByDate))
  }

  const PostNotFound := Plain("Error", "Post not found", None, None)

  /** The views-of-period count, unique addresses, and that every address of a view is
      counted once. */
  lemma AnalyticsViewCounts(views: seq<View>)
    ensures var a := Analytics(views);
            && a.totalViews == |views| && a.uniqueViews <= a.totalViews
            && (a.totalViews > 0 ==> a.uniqueViews >= 1)
  {
    IpsMembers(views);
    if views != [] {
      assert views[0].ip in Ips(views);
    }
  }

  /** The tally in any order: distinct keys, each with its number of occurrences, every
      key that occurs, the counts adding up to the number of keys. */
  lemma SortedTally(keys: seq<string>, le: ((string, nat), (string, nat)) -> bool)
    ensures var s := Sort(Tally(keys), le);
            && DistinctKeys(s)
            && (forall i :: 0 <= i < |s| ==> s[i].1 == Occurrences(keys, s[i].0) >= 1)
            && (forall k :: k in keys <==> k in Keys(s))
            && SumOf(s, CountOf) == |keys|
  {
    var tally := Tally(keys);
    var s := Sort(tally, le);
    TallyEntries(keys);
    SortPermutes(tally, le);
    SortKeys(tally, le);
    SortSum(tally, le, CountOf);
    TallyTotal(keys);
    forall i | 0 <= i < |s| ensures s[i].1 == Occurrences(keys, s[i].0) >= 1 {
      assert s[i] in multiset(tally);
      var j :| 0 <= j < |tally| && tally[j] == s[i];
    }
  }

  /** The top countries: at most ten, most views first, one entry per country with its
      number of views, and no country left out that has more views than one shown. */
  lemma TopCountries(views: seq<View>)
    ensures var top := Analytics(views).topCountries;
            var cs := Countries(views);
            && |top| <= 10
            && SortedBy(top, ByCountDesc)
            && DistinctKeys(top)
            && (forall i :: 0 <= i < |top| ==> top[i].0 in cs && top[i].1 == Occurrences(cs, top[i].0) >= 1)
            && (forall c :: c in cs && c !in Keys(top) ==>
                  |top| == 10 && forall i :: 0 <= i < |top| ==> top[i].1 >= Occurrences(cs, c))
  {
    var cs := Countries(views);
    var sorted := Sort(Tally(cs), ByCountDesc);
    var top := Take(sorted, 10);
    CountOrderTotal();
    SortSorted(Tally(cs), ByCountDesc);
    SortedTally(cs, ByCountDesc);
    forall i | 0 <= i < |top| ensures top[i].0 in cs {
      assert top[i] == sorted[i];
      assert sorted[i].0 in Keys(sorted);
    }
    forall c | c in cs && c !in Keys(top)
      ensures |top| == 10 && forall i :: 0 <= i < |top| ==> top[i].1 >= Occurrences(cs, c)
    {
      TopCountriesBelow(cs, sorted, c);
    }
  }

  /** A key of a list sorted by count that is not among the first ten comes after ten
      entries with at least its count. */
  lemma TopCountriesBelow(cs: seq<string>, sorted: seq<(string, nat)>, c: string)
    requires SortedBy(sorted, ByCountDesc)
    requires forall i :: 0 <= i < |sorted| ==> sorted[i].1 == Occurrences(cs, sorted[i].0)
    requires c in Keys(sorted) && c !in Keys(Take(sorted, 10))
    ensures var top := Take(sorted, 10);
            |top| == 10 && forall i :: 0 <= i < |top| ==> top[i].1 >= Occurrences(cs, c)
  {
    var top := Take(sorted, 10);
    var j :| 0 <= j < |sorted| && sorted[j].0 == c;
    forall i | 0 <= i < |top| ensures sorted[i].0 != c {
      assert top[i] == sorted[i];
      assert Keys(top)[i] == top[i].0;
    }
    forall i | 0 <= i < |top| ensures top[i].1 >= Occurrences(cs, c) {
      assert top[i] == sorted[i];
      assert ByCountDesc(sorted[i], sorted[j]);
    }
  }

  /** The views per day: in date order, one entry per day with its number of views, every
      day of a view present, and the counts adding up to the total. */
  lemma ViewsOverTime(views: seq<View>)
    ensures var vot := Analytics(views).viewsOverTime;
            var ds := Dates(views);
            && SortedBy(vot, ByDate)
            && DistinctKeys(vot)
            && (forall i :: 0 <= i < |vot| ==> vot[i].1 == Occurrences(ds, vot[i].0) >= 1)
            && (forall d :: d in ds <==> d in Keys(vot))
            && SumOf(vot, CountOf) == Analytics(views).totalViews
  {
    var ds := Dates(views);
    DateOrderTotal();
    SortSorted(Tally(ds), ByDate);
    SortedTally(ds, ByDate);
  }

  /** `views.forEach(v => { if (v.country) countryMap.set(...) })`. */
  method CountCountries(views: seq<View>) returns (m: seq<(string, nat)>)
    ensures m == Tally(Countries(views))
  {
    m := [];
    var i := 0;
    while i < |views|
      invariant 0 <= i <= |views|
      invariant m == Tally(Countries(views[..i]))
    {
      var c := views[i].country;
      assert views[..i + 1][..i] == views[..i];
      ghost var before := Countries(views[..i]);
      if c.Some? && c.value != "" {
        assert (before + [c.value])[..|before|] == before;
        m := Bump(m, c.value);
      } else {
        assert before + [] == before;
      }
      i := i + 1;
    }
    assert views[..|views|] == views;
  }

  /** `views.forEach(v => dateMap.set(date, ...))`. */
  method CountDates(views: seq<View>) returns (m: seq<(string, nat)>)
    ensures m == Tally(Dates(views))
  {
    m := [];
    var i := 0;
    while i < |views|
      invariant 0 <= i <= |views|
      invariant m == Tally(Dates(views[..i]))
    {
      assert views[..i + 1][..i] == views[..i];
      ghost var before := Dates(views[..i]);
      assert (before + [views[i].date])[..|before|] == before;
      m := Bump(m, views[i].date);
      i := i + 1;
    }
    assert views[..|views|] == views;
  }

  /** `getPostAnalytics`: `found` says whether a post has the slug, `views` are its views of
      the period. */
  method GetPostAnalytics(found: bool, views: seq<View>) returns (r: Result<PostAnalytics, Thrown>)
    ensures r == if found then Ok(Analytics(views)) else Err(PostNotFound)
  {
    if !found {
      return Err(PostNotFound);
    }
    var countries := CountCountries(views);
    var dates := CountDates(views);
    var top := Sort(countries, ByCountDesc);
    r := Ok(PostAnalytics(|views|, |Ips(views)|, Take(top, 10), Sort(dates, ByDate)));
  }

  // ---------------------------------------------------------------------------
  // calculateTotalWords

  /** The piece count of one source's content: `content?.split(' ').length || 0`. */
  function Pieces(content: Option<string>): int {
    if content.Some? then |Split(content.value, ' ')| else 0
  }

  /** `sources` is `results?.sources` (nothing when missing); each source gives its content
      when it has one. */
  function TotalWords(sources: Option<seq<Option<string>>>): int {
    if sources.None? then 0 else SumOf(sources.value, Pieces)
  }

  /** Per source, one more than the spaces in its content. */
  function SpacesPlusOne(content: Option<string>): int {
    if content.Some? then Count(content.value, ' ') + 1 else 0
  }

  function WithContent(sources: seq<Option<string>>): nat {
    if sources == [] then 0 else (if sources[0].Some? then 1 else 0) + WithContent(sources[1..])
  }

  /** The total counts, for every source with content, its spaces plus one, so an empty
      content still counts one word and the total is at least the number of such
      sources. */
  lemma {:induction false} TotalWordsBySpaces(sources: seq<Option<string>>)
    ensures TotalWords(Some(sources)) == SumOf(sources, SpacesPlusOne)
    ensures TotalWords(Some(sources)) >= WithContent(sources)
  {
    if sources != [] {
      TotalWordsBySpaces(sources[1..]);
      if sources[0].Some? {
        SplitLength(sources[0].value, ' ');
      }
    }
  }

  lemma TotalWordsExamples()
    ensures TotalWords(None) == 0
    ensures TotalWords(Some([])) == 0
    ensures TotalWords(Some([Some("two words"), None, Some("")])) == 3
  {
    TotalWordsBySpaces([Some("two words"), None, Some("")]);
    assert Count("two words", ' ') == 1;
    assert Count("", ' ') == 0;
  }

  // ---------------------------------------------------------------------------
  // getPerformanceStats

  /** A stored metric: its day as `YYYY-MM-DD`, its duration and its status. */
  datatype MetricRow = MetricRow(date: string, duration: int, status: string)

  datatype Group = Group(count: nat, totalDuration: int)

  /** How many metrics fall on day `d`. */
  function CountOn(ms: seq<MetricRow>, d: string): nat {
    if ms == [] then 0 else CountOn(ms[..|ms| - 1], d) + (if ms[|ms| - 1].date == d then 1 else 0)
  }

  /** The durations of the metrics of day `d`, added up. */
  function DurationOn(ms: seq<MetricRow>, d: string): (r: int)
    ensures CountOn(ms, d) == 0 ==> r == 0
  {
    if ms == [] then 0 else DurationOn(ms[..|ms| - 1], d) + (if ms[|ms| - 1].date == d then ms[|ms| - 1].duration else 0)
  }

  /** `current => { count: current.count + 1, totalDuration: current.totalDuration + d }`. */
  function AddDuration(d: int): Group -> Group {
    (g: Group) => Group(g.count + 1, g.totalDuration + d)
  }

  /** One metric added to its day's group, a new group counting from zero. */
  function AddMetric(m: seq<(string, Group)>, row: MetricRow): seq<(string, Group)> {
    Update(m, row.date, Group(0, 0), AddDuration(row.duration))
  }

  function GroupByDate(ms: seq<MetricRow>): seq<(string, Group)>
  {
    if ms == [] then [] else AddMetric(GroupByDate(ms[..|ms| - 1]), ms[|ms| - 1])
  }

  lemma {:induction false} GroupsDistinct(ms: seq<MetricRow>)
    ensures DistinctKeys(GroupByDate(ms))
  {
    if ms != [] {
      var row := ms[|ms| - 1];
      GroupsDistinct(ms[..|ms| - 1]);
      UpdateDistinct(GroupByDate(ms[..|ms| - 1]), row.date, Group(0, 0), AddDuration(row.duration));
    }
  }

  /** A day's group counts that day's metrics and adds up their durations; days without
      metrics have no group. */
  lemma {:induction false} GroupByDateGet(ms: seq<MetricRow>, d: string)
    ensures Get(GroupByDate(ms), d) ==
            if CountOn(ms, d) == 0 then None else Some(Group(CountOn(ms, d), DurationOn(ms, d)))
  {
    if ms != [] {
      var init, last := ms[..|ms| - 1], ms[|ms| - 1];
      var m := GroupByDate(init);
      GroupByDateGet(init, d);
      assert GroupByDate(ms) == AddMetric(m, last);
      GetUpdate(m, last.date, Group(0, 0), AddDuration(last.duration), d);
      assert CountOn(ms, d) == CountOn(init, d) + (if last.date == d then 1 else 0);
      assert DurationOn(ms, d) == DurationOn(init, d) + (if last.date == d then last.duration else 0);
    }
  }

  /** Every group counts at least one metric. */
  lemma GroupsNonEmpty(ms: seq<MetricRow>)
    ensures forall i :: 0 <= i < |GroupByDate(ms)| ==> GroupByDate(ms)[i].1.count == CountOn(ms, GroupByDate(ms)[i].0) >= 1
  {
    var m := GroupByDate(ms);
    GroupsDistinct(ms);
    forall i | 0 <= i < |m| ensures m[i].1.count == CountOn(ms, m[i].0) >= 1 {
      GetAt(m, i);
      GroupByDateGet(ms, m[i].0);
    }
  }

  function GroupCount(e: (string, Group)): int { e.1.count }

  /** The group counts add up to the number of metrics. */
  lemma {:induction false} GroupTotal(ms: seq<MetricRow>)
    ensures SumOf(GroupByDate(ms), GroupCount) == |ms|
  {
    if ms != [] {
      var init, row := ms[..|ms| - 1], ms[|ms| - 1];
      var m := GroupByDate(init);
      GroupTotal(init);
      UpdateSum(m, row.date, Group(0, 0), AddDuration(row.duration), GroupCount);
      if row.date in Keys(m) {
        assert Get(m, row.date).Some?;
      }
    }
  }

  /** A day of `operationsOverTime`. */
  datatype Point = Point(date: string, count: nat, avgDuration: real)

  function ToPoint(e: (string, Group)): Point {
    Point(e.0, e.1.count, if e.1.count == 0 then 0.0 else e.1.totalDuration as real / e.1.count as real)
  }

  function Points(m: seq<(string, Group)>): (r: seq<Point>)
    ensures |r| == |m| && forall i :: 0 <= i < |m| ==> r[i] == ToPoint(m[i])
  {
    if m == [] then [] else [ToPoint(m[0])] + Points(m[1..])
  }

  function PointByDate(a: Point, b: Point): bool { LexLe(a.date, b.date) }
  function GroupByDay(a: (string, Group), b: (string, Group)): bool { LexLe(a.0, b.0) }
  function PointCount(p: Point): int { p.count }

  /** Sorting the points by date is sorting the groups by date and then making them
      points. */
  lemma {:induction false} PointsInsert(x: (string, Group), s: seq<(string, Group)>)
    ensures Insert(ToPoint(x), Points(s), PointByDate) == Points(Insert(x, s, GroupByDay))
  {
    if s != [] && !GroupByDay(x, s[0]) {
      PointsInsert(x, s[1..]);
      assert Points([s[0]] + Insert(x, s[1..], GroupByDay))[1..] == Points(Insert(x, s[1..], GroupByDay));
    }
  }

  lemma {:induction false} PointsSort(s: seq<(string, Group)>)
    ensures Sort(Points(s), PointByDate) == Points(Sort(s, GroupByDay))
  {
    if s != [] {
      PointsSort(s[1..]);
      assert Points(s)[1..] == Points(s[1..]);
      PointsInsert(s[0], Sort(s[1..], GroupByDay));
    }
  }

  lemma {:induction false} PointsSum(s: seq<(string, Group)>)
    ensures SumOf(Points(s), PointCount) == SumOf(s, GroupCount)
  {
    if s != [] {
      PointsSum(s[1..]);
      assert Points(s)[1..] == Points(s[1..]);
    }
  }

  lemma GroupOrderTotal()
    ensures TotalPreorder(GroupByDay)
  {
    forall a: (string, Group), b: (string, Group) ensures GroupByDay(a, b) || GroupByDay(b, a) {
      LexLeTotal(a.0, b.0);
    }
    forall a: (string, Group), b: (string, Group), c: (string, Group) | GroupByDay(a, b) && GroupByDay(b, c)
      ensures GroupByDay(a, c)
    {
      LexLeTrans(a.0, b.0, c.0);
    }
  }

  function Successes(ms: seq<MetricRow>): (n: nat)
    ensures n <= |ms|
  {
    if ms == [] then 0 else Successes(ms[..|ms| - 1]) + (if ms[|ms| - 1].status == "success" then 1 else 0)
  }

  datatype PerformanceStats = PerformanceStats(totalOperations: nat, successfulOperations: nat,
                                               operationsOverTime: seq<Point>)

  /** The figures for the metrics of the period. */
  function Stats(ms: seq<MetricRow>): PerformanceStats {
    PerformanceStats(|ms|, Successes(ms), Sort(Points(GroupByDate(ms)), PointByDate))
  }

  /** `operationsOverTime`: one point per day in date order, each counting that day's
      metrics with their mean duration, the counts adding up to `totalOperations`. */
  lemma OperationsOverTime(ms: seq<MetricRow>)
    ensures var ot := Stats(ms).operationsOverTime;
            && (forall i, j :: 0 <= i < j < |ot| ==> LexLe(ot[i].date, ot[j].date) && ot[i].date != ot[j].date)
            && (forall i :: 0 <= i < |ot| ==>
                  && ot[i].count == CountOn(ms, ot[i].date) >= 1
                  && ot[i].avgDuration == DurationOn(ms, ot[i].date) as real / ot[i].count as real)
            && SumOf(ot, PointCount) == Stats(ms).totalOperations
            && Stats(ms).successfulOperations <= Stats(ms).totalOperations
  {
    var groups := GroupByDate(ms);
    var sorted := Sort(groups, GroupByDay);
    PointsSort(groups);
    PointsSum(sorted);
    SortedGroups(ms);
    var ot := Points(sorted);
    forall i, j | 0 <= i < j < |ot| ensures LexLe(ot[i].date, ot[j].date) && ot[i].date != ot[j].date {
      assert GroupByDay(sorted[i], sorted[j]);
    }
  }

  /** The groups in date order: distinct days, each counting that day's metrics and
      adding up their durations, the counts adding up to the number of metrics. */
  lemma SortedGroups(ms: seq<MetricRow>)
    ensures var sorted := Sort(GroupByDate(ms), GroupByDay);
            && SortedBy(sorted, GroupByDay)
            && DistinctKeys(sorted)
            && (forall i :: 0 <= i < |sorted| ==>
                  && sorted[i].1.count == CountOn(ms, sorted[i].0) >= 1
                  && sorted[i].1.totalDuration == DurationOn(ms, sorted[i].0))
            && SumOf(sorted, GroupCount) == |ms|
  {
    var groups := GroupByDate(ms);
    var sorted := Sort(groups, GroupByDay);
    GroupOrderTotal();
    SortSorted(groups, GroupByDay);
    SortPermutes(groups, GroupByDay);
    GroupsDistinct(ms);
    SortKeys(groups, GroupByDay);
    SortSum(groups, GroupByDay, GroupCount);
    GroupTotal(ms);
    forall i | 0 <= i < |sorted|
      ensures sorted[i].1.count == CountOn(ms, sorted[i].0) >= 1
      ensures sorted[i].1.totalDuration == DurationOn(ms, sorted[i].0)
    {
      assert sorted[i] in multiset(groups);
      var j :| 0 <= j < |groups| && groups[j] == sorted[i];
      GetAt(groups, j);
      GroupByDateGet(ms, groups[j].0);
    }
  }

  /** `metrics.forEach(m => dateMap.set(date, { count + 1, totalDuration + duration }))`. */
  method GroupMetrics(ms: seq<MetricRow>) returns (m: seq<(string, Group)>)
    ensures m == GroupByDate(ms)
  {
    m := [];
    var i := 0;
    while i < |ms|
      invariant 0 <= i <= |ms|
      invariant m == GroupByDate(ms[..i])
    {
      assert ms[..i + 1][..i] == ms[..i];
      m := AddMetric(m, ms[i]);
      i := i + 1;
    }
    assert ms[..|ms|] == ms;
  }

  /** `getPerformanceStats` over the metrics of the period. */
  method GetPerformanceStats(ms: seq<MetricRow>) returns (s: PerformanceStats)
    ensures s == Stats(ms)
  {
    var groups := GroupMetrics(ms);
    s := PerformanceStats(|ms|, Successes(ms), Sort(Points(groups), PointByDate));
  }
}
