/**
 * The three-tier cache: an in-process memory tier, an optional Redis tier and
 * an optional database tier, with the statistics counters they share.
 *
 * Values are held as their JSON text, as the cache stores them; the text
 * `null` is what `JSON.parse` turns into `null`. Each tier's state is a map
 * from key to entry. Whether a call to the Redis or the database tier throws
 * is a parameter of each operation (`Faults`); such a failure is caught and
 * logged, never passed to the caller.
 */
module Cache {
  import opened Wrappers
  import opened Text

  /** The shared `stats` object. */
  datatype Counters = Counters(hits: nat, misses: nat, sets: nat, deletes: nat)

  /** A row of the `cache` table: value text, comma-joined tags, expiry time (ms). */
  datatype Row = Row(value: string, tags: Option<string>, expiresAt: Option<int>)

  /** A memory entry with the time to live it was given, in milliseconds. */
  datatype MemEntry = MemEntry(value: string, ttl: int)

  /** A Redis entry with the expiry it was given, in seconds. */
  datatype RedisEntry = RedisEntry(value: string, seconds: int)

  /** `CacheOptions`. */
  datatype Options = Options(ttl: Option<int>, tags: Option<seq<string>>)

  /** Which tiers throw during one call. */
  datatype Faults = Faults(redis: bool, db: bool)

  const NoFaults := Faults(false, false)

  /** The memory tier's default time to live, and the expiry given to back-filled Redis entries. */
  const DefaultTtl: int := 900000
  const BackfillSeconds: int := 900

  /** Everything the cache holds: the memory tier, Redis when connected, the database
      rows when a database tier is configured, and the counters. */
  datatype State = State(
    memory: map<string, MemEntry>,
    redis: Option<map<string, RedisEntry>>,
    db: Option<map<string, Row>>,
    stats: Counters)

  /** `JSON.parse` of a stored text, `null` being `None`; an empty text reads as `null` where
      the code tests the cached text for truthiness first. */
  function Parse(text: string): (r: Option<string>)
    ensures r.Some? <==> text != "" && text != "null"
    ensures r.Some? ==> r.value == text
  {
    if text == "" || text == "null" then None else Some(text)
  }

  /** A time to live is given when it is present and not zero (`options.ttl ?`). */
  predicate HasTtl(opts: Options) {
    opts.ttl.Some? && opts.ttl.value != 0
  }

  // ---------------------------------------------------------------------------
  // The database tier (`DatabaseCache`)

  /** A row with an expiry before `now` is expired; one expiring exactly now is not. */
  predicate ExpiredAt(row: Row, now: int) {
    row.expiresAt.Some? && row.expiresAt.value < now
  }

  /** `DatabaseCache.get`: a missing row is a miss, an expired row is deleted and is a miss,
      any other row a hit. */
  function DbGet(rows: map<string, Row>, c: Counters, key: string, now: int, fails: bool)
    : (r: (Option<string>, map<string, Row>, Counters))
    ensures fails ==> r == (None, rows, c)
    ensures !fails && key !in rows ==> r == (None, rows, c.(misses := c.misses + 1))
    ensures !fails && key in rows && ExpiredAt(rows[key], now) ==>
              r == (None, rows - {key}, c.(misses := c.misses + 1, deletes := c.deletes + 1))
    ensures !fails && key in rows && !ExpiredAt(rows[key], now) ==>
              r == (Some(rows[key].value), rows, c.(hits := c.hits + 1))
  {
    if fails then (None, rows, c)
    else if key !in rows then (None, rows, c.(misses := c.misses + 1))
    else if ExpiredAt(rows[key], now) then
      var (rows1, c1) := DbDelete(rows, c, key, false);
      (None, rows1, c1.(misses := c1.misses + 1))
    else (Some(rows[key].value), rows, c.(hits := c.hits + 1))
  }

  /** The row `set` writes: an expiry only for a given, non-zero time to live; tags joined
      by commas, and on an existing row left as they were when none are given (the upsert
      passes `undefined`). */
  function NewRow(prior: Option<Row>, value: string, opts: Options, now: int): (row: Row)
    ensures row.value == value
    ensures row.expiresAt == if HasTtl(opts) then Some(now + opts.ttl.value) else None
    ensures opts.tags.Some? ==> row.tags == Some(Join(opts.tags.value, ","))
    ensures opts.tags.None? ==> row.tags == if prior.Some? then prior.value.tags else None
  {
    Row(value,
        if opts.tags.Some? then Some(Join(opts.tags.value, ",")) else if prior.Some? then prior.value.tags else None,
        if HasTtl(opts) then Some(now + opts.ttl.value) else None)
  }

  /** `DatabaseCache.set`: upserts the row and counts a set. */
  function DbSet(rows: map<string, Row>, c: Counters, key: string, value: string, opts: Options, now: int, fails: bool)
    : (r: (map<string, Row>, Counters))
    ensures fails ==> r == (rows, c)
    ensures !fails ==> key in r.0 && r.0[key] == NewRow(if key in rows then Some(rows[key]) else None, value, opts, now)
    ensures !fails ==> r.1 == c.(sets := c.sets + 1)
    ensures forall k :: k in rows && k != key ==> k in r.0 && r.0[k] == rows[k]
    ensures r.0.Keys <= rows.Keys + {key}
  {
    if fails then (rows, c)
    else (rows[key := NewRow(if key in rows then Some(rows[key]) else None, value, opts, now)], c.(sets := c.sets + 1))
  }

  /** `DatabaseCache.delete`: deleting a missing row throws inside and is caught, so it is
      not counted. */
  function DbDelete(rows: map<string, Row>, c: Counters, key: string, fails: bool): (r: (map<string, Row>, Counters))
    ensures (fails || key !in rows) ==> r == (rows, c)
    ensures !fails && key in rows ==> r == (rows - {key}, c.(deletes := c.deletes + 1))
  {
    if fails || key !in rows then (rows, c) else (rows - {key}, c.(deletes := c.deletes + 1))
  }

  /** The row's tag string contains one of the tags (SQL `LIKE '%tag%'`; no tags, no match). */
  predicate TaggedWith(row: Row, tags: seq<string>) {
    row.tags.Some? && exists t | t in tags :: Contains(row.tags.value, t)
  }

  /** `DatabaseCache.invalidateByTags`: removes every row tagged with one of the tags. */
  function DbInvalidate(rows: map<string, Row>, tags: seq<string>, fails: bool): (r: map<string, Row>)
    ensures fails ==> r == rows
    ensures !fails ==> forall k :: k in r <==> k in rows && !TaggedWith(rows[k], tags)
    ensures forall k :: k in r ==> k in rows && r[k] == rows[k]
  {
    if fails then rows else map k | k in rows && !TaggedWith(rows[k], tags) :: rows[k]
  }

  /** `DatabaseCache.cleanup`: removes every row whose expiry is now or earlier. */
  function DbCleanup(rows: map<string, Row>, now: int, fails: bool): (r: map<string, Row>)
    ensures fails ==> r == rows
    ensures !fails ==> forall k :: k in r <==> k in rows && !(rows[k].expiresAt.Some? && rows[k].expiresAt.value <= now)
    ensures forall k :: k in r ==> k in rows && r[k] == rows[k]
  {
    if fails then rows else map k | k in rows && !(rows[k].expiresAt.Some? && rows[k].expiresAt.value <= now) :: rows[k]
  }

  // ---------------------------------------------------------------------------
  // The three tiers together (`MultiTierCache`)

  /** `MultiTierCache.get`. */
  function MultiGet(st: State, key: string, now: int, f: Faults): (Option<string>, State)
  {
    if key in st.memory then
      (Parse(st.memory[key].value), st.(stats := st.stats.(hits := st.stats.hits + 1)))
    else if st.redis.Some? && !f.redis && key in st.redis.value && st.redis.value[key].value != "" then
      var text := st.redis.value[key].value;
      (Parse(text), st.(memory := st.memory[key := MemEntry(text, DefaultTtl)], stats := st.stats.(hits := st.stats.hits + 1)))
    else if st.db.Some? then
      var (v, rows, c) := DbGet(st.db.value, st.stats, key, now, f.db);
      if v.Some? && v.value != "null" then
        var redis := if st.redis.Some? && !f.redis then Some(st.redis.value[key := RedisEntry(v.value, BackfillSeconds)]) else st.redis;
        (Some(v.value), State(st.memory[key := MemEntry(v.value, DefaultTtl)], redis, Some(rows), c))
      else (None, st.(db := Some(rows), stats := c.(misses := c.misses + 1)))
    else (None, st.(stats := st.stats.(misses := st.stats.misses + 1)))
  }

  /** `setEx` with a non-positive expiry is refused by Redis; the error is caught. */
  function RedisSet(redis: Option<map<string, RedisEntry>>, key: string, value: string, seconds: int, fails: bool)
    : Option<map<string, RedisEntry>>
  {
    if redis.Some? && !fails && seconds > 0 then Some(redis.value[key := RedisEntry(value, seconds)]) else redis
  }

  /** The memory tier's time to live for a `set`: `options.ttl || 900000`. */
  function TtlOf(opts: Options): (ttl: int)
    ensures HasTtl(opts) ==> ttl == opts.ttl.value
    ensures !HasTtl(opts) ==> ttl == 900000
  {
    if HasTtl(opts) then opts.ttl.value else DefaultTtl
  }

  /** `MultiTierCache.set`: memory with the time to live, Redis with it in whole seconds
      (rounded down), the database with the caller's own options; one more set counted. */
  function MultiSet(st: State, key: string, value: string, opts: Options, now: int, f: Faults): State
  {
    var ttl := TtlOf(opts);
    var db := if st.db.Some? then Some(DbSet(st.db.value, st.stats, key, value, opts, now, f.db)) else None;
    var c := if db.Some? then db.value.1 else st.stats;
    State(st.memory[key := MemEntry(value, ttl)],
          RedisSet(st.redis, key, value, ttl / 1000, f.redis),
          if db.Some? then Some(db.value.0) else None,
          c.(sets := c.sets + 1))
  }

  /** `MultiTierCache.delete`. */
  function MultiDelete(st: State, key: string, f: Faults): State
  {
    var redis := if st.redis.Some? && !f.redis then Some(st.redis.value - {key}) else st.redis;
    var db := if st.db.Some? then Some(DbDelete(st.db.value, st.stats, key, f.db)) else None;
    var c := if db.Some? then db.value.1 else st.stats;
    State(st.memory - {key}, redis, if db.Some? then Some(db.value.0) else None, c.(deletes := c.deletes + 1))
  }

  /** `MultiTierCache.invalidateByTags`: the whole memory tier and the whole Redis database
      go, whatever the tags; the database tier drops the tagged rows. */
  function MultiInvalidate(st: State, tags: seq<string>, f: Faults): State
  {
    State(map[],
          if st.redis.Some? && !f.redis then Some(map[]) else st.redis,
          if st.db.Some? then Some(DbInvalidate(st.db.value, tags, f.db)) else None,
          st.stats)
  }

  /** `getStats().hitRate`. */
  function HitRate(c: Counters): (r: real)
    ensures 0.0 <= r <= 1.0
    ensures c.hits + c.misses == 0 ==> r == 0.0
    ensures c.hits + c.misses > 0 ==> r * (c.hits + c.misses) as real == c.hits as real
  {
    var total := c.hits + c.misses;
    if total > 0 then c.hits as real / total as real else 0.0
  }

  // ---------------------------------------------------------------------------
  // What the cache promises

  /** A value just set is read back from the memory tier, whatever the other tiers hold or
      do, and the read counts as a hit. */
  lemma SetThenGet(st: State, key: string, value: string, opts: Options, now: int, f: Faults, later: int, g: Faults)
    ensures var st1 := MultiSet(st, key, value, opts, now, f);
            var (r, st2) := MultiGet(st1, key, later, g);
            && r == Parse(value)
            && st2 == st1.(stats := st1.stats.(hits := st1.stats.hits + 1))
  {
  }

  /** A memory hit answers first: Redis and the database are not consulted. */
  lemma GetMemoryFirst(st: State, key: string, now: int, f: Faults)
    requires key in st.memory
    ensures MultiGet(st, key, now, f) == (Parse(st.memory[key].value), st.(stats := st.stats.(hits := st.stats.hits + 1)))
  {
  }

  /** A Redis hit is copied into memory. */
  lemma GetRedisBackfill(st: State, key: string, now: int, f: Faults)
    requires key !in st.memory && st.redis.Some? && !f.redis
    requires key in st.redis.value && st.redis.value[key].value != ""
    ensures var (r, st2) := MultiGet(st, key, now, f);
            && r == Parse(st.redis.value[key].value)
            && st2.memory == st.memory[key := MemEntry(st.redis.value[key].value, 900000)]
            && st2.redis == st.redis && st2.db == st.db
            && st2.stats == st.stats.(hits := st.stats.hits + 1)
  {
  }

  /** A database hit is copied into memory and, for 900 seconds, into Redis; the database
      counts the hit. */
  lemma GetDbBackfill(st: State, key: string, now: int, f: Faults)
    requires key !in st.memory && (st.redis.None? || f.redis || key !in st.redis.value)
    requires st.db.Some? && !f.db && key in st.db.value
    requires !ExpiredAt(st.db.value[key], now) && st.db.value[key].value != "null"
    ensures var v := st.db.value[key].value;
            var (r, st2) := MultiGet(st, key, now, f);
            && r == Some(v)
            && st2.memory == st.memory[key := MemEntry(v, 900000)]
            && st2.redis == (if st.redis.Some? && !f.redis then Some(st.redis.value[key := RedisEntry(v, 900)]) else st.redis)
            && st2.db == st.db
            && st2.stats == st.stats.(hits := st.stats.hits + 1)
  {
  }

  /** A key found nowhere, with a working database tier, counts two misses: one in the
      database tier and one in the cache itself. */
  lemma MissCountedTwice(st: State, key: string, now: int, f: Faults)
    requires key !in st.memory && (st.redis.None? || f.redis || key !in st.redis.value)
    requires st.db.Some? && !f.db && key !in st.db.value
    ensures var (r, st2) := MultiGet(st, key, now, f);
            r.None? && st2 == st.(stats := st.stats.(misses := st.stats.misses + 2))
  {
  }

  /** Without a database tier a miss counts once. */
  lemma MissCountedOnce(st: State, key: string, now: int, f: Faults)
    requires key !in st.memory && (st.redis.None? || f.redis || key !in st.redis.value)
    requires st.db.None?
    ensures var (r, st2) := MultiGet(st, key, now, f);
            r.None? && st2 == st.(stats := st.stats.(misses := st.stats.misses + 1))
  {
  }

  /** A set counts twice with a working database tier, once otherwise. */
  lemma SetCounts(st: State, key: string, value: string, opts: Options, now: int, f: Faults)
    ensures MultiSet(st, key, value, opts, now, f).stats.sets == st.stats.sets + (if st.db.Some? && !f.db then 2 else 1)
    ensures MultiSet(st, key, value, opts, now, f).stats.hits == st.stats.hits
    ensures MultiSet(st, key, value, opts, now, f).stats.misses == st.stats.misses
  {
  }

  /** A set writes every working tier: memory with the time to live, Redis with it in whole
      seconds (when that is positive), the database with the caller's options. */
  lemma SetWritesAll(st: State, key: string, value: string, opts: Options, now: int, f: Faults)
    ensures var st1 := MultiSet(st, key, value, opts, now, f);
            var ttl := if HasTtl(opts) then opts.ttl.value else 900000;
            && st1.memory[key] == MemEntry(value, ttl)
            && (st.redis.Some? && !f.redis && ttl / 1000 > 0 ==> st1.redis == Some(st.redis.value[key := RedisEntry(value, ttl / 1000)]))
            && (st.db.Some? && !f.db ==> st1.db.Some? && key in st1.db.value && st1.db.value[key].value == value
                                         && st1.db.value[key].expiresAt == (if HasTtl(opts) then Some(now + opts.ttl.value) else None))
  {
  }

  /** After a delete the key is in no working tier, and every other key is untouched. */
  lemma DeleteRemoves(st: State, key: string, f: Faults)
    ensures var st1 := MultiDelete(st, key, f);
            && key !in st1.memory
            && (st.redis.Some? && !f.redis ==> key !in st1.redis.value)
            && (st.db.Some? && !f.db ==> key !in st1.db.value)
            && (forall k :: k in st.memory && k != key ==> k in st1.memory && st1.memory[k] == st.memory[k])
            && st1.stats.deletes == st.stats.deletes + (if st.db.Some? && !f.db && key in st.db.value then 2 else 1)
  {
  }

  /** Invalidating by tags, even by none, empties memory and a working Redis; the database
      keeps exactly its rows that carry none of the tags. */
  lemma InvalidateClears(st: State, tags: seq<string>, f: Faults)
    ensures var st1 := MultiInvalidate(st, tags, f);
            && st1.memory == map[]
            && (st.redis.Some? && !f.redis ==> st1.redis == Some(map[]))
            && (st.db.Some? && !f.db ==> forall k :: k in st1.db.value <==> k in st.db.value && !TaggedWith(st.db.value[k], tags))
            && st1.stats == st.stats
  {
  }

  /** Tags match by substring: a row tagged `posts` goes when invalidating by `post`; a
      row whose tags do not contain the tag stays. */
  lemma InvalidateBySubstring(st: State, key: string)
    requires st.db.Some? && key in st.db.value && st.db.value[key].tags == Some("posts")
    ensures key !in MultiInvalidate(st, ["post"], NoFaults).db.value
    ensures key in MultiInvalidate(st, ["news"], NoFaults).db.value
  {
    var row := st.db.value[key];
    assert Contains("posts", "post") by { assert StartsWith("posts", "post"); }
    ContainsFirst("posts", "news");
    assert TaggedWith(row, ["post"]);
    assert !TaggedWith(row, ["news"]);
  }

  /** The database read and `cleanup` disagree at the boundary: a row expiring exactly now
      is still served by `get` but removed by `cleanup`. */
  lemma ExpiryBoundary(rows: map<string, Row>, c: Counters, key: string, now: int)
    requires key in rows && rows[key].expiresAt == Some(now)
    ensures DbGet(rows, c, key, now, false).0 == Some(rows[key].value)
    ensures key !in DbCleanup(rows, now, false)
    ensures DbGet(rows, c, key, now + 1, false).0.None? && key !in DbGet(rows, c, key, now + 1, false).1
  {
  }

  /** A row written without a time to live never expires: `get` serves it at any later time. */
  lemma NoTtlNeverExpires(rows: map<string, Row>, c: Counters, key: string, value: string, opts: Options, now: int, later: int)
    requires !HasTtl(opts)
    ensures var (rows1, c1) := DbSet(rows, c, key, value, opts, now, false);
            DbGet(rows1, c1, key, later, false).0 == Some(value)
            && key in DbCleanup(rows1, later, false)
  {
  }

  // ---------------------------------------------------------------------------
  // The same operations on the objects the module keeps

  /** The module's `stats` object. */
  class Stats {
    var hits: nat
    var misses: nat
    var sets: nat
    var deletes: nat

    constructor ()
      ensures Value() == Counters(0, 0, 0, 0)
    {
      hits, misses, sets, deletes := 0, 0, 0, 0;
    }

    function Value(): Counters
      reads this
    {
      Counters(hits, misses, sets, deletes)
    }
  }

  /** `DatabaseCache`: the `cache` table's rows, and the shared counters. */
  class DatabaseCache {
    var rows: map<string, Row>
    const stats: Stats

    constructor (stats: Stats)
      ensures this.stats == stats && rows == map[]
    {
      this.stats := stats;
      rows := map[];
    }

    method Get(key: string, now: int, fails: bool) returns (r: Option<string>)
      modifies this, stats
      ensures (r, rows, stats.Value()) == DbGet(old(rows), old(stats.Value()), key, now, fails)
    {
      r := None;
      if fails {
        return;
      }
      if key !in rows {
        stats.misses := stats.misses + 1;
        return;
      }
      var row := rows[key];
      if row.expiresAt.Some? && row.expiresAt.value < now {
        Delete(key, false);
        stats.misses := stats.misses + 1;
        return;
      }
      stats.hits := stats.hits + 1;
      r := Some(row.value);
    }

    method Set(key: string, value: string, opts: Options, now: int, fails: bool)
      modifies this, stats
      ensures (rows, stats.Value()) == DbSet(old(rows), old(stats.Value()), key, value, opts, now, fails)
    {
      if fails {
        return;
      }
      var expiresAt := if HasTtl(opts) then Some(now + opts.ttl.value) else None;
      var tags := if opts.tags.Some? then Some(Join(opts.tags.value, ",")) else if key in rows then rows[key].tags else None;
      rows := rows[key := Row(value, tags, expiresAt)];
      stats.sets := stats.sets + 1;
    }

    method Delete(key: string, fails: bool)
      modifies this, stats
      ensures (rows, stats.Value()) == DbDelete(old(rows), old(stats.Value()), key, fails)
    {
      if fails || key !in rows {
        return;
      }
      rows := rows - {key};
      stats.deletes := stats.deletes + 1;
    }

    /** One `deleteMany` per tag, in order. */
    method InvalidateByTags(tags: seq<string>, fails: bool)
      modifies this
      ensures rows == DbInvalidate(old(rows), tags, fails)
    {
      if fails {
        return;
      }
      var i := 0;
      while i < |tags|
        invariant 0 <= i <= |tags|
        invariant rows == DbInvalidate(old(rows), tags[..i], false)
      {
        InvalidateStep(old(rows), tags, i);
        rows := map k | k in rows && !(rows[k].tags.Some? && Contains(rows[k].tags.value, tags[i])) :: rows[k];
        i := i + 1;
      }
      assert tags[..i] == tags;
    }

    method Cleanup(now: int, fails: bool)
      modifies this
      ensures rows == DbCleanup(old(rows), now, fails)
    {
      if fails {
        return;
      }
      rows := map k | k in rows && !(rows[k].expiresAt.Some? && rows[k].expiresAt.value <= now) :: rows[k];
    }
  }

  /** Dropping the rows tagged with one more tag is dropping the rows tagged with any of
      the longer list. */
  lemma InvalidateStep(rows: map<string, Row>, tags: seq<string>, i: nat)
    requires i < |tags|
    ensures var before := DbInvalidate(rows, tags[..i], false);
            DbInvalidate(rows, tags[..i + 1], false)
            == map k | k in before && !(before[k].tags.Some? && Contains(before[k].tags.value, tags[i])) :: before[k]
  {
    assert tags[..i + 1] == tags[..i] + [tags[i]];
  }

  /** `MultiTierCache`: the memory tier, the Redis tier when connected, the database tier
      when configured, and the shared counters. */
  class MultiTierCache {
    var memory: map<string, MemEntry>
    var redis: Option<map<string, RedisEntry>>
    const dbCache: Option<DatabaseCache>
    const stats: Stats

    ghost predicate Valid()
      reads this
    {
      dbCache.Some? ==> dbCache.value.stats == stats
    }

    ghost function Tiers(): set<object>
      reads this
    {
      if dbCache.Some? then {this, stats, dbCache.value} else {this, stats}
    }

    ghost function Value(): State
      reads Tiers()
    {
      State(memory, redis, if dbCache.Some? then Some(dbCache.value.rows) else None, stats.Value())
    }

    constructor (dbCache: Option<DatabaseCache>, stats: Stats, redisConnected: bool)
      requires dbCache.Some? ==> dbCache.value.stats == stats
      ensures Valid() && this.dbCache == dbCache && this.stats == stats
      ensures memory == map[] && redis == (if redisConnected then Some(map[]) else None)
    {
      this.dbCache := dbCache;
      this.stats := stats;
      memory := map[];
      redis := if redisConnected then Some(map[]) else None;
    }

    method Get(key: string, now: int, f: Faults) returns (r: Option<string>)
      requires Valid()
      modifies Tiers()
      ensures Valid() && (r, Value()) == MultiGet(old(Value()), key, now, f)
    {
      if key in memory {
        stats.hits := stats.hits + 1;
        r := Parse(memory[key].value);
        return;
      }
      if redis.Some? && !f.redis && key in redis.value && redis.value[key].value != "" {
        var text := redis.value[key].value;
        memory := memory[key := MemEntry(text, DefaultTtl)];
        stats.hits := stats.hits + 1;
        r := Parse(text);
        return;
      }
      if dbCache.Some? {
        var v := dbCache.value.Get(key, now, f.db);
        if v.Some? && v.value != "null" {
          memory := memory[key := MemEntry(v.value, DefaultTtl)];
          if redis.Some? && !f.redis {
            redis := Some(redis.value[key := RedisEntry(v.value, BackfillSeconds)]);
          }
          r := v;
          return;
        }
      }
      stats.misses := stats.misses + 1;
      r := None;
    }

    method Set(key: string, value: string, opts: Options, now: int, f: Faults)
      requires Valid()
      modifies Tiers()
      ensures Valid() && Value() == MultiSet(old(Value()), key, value, opts, now, f)
    {
      var ttl := TtlOf(opts);
      memory := memory[key := MemEntry(value, ttl)];
      redis := RedisSet(redis, key, value, ttl / 1000, f.redis);
      if dbCache.Some? {
        dbCache.value.Set(key, value, opts, now, f.db);
      }
      stats.sets := stats.sets + 1;
    }

    method Delete(key: string, f: Faults)
      requires Valid()
      modifies Tiers()
      ensures Valid() && Value() == MultiDelete(old(Value()), key, f)
    {
      memory := memory - {key};
      if redis.Some? && !f.redis {
        redis := Some(redis.value - {key});
      }
      if dbCache.Some? {
        dbCache.value.Delete(key, f.db);
      }
      stats.deletes := stats.deletes + 1;
    }

    method InvalidateByTags(tags: seq<string>, f: Faults)
      requires Valid()
      modifies Tiers()
      ensures Valid() && Value() == MultiInvalidate(old(Value()), tags, f)
    {
      memory := map[];
      if redis.Some? && !f.redis {
        redis := Some(map[]);
      }
      if dbCache.Some? {
        dbCache.value.InvalidateByTags(tags, f.db);
      }
    }

    /** `getStats`: the counters and the hit rate. */
    method GetStats() returns (c: Counters, hitRate: real)
      ensures c == stats.Value() && hitRate == HitRate(c)
    {
      c := stats.Value();
      hitRate := HitRate(c);
    }
  }

  // ---------------------------------------------------------------------------
  // `CacheKeys`: one namespace per kind of entry; `encode` is `encodeURIComponent`.

  function PostKey(slug: string): string { "post:" + slug }
  function PostContentKey(slug: string): string { "post:content:" + slug }
  function PostHtmlKey(slug: string): string { "post:html:" + slug }
  function PostListKey(page: int, limit: int): string { "posts:list:" + IntToString(page) + ":" + IntToString(limit) }
  function PostSearchKey(query: string, encode: string -> string): string { "posts:search:" + encode(query) }
  function ResearchKey(query: string, encode: string -> string): string { "research:" + encode(query) }
  function ResearchSourcesKey(query: string, encode: string -> string): string { "research:sources:" + encode(query) }
  function AnalysisKey(sourcesHash: string): string { "analysis:" + sourcesHash }
  const TagListKey := "tags:list"
  function PostsByTagKey(tagSlug: string): string { "posts:tag:" + tagSlug }

  /** Keys of one kind determine their argument: a prefix and then the argument itself. */
  lemma KeysDetermineArgument(a: string, b: string)
    ensures PostKey(a) == PostKey(b) ==> a == b
    ensures PostContentKey(a) == PostContentKey(b) ==> a == b
    ensures PostHtmlKey(a) == PostHtmlKey(b) ==> a == b
    ensures AnalysisKey(a) == AnalysisKey(b) ==> a == b
    ensures PostsByTagKey(a) == PostsByTagKey(b) ==> a == b
  {
    PrefixCancel("post:", a, b);
    PrefixCancel("post:content:", a, b);
    PrefixCancel("post:html:", a, b);
    PrefixCancel("analysis:", a, b);
    PrefixCancel("posts:tag:", a, b);
  }

  lemma PrefixCancel(p: string, a: string, b: string)
    ensures p + a == p + b ==> a == b
  {
    if p + a == p + b {
      assert a == (p + a)[|p|..];
      assert b == (p + b)[|p|..];
    }
  }
}
