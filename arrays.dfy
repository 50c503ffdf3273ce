/**
 * The array operations the aggregation code leans on: `Array.prototype.sort`
 * with a comparator (stable, as the language requires), and summing a
 * weight over the elements with `reduce`.
 */
module Arrays {
  import opened Assoc

  /** Every element is at most every later one. */
  predicate SortedBy<T>(s: seq<T>, le: (T, T) -> bool) {
    forall i, j :: 0 <= i < j < |s| ==> le(s[i], s[j])
  }

  /** A comparator that orders all values: total and transitive. */
  ghost predicate TotalPreorder<T(!new)>(le: (T, T) -> bool) {
    && (forall a, b :: le(a, b) || le(b, a))
    && (forall a, b, c :: le(a, b) && le(b, c) ==> le(a, c))
  }

  /** Places `x` ahead of the first element it is at most, so equal elements keep their
      order. */
  function Insert<T>(x: T, s: seq<T>, le: (T, T) -> bool): (r: seq<T>)
    ensures |r| == |s| + 1
  {
    if s == [] then [x]
    else if le(x, s[0]) then [x] + s
    else [s[0]] + Insert(x, s[1..], le)
  }

  /** A stable insertion sort: `s.sort(cmp)` where `le(a, b)` is `cmp(a, b) <= 0`. */
  function Sort<T>(s: seq<T>, le: (T, T) -> bool): (r: seq<T>)
    ensures |r| == |s|
  {
    if s == [] then [] else Insert(s[0], Sort(s[1..], le), le)
  }

  lemma {:induction false} InsertPermutes<T>(x: T, s: seq<T>, le: (T, T) -> bool)
    ensures multiset(Insert(x, s, le)) == multiset(s) + multiset{x}
  {
    if s != [] && !le(x, s[0]) {
      InsertPermutes(x, s[1..], le);
      assert s == [s[0]] + s[1..];
    }
  }

  /** Sorting only reorders. */
  lemma {:induction false} SortPermutes<T>(s: seq<T>, le: (T, T) -> bool)
    ensures multiset(Sort(s, le)) == multiset(s)
  {
    if s != [] {
      SortPermutes(s[1..], le);
      InsertPermutes(s[0], Sort(s[1..], le), le);
      assert s == [s[0]] + s[1..];
    }
  }

  lemma {:induction false} InsertSorted<T(!new)>(x: T, s: seq<T>, le: (T, T) -> bool)
    requires TotalPreorder(le) && SortedBy(s, le)
    ensures SortedBy(Insert(x, s, le), le)
  {
    if s != [] && !le(x, s[0]) {
      var tail := Insert(x, s[1..], le);
      InsertSorted(x, s[1..], le);
      InsertPermutes(x, s[1..], le);
      assert le(s[0], x);
      forall j | 0 <= j < |tail| ensures le(s[0], tail[j]) {
        assert tail[j] in multiset(s[1..]) + multiset{x};
        if tail[j] != x {
          assert tail[j] in s[1..];
        }
      }
    }
  }

  /** The sort orders its result by any total comparator. */
  lemma {:induction false} SortSorted<T(!new)>(s: seq<T>, le: (T, T) -> bool)
    requires TotalPreorder(le)
    ensures SortedBy(Sort(s, le), le)
  {
    if s != [] {
      SortSorted(s[1..], le);
      InsertSorted(s[0], Sort(s[1..], le), le);
    }
  }

  /** A key-value list sorted by any comparator keeps its keys distinct, and the same
      keys. */
  lemma {:induction false} InsertKeys<K, V>(x: (K, V), s: seq<(K, V)>, le: ((K, V), (K, V)) -> bool)
    requires DistinctKeys(s) && x.0 !in Keys(s)
    ensures DistinctKeys(Insert(x, s, le))
    ensures forall k :: k in Keys(Insert(x, s, le)) <==> k == x.0 || k in Keys(s)
  {
    if s == [] {
    } else if le(x, s[0]) {
      DistinctCons(x, s);
      assert Keys([x] + s) == [x.0] + Keys(s);
    } else {
      assert Keys(s) == [s[0].0] + Keys(s[1..]);
      assert DistinctKeys(s[1..]) by {
        forall i, j | 0 <= i < j < |s[1..]| ensures s[1..][i].0 != s[1..][j].0 {
          assert s[1..][i] == s[i + 1] && s[1..][j] == s[j + 1];
        }
      }
      var tail := Insert(x, s[1..], le);
      InsertKeys(x, s[1..], le);
      assert s[0].0 !in Keys(s[1..]) by {
        forall i | 0 <= i < |s[1..]| ensures s[1..][i].0 != s[0].0 {
          assert s[1..][i] == s[i + 1];
        }
      }
      DistinctCons(s[0], tail);
      assert Keys([s[0]] + tail) == [s[0].0] + Keys(tail);
    }
  }

  lemma {:induction false} SortKeys<K, V>(s: seq<(K, V)>, le: ((K, V), (K, V)) -> bool)
    requires DistinctKeys(s)
    ensures DistinctKeys(Sort(s, le))
    ensures forall k :: k in Keys(Sort(s, le)) <==> k in Keys(s)
  {
    if s != [] {
      assert Keys(s) == [s[0].0] + Keys(s[1..]);
      assert DistinctKeys(s[1..]) by {
        forall i, j | 0 <= i < j < |s[1..]| ensures s[1..][i].0 != s[1..][j].0 {
          assert s[1..][i] == s[i + 1] && s[1..][j] == s[j + 1];
        }
      }
      assert s[0].0 !in Keys(s[1..]) by {
        forall i | 0 <= i < |s[1..]| ensures s[1..][i].0 != s[0].0 {
          assert s[1..][i] == s[i + 1];
        }
      }
      SortKeys(s[1..], le);
      InsertKeys(s[0], Sort(s[1..], le), le);
    }
  }

  /** `s.filter(p)`. */
  function Filter<T>(s: seq<T>, p: T -> bool): (r: seq<T>)
    ensures |r| <= |s|
  {
    if s == [] then [] else (if p(s[0]) then [s[0]] else []) + Filter(s[1..], p)
  }

  /** Inserting `x` puts it ahead of every element it ties with. */
  lemma {:induction false} InsertStable<T>(x: T, s: seq<T>, le: (T, T) -> bool, ties: T -> bool)
    requires forall a, b :: ties(a) && ties(b) ==> le(a, b)
    ensures Filter(Insert(x, s, le), ties) == (if ties(x) then [x] else []) + Filter(s, ties)
  {
    if s == [] {
    } else if le(x, s[0]) {
      assert ([x] + s)[1..] == s;
    } else {
      var rest := Insert(x, s[1..], le);
      var tail := Filter(s[1..], ties);
      InsertStable(x, s[1..], le, ties);
      assert ([s[0]] + rest)[1..] == rest;
      assert Filter(Insert(x, s, le), ties) == (if ties(s[0]) then [s[0]] else []) + Filter(rest, ties);
      assert Filter(s, ties) == (if ties(s[0]) then [s[0]] else []) + tail;
      if ties(x) {
        assert !ties(s[0]);
        assert Filter(rest, ties) == [x] + tail;
      } else {
        assert Filter(rest, ties) == tail;
      }
    }
  }

  /** The sort is stable: elements the comparator ranks as ties (any set of elements each
      of which is at most every other) come out in their input order. */
  lemma {:induction false} SortStable<T>(s: seq<T>, le: (T, T) -> bool, ties: T -> bool)
    requires forall a, b :: ties(a) && ties(b) ==> le(a, b)
    ensures Filter(Sort(s, le), ties) == Filter(s, ties)
  {
    if s != [] {
      SortStable(s[1..], le, ties);
      InsertStable(s[0], Sort(s[1..], le), le, ties);
    }
  }

  /** `s.reduce((sum, x) => sum + w(x), 0)`. */
  function SumOf<T>(s: seq<T>, w: T -> int): int
  {
    if s == [] then 0 else w(s[0]) + SumOf(s[1..], w)
  }

  lemma {:induction false} SumAppend<T>(s: seq<T>, x: T, w: T -> int)
    ensures SumOf(s + [x], w) == SumOf(s, w) + w(x)
  {
    if s != [] {
      assert (s + [x])[1..] == s[1..] + [x];
      SumAppend(s[1..], x, w);
    }
  }

  lemma {:induction false} InsertSum<T>(x: T, s: seq<T>, le: (T, T) -> bool, w: T -> int)
    ensures SumOf(Insert(x, s, le), w) == w(x) + SumOf(s, w)
  {
    if s != [] && !le(x, s[0]) {
      InsertSum(x, s[1..], le, w);
    }
  }

  /** Sorting keeps every sum. */
  lemma {:induction false} SortSum<T>(s: seq<T>, le: (T, T) -> bool, w: T -> int)
    ensures SumOf(Sort(s, le), w) == SumOf(s, w)
  {
    if s != [] {
      SortSum(s[1..], le, w);
      InsertSum(s[0], Sort(s[1..], le), le, w);
    }
  }

  /** An update changes a sum by what the updated entry weighs now against what it
      weighed before. */
  lemma {:induction false} UpdateSum<K, V>(m: seq<(K, V)>, k: K, zero: V, f: V -> V, w: ((K, V)) -> int)
    ensures SumOf(Update(m, k, zero, f), w) ==
            SumOf(m, w) + w((k, f(GetOr(m, k, zero)))) - (if k in Keys(m) then w((k, GetOr(m, k, zero))) else 0)
  {
    if m != [] {
      assert Keys(m) == [m[0].0] + Keys(m[1..]);
      if m[0].0 != k {
        UpdateSum(m[1..], k, zero, f, w);
        var rest := Update(m[1..], k, zero, f);
        assert ([m[0]] + rest)[1..] == rest;
      } else {
        assert ([(k, f(m[0].1))] + m[1..])[1..] == m[1..];
      }
    }
  }
  /** `s.filter(y => y === x).length`. */
  function Occurrences<T(==)>(s: seq<T>, x: T): nat
  {
    if s == [] then 0 else Occurrences(s[..|s| - 1], x) + (if s[|s| - 1] == x then 1 else 0)
  }

  /** The count is the multiplicity, so it is positive exactly for the elements. */
  lemma {:induction false} OccurrencesCount<T>(s: seq<T>, x: T)
    ensures Occurrences(s, x) == multiset(s)[x]
    ensures Occurrences(s, x) > 0 <==> x in s
  {
    if s != [] {
      var init := s[..|s| - 1];
      OccurrencesCount(init, x);
      assert s == init + [s[|s| - 1]];
    }
  }
}
