/** `Array.prototype.sort` with a comparator, which the language requires to be stable:
    modelled as insertion sort over a "may precede" relation `le` (`compare(a, b) <= 0`). */
module StableSort {
  import opened Seqs

  /** `le` is total and transitive, as a consistent comparator must be. */
  ghost predicate TotalPreorder<T(!new)>(le: (T, T) -> bool) {
    && (forall a, b :: le(a, b) || le(b, a))
    && (forall a, b, c :: le(a, b) && le(b, c) ==> le(a, c))
  }

  /** Every element may precede every later one. */
  ghost predicate Sorted<T>(s: seq<T>, le: (T, T) -> bool) {
    forall i, j :: 0 <= i < j < |s| ==> le(s[i], s[j])
  }

  /** The elements the comparator cannot tell apart from `x` (comparator result 0). */
  function SameRank<T>(x: T, le: (T, T) -> bool): T -> bool {
    y => le(x, y) && le(y, x)
  }

  /** Put `x` in front of the first element it may precede. */
  function Insert<T>(x: T, s: seq<T>, le: (T, T) -> bool): (r: seq<T>)
    ensures multiset(r) == multiset(s) + multiset{x}
  {
    if s == [] then [x]
    else if le(x, s[0]) then [x] + s
    else
      assert s == [s[0]] + s[1..];
      [s[0]] + Insert(x, s[1..], le)
  }

  /** The sorted copy of `s`. */
  function Sort<T>(s: seq<T>, le: (T, T) -> bool): (r: seq<T>)
    ensures multiset(r) == multiset(s)
    ensures |r| == |s|
  {
    if s == [] then []
    else
      assert s == [s[0]] + s[1..];
      Insert(s[0], Sort(s[1..], le), le)
  }

  lemma {:induction false} InsertSorted<T(!new)>(x: T, s: seq<T>, le: (T, T) -> bool)
    requires TotalPreorder(le) && Sorted(s, le)
    ensures Sorted(Insert(x, s, le), le)
  {
    if s != [] && !le(x, s[0]) {
      var rest := Insert(x, s[1..], le);
      InsertSorted(x, s[1..], le);
      forall k | 0 <= k < |rest| ensures le(s[0], rest[k]) {
        assert rest[k] in multiset(rest);
        if rest[k] != x {
          assert rest[k] in multiset(s[1..]);
          var j :| 0 <= j < |s[1..]| && s[1..][j] == rest[k];
          assert s[j + 1] == rest[k];
        }
      }
    }
  }

  /** The result is ordered by `le`. */
  lemma {:induction false} SortSorted<T(!new)>(s: seq<T>, le: (T, T) -> bool)
    requires TotalPreorder(le)
    ensures Sorted(Sort(s, le), le)
  {
    if s != [] {
      SortSorted(s[1..], le);
      InsertSorted(s[0], Sort(s[1..], le), le);
    }
  }

  lemma {:induction false} InsertKeepsRanks<T(!new)>(x: T, s: seq<T>, y: T, le: (T, T) -> bool)
    requires TotalPreorder(le)
    ensures SameRank(y, le)(x) ==> Filter(Insert(x, s, le), SameRank(y, le)) == [x] + Filter(s, SameRank(y, le))
    ensures !SameRank(y, le)(x) ==> Filter(Insert(x, s, le), SameRank(y, le)) == Filter(s, SameRank(y, le))
  {
    if s == [] || le(x, s[0]) {
      FilterCons(x, s, SameRank(y, le));
      assert Insert(x, s, le) == [x] + s;
    } else {
      InsertKeepsRanks(x, s[1..], y, le);
      assert SameRank(y, le)(x) ==> !SameRank(y, le)(s[0]);
      SkipHead(s[0], Insert(x, s[1..], le), s[1..], x, SameRank(y, le));
      assert Insert(x, s, le) == [s[0]] + Insert(x, s[1..], le);
      assert s == [s[0]] + s[1..];
    }
  }

  /** The step of InsertKeepsRanks where `x` moves past a head `h` that cannot share its rank. */
  lemma SkipHead<T>(h: T, rest: seq<T>, tail: seq<T>, x: T, p: T -> bool)
    requires p(x) ==> !p(h)
    requires p(x) ==> Filter(rest, p) == [x] + Filter(tail, p)
    requires !p(x) ==> Filter(rest, p) == Filter(tail, p)
    ensures p(x) ==> Filter([h] + rest, p) == [x] + Filter([h] + tail, p)
    ensures !p(x) ==> Filter([h] + rest, p) == Filter([h] + tail, p)
  {
    FilterCons(h, rest, p);
    FilterCons(h, tail, p);
  }

  /** Stability: elements that compare equal keep their relative order. */
  lemma {:induction false} SortStable<T(!new)>(s: seq<T>, y: T, le: (T, T) -> bool)
    requires TotalPreorder(le)
    ensures Filter(Sort(s, le), SameRank(y, le)) == Filter(s, SameRank(y, le))
  {
    if s != [] {
      SortStable(s[1..], y, le);
      InsertKeepsRanks(s[0], Sort(s[1..], le), y, le);
    }
  }

  /** Sorting an already sorted list changes nothing. */
  lemma {:induction false} SortOfSorted<T>(s: seq<T>, le: (T, T) -> bool)
    requires Sorted(s, le)
    ensures Sort(s, le) == s
  {
    if s != [] {
      SortOfSorted(s[1..], le);
      assert s == [s[0]] + s[1..];
    }
  }
}
