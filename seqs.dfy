/** Generic list operations the services and pages build on: `filter`, counting, `findIndex`,
    `splice(i, 1)` and the "maximum id plus one" allocation. */
module Seqs {
  import opened Wrappers

  /** `r` keeps a subset of the elements of `s` in their original order. */
  ghost predicate IsSubsequence<T>(r: seq<T>, s: seq<T>)
    decreases |s|
  {
    r == [] || (s != [] && ((r[0] == s[0] && IsSubsequence(r[1..], s[1..])) || IsSubsequence(r, s[1..])))
  }

  /** Number of elements of `s` satisfying `p`: a plain scan, independent of `Filter`. */
  function Count<T>(s: seq<T>, p: T -> bool): (n: nat)
    ensures n <= |s|
  {
    if s == [] then 0 else (if p(s[0]) then 1 else 0) + Count(s[1..], p)
  }

  /** JS `Array.prototype.filter`. */
  function Filter<T>(s: seq<T>, p: T -> bool): (r: seq<T>)
    ensures |r| == Count(s, p)
    ensures forall i :: 0 <= i < |r| ==> p(r[i])
    ensures multiset(r) <= multiset(s)
  {
    if s == [] then []
    else
      var rest := Filter(s[1..], p);
      assert s == [s[0]] + s[1..];
      if p(s[0]) then [s[0]] + rest else rest
  }

  lemma FilterCons<T>(x: T, s: seq<T>, p: T -> bool)
    ensures p(x) ==> Filter([x] + s, p) == [x] + Filter(s, p)
    ensures !p(x) ==> Filter([x] + s, p) == Filter(s, p)
  {
    assert ([x] + s)[1..] == s;
  }

  /** Every element of `s` that passes `p` is kept. */
  lemma {:induction false} FilterKeeps<T>(s: seq<T>, p: T -> bool, i: nat)
    requires i < |s| && p(s[i])
    ensures s[i] in Filter(s, p)
  {
    if i > 0 {
      FilterKeeps(s[1..], p, i - 1);
      FilterCons(s[0], s[1..], p);
      assert s == [s[0]] + s[1..];
    } else {
      FilterCons(s[0], s[1..], p);
      assert s == [s[0]] + s[1..];
    }
  }

  /** Two tests that agree on every element of `s` select the same elements. */
  lemma {:induction false} FilterSamePredicate<T>(s: seq<T>, p: T -> bool, q: T -> bool)
    requires forall i :: 0 <= i < |s| ==> p(s[i]) == q(s[i])
    ensures Filter(s, p) == Filter(s, q)
  {
    if s != [] {
      FilterSamePredicate(s[1..], p, q);
      FilterCons(s[0], s[1..], p);
      FilterCons(s[0], s[1..], q);
      assert s == [s[0]] + s[1..];
    }
  }

  lemma {:induction false} FilterIsSubsequence<T>(s: seq<T>, p: T -> bool)
    ensures IsSubsequence(Filter(s, p), s)
  {
    if s != [] {
      FilterIsSubsequence(s[1..], p);
      if p(s[0]) {
        assert Filter(s, p) == [s[0]] + Filter(s[1..], p);
        assert Filter(s, p)[1..] == Filter(s[1..], p);
      } else {
        assert Filter(s, p) == Filter(s[1..], p);
      }
    }
  }

  /** Filtering a list whose every element already passes changes nothing. */
  lemma {:induction false} FilterKeepsAll<T>(s: seq<T>, p: T -> bool)
    requires forall i :: 0 <= i < |s| ==> p(s[i])
    ensures Filter(s, p) == s
  {
    if s != [] {
      FilterKeepsAll(s[1..], p);
    }
  }

  /** Filtering by `p` and then by `q` is filtering once by their conjunction `pq`. */
  lemma {:induction false} FilterFilter<T>(s: seq<T>, p: T -> bool, q: T -> bool, pq: T -> bool)
    requires forall i :: 0 <= i < |s| ==> pq(s[i]) == (p(s[i]) && q(s[i]))
    ensures Filter(Filter(s, p), q) == Filter(s, pq)
  {
    if s != [] {
      var t := s[1..];
      assert s == [s[0]] + t;
      FilterFilter(t, p, q, pq);
      FilterCons(s[0], t, p);
      FilterCons(s[0], t, pq);
      if p(s[0]) {
        FilterCons(s[0], Filter(t, p), q);
      }
    }
  }

  lemma {:induction false} FilterConcat<T>(a: seq<T>, b: seq<T>, p: T -> bool)
    ensures Filter(a + b, p) == Filter(a, p) + Filter(b, p)
  {
    if a == [] {
      assert a + b == b;
    } else {
      assert (a + b)[1..] == a[1..] + b;
      FilterConcat(a[1..], b, p);
    }
  }

  /** JS `splice(i, 1)`: drop the element at index `i`. */
  function RemoveAt<T>(s: seq<T>, i: nat): (r: seq<T>)
    requires i < |s|
    ensures |r| == |s| - 1
    ensures forall j :: 0 <= j < i ==> r[j] == s[j]
    ensures forall j :: i <= j < |r| ==> r[j] == s[j + 1]
  {
    s[..i] + s[i + 1..]
  }

  lemma {:induction false} CountRemoveAt<T>(s: seq<T>, i: nat, p: T -> bool)
    requires i < |s|
    ensures Count(RemoveAt(s, i), p) == Count(s, p) - (if p(s[i]) then 1 else 0)
  {
    assert s == s[..i] + [s[i]] + s[i + 1..];
    FilterConcat(s[..i] + [s[i]], s[i + 1..], p);
    FilterConcat(s[..i], [s[i]], p);
    FilterConcat(s[..i], s[i + 1..], p);
  }

  lemma {:induction false} CountPrepend<T>(x: T, s: seq<T>, p: T -> bool)
    ensures Count([x] + s, p) == Count(s, p) + (if p(x) then 1 else 0)
  {
    assert ([x] + s)[1..] == s;
  }

  // ----- identifiers -------------------------------------------------------

  /** JS `findIndex(p)`, with `-1` as `None`: the index of the first element passing `p`. */
  function FindFirst<T>(s: seq<T>, p: T -> bool): (r: Option<nat>)
    ensures r.Some? ==> r.value < |s| && p(s[r.value])
    ensures r.Some? ==> forall j :: 0 <= j < r.value ==> !p(s[j])
    ensures r.None? <==> forall j :: 0 <= j < |s| ==> !p(s[j])
  {
    if s == [] then None
    else if p(s[0]) then Some(0)
    else match FindFirst(s[1..], p)
      case None => None
      case Some(k) => Some(k + 1)
  }

  /** Lists whose elements pass their tests at the same positions have the same first hit. */
  lemma {:induction false} FindFirstSame<T, U>(s: seq<T>, p: T -> bool, t: seq<U>, q: U -> bool)
    requires |s| == |t| && forall i :: 0 <= i < |s| ==> p(s[i]) == q(t[i])
    ensures FindFirst(s, p) == FindFirst(t, q)
  {
    if s != [] && !p(s[0]) {
      FindFirstSame(s[1..], p, t[1..], q);
    }
  }

  /** JS `find(p)`, with `undefined` as `None`: the first element passing `p`. */
  function First<T>(s: seq<T>, p: T -> bool): (r: Option<T>)
    ensures r.None? <==> forall j :: 0 <= j < |s| ==> !p(s[j])
    ensures r.Some? ==> r.value in s && p(r.value)
  {
    match FindFirst(s, p)
    case None => None
    case Some(i) => Some(s[i])
  }

  /** The element's key is `id` (`e => e.Id === id`). */
  function HasKey<T>(key: T -> int, id: int): T -> bool {
    x => key(x) == id
  }

  /** The element's key is not `id` (`e => e.Id !== id`). */
  function NotKey<T>(key: T -> int, id: int): T -> bool {
    x => key(x) != id
  }

  lemma FirstCons<T>(x: T, s: seq<T>, p: T -> bool)
    ensures First([x] + s, p) == if p(x) then Some(x) else First(s, p)
  {
    assert ([x] + s)[1..] == s;
  }

  /** When every element of `s` that passes `p` also passes `q`, the first element passing `p`
      is also the first one passing `p` among the elements that pass `q`. */
  lemma {:induction false} FirstWithinFilter<T>(s: seq<T>, p: T -> bool, q: T -> bool)
    requires forall i :: 0 <= i < |s| && p(s[i]) ==> q(s[i])
    ensures First(Filter(s, q), p) == First(s, p)
  {
    if s != [] {
      var t := s[1..];
      assert s == [s[0]] + t;
      FilterCons(s[0], t, q);
      FirstCons(s[0], t, p);
      if p(s[0]) {
        FirstCons(s[0], Filter(t, q), p);
      } else {
        FirstWithinFilter(t, p, q);
        if q(s[0]) {
          FirstCons(s[0], Filter(t, q), p);
        }
      }
    }
  }

  /** `(s.length > 0 ? Math.max(...s.map(key)) : 0) + 1`. */
  function NextId<T>(s: seq<T>, key: T -> int): (r: int)
    ensures forall j :: 0 <= j < |s| ==> key(s[j]) < r
    ensures s == [] ==> r == 1
    ensures s != [] ==> exists j :: 0 <= j < |s| && key(s[j]) == r - 1
  {
    if |s| <= 1 then (if s == [] then 1 else key(s[0]) + 1)
    else
      var rest := NextId(s[1..], key);
      if key(s[0]) + 1 >= rest then key(s[0]) + 1 else rest
  }

  /** No two elements share a key. */
  ghost predicate UniqueIds<T>(s: seq<T>, key: T -> int) {
    forall i, j :: 0 <= i < j < |s| ==> key(s[i]) != key(s[j])
  }

  lemma {:induction false} RemoveAtKeepsUnique<T>(s: seq<T>, i: nat, key: T -> int)
    requires i < |s| && UniqueIds(s, key)
    ensures UniqueIds(RemoveAt(s, i), key)
  {
    var r := RemoveAt(s, i);
    forall a, b | 0 <= a < b < |r| ensures key(r[a]) != key(r[b]) {
      var a' := if a < i then a else a + 1;
      var b' := if b < i then b else b + 1;
      assert r[a] == s[a'] && r[b] == s[b'] && a' < b';
    }
  }

  /** A subsequence of `s` stays one of `s + [x]`, and so does it with `x` appended. */
  lemma {:induction false} SubsequenceExtend<T>(r: seq<T>, s: seq<T>, x: T)
    requires IsSubsequence(r, s)
    ensures IsSubsequence(r, s + [x]) && IsSubsequence(r + [x], s + [x])
    decreases |s|
  {
    var sx := s + [x];
    if s == [] {
      assert r == [] && sx == [x];
      assert IsSubsequence([x][1..], sx[1..]);
    } else {
      assert sx[0] == s[0] && sx[1..] == s[1..] + [x];
      if r == [] {
        SubsequenceExtend(r, s[1..], x);
        assert r + [x] == [x];
      } else if r[0] == s[0] && IsSubsequence(r[1..], s[1..]) {
        SubsequenceExtend(r[1..], s[1..], x);
        assert (r + [x])[0] == r[0] && (r + [x])[1..] == r[1..] + [x];
      } else {
        SubsequenceExtend(r, s[1..], x);
      }
    }
  }

  /** `x` occurs in `s` before any occurrence of `y`. */
  ghost predicate OccursBefore<T>(s: seq<T>, x: T, y: T) {
    exists a :: 0 <= a < |s| && s[a] == x && y !in s[..a + 1]
  }

  /** Each element of `r` occurs in `s` before any occurrence of the elements after it in `r`. */
  ghost predicate InFirstOccurrenceOrder<T>(r: seq<T>, s: seq<T>) {
    forall i, j :: 0 <= i < j < |r| ==> OccursBefore(s, r[i], r[j])
  }

  /** Appending to `s` keeps the order `r` has in it. */
  lemma OrderExtend<T>(r: seq<T>, s: seq<T>, x: T)
    requires InFirstOccurrenceOrder(r, s)
    ensures InFirstOccurrenceOrder(r, s + [x])
  {
    var sx := s + [x];
    forall i, j | 0 <= i < j < |r| ensures OccursBefore(sx, r[i], r[j]) {
      var a :| 0 <= a < |s| && s[a] == r[i] && r[j] !in s[..a + 1];
      assert sx[a] == s[a] && sx[..a + 1] == s[..a + 1];
    }
  }

  /** An element new to `s`, appended to both, comes after everything `r` takes from `s`. */
  lemma OrderExtendNew<T>(r: seq<T>, s: seq<T>, x: T)
    requires InFirstOccurrenceOrder(r, s) && x !in s
    requires forall k :: 0 <= k < |r| ==> r[k] in s
    ensures InFirstOccurrenceOrder(r + [x], s + [x])
  {
    OrderExtend(r, s, x);
    var rx, sx := r + [x], s + [x];
    forall i, j | 0 <= i < j < |rx| ensures OccursBefore(sx, rx[i], rx[j]) {
      if j < |r| {
        assert rx[i] == r[i] && rx[j] == r[j];
      } else {
        var a :| 0 <= a < |s| && s[a] == r[i];
        assert sx[a] == s[a] && sx[..a + 1] == s[..a + 1];
        assert rx[i] == r[i] && rx[j] == x && x !in s[..a + 1];
      }
    }
  }

  /** The distinct elements of `s` in the order of their first occurrences. */
  ghost predicate IsDedupeOf<T>(r: seq<T>, s: seq<T>) {
    && (forall i, j :: 0 <= i < j < |r| ==> r[i] != r[j])
    && (forall i :: 0 <= i < |s| ==> s[i] in r)
    && (forall i :: 0 <= i < |r| ==> r[i] in s)
    && (s != [] ==> r != [] && r[0] == s[0])
    && IsSubsequence(r, s)
    && InFirstOccurrenceOrder(r, s)
  }

  /** Appending `x` to `s` appends it to the deduplicated list exactly when it is new. */
  lemma DedupeStep<T>(rest: seq<T>, init: seq<T>, x: T)
    requires IsDedupeOf(rest, init)
    ensures IsDedupeOf(if x in init then rest else rest + [x], init + [x])
  {
    var s := init + [x];
    assert forall i :: 0 <= i < |init| ==> s[i] == init[i];
    SubsequenceExtend(rest, init, x);
    if x in init {
      OrderExtend(rest, init, x);
    } else {
      assert forall i :: 0 <= i < |rest| ==> rest[i] != x;
      OrderExtendNew(rest, init, x);
    }
  }

  /** `[...new Set(s)]`: the distinct elements of `s`, each at its first occurrence. */
  function Dedupe<T(==)>(s: seq<T>): (r: seq<T>)
    ensures forall i, j :: 0 <= i < j < |r| ==> r[i] != r[j]
    ensures forall i :: 0 <= i < |s| ==> s[i] in r
    ensures forall i :: 0 <= i < |r| ==> r[i] in s
    ensures s != [] ==> r != [] && r[0] == s[0]
    ensures IsSubsequence(r, s)
    ensures InFirstOccurrenceOrder(r, s)
  {
    if s == [] then []
    else
      var init, last := s[..|s| - 1], s[|s| - 1];
      var rest := Dedupe(init);
      assert s == init + [last];
      DedupeStep(rest, init, last);
      if last in init then rest else rest + [last]
  }
}
