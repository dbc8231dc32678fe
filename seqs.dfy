/** Sequence building blocks that several components share: `Array.filter`
    and list comprehensions with a condition (Filter), the number of records
    satisfying a condition (Count), a stable sort by an integer key as
    `Array.sort` with a numeric comparator and SQL `ORDER BY` produce it
    (SortBy), the ids of a table in ascending order (IdsUpTo), and
    Python's `Counter` / a JavaScript tally object (Tally, with MapSum). */
module Seqs {

  // ---------------------------------------------------------------------
  // Filter and Count
  // ---------------------------------------------------------------------

  function Filter<T(!new)>(s: seq<T>, p: T -> bool): (r: seq<T>)
    ensures |r| <= |s|
    ensures forall x :: x in r <==> x in s && p(x)
    ensures forall i | 0 <= i < |r| :: p(r[i])
    ensures multiset(r) <= multiset(s)
    decreases |s|
  {
    if s == [] then []
    else
      var rest := Filter(s[1..], p);
      assert s == [s[0]] + s[1..];
      if p(s[0]) then [s[0]] + rest else rest
  }

  lemma {:induction false} FilterAppend<T(!new)>(a: seq<T>, b: seq<T>, p: T -> bool)
    ensures Filter(a + b, p) == Filter(a, p) + Filter(b, p)
    decreases |a|
  {
    if a == [] {
      assert a + b == b;
    } else {
      assert (a + b)[1..] == a[1..] + b;
      FilterAppend(a[1..], b, p);
    }
  }

  /** A filter whose condition holds everywhere keeps the whole sequence. */
  lemma {:induction false} FilterAll<T(!new)>(s: seq<T>, p: T -> bool)
    requires forall x | x in s :: p(x)
    ensures Filter(s, p) == s
    decreases |s|
  {
    if s != [] {
      FilterAll(s[1..], p);
    }
  }

  /** Filtering twice with the same condition changes nothing the second time. */
  lemma FilterIdempotent<T(!new)>(s: seq<T>, p: T -> bool)
    ensures Filter(Filter(s, p), p) == Filter(s, p)
  {
    FilterAll(Filter(s, p), p);
  }

  /** Filtering by p and then by q is filtering by "p and q". */
  lemma {:induction false} FilterFilter<T(!new)>(s: seq<T>, p: T -> bool, q: T -> bool)
    ensures Filter(Filter(s, p), q) == Filter(s, x => p(x) && q(x))
    decreases |s|
  {
    if s != [] {
      FilterFilter(s[1..], p, q);
      if p(s[0]) {
        assert Filter(s, p) == [s[0]] + Filter(s[1..], p);
        assert Filter(s, p)[1..] == Filter(s[1..], p);
      }
    }
  }

  /** Conditions that agree on every element filter alike. */
  lemma {:induction false} FilterSameOn<T(!new)>(s: seq<T>, p: T -> bool, q: T -> bool)
    requires forall x | x in s :: p(x) == q(x)
    ensures Filter(s, p) == Filter(s, q)
    decreases |s|
  {
    if s != [] {
      FilterSameOn(s[1..], p, q);
    }
  }

  /** An element-wise patch that leaves the elements satisfying `p` alone
      and never moves an element into or out of `p` does not change what
      filtering by `p` keeps. */
  lemma {:induction false} FilterPointwise<T(!new)>(s: seq<T>, r: seq<T>, p: T -> bool)
    requires |r| == |s|
    requires forall i | 0 <= i < |s| :: p(s[i]) ==> r[i] == s[i]
    requires forall i | 0 <= i < |s| :: p(r[i]) == p(s[i])
    ensures Filter(r, p) == Filter(s, p)
    decreases |s|
  {
    if s != [] {
      FilterPointwise(s[1..], r[1..], p);
    }
  }

  function Count<T(!new)>(s: seq<T>, p: T -> bool): (n: nat)
    ensures n <= |s|
    ensures n == |Filter(s, p)|
  {
    |Filter(s, p)|
  }

  lemma CountSnoc<T(!new)>(s: seq<T>, x: T, p: T -> bool)
    ensures Count(s + [x], p) == Count(s, p) + (if p(x) then 1 else 0)
  {
    FilterAppend(s, [x], p);
    assert Filter([x], p) == if p(x) then [x] else [];
  }

  /** The count of a non-empty sequence: its head, then its tail. */
  lemma CountCons<T(!new)>(s: seq<T>, p: T -> bool)
    requires s != []
    ensures Count(s, p) == (if p(s[0]) then 1 else 0) + Count(s[1..], p)
  {
  }

  /** When r holds exactly where one of two exclusive predicates holds, r
      counts what the two count together. */
  lemma {:induction false} CountSplit<T(!new)>(s: seq<T>, p: T -> bool, q: T -> bool, r: T -> bool)
    requires forall x | x in s :: !(p(x) && q(x)) && (r(x) == (p(x) || q(x)))
    ensures Count(s, r) == Count(s, p) + Count(s, q)
    decreases |s|
  {
    if s != [] {
      CountSplit(s[1..], p, q, r);
      CountCons(s, p);
      CountCons(s, q);
      CountCons(s, r);
    }
  }

  lemma {:induction false} CountDisjointUnion<T(!new)>(s: seq<T>, p: T -> bool, q: T -> bool)
    requires forall x | x in s :: !(p(x) && q(x))
    ensures Count(s, x => p(x) || q(x)) == Count(s, p) + Count(s, q)
    decreases |s|
  {
    if s != [] {
      CountDisjointUnion(s[1..], p, q);
    }
  }

  // ---------------------------------------------------------------------
  // Stable sort by an integer key (insertion sort)
  // ---------------------------------------------------------------------

  ghost predicate SortedByKey<T>(s: seq<T>, key: T -> int) {
    forall i, j | 0 <= i < j < |s| :: key(s[i]) <= key(s[j])
  }

  /** Put `x` in front of the first element whose key is not below its own. */
  function Insert<T>(x: T, s: seq<T>, key: T -> int): (r: seq<T>)
    requires SortedByKey(s, key)
    ensures SortedByKey(r, key)
    ensures multiset(r) == multiset(s) + multiset{x}
    ensures |r| == |s| + 1
    decreases |s|
  {
    if s == [] || key(x) <= key(s[0]) then [x] + s
    else
      var rest := Insert(x, s[1..], key);
      assert s == [s[0]] + s[1..];
      HeadStaysFirst(s[0], x, s[1..], rest, key);
      [s[0]] + rest
  }

  /** An element whose key is not above any of `x` and `tail` keeps its
      place in front of a rearrangement of them. */
  lemma HeadStaysFirst<T>(h: T, x: T, tail: seq<T>, rest: seq<T>, key: T -> int)
    requires key(h) <= key(x)
    requires forall j | 0 <= j < |tail| :: key(h) <= key(tail[j])
    requires multiset(rest) == multiset(tail) + multiset{x}
    requires SortedByKey(rest, key)
    ensures SortedByKey([h] + rest, key)
  {
    forall j | 0 <= j < |rest| ensures key(h) <= key(rest[j]) {
      assert rest[j] in multiset(rest);
      if rest[j] != x {
        assert rest[j] in multiset(tail);
        var i :| 0 <= i < |tail| && tail[i] == rest[j];
      }
    }
  }

  /** `[...s].sort((a, b) => key(a) - key(b))`: ascending by key, a permutation of s. */
  function SortBy<T>(s: seq<T>, key: T -> int): (r: seq<T>)
    ensures SortedByKey(r, key)
    ensures multiset(r) == multiset(s)
    ensures |r| == |s|
    decreases |s|
  {
    if s == [] then []
    else
      assert s == [s[0]] + s[1..];
      Insert(s[0], SortBy(s[1..], key), key)
  }

  lemma SortByKeepsElements<T>(s: seq<T>, key: T -> int)
    ensures forall x :: x in SortBy(s, key) <==> x in s
  {
    var r := SortBy(s, key);
    forall x ensures x in r <==> x in s {
      assert x in r <==> x in multiset(r);
      assert x in s <==> x in multiset(s);
    }
  }

  /** Strictly ascending by an integer key (`ORDER BY id` over distinct ids). */
  ghost predicate IncreasingBy<T>(s: seq<T>, key: T -> int) {
    forall i, j | 0 <= i < j < |s| :: key(s[i]) < key(s[j])
  }

  /** Filtering keeps the order of what it keeps. */
  lemma {:induction false} FilterIncreasing<T(!new)>(s: seq<T>, p: T -> bool, key: T -> int)
    requires IncreasingBy(s, key)
    ensures IncreasingBy(Filter(s, p), key)
    decreases |s|
  {
    if s != [] {
      var rest := Filter(s[1..], p);
      FilterIncreasing(s[1..], p, key);
      if p(s[0]) {
        forall j | 0 <= j < |rest| ensures key(s[0]) < key(rest[j]) {
          assert rest[j] in s[1..];
        }
      }
    }
  }

  /** No element occurs twice. */
  predicate Distinct<T(==)>(s: seq<T>) {
    forall i, j | 0 <= i < j < |s| :: s[i] != s[j]
  }

  /** A sequence is distinct exactly when each of its elements occurs once. */
  lemma {:induction false} DistinctByMultiplicity<T>(s: seq<T>)
    ensures Distinct(s) <==> forall x | x in multiset(s) :: multiset(s)[x] == 1
    decreases |s|
  {
    if s != [] {
      var rest := s[1..];
      assert s == [s[0]] + rest;
      DistinctByMultiplicity(rest);
      if Distinct(s) {
        assert Distinct(rest) by {
          forall i, j | 0 <= i < j < |rest| ensures rest[i] != rest[j] {
            assert rest[i] == s[i + 1] && rest[j] == s[j + 1];
          }
        }
        assert s[0] !in rest by {
          forall i | 0 <= i < |rest| ensures rest[i] != s[0] {
            assert rest[i] == s[i + 1];
          }
        }
      } else {
        var i, j :| 0 <= i < j < |s| && s[i] == s[j];
        assert s[j] in rest by { assert s[j] == rest[j - 1]; }
        if i == 0 {
          assert multiset(s)[s[0]] == multiset(rest)[s[0]] + 1;
        } else {
          assert rest[i - 1] == rest[j - 1];
          assert !Distinct(rest);
          var x :| x in multiset(rest) && multiset(rest)[x] != 1;
          assert multiset(s) == multiset([s[0]]) + multiset(rest);
          assert multiset(s)[x] >= multiset(rest)[x] >= 2;
        }
      }
    }
  }

  /** A sub-multiset of a distinct sequence is distinct: in particular a
      filter or a permutation of one. */
  lemma SubMultisetKeepsDistinct<T>(s: seq<T>, r: seq<T>)
    requires Distinct(s)
    requires multiset(r) <= multiset(s)
    ensures Distinct(r)
  {
    DistinctByMultiplicity(s);
    DistinctByMultiplicity(r);
    forall x | x in multiset(r) ensures multiset(r)[x] == 1 {
      assert x in multiset(s);
    }
  }

  // ---------------------------------------------------------------------
  // The keys of a table, ascending
  // ---------------------------------------------------------------------

  ghost predicate StrictlyIncreasing(s: seq<int>) {
    forall i, j | 0 <= i < j < |s| :: s[i] < s[j]
  }

  /** The positive ids up to `n` that are in `ids`, ascending: `ORDER BY id`
      over a table whose auto-increment keys are below its next id. */
  function IdsUpTo(ids: set<int>, n: int): (r: seq<int>)
    ensures StrictlyIncreasing(r)
    ensures forall x :: x in r <==> x in ids && 0 < x <= n
    ensures forall i | 0 <= i < |r| :: 0 < r[i] <= n
    decreases n
  {
    if n <= 0 then []
    else
      var rest := IdsUpTo(ids, n - 1);
      if n in ids then rest + [n] else rest
  }

  // ---------------------------------------------------------------------
  // Tallies: Python's Counter and `counts[k] = (counts[k] || 0) + 1`
  // ---------------------------------------------------------------------

  function Bump<K>(m: map<K, nat>, k: K): (r: map<K, nat>)
    ensures r.Keys == m.Keys + {k}
    ensures r[k] == (if k in m then m[k] else 0) + 1
    ensures forall j | j in m && j != k :: r[j] == m[j]
  {
    m[k := (if k in m then m[k] else 0) + 1]
  }

  /** How many times each key occurs in `s`. */
  function Tally<K(!new)>(s: seq<K>): (m: map<K, nat>)
    ensures forall k :: k in m <==> k in s
    decreases |s|
  {
    if s == [] then map[] else Bump(Tally(s[..|s| - 1]), s[|s| - 1])
  }

  function Occurrences<K(==)>(s: seq<K>, k: K): nat {
    multiset(s)[k]
  }

  lemma {:induction false} TallyCounts<K(!new)>(s: seq<K>, k: K)
    requires k in s
    ensures Tally(s)[k] == Occurrences(s, k)
    decreases |s|
  {
    var init := s[..|s| - 1];
    assert s == init + [s[|s| - 1]];
    if k in init {
      TallyCounts(init, k);
    } else {
      assert multiset(init)[k] == 0;
    }
  }

  /** The sum of a tally's values. */
  ghost function MapSum<K>(m: map<K, nat>): nat
    decreases |m.Keys|
  {
    if m.Keys == {} then 0
    else
      var k :| k in m.Keys;
      m[k] + MapSum(m - {k})
  }

  lemma {:induction false} MapSumRemove<K>(m: map<K, nat>, k: K)
    requires k in m
    ensures MapSum(m) == m[k] + MapSum(m - {k})
    decreases |m.Keys|
  {
    var j :| j in m.Keys && MapSum(m) == m[j] + MapSum(m - {j});
    if j != k {
      var mj := m - {j};
      var mk := m - {k};
      assert |mj.Keys| < |m.Keys| by { assert mj.Keys == m.Keys - {j}; }
      assert |mk.Keys| < |m.Keys| by { assert mk.Keys == m.Keys - {k}; }
      MapSumRemove(mj, k);
      MapSumRemove(mk, j);
      assert mj - {k} == mk - {j};
    }
  }

  lemma MapSumBump<K>(m: map<K, nat>, k: K)
    ensures MapSum(Bump(m, k)) == MapSum(m) + 1
  {
    var r := Bump(m, k);
    MapSumRemove(r, k);
    assert r - {k} == m - {k};
    if k in m {
      MapSumRemove(m, k);
    } else {
      assert m - {k} == m;
    }
  }

  /** A tally's values add up to the length of what was tallied. */
  lemma {:induction false} TallySum<K(!new)>(s: seq<K>)
    ensures MapSum(Tally(s)) == |s|
    decreases |s|
  {
    if s != [] {
      TallySum(s[..|s| - 1]);
      MapSumBump(Tally(s[..|s| - 1]), s[|s| - 1]);
    }
  }
}
