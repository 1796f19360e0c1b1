/**
 * The list folds the services are built from: comprehension filters and sums,
 * the insertion-ordered dictionary that accumulates a total per key
 * (`d[k] = d.get(k, 0) + v`), and `sorted(d.items(), key=value, reverse=True)[:n]`.
 */
module Folds {

  // ---------------------------------------------------------------------
  // Filters, counts and sums

  /** `[x for x in s if p(x)]`, keeping the order of `s`. */
  function Filter<T(==)>(s: seq<T>, p: T -> bool): (r: seq<T>)
    ensures |r| <= |s|
  {
    if s == [] then [] else (if p(s[0]) then [s[0]] else []) + Filter(s[1..], p)
  }

  /** The filter keeps exactly the elements of `s` that satisfy `p`. */
  lemma {:induction false} FilterMembers<T>(s: seq<T>, p: T -> bool)
    ensures forall i :: 0 <= i < |Filter(s, p)| ==> Filter(s, p)[i] in s && p(Filter(s, p)[i])
    ensures forall i :: 0 <= i < |s| && p(s[i]) ==> s[i] in Filter(s, p)
  {
    if s != [] {
      FilterMembers(s[1..], p);
      var r := Filter(s, p);
      var t := Filter(s[1..], p);
      var h := if p(s[0]) then [s[0]] else [];
      assert r == h + t;
      forall i | 0 <= i < |r| ensures r[i] in s && p(r[i]) {
        if i >= |h| {
          assert r[i] == t[i - |h|];
        }
      }
      forall i | 0 <= i < |s| && p(s[i]) ensures s[i] in r {
        if i > 0 {
          assert s[i] == s[1..][i - 1];
        }
      }
    }
  }

  /** `sum(f(x) for x in s)`. */
  function Sum<T>(s: seq<T>, f: T -> real): real {
    if s == [] then 0.0 else f(s[0]) + Sum(s[1..], f)
  }

  lemma {:induction false} SumAppend<T>(a: seq<T>, b: seq<T>, f: T -> real)
    ensures Sum(a + b, f) == Sum(a, f) + Sum(b, f)
  {
    if a == [] {
      assert a + b == b;
    } else {
      assert (a + b)[1..] == a[1..] + b;
      SumAppend(a[1..], b, f);
    }
  }

  lemma {:induction false} FilterAppend<T>(a: seq<T>, b: seq<T>, p: T -> bool)
    ensures Filter(a + b, p) == Filter(a, p) + Filter(b, p)
  {
    if a == [] {
      assert a + b == b;
    } else {
      assert (a + b)[1..] == a[1..] + b;
      FilterAppend(a[1..], b, p);
      var h := if p(a[0]) then [a[0]] else [];
      calc {
        Filter(a + b, p);
        h + Filter(a[1..] + b, p);
        h + (Filter(a[1..], p) + Filter(b, p));
        (h + Filter(a[1..], p)) + Filter(b, p);
      }
    }
  }

  /** One more element at the end of a list: how its filter and its sum grow. */
  lemma FilterSnoc<T>(s: seq<T>, x: T, p: T -> bool, f: T -> real)
    ensures Filter(s + [x], p) == Filter(s, p) + (if p(x) then [x] else [])
    ensures Sum(s + [x], f) == Sum(s, f) + f(x)
  {
    FilterAppend(s, [x], p);
    SumAppend(s, [x], f);
  }

  /**
   * When `p` holds exactly where one of the disjoint `q`, `r` holds, the
   * elements selected by `p` split into those selected by `q` and by `r`,
   * in count and in sum.
   */
  lemma {:induction false} FilterSplit<T>(s: seq<T>, p: T -> bool, q: T -> bool, r: T -> bool, f: T -> real)
    requires forall x :: p(x) == (q(x) || r(x))
    requires forall x :: !(q(x) && r(x))
    ensures |Filter(s, p)| == |Filter(s, q)| + |Filter(s, r)|
    ensures Sum(Filter(s, p), f) == Sum(Filter(s, q), f) + Sum(Filter(s, r), f)
  {
    if s != [] {
      var x, t := s[0], s[1..];
      FilterSplit(t, p, q, r, f);
      if q(x) {
        assert Filter(s, p) == [x] + Filter(t, p) && Filter(s, q) == [x] + Filter(t, q) && Filter(s, r) == Filter(t, r);
      } else if r(x) {
        assert Filter(s, p) == [x] + Filter(t, p) && Filter(s, q) == Filter(t, q) && Filter(s, r) == [x] + Filter(t, r);
      } else {
        assert Filter(s, p) == Filter(t, p) && Filter(s, q) == Filter(t, q) && Filter(s, r) == Filter(t, r);
      }
    }
  }

  /** Two disjoint selections together take at most every element. */
  lemma {:induction false} FilterDisjointCount<T>(s: seq<T>, p: T -> bool, q: T -> bool)
    requires forall x :: !(p(x) && q(x))
    ensures |Filter(s, p)| + |Filter(s, q)| <= |s|
  {
    if s != [] {
      FilterDisjointCount(s[1..], p, q);
    }
  }

  /** Narrowing a selection never selects more. */
  lemma {:induction false} FilterNarrower<T>(s: seq<T>, p: T -> bool, q: T -> bool)
    requires forall x :: p(x) ==> q(x)
    ensures |Filter(s, p)| <= |Filter(s, q)|
  {
    if s != [] {
      FilterNarrower(s[1..], p, q);
    }
  }

  lemma {:induction false} FilterOfFilter<T>(s: seq<T>, p: T -> bool, q: T -> bool, pq: T -> bool)
    requires forall x :: pq(x) == (p(x) && q(x))
    ensures Filter(Filter(s, p), q) == Filter(s, pq)
  {
    if s != [] {
      FilterOfFilter(s[1..], p, q, pq);
      FilterAppend(if p(s[0]) then [s[0]] else [], Filter(s[1..], p), q);
    }
  }

  /** A selection and its complement split a list, in count and in sum. */
  lemma {:induction false} FilterComplement<T>(s: seq<T>, q: T -> bool, nq: T -> bool, f: T -> real)
    requires forall x :: nq(x) == !q(x)
    ensures |Filter(s, q)| + |Filter(s, nq)| == |s|
    ensures Sum(Filter(s, q), f) + Sum(Filter(s, nq), f) == Sum(s, f)
  {
    if s != [] {
      FilterComplement(s[1..], q, nq, f);
      var x, a, b := s[0], Filter(s[1..], q), Filter(s[1..], nq);
      if q(x) {
        assert Filter(s, q) == [x] + a && ([x] + a)[1..] == a;
        assert Filter(s, nq) == b;
      } else {
        assert Filter(s, nq) == [x] + b && ([x] + b)[1..] == b;
        assert Filter(s, q) == a;
      }
    }
  }

  lemma {:induction false} FilterNone<T>(s: seq<T>, p: T -> bool)
    requires forall x :: !p(x)
    ensures Filter(s, p) == []
  {
    if s != [] {
      FilterNone(s[1..], p);
    }
  }

  lemma {:induction false} SumNonNegative<T>(s: seq<T>, f: T -> real)
    requires forall x :: x in s ==> f(x) >= 0.0
    ensures Sum(s, f) >= 0.0
  {
    if s != [] {
      SumNonNegative(s[1..], f);
    }
  }

  // ---------------------------------------------------------------------
  // Insertion-ordered dictionaries of running totals

  /** The second component of a dictionary item. */
  function Value<K>(e: (K, real)): real {
    e.1
  }

  function KeySet<K(==)>(d: seq<(K, real)>): set<K> {
    set i | 0 <= i < |d| :: d[i].0
  }

  predicate DistinctKeys<K(==)>(d: seq<(K, real)>) {
    forall i, j :: 0 <= i < j < |d| ==> d[i].0 != d[j].0
  }

  /** `d.get(k, 0)`. */
  function Lookup<K(==)>(d: seq<(K, real)>, k: K): real {
    if d == [] then 0.0 else if d[0].0 == k then d[0].1 else Lookup(d[1..], k)
  }

  /** `d[k] = d.get(k, 0) + v`: an existing key keeps its place, a new key goes last. */
  function AddTo<K(==)>(d: seq<(K, real)>, k: K, v: real): seq<(K, real)> {
    if d == [] then [(k, v)]
    else if d[0].0 == k then [(k, d[0].1 + v)] + d[1..]
    else [d[0]] + AddTo(d[1..], k, v)
  }

  /** The dictionary obtained by adding every `(key, value)` pair of `pairs`, in order, to `d`. */
  function GroupFrom<K(==)>(d: seq<(K, real)>, pairs: seq<(K, real)>): seq<(K, real)>
    decreases |pairs|
  {
    if pairs == [] then d else GroupFrom(AddTo(d, pairs[0].0, pairs[0].1), pairs[1..])
  }

  function GroupSum<K(==)>(pairs: seq<(K, real)>): seq<(K, real)> {
    GroupFrom([], pairs)
  }

  /** The total of the values that `pairs` carries for key `k`. */
  function SumFor<K(==)>(pairs: seq<(K, real)>, k: K): real {
    if pairs == [] then 0.0 else (if pairs[0].0 == k then pairs[0].1 else 0.0) + SumFor(pairs[1..], k)
  }

  lemma KeySetCons<K>(e: (K, real), d: seq<(K, real)>)
    ensures KeySet([e] + d) == {e.0} + KeySet(d)
  {
    var c := [e] + d;
    assert c[0].0 == e.0;
    forall x | x in KeySet(c) ensures x in {e.0} + KeySet(d) {
      var i :| 0 <= i < |c| && c[i].0 == x;
      if i > 0 { assert d[i - 1].0 == x; }
    }
    forall x | x in KeySet(d) ensures x in KeySet(c) {
      var i :| 0 <= i < |d| && d[i].0 == x;
      assert c[i + 1].0 == x;
    }
  }

  lemma DistinctKeysCons<K>(e: (K, real), d: seq<(K, real)>)
    ensures DistinctKeys([e] + d) <==> e.0 !in KeySet(d) && DistinctKeys(d)
  {
    var c := [e] + d;
    if DistinctKeys(c) {
      assert e.0 !in KeySet(d) by {
        forall i | 0 <= i < |d| ensures d[i].0 != e.0 {
          assert c[i + 1] == d[i] && c[0].0 != c[i + 1].0;
        }
      }
      forall i, j | 0 <= i < j < |d| ensures d[i].0 != d[j].0 {
        assert c[i + 1] == d[i] && c[j + 1] == d[j];
      }
    }
    if e.0 !in KeySet(d) && DistinctKeys(d) {
      forall i, j | 0 <= i < j < |c| ensures c[i].0 != c[j].0 {
        if i == 0 {
          assert c[j].0 == d[j - 1].0 && d[j - 1].0 in KeySet(d);
        } else {
          assert c[i] == d[i - 1] && c[j] == d[j - 1];
        }
      }
    }
  }

  lemma {:induction false} AddToLaws<K>(d: seq<(K, real)>, k: K, v: real)
    ensures DistinctKeys(d) ==> DistinctKeys(AddTo(d, k, v))
    ensures KeySet(AddTo(d, k, v)) == KeySet(d) + {k}
    ensures forall k' :: Lookup(AddTo(d, k, v), k') == Lookup(d, k') + (if k' == k then v else 0.0)
    ensures Sum(AddTo(d, k, v), Value) == Sum(d, Value) + v
  {
    if d == [] {
      KeySetCons((k, v), []);
      assert KeySet<K>([]) == {};
    } else {
      assert d == [d[0]] + d[1..];
      KeySetCons(d[0], d[1..]);
      DistinctKeysCons(d[0], d[1..]);
      if d[0].0 != k {
        var r := AddTo(d[1..], k, v);
        AddToLaws(d[1..], k, v);
        assert AddTo(d, k, v) == [d[0]] + r;
        KeySetCons(d[0], r);
        DistinctKeysCons(d[0], r);
      } else {
        KeySetCons((k, d[0].1 + v), d[1..]);
        DistinctKeysCons((k, d[0].1 + v), d[1..]);
        assert AddTo(d, k, v)[1..] == d[1..];
      }
    }
  }

  lemma {:induction false} GroupFromLaws<K>(d: seq<(K, real)>, pairs: seq<(K, real)>)
    ensures DistinctKeys(d) ==> DistinctKeys(GroupFrom(d, pairs))
    ensures KeySet(GroupFrom(d, pairs)) == KeySet(d) + KeySet(pairs)
    ensures forall k :: Lookup(GroupFrom(d, pairs), k) == Lookup(d, k) + SumFor(pairs, k)
    ensures Sum(GroupFrom(d, pairs), Value) == Sum(d, Value) + Sum(pairs, Value)
    decreases |pairs|
  {
    if pairs != [] {
      var k, v := pairs[0].0, pairs[0].1;
      AddToLaws(d, k, v);
      GroupFromLaws(AddTo(d, k, v), pairs[1..]);
      assert KeySet(pairs) == {k} + KeySet(pairs[1..]) by {
        forall x | x in KeySet(pairs) ensures x in {k} + KeySet(pairs[1..]) {
          var i :| 0 <= i < |pairs| && pairs[i].0 == x;
          if i > 0 { assert pairs[1..][i - 1].0 == x; }
        }
      }
    }
  }

  lemma {:induction false} LookupAt<K>(d: seq<(K, real)>, i: nat)
    requires DistinctKeys(d) && i < |d|
    ensures Lookup(d, d[i].0) == d[i].1
  {
    if i > 0 {
      assert d[0].0 != d[i].0;
      LookupAt(d[1..], i - 1);
    }
  }

  /**
   * The accumulated dictionary has one entry per distinct key of `pairs`,
   * and that entry holds the total of the values given for the key.
   */
  lemma GroupSumLaws<K>(pairs: seq<(K, real)>)
    ensures DistinctKeys(GroupSum(pairs))
    ensures KeySet(GroupSum(pairs)) == KeySet(pairs)
    ensures forall i :: 0 <= i < |GroupSum(pairs)| ==> GroupSum(pairs)[i].1 == SumFor(pairs, GroupSum(pairs)[i].0)
    ensures Sum(GroupSum(pairs), Value) == Sum(pairs, Value)
  {
    GroupFromLaws([], pairs);
    var g := GroupSum(pairs);
    assert DistinctKeys<K>([]);
    assert KeySet<K>([]) == {};
    forall i | 0 <= i < |g| ensures g[i].1 == SumFor(pairs, g[i].0) {
      LookupAt(g, i);
      assert Lookup(g, g[i].0) == Lookup<K>([], g[i].0) + SumFor(pairs, g[i].0);
    }
  }

  /**
   * The dictionary loop: `for (k, v) in pairs: d[k] = d.get(k, 0) + v`.
   * Each step keeps `d` equal to the fold of the pairs seen so far.
   */
  method AccumulateTotals<K(==)>(pairs: seq<(K, real)>) returns (d: seq<(K, real)>)
    ensures d == GroupSum(pairs)
    ensures DistinctKeys(d) && KeySet(d) == KeySet(pairs)
    ensures forall i :: 0 <= i < |d| ==> d[i].1 == SumFor(pairs, d[i].0)
  {
    d := [];
    var i := 0;
    while i < |pairs|
      invariant 0 <= i <= |pairs|
      invariant GroupFrom(d, pairs[i..]) == GroupSum(pairs)
    {
      assert pairs[i..][1..] == pairs[i + 1..];
      d := AddTo(d, pairs[i].0, pairs[i].1);
      i := i + 1;
    }
    assert pairs[i..] == [];
    GroupSumLaws(pairs);
  }

  // ---------------------------------------------------------------------
  // Stable descending sort and top-n

  predicate SortedDesc<K>(s: seq<(K, real)>) {
    forall i, j :: 0 <= i < j < |s| ==> s[i].1 >= s[j].1
  }

  /** Inserts `x` before the first element that is not larger, so earlier equals stay first. */
  function InsertDesc<K>(x: (K, real), s: seq<(K, real)>): seq<(K, real)> {
    if s == [] || x.1 >= s[0].1 then [x] + s else [s[0]] + InsertDesc(x, s[1..])
  }

  /** `sorted(d, key=lambda e: e[1], reverse=True)`: a stable sort by descending value. */
  function SortDesc<K>(d: seq<(K, real)>): seq<(K, real)> {
    if d == [] then [] else InsertDesc(d[0], SortDesc(d[1..]))
  }

  /** `s[:n]`. */
  function Take<T>(s: seq<T>, n: nat): (r: seq<T>)
    ensures |r| <= n && |r| <= |s|
  {
    if |s| <= n then s else s[..n]
  }

  /** `sorted(d, key=value, reverse=True)[:n]`. */
  function TopN<K>(d: seq<(K, real)>, n: nat): seq<(K, real)> {
    Take(SortDesc(d), n)
  }

  /** No entry of `s` is larger than `v`. */
  predicate AtLeastAll<K>(v: real, s: seq<(K, real)>) {
    forall i :: 0 <= i < |s| ==> v >= s[i].1
  }

  lemma SortedDescCons<K>(e: (K, real), s: seq<(K, real)>)
    requires AtLeastAll(e.1, s) && SortedDesc(s)
    ensures SortedDesc([e] + s)
  {
    var c := [e] + s;
    forall i, j | 0 <= i < j < |c| ensures c[i].1 >= c[j].1 {
      if i > 0 {
        assert c[i] == s[i - 1];
      }
      assert c[j] == s[j - 1];
    }
  }

  lemma InsertDescLaws<K>(x: (K, real), s: seq<(K, real)>)
    requires SortedDesc(s)
    ensures SortedDesc(InsertDesc(x, s))
    ensures multiset(InsertDesc(x, s)) == multiset(s) + multiset{x}
    ensures forall v :: AtLeastAll(v, s) && v >= x.1 ==> AtLeastAll(v, InsertDesc(x, s))
  {
    InsertDescSorted(x, s);
    InsertDescPermutes(x, s);
    forall v | AtLeastAll(v, s) && v >= x.1 ensures AtLeastAll(v, InsertDesc(x, s)) {
      InsertDescBound(x, s, v);
    }
  }

  /** Inserting adds exactly `x`. */
  lemma {:induction false} InsertDescPermutes<K>(x: (K, real), s: seq<(K, real)>)
    ensures multiset(InsertDesc(x, s)) == multiset(s) + multiset{x}
  {
    if !(s == [] || x.1 >= s[0].1) {
      InsertDescPermutes(x, s[1..]);
      assert s == [s[0]] + s[1..];
    }
  }

  /** A bound on every value and on `x` bounds the result. */
  lemma {:induction false} InsertDescBound<K>(x: (K, real), s: seq<(K, real)>, v: real)
    requires AtLeastAll(v, s) && v >= x.1
    ensures AtLeastAll(v, InsertDesc(x, s))
  {
    if s == [] || x.1 >= s[0].1 {
      forall i | 0 <= i < |[x] + s| ensures v >= ([x] + s)[i].1 {
        if i > 0 { assert ([x] + s)[i] == s[i - 1]; }
      }
    } else {
      var t := s[1..];
      assert AtLeastAll(v, t) by {
        forall i | 0 <= i < |t| ensures v >= t[i].1 {
          assert t[i] == s[i + 1];
        }
      }
      InsertDescBound(x, t, v);
      var r := InsertDesc(x, t);
      forall i | 0 <= i < |[s[0]] + r| ensures v >= ([s[0]] + r)[i].1 {
        if i > 0 { assert ([s[0]] + r)[i] == r[i - 1]; }
      }
    }
  }

  /** Inserting into a descending list keeps it descending. */
  lemma {:induction false} InsertDescSorted<K>(x: (K, real), s: seq<(K, real)>)
    requires SortedDesc(s)
    ensures SortedDesc(InsertDesc(x, s))
  {
    if s == [] || x.1 >= s[0].1 {
      if s != [] {
        assert AtLeastAll(x.1, s) by {
          forall i | 0 <= i < |s| ensures x.1 >= s[i].1 {
            if i > 0 { assert s[0].1 >= s[i].1; }
          }
        }
      }
      SortedDescCons(x, s);
    } else {
      var t := s[1..];
      assert SortedDesc(t) by {
        forall i, j | 0 <= i < j < |t| ensures t[i].1 >= t[j].1 {
          assert t[i] == s[i + 1] && t[j] == s[j + 1];
        }
      }
      InsertDescSorted(x, t);
      assert AtLeastAll(s[0].1, t) by {
        forall i | 0 <= i < |t| ensures s[0].1 >= t[i].1 {
          assert t[i] == s[i + 1];
        }
      }
      InsertDescBound(x, t, s[0].1);
      SortedDescCons(s[0], InsertDesc(x, t));
    }
  }

  lemma {:induction false} SortDescLaws<K>(d: seq<(K, real)>)
    ensures SortedDesc(SortDesc(d))
    ensures multiset(SortDesc(d)) == multiset(d)
    ensures |SortDesc(d)| == |d|
  {
    if d != [] {
      SortDescLaws(d[1..]);
      InsertDescLaws(d[0], SortDesc(d[1..]));
      assert d == [d[0]] + d[1..];
    }
  }

  lemma {:induction false} FilterSortedDesc<K>(s: seq<(K, real)>, p: ((K, real)) -> bool)
    requires SortedDesc(s)
    ensures SortedDesc(Filter(s, p))
  {
    if s != [] {
      FilterSortedDesc(s[1..], p);
      var t := Filter(s[1..], p);
      if p(s[0]) {
        assert AtLeastAll(s[0].1, t) by {
          forall i | 0 <= i < |t| ensures s[0].1 >= t[i].1 {
            FilterMembers(s[1..], p);
            var j :| 0 <= j < |s[1..]| && s[1..][j] == t[i];
            assert s[j + 1] == t[i];
          }
        }
        SortedDescCons(s[0], t);
      }
    }
  }

  /**
   * The first `n` entries of the descending order: at most `n` of them, in
   * descending order, each taken from `d`, and no entry of `d` left out is
   * larger than an entry kept.
   */
  lemma TopNLaws<K>(d: seq<(K, real)>, n: nat)
    ensures |TopN(d, n)| <= n
    ensures |TopN(d, n)| == if |d| < n then |d| else n
    ensures SortedDesc(TopN(d, n))
    ensures forall e :: e in TopN(d, n) ==> e in d
    ensures forall e, i :: e in d && e !in TopN(d, n) && 0 <= i < |TopN(d, n)| ==> TopN(d, n)[i].1 >= e.1
  {
    var s := SortDesc(d);
    SortDescLaws(d);
    var t := TopN(d, n);
    forall e | e in t ensures e in d {
      assert e in multiset(s);
    }
    forall e, i | e in d && e !in t && 0 <= i < |t| ensures t[i].1 >= e.1 {
      assert e in multiset(d);
      assert e in multiset(s);
      var j :| 0 <= j < |s| && s[j] == e;
      assert forall k :: 0 <= k < |t| ==> t[k] == s[k];
      assert t[i] == s[i];
    }
  }

  /** Entries whose value is `v`: the view under which a stable sort keeps its input's order. */
  function ValueIs<K>(v: real): ((K, real)) -> bool {
    (e: (K, real)) => e.1 == v
  }

  /** Inserting `x` puts it ahead of every entry of equal value and moves no other entry of that value. */
  lemma {:induction false} InsertDescStable<K>(x: (K, real), s: seq<(K, real)>, v: real)
    ensures Filter(InsertDesc(x, s), ValueIs(v)) == (if x.1 == v then [x] else []) + Filter(s, ValueIs(v))
  {
    if s == [] || x.1 >= s[0].1 {
      FilterAppend([x], s, ValueIs(v));
    } else {
      InsertDescStable(x, s[1..], v);
      assert s == [s[0]] + s[1..];
      FilterAppend([s[0]], s[1..], ValueIs(v));
      FilterAppend([s[0]], InsertDesc(x, s[1..]), ValueIs(v));
    }
  }

  /**
   * `SortDesc` is stable: the entries of any one value appear in the output
   * in exactly the order they had in the input.
   */
  lemma {:induction false} SortDescStable<K>(d: seq<(K, real)>, v: real)
    ensures Filter(SortDesc(d), ValueIs(v)) == Filter(d, ValueIs(v))
  {
    if d != [] {
      SortDescStable(d[1..], v);
      InsertDescStable(d[0], SortDesc(d[1..]), v);
      assert d == [d[0]] + d[1..];
      FilterAppend([d[0]], d[1..], ValueIs(v));
    }
  }

  /**
   * Among the entries of any one value, `TopN` keeps the earliest ones of
   * the input, in their input order.
   */
  lemma TopNStable<K>(d: seq<(K, real)>, n: nat, v: real)
    ensures Filter(TopN(d, n), ValueIs(v)) <= Filter(d, ValueIs(v))
  {
    var s := SortDesc(d);
    SortDescStable(d, v);
    var t := TopN(d, n);
    assert s == t + s[|t|..];
    FilterAppend(t, s[|t|..], ValueIs(v));
  }
}
