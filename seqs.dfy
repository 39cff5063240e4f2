/** Sequence operations that every list screen of the dashboard is built from:
    `filter`, `map` over matching records, `reduce` to a sum, a stable `sort`
    by a numeric key and `slice(0, n)`. */
module Seqs {

  datatype Option<+T> = None | Some(value: T)

  function Min(a: int, b: int): int { if a <= b then a else b }

  function Max(a: int, b: int): int { if a >= b then a else b }

  /** `current === id ? null : id`: opens the item `id`, or closes it when it is the
      one already open. */
  function Toggle<T(==)>(current: Option<T>, id: T): (r: Option<T>)
    ensures r == None <==> current == Some(id)
    ensures r != None ==> r == Some(id)
  {
    if current == Some(id) then None else Some(id)
  }

  /** Toggling the same item twice restores the previous state exactly when nothing,
      or that same item, was open; when another item was open, everything ends closed. */
  lemma ToggleTwice<T>(current: Option<T>, id: T)
    ensures Toggle(Toggle(current, id), id) == current <==> current == None || current == Some(id)
    ensures current != None && current != Some(id) ==> Toggle(Toggle(current, id), id) == None
  {
  }

  /** `s.filter(p)`: the elements of `s` that satisfy `p`, in their original order,
      each with its full multiplicity. */
  function Filter<T(==,!new)>(s: seq<T>, p: T -> bool): (r: seq<T>)
    ensures |r| <= |s|
    ensures forall x :: x in r <==> x in s && p(x)
    ensures forall x :: multiset(r)[x] == if p(x) then multiset(s)[x] else 0
  {
    if s == [] then []
    else
      assert s == [s[0]] + s[1..];
      if p(s[0]) then [s[0]] + Filter(s[1..], p) else Filter(s[1..], p)
  }

  /** `a` is `b` with some elements deleted (order is kept). */
  predicate IsSubseq<T(==,!new)>(a: seq<T>, b: seq<T>)
  {
    if a == [] then true
    else if b == [] then false
    else if a[0] == b[0] then IsSubseq(a[1..], b[1..])
    else IsSubseq(a, b[1..])
  }

  lemma {:induction false} FilterIsSubseq<T(!new)>(s: seq<T>, p: T -> bool)
    ensures IsSubseq(Filter(s, p), s)
  {
    if s != [] {
      FilterIsSubseq(s[1..], p);
      if !p(s[0]) {
        var t := Filter(s[1..], p);
        if t != [] {
          assert t[0] in t;
          assert t[0] != s[0];
        }
      }
    }
  }

  /** A predicate every element satisfies keeps the whole sequence. */
  lemma {:induction false} FilterKeepsAll<T(!new)>(s: seq<T>, p: T -> bool)
    requires forall x :: x in s ==> p(x)
    ensures Filter(s, p) == s
  {
    if s != [] {
      assert s[0] in s;
      FilterKeepsAll(s[1..], p);
      assert [s[0]] + s[1..] == s;
    }
  }

  /** A predicate no element satisfies keeps nothing. */
  lemma {:induction false} FilterKeepsNone<T(!new)>(s: seq<T>, p: T -> bool)
    requires forall x :: x in s ==> !p(x)
    ensures Filter(s, p) == []
  {
    if s != [] {
      assert s[0] in s;
      FilterKeepsNone(s[1..], p);
    }
  }

  /** Two predicates that agree on every element select the same elements. */
  lemma {:induction false} FilterCongruent<T(!new)>(s: seq<T>, p: T -> bool, q: T -> bool)
    requires forall x :: x in s ==> p(x) == q(x)
    ensures Filter(s, p) == Filter(s, q)
  {
    if s != [] {
      assert s[0] in s;
      FilterCongruent(s[1..], p, q);
    }
  }

  lemma {:induction false} FilterAppend<T(!new)>(a: seq<T>, b: seq<T>, p: T -> bool)
    ensures Filter(a + b, p) == Filter(a, p) + Filter(b, p)
  {
    if a == [] {
      assert a + b == b;
    } else {
      assert (a + b)[0] == a[0];
      assert (a + b)[1..] == a[1..] + b;
      FilterAppend(a[1..], b, p);
    }
  }

  /** A filter that keeps a prefix of `s` and drops the rest returns that prefix. */
  lemma {:induction false} FilterPrefix<T(!new)>(s: seq<T>, p: T -> bool, k: nat)
    requires k <= |s|
    requires forall i :: 0 <= i < k ==> p(s[i])
    requires forall i :: k <= i < |s| ==> !p(s[i])
    ensures Filter(s, p) == s[..k]
  {
    assert s == s[..k] + s[k..];
    FilterAppend(s[..k], s[k..], p);
    FilterKeepsAll(s[..k], p);
    forall x | x in s[k..] ensures !p(x) {
      var j :| 0 <= j < |s[k..]| && s[k..][j] == x;
      assert s[k + j] == x;
    }
    FilterKeepsNone(s[k..], p);
  }

  function Not<T>(p: T -> bool): T -> bool { x => !p(x) }

  /** `s.reduce((sum, x) => sum + f(x), 0)`. */
  function SumOf<T>(s: seq<T>, f: T -> int): int
  {
    if s == [] then 0 else f(s[0]) + SumOf(s[1..], f)
  }

  /** Summing the records a filter keeps and the records it drops gives the total. */
  lemma {:induction false} SumOfPartition<T(!new)>(s: seq<T>, p: T -> bool, f: T -> int)
    ensures SumOf(Filter(s, p), f) + SumOf(Filter(s, Not(p)), f) == SumOf(s, f)
  {
    if s != [] {
      SumOfPartition(s[1..], p, f);
      if p(s[0]) {
        assert Filter(s, p) == [s[0]] + Filter(s[1..], p);
        assert ([s[0]] + Filter(s[1..], p))[1..] == Filter(s[1..], p);
      } else {
        assert Filter(s, Not(p)) == [s[0]] + Filter(s[1..], Not(p));
        assert ([s[0]] + Filter(s[1..], Not(p)))[1..] == Filter(s[1..], Not(p));
      }
    }
  }

  lemma {:induction false} SumOfNonNegative<T>(s: seq<T>, f: T -> int)
    requires forall x :: x in s ==> f(x) >= 0
    ensures SumOf(s, f) >= 0
  {
    if s != [] {
      assert s[0] in s;
      SumOfNonNegative(s[1..], f);
    }
  }

  /** `s.map(x => p(x) ? f(x) : x)`: the records `p` selects are replaced by `f` of
      themselves, every other record stays where and what it was. */
  function UpdateWhere<T>(s: seq<T>, p: T -> bool, f: T -> T): (r: seq<T>)
    ensures |r| == |s|
    ensures forall i :: 0 <= i < |s| ==> r[i] == if p(s[i]) then f(s[i]) else s[i]
  {
    seq(|s|, i requires 0 <= i < |s| => if p(s[i]) then f(s[i]) else s[i])
  }

  /** `s.slice(0, n)`. */
  function Take<T>(s: seq<T>, n: nat): (r: seq<T>)
    ensures |r| == Min(n, |s|)
  {
    if n <= |s| then s[..n] else s
  }

  ghost predicate SortedBy<T>(s: seq<T>, key: T -> int)
  {
    forall i, j :: 0 <= i < j < |s| ==> key(s[i]) <= key(s[j])
  }

  /** `le` orders every pair and is transitive: what a sort comparator must be. */
  ghost predicate TotalPreorder<T(!new)>(le: (T, T) -> bool)
  {
    && (forall a, b :: le(a, b) || le(b, a))
    && (forall a, b, c :: le(a, b) && le(b, c) ==> le(a, c))
  }

  ghost predicate SortedWith<T>(s: seq<T>, le: (T, T) -> bool)
  {
    forall i, j :: 0 <= i < j < |s| ==> le(s[i], s[j])
  }

  /** Inserts `x` in front of the first element it may precede. */
  function InsertWith<T(==,!new)>(x: T, s: seq<T>, le: (T, T) -> bool): (r: seq<T>)
    ensures multiset(r) == multiset(s) + multiset{x}
  {
    if s == [] || le(x, s[0]) then [x] + s
    else
      assert s == [s[0]] + s[1..];
      [s[0]] + InsertWith(x, s[1..], le)
  }

  lemma {:induction false} InsertWithSorted<T(!new)>(x: T, s: seq<T>, le: (T, T) -> bool)
    requires TotalPreorder(le) && SortedWith(s, le)
    ensures SortedWith(InsertWith(x, s, le), le)
  {
    if s != [] && !le(x, s[0]) {
      var t := InsertWith(x, s[1..], le);
      InsertWithSorted(x, s[1..], le);
      HeadPrecedesInsert(x, s, le);
      var r := [s[0]] + t;
      forall i, j | 0 <= i < j < |r| ensures le(r[i], r[j]) {
        if i == 0 {
          assert r[j] == t[j - 1];
          assert r[j] in t;
        } else {
          assert r[i] == t[i - 1] && r[j] == t[j - 1];
        }
      }
    }
  }

  /** When `x` goes after the head of a sorted list, the head may precede everything
      the rest becomes. */
  lemma HeadPrecedesInsert<T(!new)>(x: T, s: seq<T>, le: (T, T) -> bool)
    requires TotalPreorder(le) && SortedWith(s, le) && s != [] && !le(x, s[0])
    ensures forall y :: y in InsertWith(x, s[1..], le) ==> le(s[0], y)
  {
    var t := InsertWith(x, s[1..], le);
    forall y | y in t ensures le(s[0], y) {
      assert y in multiset(t);
      if y != x {
        assert y in multiset(s[1..]);
        var j :| 0 <= j < |s[1..]| && s[1..][j] == y;
        assert s[j + 1] == y;
      }
    }
  }

  /** `s.sort(compare)`, which is stable: any stable sort gives this result, and
      insertion sort, each element going in front of the elements it may precede, is
      the simplest to state. */
  function SortWith<T(==,!new)>(s: seq<T>, le: (T, T) -> bool): (r: seq<T>)
    ensures multiset(r) == multiset(s)
    ensures |r| == |s|
  {
    if s == [] then []
    else
      assert s == [s[0]] + s[1..];
      InsertWith(s[0], SortWith(s[1..], le), le)
  }

  /** Sorting with a total preorder yields a list ordered by it. */
  lemma {:induction false} SortWithSorted<T(!new)>(s: seq<T>, le: (T, T) -> bool)
    requires TotalPreorder(le)
    ensures SortedWith(SortWith(s, le), le)
  {
    if s != [] {
      SortWithSorted(s[1..], le);
      InsertWithSorted(s[0], SortWith(s[1..], le), le);
    }
  }

  /** The comparator `(a, b) => key(a) - key(b)`, read as "a may precede b". */
  function KeyLe<T>(key: T -> int): (T, T) -> bool
  {
    (a, b) => key(a) <= key(b)
  }

  /** `s.sort((a, b) => key(a) - key(b))`: ascending by a numeric key. */
  function SortByKey<T(==,!new)>(s: seq<T>, key: T -> int): (r: seq<T>)
    ensures multiset(r) == multiset(s)
    ensures |r| == |s|
    ensures SortedBy(r, key)
  {
    SortWithSorted(s, KeyLe(key));
    SortWith(s, KeyLe(key))
  }

  function KeyIs<T>(key: T -> int, k: int): T -> bool { x => key(x) == k }

  lemma {:induction false} InsertKeepsKeyClass<T(!new)>(x: T, s: seq<T>, key: T -> int, k: int)
    ensures Filter(InsertWith(x, s, KeyLe(key)), KeyIs(key, k))
         == (if key(x) == k then [x] else []) + Filter(s, KeyIs(key, k))
  {
    var p := KeyIs(key, k);
    if s == [] || key(x) <= key(s[0]) {
      FilterCons(x, s, p);
    } else {
      InsertKeepsKeyClass(x, s[1..], key, k);
      var t := InsertWith(x, s[1..], KeyLe(key));
      assert InsertWith(x, s, KeyLe(key)) == [s[0]] + t;
      FilterCons(s[0], t, p);
      FilterCons(s[0], s[1..], p);
      assert [s[0]] + s[1..] == s;
      var rest := Filter(s[1..], p);
      if p(s[0]) {
        assert !p(x);
        assert Filter(t, p) == rest;
      } else if p(x) {
        assert Filter([s[0]] + t, p) == [x] + rest;
      } else {
        assert Filter(t, p) == rest;
      }
    }
  }

  /** Filtering a list with a first element: that element if it passes, then the rest. */
  lemma FilterCons<T(!new)>(x: T, s: seq<T>, p: T -> bool)
    ensures Filter([x] + s, p) == (if p(x) then [x] else []) + Filter(s, p)
  {
    assert ([x] + s)[1..] == s;
  }

  /** Stability: the records sharing any one key appear in the sorted result in the
      same relative order as in the input. */
  lemma {:induction false} SortByKeyStable<T(!new)>(s: seq<T>, key: T -> int, k: int)
    ensures Filter(SortByKey(s, key), KeyIs(key, k)) == Filter(s, KeyIs(key, k))
  {
    if s != [] {
      SortByKeyStable(s[1..], key, k);
      InsertKeepsKeyClass(s[0], SortWith(s[1..], KeyLe(key)), key, k);
    }
  }

  /** `[...new Set(s)]`: each distinct element once, in order of first occurrence. */
  function Distinct<T(==,!new)>(s: seq<T>): (r: seq<T>)
    decreases |s|
    ensures forall x :: multiset(r)[x] == if x in s then 1 else 0
  {
    if s == [] then []
    else
      var rest := Filter(s[1..], y => y != s[0]);
      assert s == [s[0]] + s[1..];
      [s[0]] + Distinct(rest)
  }

  /** An element found at two different positions is counted at least twice. */
  lemma RepeatedElementCount<T>(s: seq<T>, i: int, j: int)
    requires 0 <= i < j < |s| && s[i] == s[j]
    ensures multiset(s)[s[i]] >= 2
  {
    assert s == s[..j] + s[j..];
    assert s[i] in s[..j] && s[j] in s[j..];
  }

  /** An element counted twice sits at two different positions. */
  lemma {:induction false} CountTwiceRepeated<T>(s: seq<T>, x: T)
    requires multiset(s)[x] >= 2
    ensures exists i, j :: 0 <= i < j < |s| && s[i] == x && s[j] == x
  {
    assert s == [s[0]] + s[1..];
    if s[0] == x {
      assert x in multiset(s[1..]);
      var j :| 0 <= j < |s[1..]| && s[1..][j] == x;
      assert s[0] == x && s[j + 1] == x;
    } else {
      CountTwiceRepeated(s[1..], x);
      var i, j :| 0 <= i < j < |s[1..]| && s[1..][i] == x && s[1..][j] == x;
      assert s[i + 1] == x && s[j + 1] == x;
    }
  }

  /** Stability, for any test that picks out exactly one key. */
  lemma SortByKeyStableFor<T(!new)>(s: seq<T>, key: T -> int, k: int, p: T -> bool)
    requires forall x :: KeyIs(key, k)(x) == p(x)
    ensures Filter(SortByKey(s, key), p) == Filter(s, p)
  {
    SortByKeyStable(s, key, k);
    FilterCongruent(SortByKey(s, key), KeyIs(key, k), p);
    FilterCongruent(s, KeyIs(key, k), p);
  }

  /** A stricter test keeps no more elements. */
  lemma {:induction false} FilterLengthMonotone<T(!new)>(s: seq<T>, p: T -> bool, q: T -> bool)
    requires forall x :: x in s && p(x) ==> q(x)
    ensures |Filter(s, p)| <= |Filter(s, q)|
  {
    if s != [] {
      FilterLengthMonotone(s[1..], p, q);
    }
  }

  /** `s.filter(p).sort(by key).slice(0, n)`: the first `n` records passing `p` in
      the stable ascending key order, each no more often than `s` holds it. */
  function FirstByKey<T(==,!new)>(s: seq<T>, p: T -> bool, key: T -> int, n: nat): (r: seq<T>)
    ensures |r| == Min(n, |Filter(s, p)|)
    ensures r <= SortByKey(Filter(s, p), key)
    ensures multiset(r) <= multiset(Filter(s, p))
    ensures forall x :: x in r ==> x in s && p(x)
    ensures SortedBy(r, key)
  {
    var sorted := SortByKey(Filter(s, p), key);
    var r := Take(sorted, n);
    PrefixMultiset(sorted, |r|);
    assert r == sorted[..|r|];
    assert forall x :: x in r <==> x in multiset(r);
    r
  }

  /** A prefix holds no element more often than the whole. */
  lemma PrefixMultiset<T>(s: seq<T>, m: nat)
    requires m <= |s|
    ensures multiset(s[..m]) <= multiset(s)
  {
    assert s == s[..m] + s[m..];
  }

  /** Records with equal keys keep their store order: among those with key `k`, the
      ones kept are the first ones passing `p`. */
  lemma FirstByKeyKeepsTies<T(!new)>(s: seq<T>, p: T -> bool, key: T -> int, n: nat, k: int)
    ensures Filter(FirstByKey(s, p, key, n), KeyIs(key, k)) <= Filter(Filter(s, p), KeyIs(key, k))
  {
    var sorted := SortByKey(Filter(s, p), key);
    var r := FirstByKey(s, p, key, n);
    assert sorted == r + sorted[|r|..];
    FilterAppend(r, sorted[|r|..], KeyIs(key, k));
    SortByKeyStable(Filter(s, p), key, k);
  }

  /** They are the first: a passing record left out has a key no smaller than any
      record kept, and is only left out when `n` records are kept. */
  lemma FirstByKeyAreFirst<T(!new)>(s: seq<T>, p: T -> bool, key: T -> int, n: nat, x: T)
    requires x in s && p(x) && x !in FirstByKey(s, p, key, n)
    ensures |FirstByKey(s, p, key, n)| == n
    ensures forall i :: 0 <= i < n ==> key(FirstByKey(s, p, key, n)[i]) <= key(x)
  {
    var sorted := SortByKey(Filter(s, p), key);
    assert x in multiset(sorted);
    var k :| 0 <= k < |sorted| && sorted[k] == x;
    assert k >= n;
  }
}
