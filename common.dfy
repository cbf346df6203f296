/** Shared vocabulary of the model: optional values, counting maps (the Python
    dictionaries of counters) with their sums, the pointwise merge of two
    counting maps, and a stable insertion sort. */
module Common {

  datatype Option<T> = None | Some(value: T)

  /** `d.get(k, default)` */
  function Get<K, V>(m: map<K, V>, k: K, default: V): V {
    if k in m then m[k] else default
  }

  function Identity(n: int): int { n }

  // ---------------------------------------------------------------------------
  // Sums over the values of a dictionary
  // ---------------------------------------------------------------------------

  /** Sum of `f` over the values of `m` (the order of summation is irrelevant). */
  ghost function SumOf<K, V>(m: map<K, V>, f: V -> int): int
    decreases m.Keys
  {
    if m.Keys == {} then 0
    else
      var k :| k in m;
      f(m[k]) + SumOf(m - {k}, f)
  }

  /** The same, for real-valued projections (distances, scroll amounts). */
  ghost function RealSumOf<K, V>(m: map<K, V>, f: V -> real): real
    decreases m.Keys
  {
    if m.Keys == {} then 0.0
    else
      var k :| k in m;
      f(m[k]) + RealSumOf(m - {k}, f)
  }

  /** `sum(d.values())` of a dictionary of counters. */
  ghost function MapSum<K>(m: map<K, int>): int {
    SumOf(m, Identity)
  }

  /** Any key can be taken out first. */
  lemma {:induction false} SumOfRemove<K, V>(m: map<K, V>, f: V -> int, k: K)
    requires k in m
    ensures SumOf(m, f) == f(m[k]) + SumOf(m - {k}, f)
    decreases m.Keys
  {
    var j :| j in m && SumOf(m, f) == f(m[j]) + SumOf(m - {j}, f);
    if j != k {
      SumOfRemove(m - {j}, f, k);
      SumOfRemove(m - {k}, f, j);
      assert m - {j} - {k} == m - {k} - {j};
    }
  }

  lemma {:induction false} RealSumOfRemove<K, V>(m: map<K, V>, f: V -> real, k: K)
    requires k in m
    ensures RealSumOf(m, f) == f(m[k]) + RealSumOf(m - {k}, f)
    decreases m.Keys
  {
    var j :| j in m && RealSumOf(m, f) == f(m[j]) + RealSumOf(m - {j}, f);
    if j != k {
      RealSumOfRemove(m - {j}, f, k);
      RealSumOfRemove(m - {k}, f, j);
      assert m - {j} - {k} == m - {k} - {j};
    }
  }

  /** Storing `v` under `k` changes the sum by the difference of the two values. */
  lemma SumOfUpdate<K, V>(m: map<K, V>, f: V -> int, k: K, v: V)
    ensures SumOf(m[k := v], f) == SumOf(m, f) - (if k in m then f(m[k]) else 0) + f(v)
  {
    SumOfRemove(m[k := v], f, k);
    assert m[k := v] - {k} == m - {k};
    if k in m {
      SumOfRemove(m, f, k);
    } else {
      assert m - {k} == m;
    }
  }

  lemma RealSumOfUpdate<K, V>(m: map<K, V>, f: V -> real, k: K, v: V)
    ensures RealSumOf(m[k := v], f) == RealSumOf(m, f) - (if k in m then f(m[k]) else 0.0) + f(v)
  {
    RealSumOfRemove(m[k := v], f, k);
    assert m[k := v] - {k} == m - {k};
    if k in m {
      RealSumOfRemove(m, f, k);
    } else {
      assert m - {k} == m;
    }
  }

  /** A sum of non-negative terms is non-negative, and it is zero only when every term is. */
  lemma {:induction false} SumOfNonNegative<K, V>(m: map<K, V>, f: V -> int)
    requires forall k :: k in m ==> f(m[k]) >= 0
    ensures SumOf(m, f) >= 0
    ensures SumOf(m, f) == 0 ==> forall k :: k in m ==> f(m[k]) == 0
    decreases m.Keys
  {
    if m.Keys != {} {
      var j :| j in m;
      SumOfRemove(m, f, j);
      SumOfNonNegative(m - {j}, f);
      forall k | k in m && SumOf(m, f) == 0 ensures f(m[k]) == 0 {
        if k != j {
          assert k in m - {j};
        }
      }
    }
  }

  /** An element of a non-empty finite set whose key is least (`MIN(...)`). */
  ghost function Least<T(!new)>(s: set<T>, key: T -> int): (m: T)
    requires s != {}
    ensures m in s && forall x :: x in s ==> key(m) <= key(x)
    decreases s
  {
    var x :| x in s;
    if s == {x} then x
    else
      var r := Least(s - {x}, key);
      if key(x) < key(r) then x else r
  }

  /** An element of a non-empty finite set whose key is greatest (`MAX(...)`). */
  ghost function Greatest<T(!new)>(s: set<T>, key: T -> int): (m: T)
    requires s != {}
    ensures m in s && forall x :: x in s ==> key(x) <= key(m)
    decreases s
  {
    var x :| x in s;
    if s == {x} then x
    else
      var r := Greatest(s - {x}, key);
      if key(x) > key(r) then x else r
  }

  /** A fraction whose numerator lies between 0 and its denominator is in [0, 1]. */
  lemma UnitFraction(num: real, den: real)
    requires 0.0 <= num <= den && den > 0.0
    ensures 0.0 <= num / den <= 1.0
  {
    assert num / den * den == num;
  }

  // ---------------------------------------------------------------------------
  // Counting dictionaries
  // ---------------------------------------------------------------------------

  /** `d[k] = d.get(k, 0) + n` */
  function Increment<K>(m: map<K, int>, k: K, n: int): (r: map<K, int>)
    ensures r.Keys == m.Keys + {k}
  {
    m[k := Get(m, k, 0) + n]
  }

  /** Incrementing one entry by `n` raises the dictionary's total by exactly `n`. */
  lemma IncrementSum<K>(m: map<K, int>, k: K, n: int)
    ensures MapSum(Increment(m, k, n)) == MapSum(m) + n
  {
    SumOfUpdate(m, Identity, k, Get(m, k, 0) + n);
  }

  /** The pointwise sum of two counting dictionaries: `a.get(k, 0) + b.get(k, 0)`. */
  function Merged<K>(a: map<K, int>, b: map<K, int>): map<K, int> {
    map k | k in a.Keys + b.Keys :: Get(a, k, 0) + Get(b, k, 0)
  }

  /** Merging adds the totals. */
  lemma {:induction false} MergedSum<K>(a: map<K, int>, b: map<K, int>)
    ensures MapSum(Merged(a, b)) == MapSum(a) + MapSum(b)
    decreases b.Keys
  {
    if b.Keys == {} {
      assert Merged(a, b) == a;
      assert MapSum(b) == 0;
    } else {
      var k :| k in b;
      var rest := b - {k};
      assert Merged(a, b) == Increment(Merged(a, rest), k, b[k]);
      MergedSum(a, rest);
      IncrementSum(Merged(a, rest), k, b[k]);
      SumOfRemove(b, Identity, k);
    }
  }

  /** The pointwise combination of two dictionaries: a key present on both sides
      maps to the combined values, a key present on one side keeps its value. */
  function MergedBy<K, V>(a: map<K, V>, b: map<K, V>, add: (V, V) -> V): map<K, V> {
    map k | k in a.Keys + b.Keys :: Combine(a, b, k, add)
  }

  function Combine<K, V>(a: map<K, V>, b: map<K, V>, k: K, add: (V, V) -> V): V
    requires k in a || k in b
  {
    if k in a && k in b then add(a[k], b[k]) else if k in a then a[k] else b[k]
  }

  /** Merging with an empty dictionary changes nothing. */
  lemma MergedEmpty<K>(a: map<K, int>)
    ensures Merged(a, map[]) == a
  {
  }

  lemma MergedByEmpty<K, V>(a: map<K, V>, add: (V, V) -> V)
    ensures MergedBy(a, map[], add) == a
  {
  }

  /** Some element of a non-empty set (the next key a `for` loop over a dictionary visits). */
  method Pick<T>(s: set<T>) returns (x: T)
    requires s != {}
    ensures x in s
  {
    x :| x in s;
  }

  /** `f(m[k])` summed is the same for two dictionaries that agree under `f`. */
  lemma {:induction false} SumOfPointwise<K, V>(m1: map<K, V>, m2: map<K, V>, f: V -> int)
    requires m1.Keys == m2.Keys
    requires forall k :: k in m1 ==> f(m1[k]) == f(m2[k])
    ensures SumOf(m1, f) == SumOf(m2, f)
    decreases m1.Keys
  {
    if m1.Keys != {} {
      var k :| k in m1;
      SumOfRemove(m1, f, k);
      SumOfRemove(m2, f, k);
      SumOfPointwise(m1 - {k}, m2 - {k}, f);
    }
  }

  lemma {:induction false} RealSumOfPointwise<K, V>(m1: map<K, V>, m2: map<K, V>, f: V -> real)
    requires m1.Keys == m2.Keys
    requires forall k :: k in m1 ==> f(m1[k]) == f(m2[k])
    ensures RealSumOf(m1, f) == RealSumOf(m2, f)
    decreases m1.Keys
  {
    if m1.Keys != {} {
      var k :| k in m1;
      RealSumOfRemove(m1, f, k);
      RealSumOfRemove(m2, f, k);
      RealSumOfPointwise(m1 - {k}, m2 - {k}, f);
    }
  }

  /** Merging adds the totals of any projection that is additive over `add`. */
  lemma {:induction false} MergedBySum<K, V>(a: map<K, V>, b: map<K, V>, add: (V, V) -> V, f: V -> int)
    requires forall x, y :: f(add(x, y)) == f(x) + f(y)
    ensures SumOf(MergedBy(a, b, add), f) == SumOf(a, f) + SumOf(b, f)
    decreases b.Keys
  {
    var m := MergedBy(a, b, add);
    if b.Keys == {} {
      SumOfPointwise(m, a, f);
      assert SumOf(b, f) == 0;
    } else {
      var k :| k in b;
      var rest := b - {k};
      var r := MergedBy(a, rest, add);
      var v := if k in a then add(a[k], b[k]) else b[k];
      assert m == r[k := v];
      SumOfUpdate(r, f, k, v);
      MergedBySum(a, rest, add, f);
      SumOfRemove(b, f, k);
    }
  }


  lemma {:induction false} RealMergedBySum<K, V>(a: map<K, V>, b: map<K, V>, add: (V, V) -> V, f: V -> real)
    requires forall x, y :: f(add(x, y)) == f(x) + f(y)
    ensures RealSumOf(MergedBy(a, b, add), f) == RealSumOf(a, f) + RealSumOf(b, f)
    decreases b.Keys
  {
    var m := MergedBy(a, b, add);
    if b.Keys == {} {
      RealSumOfPointwise(m, a, f);
      assert RealSumOf(b, f) == 0.0;
    } else {
      var k :| k in b;
      var rest := b - {k};
      var r := MergedBy(a, rest, add);
      var v := if k in a then add(a[k], b[k]) else b[k];
      assert m == r[k := v];
      RealSumOfUpdate(r, f, k, v);
      RealMergedBySum(a, rest, add, f);
      RealSumOfRemove(b, f, k);
    }
  }


  /** The entries of `m` whose keys are in `s`. */
  function Restrict<K, V>(m: map<K, V>, s: set<K>): map<K, V> {
    map k | k in m.Keys && k in s :: m[k]
  }

  /** `merged = dict(base); for k, c in extra.items(): merged[k] = merged.get(k, 0) + c` */
  method MergeCounts<K>(base: map<K, int>, extra: map<K, int>) returns (merged: map<K, int>)
    ensures merged == Merged(base, extra)
  {
    merged := base;
    var todo := extra.Keys;
    while todo != {}
      invariant todo <= extra.Keys
      invariant merged.Keys == base.Keys + (extra.Keys - todo)
      invariant forall k :: k in merged ==>
        merged[k] == Get(base, k, 0) + (if k in extra && k !in todo then extra[k] else 0)
      decreases todo
    {
      var k :| k in todo;
      merged := merged[k := Get(merged, k, 0) + extra[k]];
      todo := todo - {k};
    }
  }

  // ---------------------------------------------------------------------------
  // Sequences
  // ---------------------------------------------------------------------------

  /** `sum(f(x) for x in s)` */
  function SeqSum<T>(s: seq<T>, f: T -> int): int {
    if s == [] then 0 else f(s[0]) + SeqSum(s[1..], f)
  }

  lemma {:induction false} SeqSumAppend<T>(s: seq<T>, t: seq<T>, f: T -> int)
    ensures SeqSum(s + t, f) == SeqSum(s, f) + SeqSum(t, f)
  {
    if s != [] {
      assert (s + t)[1..] == s[1..] + t;
      SeqSumAppend(s[1..], t, f);
    } else {
      assert s + t == t;
    }
  }

  /** Elements of `s` that satisfy `p`, in order (a list comprehension with a condition). */
  function Filter<T>(s: seq<T>, p: T -> bool): (r: seq<T>)
    ensures |r| <= |s|
    ensures forall i :: 0 <= i < |r| ==> r[i] in s && p(r[i])
    ensures forall i :: 0 <= i < |s| && p(s[i]) ==> s[i] in r
  {
    if s == [] then [] else (if p(s[0]) then [s[0]] else []) + Filter(s[1..], p)
  }

  lemma {:induction false} FilterAppend<T>(a: seq<T>, b: seq<T>, p: T -> bool)
    ensures Filter(a + b, p) == Filter(a, p) + Filter(b, p)
  {
    if a == [] {
      assert a + b == b;
    } else {
      assert (a + b)[1..] == a[1..] + b;
      FilterAppend(a[1..], b, p);
    }
  }

  /** `[f(x) for x in s]` */
  function MapSeq<A, B>(s: seq<A>, f: A -> B): (r: seq<B>)
    ensures |r| == |s|
    ensures forall i :: 0 <= i < |s| ==> r[i] == f(s[i])
  {
    seq(|s|, i requires 0 <= i < |s| => f(s[i]))
  }

  /** Mapping a sequence with a new first element maps that element first. */
  lemma MapSeqCons<A, B>(x: A, s: seq<A>, f: A -> B)
    ensures MapSeq([x] + s, f) == [f(x)] + MapSeq(s, f)
  {
    var l, r := MapSeq([x] + s, f), [f(x)] + MapSeq(s, f);
    forall i | 0 <= i < |l| ensures l[i] == r[i] {
      if i > 0 {
        assert ([x] + s)[i] == s[i - 1];
      }
    }
    assert l == r;
  }

  /** Mapping two orderings of the same elements gives two orderings of the same images. */
  lemma {:induction false} MapSeqPermutation<A, B>(s: seq<A>, r: seq<A>, f: A -> B)
    requires multiset(s) == multiset(r)
    ensures multiset(MapSeq(s, f)) == multiset(MapSeq(r, f))
    decreases |s|
  {
    if s != [] {
      var x := s[0];
      assert x in multiset(r);
      assert s == [x] + s[1..];
      MapSeqPermutation(s[1..], RemoveFirst(r, x), f);
      MapSeqRemoveFirst(r, x, f);
      MapSeqCons(x, s[1..], f);
    }
  }

  lemma {:induction false} MapSeqRemoveFirst<A, B>(r: seq<A>, x: A, f: A -> B)
    requires x in r
    ensures multiset(MapSeq(r, f)) == multiset(MapSeq(RemoveFirst(r, x), f)) + multiset{f(x)}
  {
    assert r == [r[0]] + r[1..];
    MapSeqCons(r[0], r[1..], f);
    if r[0] != x {
      var rest := RemoveFirst(r[1..], x);
      assert RemoveFirst(r, x) == [r[0]] + rest;
      MapSeqRemoveFirst(r[1..], x, f);
      MapSeqCons(r[0], rest, f);
    }
  }

  predicate NoDuplicates<T(==)>(s: seq<T>) {
    forall i, j :: 0 <= i < j < |s| ==> s[i] != s[j]
  }

  /** A sequence is duplicate-free exactly when no element occurs twice in its multiset. */
  lemma {:induction false} NoDuplicatesMultiset<T>(s: seq<T>)
    ensures NoDuplicates(s) <==> forall x :: x in multiset(s) ==> multiset(s)[x] == 1
  {
    if s != [] {
      assert s == [s[0]] + s[1..];
      NoDuplicatesMultiset(s[1..]);
      if NoDuplicates(s) {
        assert NoDuplicates(s[1..]);
        assert s[0] !in s[1..];
      }
      if forall x :: x in multiset(s) ==> multiset(s)[x] == 1 {
        forall x | x in multiset(s[1..]) ensures multiset(s[1..])[x] == 1 {
          assert multiset(s)[x] == multiset(s[1..])[x] + (if x == s[0] then 1 else 0);
        }
        assert multiset(s) == multiset([s[0]]) + multiset(s[1..]);
        assert s[0] in multiset(s);
        assert s[0] !in multiset(s[1..]);
        forall i, j | 0 <= i < j < |s| ensures s[i] != s[j] {
          if i == 0 {
            assert s[j] == s[1..][j - 1];
          } else {
            assert s[i] == s[1..][i - 1] && s[j] == s[1..][j - 1];
          }
        }
      }
    }
  }

  /** Permuting a duplicate-free sequence keeps it duplicate-free. */
  lemma PermutationNoDuplicates<T>(a: seq<T>, b: seq<T>)
    requires multiset(a) == multiset(b) && NoDuplicates(a)
    ensures NoDuplicates(b)
  {
    NoDuplicatesMultiset(a);
    NoDuplicatesMultiset(b);
  }

  /** `list.remove(x)` guarded by `x in list`: drops the first occurrence, if any. */
  function RemoveFirst<T(==)>(s: seq<T>, x: T): (r: seq<T>)
    ensures multiset(r) == multiset(s) - multiset{x}
    ensures |r| == if x in s then |s| - 1 else |s|
    ensures x !in s ==> r == s
  {
    if s == [] then []
    else if s[0] == x then
      assert s == [s[0]] + s[1..];
      s[1..]
    else
      assert s == [s[0]] + s[1..];
      [s[0]] + RemoveFirst(s[1..], x)
  }

  /** The sequence with every occurrence of `x` dropped, order kept. */
  function Without<T(==)>(s: seq<T>, x: T): seq<T> {
    if s == [] then [] else (if s[0] == x then [] else [s[0]]) + Without(s[1..], x)
  }

  /** Removing one occurrence of `x` leaves the other elements in their order. */
  lemma {:induction false} RemoveFirstKeepsOthers<T>(s: seq<T>, x: T)
    ensures Without(RemoveFirst(s, x), x) == Without(s, x)
  {
    if s != [] && s[0] != x {
      RemoveFirstKeepsOthers(s[1..], x);
      assert ([s[0]] + RemoveFirst(s[1..], x))[1..] == RemoveFirst(s[1..], x);
    } else if s != [] {
      WithoutAbsent(s[1..], x, x);
    }
  }

  /** Dropping an element that does not occur there changes nothing, and
      dropping `x` leaves no `x`; `y` is kept exactly when it was there. */
  lemma {:induction false} WithoutAbsent<T>(s: seq<T>, x: T, y: T)
    ensures x !in s ==> Without(s, x) == s
    ensures y in Without(s, x) <==> y in s && y != x
  {
    if s != [] {
      WithoutAbsent(s[1..], x, y);
      assert s == [s[0]] + s[1..];
    }
  }

  /** Removing the only occurrence of `x` from a duplicate-free list leaves no `x` and no duplicate. */
  lemma RemoveFirstNoDuplicates<T>(s: seq<T>, x: T)
    requires NoDuplicates(s)
    ensures NoDuplicates(RemoveFirst(s, x))
    ensures x !in RemoveFirst(s, x)
  {
    var r := RemoveFirst(s, x);
    NoDuplicatesMultiset(s);
    NoDuplicatesMultiset(r);
    assert forall y :: y in multiset(r) ==> multiset(r)[y] <= multiset(s)[y];
    assert multiset(r)[x] == 0;
  }

  lemma AppendAbsentNoDuplicates<T>(s: seq<T>, x: T)
    requires NoDuplicates(s) && x !in s
    ensures NoDuplicates(s + [x])
  {
    var r := s + [x];
    forall i, j | 0 <= i < j < |r| ensures r[i] != r[j] {
      assert r[i] == s[i];
      if j < |s| {
        assert r[j] == s[j];
      }
    }
  }

  lemma {:induction false} WithoutAppend<T>(s: seq<T>, x: T)
    ensures Without(s + [x], x) == Without(s, x)
  {
    if s == [] {
      assert Without([x], x) == [] + Without([], x);
    } else {
      assert (s + [x])[1..] == s[1..] + [x];
      WithoutAppend(s[1..], x);
    }
  }


  // ---------------------------------------------------------------------------
  // Stable insertion sort (Python's sorted / list.sort and SQL ORDER BY)
  // ---------------------------------------------------------------------------

  /** `le` is a total preorder on the elements of `s`. */
  ghost predicate TotalOn<T>(s: seq<T>, le: (T, T) -> bool) {
    && (forall i, j :: 0 <= i < |s| && 0 <= j < |s| ==> le(s[i], s[j]) || le(s[j], s[i]))
    && (forall i, j, k :: 0 <= i < |s| && 0 <= j < |s| && 0 <= k < |s| && le(s[i], s[j]) && le(s[j], s[k]) ==>
          le(s[i], s[k]))
  }

  ghost predicate SortedBy<T>(s: seq<T>, le: (T, T) -> bool) {
    forall i, j :: 0 <= i < j < |s| ==> le(s[i], s[j])
  }

  /** Inserts `x` before the first element it is ordered before; equal elements keep their order. */
  function InsertBy<T>(x: T, s: seq<T>, le: (T, T) -> bool): (r: seq<T>)
    ensures multiset(r) == multiset(s) + multiset{x}
  {
    if s == [] then [x]
    else if le(x, s[0]) then [x] + s
    else
      assert s == [s[0]] + s[1..];
      [s[0]] + InsertBy(x, s[1..], le)
  }

  function SortBy<T>(s: seq<T>, le: (T, T) -> bool): (r: seq<T>)
    ensures multiset(r) == multiset(s)
  {
    if s == [] then []
    else
      assert s == [s[0]] + s[1..];
      InsertBy(s[0], SortBy(s[1..], le), le)
  }

  lemma {:induction false} InsertBySorted<T>(x: T, s: seq<T>, le: (T, T) -> bool, all: seq<T>)
    requires TotalOn(all, le)
    requires x in all && forall i :: 0 <= i < |s| ==> s[i] in all
    requires SortedBy(s, le)
    ensures SortedBy(InsertBy(x, s, le), le)
  {
    if s != [] && !le(x, s[0]) {
      var rest := InsertBy(x, s[1..], le);
      InsertBySorted(x, s[1..], le, all);
      assert le(s[0], x);
      forall y | y in rest ensures le(s[0], y) {
        assert y in multiset(rest);
        if y != x {
          assert y in multiset(s[1..]);
          assert y in s[1..];
        }
      }
      ConsSorted(s[0], rest, le);
    }
  }

  /** A head ordered before every element of a sorted tail gives a sorted sequence. */
  lemma ConsSorted<T>(h: T, rest: seq<T>, le: (T, T) -> bool)
    requires SortedBy(rest, le) && forall y :: y in rest ==> le(h, y)
    ensures SortedBy([h] + rest, le)
  {
    var r := [h] + rest;
    forall i, j | 0 <= i < j < |r| ensures le(r[i], r[j]) {
      if i == 0 {
        assert r[j] in rest;
      } else {
        assert r[i] == rest[i - 1] && r[j] == rest[j - 1];
      }
    }
  }

  /** The sort orders its input and only permutes it. */
  lemma {:induction false} SortBySorted<T>(s: seq<T>, le: (T, T) -> bool)
    requires TotalOn(s, le)
    ensures SortedBy(SortBy(s, le), le)
    ensures multiset(SortBy(s, le)) == multiset(s)
  {
    if s != [] {
      assert TotalOn(s[1..], le);
      SortBySorted(s[1..], le);
      var sorted := SortBy(s[1..], le);
      forall i | 0 <= i < |sorted| ensures sorted[i] in s {
        assert sorted[i] in multiset(sorted);
        assert sorted[i] in multiset(s[1..]);
      }
      InsertBySorted(s[0], sorted, le, s);
    }
  }

  // ---------------------------------------------------------------------------
  // Dictionaries as lists of entries
  // ---------------------------------------------------------------------------

  /** `{row[0]: row[1] for row in rows}`: a later row for the same key wins. */
  function ToMap<K(!new), V>(rows: seq<(K, V)>): (m: map<K, V>)
    ensures forall k :: k in m <==> exists i :: 0 <= i < |rows| && rows[i].0 == k
  {
    if rows == [] then map[]
    else
      var m := ToMap(rows[..|rows| - 1]);
      assert forall i :: 0 <= i < |rows| - 1 ==> rows[..|rows| - 1][i] == rows[i];
      m[rows[|rows| - 1].0 := rows[|rows| - 1].1]
  }

  /** Rows with distinct keys are a listing of the dictionary built from them. */
  lemma {:induction false} ToMapDistinct<K(!new), V>(rows: seq<(K, V)>)
    requires forall i, j :: 0 <= i < j < |rows| ==> rows[i].0 != rows[j].0
    ensures Listing(rows, ToMap(rows))
  {
    if rows != [] {
      var n := |rows| - 1;
      var init := rows[..n];
      assert forall i :: 0 <= i < n ==> init[i] == rows[i];
      ToMapDistinct(init);
      var before, m := ToMap(init), ToMap(rows);
      assert m == before[rows[n].0 := rows[n].1];
      forall i | 0 <= i < |rows| ensures rows[i].0 in m && rows[i].1 == m[rows[i].0] {
        if i < n {
          assert init[i] == rows[i];
        }
      }
      forall k | k in m ensures exists i :: 0 <= i < |rows| && rows[i].0 == k {
        if k != rows[n].0 {
          var i :| 0 <= i < n && init[i].0 == k;
          assert rows[i].0 == k;
        }
      }
    }
  }

  /** `items` lists the entries of `m`, each key once. */
  ghost predicate Listing<K(!new), V>(items: seq<(K, V)>, m: map<K, V>) {
    && (forall i :: 0 <= i < |items| ==> items[i].0 in m && items[i].1 == m[items[i].0])
    && (forall k :: k in m ==> exists i :: 0 <= i < |items| && items[i].0 == k)
    && (forall i, j :: 0 <= i < j < |items| ==> items[i].0 != items[j].0)
  }

  /** Building a dictionary from a listing of `m` gives back `m`. */
  lemma ListingToMap<K(!new), V>(items: seq<(K, V)>, m: map<K, V>)
    requires Listing(items, m)
    ensures ToMap(items) == m
  {
    var r := ToMap(items);
    ToMapDistinct(items);
    assert r.Keys == m.Keys by {
      forall k | k in m ensures k in r {
        var i :| 0 <= i < |items| && items[i].0 == k;
      }
    }
    forall i | 0 <= i < |items| ensures r[items[i].0] == m[items[i].0] {
    }
  }

  /** `list(m.items())` */
  method Items<K(!new), V>(m: map<K, V>) returns (items: seq<(K, V)>)
    ensures Listing(items, m)
  {
    items := [];
    var todo := m.Keys;
    while todo != {}
      invariant todo <= m.Keys
      invariant forall i :: 0 <= i < |items| ==> items[i].0 in m && items[i].0 !in todo && items[i].1 == m[items[i].0]
      invariant forall k :: k in m && k !in todo ==> exists i :: 0 <= i < |items| && items[i].0 == k
      invariant forall i, j :: 0 <= i < j < |items| ==> items[i].0 != items[j].0
      decreases todo
    {
      var k :| k in todo;
      var before := items;
      items := items + [(k, m[k])];
      assert forall i :: 0 <= i < |before| ==> items[i] == before[i];
      assert items[|before|].0 == k;
      todo := todo - {k};
    }
  }

  /** A reordering of a listing is a listing. */
  lemma PermutedListing<K(!new), V>(items: seq<(K, V)>, r: seq<(K, V)>, m: map<K, V>)
    requires Listing(items, m) && multiset(r) == multiset(items)
    ensures Listing(r, m)
  {
    forall i | 0 <= i < |r| ensures r[i] in items {
      assert r[i] in multiset(items);
    }
    forall k | k in m ensures exists i :: 0 <= i < |r| && r[i].0 == k {
      var j :| 0 <= j < |items| && items[j].0 == k;
      assert items[j] in multiset(r);
    }
    assert NoDuplicates(items) by {
      forall i, j | 0 <= i < j < |items| ensures items[i] != items[j] {
      }
    }
    PermutationNoDuplicates(items, r);
  }

  /** Sorting a listing gives a sorted listing. */
  lemma SortedListing<K(!new), V>(items: seq<(K, V)>, m: map<K, V>, le: ((K, V), (K, V)) -> bool)
    requires Listing(items, m) && TotalOn(items, le)
    ensures Listing(SortBy(items, le), m) && SortedBy(SortBy(items, le), le)
  {
    SortBySorted(items, le);
    PermutedListing(items, SortBy(items, le), m);
  }
}
