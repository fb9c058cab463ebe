/** Counting facts about finite sets and sums over finite maps, shared by every component. */
module Finite {

  /** The replica numbers 0..n-1. */
  function Ids(n: nat): (ids: set<int>)
    ensures forall i :: i in ids <==> 0 <= i < n
    ensures |ids| == n
  {
    if n == 0 then {} else Ids(n - 1) + {n - 1}
  }

  lemma {:induction false} SubsetSize<T>(a: set<T>, b: set<T>)
    requires a <= b
    ensures |a| <= |b|
  {
    if a != {} {
      var x :| x in a;
      SubsetSize(a - {x}, b - {x});
    }
  }

  lemma Member<T>(s: set<T>) returns (x: T)
    requires s != {}
    ensures x in s
  {
    x :| x in s;
  }

  /** Inclusion-exclusion, as a lower bound on the overlap of two subsets. */
  lemma OverlapSize<T>(a: set<T>, b: set<T>, all: set<T>)
    requires a <= all && b <= all
    ensures |a * b| >= |a| + |b| - |all|
  {
    assert |a + b| + |a * b| == |a| + |b|;
    SubsetSize(a + b, all);
  }

  /** Adding up a map's values, in some order. */
  ghost function Fold<K(!new)>(m: map<K, int>): int
    decreases |m|
  {
    if m == map[] then 0 else
    var k :| k in m;
    RemoveSmaller(m, k);
    m[k] + Fold(m - {k})
  }

  lemma RemoveSmaller<K, V>(m: map<K, V>, k: K)
    requires k in m
    ensures |m - {k}| == |m| - 1
  {
    assert (m - {k}).Keys == m.Keys - {k};
  }

  /** The order in which the keys are visited does not matter. */
  lemma {:induction false} FoldAt<K(!new)>(m: map<K, int>, k: K)
    requires k in m
    ensures Fold(m) == m[k] + Fold(m - {k})
    decreases |m|
  {
    var p :| p in m && Fold(m) == m[p] + Fold(m - {p});
    if p != k {
      RemoveSmaller(m, p);
      RemoveSmaller(m, k);
      FoldAt(m - {p}, k);
      FoldAt(m - {k}, p);
      assert (m - {p}) - {k} == (m - {k}) - {p};
    }
  }

  /** What makes a function on maps the sum of their values. */
  ghost predicate Sums<K(!new)>(f: map<K, int> -> int) {
    && f(map[]) == 0
    && forall m: map<K, int>, k: K {:trigger f(m - {k})} :: k in m ==> f(m) == m[k] + f(m - {k})
  }

  lemma SumsExists<K(!new)>()
    ensures exists f: map<K, int> -> int :: Sums(f)
  {
    var f := (m: map<K, int>) => Fold(m);
    forall m: map<K, int>, k: K | k in m ensures f(m) == m[k] + f(m - {k}) {
      FoldAt(m, k);
    }
    assert Sums(f);
  }

  ghost function Summation<K(!new)>(): (f: map<K, int> -> int)
    ensures Sums(f)
  {
    SumsExists<K>();
    var f: map<K, int> -> int :| Sums(f);
    f
  }

  /** The sum of a map's values. */
  ghost function Sum<K(!new)>(m: map<K, int>): int {
    Summation()(m)
  }

  lemma SumAt<K(!new)>(m: map<K, int>, k: K)
    requires k in m
    ensures Sum(m) == m[k] + Sum(m - {k})
  {
  }

  lemma SumEmpty<K(!new)>()
    ensures Sum<K>(map[]) == 0
  {
  }

  /** Storing `v` under `k` changes the sum by `v` less what was stored before. */
  lemma SumPut<K(!new)>(m: map<K, int>, k: K, v: int)
    ensures Sum(m[k := v]) == Sum(m) + v - (if k in m then m[k] else 0)
  {
    var m' := m[k := v];
    SumAt(m', k);
    assert m' - {k} == m - {k};
    if k in m {
      SumAt(m, k);
    } else {
      assert m - {k} == m;
    }
  }

  lemma SumDrop<K(!new)>(m: map<K, int>, k: K)
    ensures Sum(m - {k}) == Sum(m) - (if k in m then m[k] else 0)
  {
    if k in m {
      SumAt(m, k);
    } else {
      assert m - {k} == m;
    }
  }

  lemma {:induction false} SumNonNegative<K(!new)>(m: map<K, int>)
    requires forall k :: k in m ==> m[k] >= 0
    ensures Sum(m) >= 0
    ensures forall k :: k in m ==> m[k] <= Sum(m)
    decreases |m|
  {
    forall k | k in m
      ensures 0 <= m[k] <= Sum(m)
    {
      RemoveSmaller(m, k);
      SumAt(m, k);
      SumNonNegative(m - {k});
    }
    if m != map[] {
      var k :| k in m;
      assert 0 <= m[k] <= Sum(m);
    }
  }

  /** The sum of a pointwise sum is the sum of the sums. */
  lemma {:induction false} SumAdd<K(!new)>(a: map<K, int>, b: map<K, int>, c: map<K, int>)
    requires a.Keys == b.Keys == c.Keys
    requires forall k :: k in a ==> c[k] == a[k] + b[k]
    ensures Sum(c) == Sum(a) + Sum(b)
    decreases |a|
  {
    if a == map[] {
      assert b == map[] && c == map[];
    } else {
      var k :| k in a;
      RemoveSmaller(a, k);
      SumAt(a, k);
      SumAt(b, k);
      SumAt(c, k);
      SumAdd(a - {k}, b - {k}, c - {k});
    }
  }

  lemma {:induction false} SumScale<K(!new)>(a: map<K, int>, b: map<K, int>, f: int)
    requires a.Keys == b.Keys
    requires forall k :: k in a ==> b[k] == f * a[k]
    ensures Sum(b) == f * Sum(a)
    decreases |a|
  {
    if a == map[] {
      assert b == map[];
    } else {
      var k :| k in a;
      RemoveSmaller(a, k);
      SumAt(a, k);
      SumAt(b, k);
      SumScale(a - {k}, b - {k}, f);
      Distribute(f, a[k], Sum(a - {k}));
    }
  }

  lemma Distribute(f: int, x: int, y: int)
    ensures f * (x + y) == f * x + f * y
  {
  }

  /** One number of every entry of a map, and their sum. */
  function Project<K, V>(m: map<K, V>, f: V -> int): map<K, int> {
    map k | k in m :: f(m[k])
  }

  ghost function Total<K(!new), V>(m: map<K, V>, f: V -> int): int {
    Sum(Project(m, f))
  }

  lemma TotalPut<K(!new), V>(m: map<K, V>, k: K, v: V, f: V -> int)
    ensures Total(m[k := v], f) == Total(m, f) + f(v) - (if k in m then f(m[k]) else 0)
  {
    SumPut(Project(m, f), k, f(v));
    assert Project(m[k := v], f) == Project(m, f)[k := f(v)];
  }

  lemma TotalDrop<K(!new), V>(m: map<K, V>, k: K, f: V -> int)
    ensures Total(m - {k}, f) == Total(m, f) - (if k in m then f(m[k]) else 0)
  {
    SumDrop(Project(m, f), k);
    assert Project(m - {k}, f) == Project(m, f) - {k};
  }

  lemma TotalNonNegative<K(!new), V>(m: map<K, V>, f: V -> int)
    requires forall k :: k in m ==> f(m[k]) >= 0
    ensures Total(m, f) >= 0
    ensures forall k :: k in m ==> f(m[k]) <= Total(m, f)
  {
    var p := Project(m, f);
    SumNonNegative(p);
    assert forall k :: k in m ==> p[k] == f(m[k]);
  }

  lemma TotalSame<K(!new), V>(m: map<K, V>, n: map<K, V>, f: V -> int)
    requires m.Keys == n.Keys && forall k :: k in m ==> f(n[k]) == f(m[k])
    ensures Total(n, f) == Total(m, f)
  {
    assert Project(n, f) == Project(m, f);
  }

  lemma TotalPlus<K(!new), V>(m: map<K, V>, n: map<K, V>, f: V -> int, more: map<K, int>)
    requires m.Keys == n.Keys == more.Keys && forall k :: k in m ==> f(n[k]) == f(m[k]) + more[k]
    ensures Total(n, f) == Total(m, f) + Sum(more)
  {
    SumAdd(Project(m, f), more, Project(n, f));
  }
}
