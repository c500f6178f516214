// Sums over sequences and over maps whose iteration order is unspecified.

module Sums {

  ghost function SumBy<T>(s: seq<T>, f: T -> nat): nat {
    if s == [] then 0 else SumBy(s[..|s| - 1], f) + f(s[|s| - 1])
  }

  lemma SumByAppend<T>(s: seq<T>, x: T, f: T -> nat)
    ensures SumBy(s + [x], f) == SumBy(s, f) + f(x)
  {
    assert (s + [x])[..|s|] == s;
  }

  lemma {:induction false} SumByUpdate<T>(s: seq<T>, i: nat, x: T, f: T -> nat)
    requires i < |s|
    ensures SumBy(s[i := x], f) + f(s[i]) == SumBy(s, f) + f(x)
  {
    var n := |s| - 1;
    if i == n {
      assert s[i := x][..n] == s[..n];
    } else {
      assert s[i := x][..n] == s[..n][i := x];
      SumByUpdate(s[..n], i, x, f);
    }
  }

  lemma {:induction false} SumByMonotone<T>(s: seq<T>, f: T -> nat, g: T -> nat)
    requires forall i :: 0 <= i < |s| ==> f(s[i]) <= g(s[i])
    ensures SumBy(s, f) <= SumBy(s, g)
  {
    if s == [] {
    } else {
      SumByMonotone(s[..|s| - 1], f, g);
    }
  }

  lemma {:induction false} SumByEqual<T>(s: seq<T>, f: T -> nat, g: T -> nat)
    requires forall i :: 0 <= i < |s| ==> f(s[i]) == g(s[i])
    ensures SumBy(s, f) == SumBy(s, g)
  {
    if s == [] {
    } else {
      SumByEqual(s[..|s| - 1], f, g);
    }
  }

  /** The sum of `f` over the values of `m`. The chosen order does not matter, by `SumMapRemove`. */
  ghost function SumMap<K, V>(m: map<K, V>, f: V -> nat): nat
    decreases m.Keys
  {
    if m == map[] then 0 else
    var k :| k in m;
    f(m[k]) + SumMap(m - {k}, f)
  }

  lemma {:induction false} SumMapRemove<K, V>(m: map<K, V>, f: V -> nat, k: K)
    requires k in m
    ensures SumMap(m, f) == f(m[k]) + SumMap(m - {k}, f)
    decreases m.Keys
  {
    var c :| c in m && SumMap(m, f) == f(m[c]) + SumMap(m - {c}, f);
    if c == k {
    } else {
      SumMapRemove(m - {c}, f, k);
      SumMapRemove(m - {k}, f, c);
      assert (m - {c}) - {k} == (m - {k}) - {c};
    }
  }

  lemma SumMapInsert<K, V>(m: map<K, V>, f: V -> nat, k: K, v: V)
    requires k !in m
    ensures SumMap(m[k := v], f) == SumMap(m, f) + f(v)
  {
    SumMapRemove(m[k := v], f, k);
    assert m[k := v] - {k} == m;
  }

  lemma {:induction false} SumMapMonotone<K, V>(m: map<K, V>, f: V -> nat, g: V -> nat)
    requires forall k :: k in m ==> f(m[k]) <= g(m[k])
    ensures SumMap(m, f) <= SumMap(m, g)
    decreases m.Keys
  {
    if m == map[] {
    } else {
      var k :| k in m;
      SumMapRemove(m, f, k);
      SumMapRemove(m, g, k);
      SumMapMonotone(m - {k}, f, g);
    }
  }

  lemma SumMapEqual<K, V>(m: map<K, V>, f: V -> nat, g: V -> nat)
    requires forall k :: k in m ==> f(m[k]) == g(m[k])
    ensures SumMap(m, f) == SumMap(m, g)
  {
    SumMapMonotone(m, f, g);
    SumMapMonotone(m, g, f);
  }
}
