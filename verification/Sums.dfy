/** Sums over the values of a finite map and over a sequence.  The continuity
    peer charges one counter for many objects; these sums say what a counter
    must hold. */
module Sums {

  ghost function Total<K, V>(m: map<K, V>, f: V -> int): int
    decreases |m|
  {
    if m == map[] then 0 else
      var k :| k in m;
      f(m[k]) + Total(m - {k}, f)
  }

  /** Any key may be split off, not only the one the definition picks. */
  lemma {:induction false} Split<K, V>(m: map<K, V>, f: V -> int, k: K)
    requires k in m
    ensures Total(m, f) == f(m[k]) + Total(m - {k}, f)
    decreases |m|
  {
    var p :| p in m && Total(m, f) == f(m[p]) + Total(m - {p}, f);
    if p != k {
      Split(m - {p}, f, k);
      Split(m - {k}, f, p);
      assert m - {p} - {k} == m - {k} - {p};
    }
  }

  lemma Insert<K, V>(m: map<K, V>, f: V -> int, k: K, v: V)
    requires k !in m
    ensures Total(m[k := v], f) == Total(m, f) + f(v)
  {
    Split(m[k := v], f, k);
    assert m[k := v] - {k} == m;
  }

  lemma Update<K, V>(m: map<K, V>, f: V -> int, k: K, v: V)
    requires k in m
    ensures Total(m[k := v], f) == Total(m, f) - f(m[k]) + f(v)
  {
    Split(m, f, k);
    Split(m[k := v], f, k);
    assert m[k := v] - {k} == m - {k};
  }

  lemma {:induction false} NonNegative<K, V>(m: map<K, V>, f: V -> int)
    requires forall k :: k in m ==> f(m[k]) >= 0
    ensures Total(m, f) >= 0
    ensures forall k :: k in m ==> f(m[k]) <= Total(m, f)
    decreases |m|
  {
    if m != map[] {
      var p :| p in m && Total(m, f) == f(m[p]) + Total(m - {p}, f);
      NonNegative(m - {p}, f);
      assert forall k :: k in m && k != p ==> k in m - {p};
    }
  }

  /** Two charging functions that agree on every value give the same sum. */
  lemma {:induction false} Agree<K, V>(m: map<K, V>, f: V -> int, g: V -> int)
    requires forall k :: k in m ==> f(m[k]) == g(m[k])
    ensures Total(m, f) == Total(m, g)
    decreases |m|
  {
    if m != map[] {
      var p :| p in m && Total(m, f) == f(m[p]) + Total(m - {p}, f);
      Split(m, g, p);
      Agree(m - {p}, f, g);
    }
  }

  lemma Zero<K, V>(m: map<K, V>, f: V -> int)
    requires forall k :: k in m ==> f(m[k]) == 0
    ensures Total(m, f) == 0
  {
    Agree(m, f, (v: V) => 0);
    Zeros<K, V>(m);
  }

  lemma {:induction false} Zeros<K, V>(m: map<K, V>)
    ensures Total(m, (v: V) => 0) == 0
    decreases |m|
  {
    if m != map[] {
      var p :| p in m && Total(m, (v: V) => 0) == 0 + Total(m - {p}, (v: V) => 0);
      Zeros<K, V>(m - {p});
    }
  }
}
