/** Sums over finite maps, used for every "the sum over all nominators" statement. */
module MapSums {

  ghost function ValueAt<K, V>(m: map<K, V>, f: V -> nat, k: K): nat { if k in m then f(m[k]) else 0 }

  ghost function TotalOver<K, V>(m: map<K, V>, f: V -> nat, keys: set<K>): nat {
    if keys == {} then 0 else
      var k :| k in keys;
      ValueAt(m, f, k) + TotalOver(m, f, keys - {k})
  }

  /** The sum of `f` over the values of `m`. */
  ghost function Total<K, V>(m: map<K, V>, f: V -> nat): nat { TotalOver(m, f, m.Keys) }

  /** The order in which a sum takes its keys does not matter. */
  lemma {:induction false} TotalOverPick<K, V>(m: map<K, V>, f: V -> nat, keys: set<K>, k: K)
    requires k in keys
    ensures TotalOver(m, f, keys) == ValueAt(m, f, k) + TotalOver(m, f, keys - {k})
  {
    var c :| c in keys && TotalOver(m, f, keys) == ValueAt(m, f, c) + TotalOver(m, f, keys - {c});
    if c != k {
      TotalOverPick(m, f, keys - {c}, k);
      assert keys - {c} - {k} == keys - {k} - {c};
      TotalOverPick(m, f, keys - {k}, c);
    }
  }

  lemma TotalOverAdd<K, V>(m: map<K, V>, f: V -> nat, keys: set<K>, k: K)
    requires k in m && k !in keys
    ensures TotalOver(m, f, keys + {k}) == TotalOver(m, f, keys) + f(m[k])
  {
    TotalOverPick(m, f, keys + {k}, k);
    assert keys + {k} - {k} == keys;
  }

  lemma {:induction false} TotalOverSame<K, V, W>(m: map<K, V>, f: V -> nat, m': map<K, W>, f': W -> nat, keys: set<K>)
    requires forall k :: k in keys ==> ValueAt(m, f, k) == ValueAt(m', f', k)
    ensures TotalOver(m, f, keys) == TotalOver(m', f', keys)
  {
    if keys != {} {
      var k :| k in keys;
      TotalOverPick(m, f, keys, k);
      TotalOverPick(m', f', keys, k);
      TotalOverSame(m, f, m', f', keys - {k});
    }
  }

  lemma {:induction false} TotalOverUnion<K, V>(m: map<K, V>, f: V -> nat, a: set<K>, b: set<K>)
    requires a !! b
    ensures TotalOver(m, f, a + b) == TotalOver(m, f, a) + TotalOver(m, f, b)
  {
    if a == {} {
      assert a + b == b;
    } else {
      var k :| k in a;
      TotalOverPick(m, f, a, k);
      TotalOverPick(m, f, a + b, k);
      assert a + b - {k} == (a - {k}) + b;
      TotalOverUnion(m, f, a - {k}, b);
    }
  }

  lemma TotalRemove<K, V>(m: map<K, V>, f: V -> nat, k: K)
    ensures Total(m - {k}, f) + ValueAt(m, f, k) == Total(m, f)
  {
    if k in m {
      TotalOverPick(m, f, m.Keys, k);
      TotalOverSame(m, f, m - {k}, f, m.Keys - {k});
      assert (m - {k}).Keys == m.Keys - {k};
    } else {
      assert m - {k} == m;
    }
  }

  /** An equation that holds at every key holds of the sums. */
  lemma {:induction false} TotalsBalance<K, V>(m: map<K, V>, f: V -> nat, extra: map<K, nat>, g: nat -> nat,
                                               m': map<K, V>, extra': map<K, nat>, keys: set<K>)
    requires forall k :: k in keys ==>
               ValueAt(m, f, k) + ValueAt(extra, g, k) == ValueAt(m', f, k) + ValueAt(extra', g, k)
    ensures TotalOver(m, f, keys) + TotalOver(extra, g, keys) == TotalOver(m', f, keys) + TotalOver(extra', g, keys)
  {
    if keys != {} {
      var k :| k in keys;
      TotalOverPick(m, f, keys, k);
      TotalOverPick(extra, g, keys, k);
      TotalOverPick(m', f, keys, k);
      TotalOverPick(extra', g, keys, k);
      TotalsBalance(m, f, extra, g, m', extra', keys - {k});
    }
  }

  lemma TotalAtLeast<K, V>(m: map<K, V>, f: V -> nat, k: K)
    ensures ValueAt(m, f, k) <= Total(m, f)
  {
    TotalRemove(m, f, k);
  }

  /** Two maps that agree everywhere but at `k`. */
  lemma TotalDiffAt<K, V>(m: map<K, V>, m': map<K, V>, f: V -> nat, k: K)
    requires m - {k} == m' - {k}
    ensures Total(m', f) + ValueAt(m, f, k) == Total(m, f) + ValueAt(m', f, k)
  {
    TotalRemove(m, f, k);
    TotalRemove(m', f, k);
  }

  lemma TotalUpdate<K, V>(m: map<K, V>, f: V -> nat, k: K, v: V)
    ensures Total(m[k := v], f) + ValueAt(m, f, k) == Total(m, f) + f(v)
  {
    assert m[k := v] - {k} == m - {k};
    TotalDiffAt(m, m[k := v], f, k);
  }

  lemma TotalSame<K, V, W>(m: map<K, V>, f: V -> nat, m': map<K, W>, f': W -> nat)
    requires m.Keys == m'.Keys
    requires forall k :: k in m ==> f(m[k]) == f'(m'[k])
    ensures Total(m, f) == Total(m', f')
  {
    TotalOverSame(m, f, m', f', m.Keys);
  }

  lemma TotalSingleton<K, V>(f: V -> nat, k: K, v: V)
    ensures Total(map[k := v], f) == f(v)
  {
    TotalRemove(map[k := v], f, k);
    assert (map[k := v] - {k}).Keys == {};
  }

  lemma TotalZero<K, V>(m: map<K, V>, f: V -> nat)
    requires forall k :: k in m ==> f(m[k]) == 0
    ensures Total(m, f) == 0
  {
    TotalOverZero(m, f, m.Keys);
  }

  lemma {:induction false} TotalOverZero<K, V>(m: map<K, V>, f: V -> nat, keys: set<K>)
    requires forall k :: k in keys ==> ValueAt(m, f, k) == 0
    ensures TotalOver(m, f, keys) == 0
  {
    if keys != {} {
      var k :| k in keys;
      TotalOverPick(m, f, keys, k);
      TotalOverZero(m, f, keys - {k});
    }
  }

  ghost predicate Superadditive(f: nat -> nat) { forall a: nat, b: nat :: f(a) + f(b) <= f(a + b) }

  /** What is rounded for each entry alone is covered by what is rounded for the sum. */
  lemma {:induction false} TotalCovered<K, V>(m: map<K, V>, after: V -> nat, before: V -> nat, moved: V -> nat,
                                              f: nat -> nat, keys: set<K>)
    requires Superadditive(f) && keys <= m.Keys
    requires forall k :: k in keys ==> after(m[k]) <= before(m[k]) + f(moved(m[k]))
    ensures TotalOver(m, after, keys) <= TotalOver(m, before, keys) + f(TotalOver(m, moved, keys))
  {
    if keys != {} {
      var k :| k in keys;
      TotalCovered(m, after, before, moved, f, keys - {k});
      TotalOverPick(m, after, keys, k);
      TotalOverPick(m, before, keys, k);
      TotalOverPick(m, moved, keys, k);
      assert f(moved(m[k])) + f(TotalOver(m, moved, keys - {k})) <= f(moved(m[k]) + TotalOver(m, moved, keys - {k}));
    }
  }
}
