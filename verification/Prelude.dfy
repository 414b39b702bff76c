/** Machine integers, failure values and sums over maps shared by the whole project. */
module Prelude {

  const MAX_U64: nat := 0xFFFF_FFFF_FFFF_FFFF
  const MAX_U128: nat := 0xFFFF_FFFF_FFFF_FFFF_FFFF_FFFF_FFFF_FFFF

  /** An unsigned 64-bit amount. Every stored amount of the runtime has this type. */
  type U64 = n: int | 0 <= n <= MAX_U64

  datatype Option<+T> = None | Some(value: T)

  datatype Result<+T, +E> = Ok(value: T) | Err(error: E)

  function Min(a: int, b: int): int {
    if a <= b then a else b
  }

  // ----- sums over maps -----

  /** `g` adds up the weights `f` of a map's values, entry by entry. */
  ghost predicate IsTally<K(!new), V(!new)>(g: map<K, V> -> nat, f: V -> nat) {
    g(map[]) == 0 && forall m: map<K, V>, k: K, v: V :: k !in m ==> g(m[k := v]) == g(m) + f(v)
  }

  /** The one function that tallies `f`. */
  ghost function Tally<K(!new), V(!new)>(f: V -> nat): (g: map<K, V> -> nat)
    ensures IsTally(g, f)
  {
    TallyExists<K, V>(f);
    var g: map<K, V> -> nat :| IsTally(g, f);
    g
  }

  /** The sum of `f` over the values of a finite map. */
  ghost function Sum<K(!new), V(!new)>(m: map<K, V>, f: V -> nat): nat {
    Tally<K, V>(f)(m)
  }

  ghost function Accumulate<K(!new), V(!new)>(m: map<K, V>, f: V -> nat): nat {
    if m == map[] then 0 else var k :| k in m; f(m[k]) + Accumulate(m - {k}, f)
  }

  lemma {:induction false} AccumulateAny<K(!new), V(!new)>(m: map<K, V>, k: K, f: V -> nat)
    requires k in m
    ensures Accumulate(m, f) == f(m[k]) + Accumulate(m - {k}, f)
    decreases |m|
  {
    var j :| j in m && Accumulate(m, f) == f(m[j]) + Accumulate(m - {j}, f);
    if j != k {
      AccumulateAny(m - {j}, k, f);
      AccumulateAny(m - {k}, j, f);
      assert m - {j} - {k} == m - {k} - {j};
    }
  }

  lemma TallyExists<K(!new), V(!new)>(f: V -> nat)
    ensures exists g: map<K, V> -> nat :: IsTally(g, f)
  {
    var g := (m: map<K, V>) => Accumulate(m, f);
    forall m: map<K, V>, k: K, v: V | k !in m
      ensures g(m[k := v]) == g(m) + f(v)
    {
      AccumulateAny(m[k := v], k, f);
      assert m[k := v] - {k} == m;
    }
    assert IsTally(g, f);
  }

  lemma SumEmpty<K(!new), V(!new)>(f: V -> nat)
    ensures Sum<K, V>(map[], f) == 0
  {
    assert IsTally(Tally<K, V>(f), f);
  }

  lemma SumInsert<K(!new), V(!new)>(m: map<K, V>, k: K, v: V, f: V -> nat)
    requires k !in m
    ensures Sum(m[k := v], f) == Sum(m, f) + f(v)
  {
    assert IsTally(Tally<K, V>(f), f);
  }

  lemma SumRemove<K(!new), V(!new)>(m: map<K, V>, k: K, f: V -> nat)
    requires k in m
    ensures Sum(m, f) == f(m[k]) + Sum(m - {k}, f)
  {
    SumInsert(m - {k}, k, m[k], f);
    assert (m - {k})[k := m[k]] == m;
  }

  /** Writing one entry changes the sum by exactly the difference of its weights. */
  lemma SumPut<K(!new), V(!new)>(m: map<K, V>, k: K, v: V, f: V -> nat)
    ensures Sum(m[k := v], f) + (if k in m then f(m[k]) else 0) == Sum(m, f) + f(v)
  {
    if k in m {
      SumRemove(m, k, f);
      SumInsert(m - {k}, k, v, f);
      assert (m - {k})[k := v] == m[k := v];
    } else {
      SumInsert(m, k, v, f);
    }
  }

  /** One entry never weighs more than the whole map. */
  lemma SumAtLeast<K(!new), V(!new)>(m: map<K, V>, k: K, f: V -> nat)
    requires k in m
    ensures f(m[k]) <= Sum(m, f)
  {
    SumRemove(m, k, f);
  }

  /** A map all of whose entries weigh nothing has sum zero. */
  lemma {:induction false} SumZero<K(!new), V(!new)>(m: map<K, V>, f: V -> nat)
    requires forall k :: k in m ==> f(m[k]) == 0
    ensures Sum(m, f) == 0
    decreases |m|
  {
    if m == map[] {
      SumEmpty<K, V>(f);
    } else {
      var k :| k in m;
      SumRemove(m, k, f);
      SumZero(m - {k}, f);
    }
  }

  /** A pointwise smaller weight has a smaller sum. */
  lemma {:induction false} SumMonotone<K(!new), V(!new)>(m: map<K, V>, f: V -> nat, g: V -> nat)
    requires forall k :: k in m ==> f(m[k]) <= g(m[k])
    ensures Sum(m, f) <= Sum(m, g)
    decreases |m|
  {
    if m == map[] {
      SumEmpty<K, V>(f);
    } else {
      var k :| k in m;
      SumRemove(m, k, f);
      SumRemove(m, k, g);
      SumMonotone(m - {k}, f, g);
    }
  }
}
