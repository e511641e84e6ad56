/** Shared vocabulary: optional values, 64-bit saturation, and sums over finite maps. */
module Common {

  datatype Option<+T> = None | Some(value: T)

  const U64_MAX: nat := 0xFFFF_FFFF_FFFF_FFFF

  type U64 = n: nat | n <= U64_MAX

  function Min(a: int, b: int): int { if a <= b then a else b }

  function Max(a: int, b: int): int { if a <= b then b else a }

  /** Unsigned 64-bit `saturating_add`. */
  function SatAdd(a: nat, b: nat): nat { if a + b <= U64_MAX then a + b else U64_MAX }

  /** Unsigned `saturating_sub`. */
  function SatSub(a: nat, b: nat): nat { if b <= a then a - b else 0 }

  predicate Extends<K, V(==)>(m: map<K, V>, part: map<K, V>) { forall k :: k in part ==> k in m && m[k] == part[k] }

  /** The total of a finite map's values. */
  ghost function Sum<K(!new)>(m: map<K, nat>): nat
    decreases |m|
  {
    if m == map[] then 0 else
      var k :| k in m;
      m[k] + Sum(m - {k})
  }

  lemma {:induction false} SumDrop<K(!new)>(m: map<K, nat>, k: K)
    requires k in m
    ensures Sum(m) == m[k] + Sum(m - {k})
    decreases |m|
  {
    var j :| j in m && Sum(m) == m[j] + Sum(m - {j});
    if j != k {
      SumDrop(m - {j}, k);
      SumDrop(m - {k}, j);
      assert m - {j} - {k} == m - {k} - {j};
    }
  }

  lemma SumPut<K(!new)>(m: map<K, nat>, k: K, v: nat)
    requires k !in m
    ensures Sum(m[k := v]) == Sum(m) + v
  {
    SumDrop(m[k := v], k);
    assert m[k := v] - {k} == m;
  }

  /** A part of a map sums to no more than the whole. */
  lemma {:induction false} SumSubmap<K(!new)>(m: map<K, nat>, n: map<K, nat>)
    requires m.Keys <= n.Keys && forall k :: k in m ==> m[k] <= n[k]
    ensures Sum(m) <= Sum(n)
    decreases |m|
  {
    if m != map[] {
      var k :| k in m;
      SumDrop(m, k);
      SumDrop(n, k);
      SumSubmap(m - {k}, n - {k});
    }
  }

  lemma SumSet<K(!new)>(m: map<K, nat>, k: K, v: nat)
    requires k in m
    ensures Sum(m[k := v]) == Sum(m) - m[k] + v
  {
    SumDrop(m, k);
    SumDrop(m[k := v], k);
    assert m[k := v] - {k} == m - {k};
  }

  lemma SumGrows<K(!new)>(m: map<K, nat>, k: K, was: nat, more: nat)
    requires if k in m then m[k] == was else was == 0
    ensures Sum(m[k := was + more]) == Sum(m) + more
  {
    if k in m { SumSet(m, k, was + more); } else { SumPut(m, k, was + more); }
  }
}
