/** The sum of the numbers a finite map holds. */
module Totals {

  ghost function Total<K>(m: map<K, nat>): nat
    decreases |m|
  {
    if m == map[] then 0
    else
      var k :| k in m;
      RemovedIsSmaller(m, k);
      m[k] + Total(m - {k})
  }

  lemma RemovedIsSmaller<K>(m: map<K, nat>, k: K)
    requires k in m
    ensures |m - {k}| == |m| - 1
  {
    assert m == (m - {k})[k := m[k]];
  }

  /** The order in which keys are taken out does not matter. */
  lemma {:induction false} TotalRemove<K>(m: map<K, nat>, k: K)
    requires k in m
    ensures Total(m) == m[k] + Total(m - {k})
    decreases |m|
  {
    var j :| j in m && Total(m) == m[j] + Total(m - {j});
    if j != k {
      RemovedIsSmaller(m, j);
      RemovedIsSmaller(m, k);
      TotalRemove(m - {j}, k);
      TotalRemove(m - {k}, j);
      assert m - {j} - {k} == m - {k} - {j};
    }
  }

  lemma TotalUpdate<K>(m: map<K, nat>, k: K, n: nat)
    ensures Total(m[k := n]) == Total(m) - (if k in m then m[k] else 0) + n
  {
    TotalRemove(m[k := n], k);
    if k in m {
      TotalRemove(m, k);
      assert m[k := n] - {k} == m - {k};
    } else {
      assert m[k := n] - {k} == m;
    }
  }

  lemma TotalWithout<K>(m: map<K, nat>, rest: map<K, nat>, k: K)
    requires k in m
    requires forall j :: j in rest <==> j in m && j != k
    requires forall j | j in rest :: rest[j] == m[j]
    ensures Total(rest) == Total(m) - m[k]
  {
    TotalRemove(m, k);
    assert rest == m - {k};
  }

  /** A map split in two has the two totals together. */
  lemma {:induction false} TotalSplit<K>(m: map<K, nat>, a: map<K, nat>, b: map<K, nat>)
    requires forall k :: k in m <==> k in a || k in b
    requires forall k | k in a :: k !in b && a[k] == m[k]
    requires forall k | k in b :: b[k] == m[k]
    ensures Total(m) == Total(a) + Total(b)
    decreases |m|
  {
    if m == map[] {
      assert a == map[] && b == map[];
    } else {
      var k :| k in m;
      RemovedIsSmaller(m, k);
      TotalRemove(m, k);
      if k in a {
        TotalRemove(a, k);
        TotalSplit(m - {k}, a - {k}, b);
      } else {
        TotalRemove(b, k);
        TotalSplit(m - {k}, a, b - {k});
      }
    }
  }
}
