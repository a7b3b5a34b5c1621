/** Small pieces every part of the model uses. */
module Common {

  datatype Option<+T> = None | Some(value: T)

  /** The sum of a map's values. */
  ghost function Total<K(!new)>(m: map<K, nat>): nat
    decreases |m|
  {
    if m == map[] then 0
    else
      var k :| k in m;
      m[k] + Total(m - {k})
  }

  lemma {:induction false} TotalWithout<K(!new)>(m: map<K, nat>, k: K)
    requires k in m
    ensures Total(m) == m[k] + Total(m - {k})
    decreases |m|
  {
    var j :| j in m && Total(m) == m[j] + Total(m - {j});
    if j != k {
      TotalWithout(m - {j}, k);
      TotalWithout(m - {k}, j);
      assert m - {j} - {k} == m - {k} - {j};
    }
  }

  /** Setting one entry moves the sum by the difference. */
  lemma TotalUpdate<K(!new)>(m: map<K, nat>, k: K, v: nat)
    ensures Total(m[k := v]) == Total(m) - (if k in m then m[k] else 0) + v
  {
    TotalWithout(m[k := v], k);
    assert m[k := v] - {k} == m - {k};
    if k in m {
      TotalWithout(m, k);
    } else {
      assert m - {k} == m;
    }
  }

  lemma {:induction false} TotalMonotone<K(!new)>(a: map<K, nat>, b: map<K, nat>)
    requires a.Keys <= b.Keys
    requires forall k :: k in a ==> a[k] <= b[k]
    ensures Total(a) <= Total(b)
    decreases |b|
  {
    if b != map[] {
      var k :| k in b;
      TotalWithout(b, k);
      if k in a {
        TotalWithout(a, k);
      } else {
        assert a - {k} == a;
      }
      TotalMonotone(a - {k}, b - {k});
    }
  }

  /** Splitting a map in two splits its sum. */
  lemma {:induction false} TotalSplit<K(!new)>(m: map<K, nat>, part: set<K>)
    requires part <= m.Keys
    ensures Total(m) == Total(m - part) + Total(map k | k in part :: m[k])
    decreases part
  {
    var kept := map k | k in part :: m[k];
    if part == {} {
      assert m - part == m;
      assert kept == map[];
    } else {
      var k :| k in part;
      var rest := part - {k};
      TotalSplit(m, rest);
      TotalWithout(m - rest, k);
      assert m - rest - {k} == m - part;
      TotalWithout(kept, k);
      assert kept - {k} == map j | j in rest :: m[j];
    }
  }

  lemma {:induction false} SubsetSize<T>(a: set<T>, b: set<T>)
    requires a <= b
    ensures |a| <= |b|
  {
    if a != {} {
      var x :| x in a;
      SubsetSize(a - {x}, b - {x});
    }
  }

  /** A set has at least as many elements as different ones were counted. */
  lemma {:induction false} DistinctIn<T>(xs: seq<T>, s: set<T>)
    requires forall i, j :: 0 <= i < j < |xs| ==> xs[i] != xs[j]
    requires forall i :: 0 <= i < |xs| ==> xs[i] in s
    ensures |xs| <= |s|
  {
    if xs != [] {
      var n := |xs| - 1;
      DistinctIn(xs[..n], s - {xs[n]});
    }
  }
}
