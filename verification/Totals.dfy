/** Sums of real-valued maps, independent of the order in which keys are visited. */
module Totals {
  import opened Market

  ghost function Total(m: map<Symbol, real>): real
    decreases |m.Keys|
  {
    if m.Keys == {} then 0.0 else
      var k :| k in m.Keys;
      m[k] + Total(m - {k})
  }

  /** Any key may be the one that is peeled off. */
  lemma {:induction false} TotalPeel(m: map<Symbol, real>, k: Symbol)
    requires k in m
    ensures Total(m) == m[k] + Total(m - {k})
    decreases |m.Keys|
  {
    var j :| j in m.Keys && Total(m) == m[j] + Total(m - {j});
    if j != k {
      TotalPeel(m - {j}, k);
      TotalPeel(m - {k}, j);
      assert m - {j} - {k} == m - {k} - {j};
    }
  }

  /** Writing one key changes the total by the difference at that key. */
  lemma TotalWrite(m: map<Symbol, real>, k: Symbol, v: real)
    ensures Total(m[k := v]) == Total(m) - (if k in m then m[k] else 0.0) + v
  {
    TotalPeel(m[k := v], k);
    if k in m {
      TotalPeel(m, k);
      assert m[k := v] - {k} == m - {k};
    } else {
      assert m[k := v] - {k} == m;
    }
  }

  /** Removing one key takes its value out of the total. */
  lemma TotalRemove(m: map<Symbol, real>, k: Symbol)
    ensures Total(m - {k}) == Total(m) - (if k in m then m[k] else 0.0)
  {
    if k in m {
      TotalPeel(m, k);
    } else {
      assert m - {k} == m;
    }
  }

  /** A map that is the pointwise sum of two others totals to the sum of their totals. */
  lemma {:induction false} TotalAdd(m: map<Symbol, real>, a: map<Symbol, real>, b: map<Symbol, real>)
    requires m.Keys == a.Keys == b.Keys
    requires forall k :: k in m ==> m[k] == a[k] + b[k]
    ensures Total(m) == Total(a) + Total(b)
    decreases |m.Keys|
  {
    if m.Keys != {} {
      var k :| k in m.Keys;
      TotalPeel(m, k);
      TotalPeel(a, k);
      TotalPeel(b, k);
      TotalAdd(m - {k}, a - {k}, b - {k});
    }
  }
}
