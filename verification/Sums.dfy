// Sums over finite maps.
module Sums {
  ghost function Total(m: map<string, nat>): nat {
    if m == map[] then 0
    else
      var k :| k in m;
      m[k] + Total(m - {k})
  }

  lemma {:induction false} TotalWithout(m: map<string, nat>, k: string)
    requires k in m
    ensures Total(m) == m[k] + Total(m - {k})
  {
    var first :| first in m && Total(m) == m[first] + Total(m - {first});
    if first != k {
      TotalWithout(m - {first}, k);
      TotalWithout(m - {k}, first);
      assert m - {first} - {k} == m - {k} - {first};
    }
  }

  lemma TotalWith(m: map<string, nat>, k: string, n: nat)
    requires k !in m
    ensures Total(m[k := n]) == Total(m) + n && |m[k := n]| == |m| + 1
  {
    TotalWithout(m[k := n], k);
    assert m[k := n] - {k} == m;
  }

  // Something smaller in every place is smaller in sum.
  lemma {:induction false} TotalOfPart(part: map<string, nat>, whole: map<string, nat>)
    requires forall k :: k in part ==> k in whole && part[k] <= whole[k]
    ensures Total(part) <= Total(whole) && |part| <= |whole|
  {
    if k :| k in part {
      TotalWithout(part, k);
      TotalWithout(whole, k);
      TotalOfPart(part - {k}, whole - {k});
    }
  }

  function Raised(m: map<string, nat>, step: nat): map<string, nat> {
    map k | k in m :: m[k] + step
  }

  lemma RaisedWithout(m: map<string, nat>, k: string, step: nat)
    requires k in m
    ensures Raised(m, step) - {k} == Raised(m - {k}, step) && |m - {k}| + 1 == |m|
  {
    assert m.Keys == (m - {k}).Keys + {k} && |(m - {k}).Keys| == |m - {k}|;
  }

  lemma OneMoreStep(n: nat, step: nat)
    ensures (n + 1) * step == n * step + step
  {
  }

  // Raising every place raises the sum by as much for each.
  lemma {:induction false} TotalRaised(m: map<string, nat>, step: nat)
    ensures Total(Raised(m, step)) == Total(m) + |m| * step
  {
    if k :| k in m {
      var rest := m - {k};
      TotalWithout(m, k);
      TotalWithout(Raised(m, step), k);
      RaisedWithout(m, k, step);
      TotalRaised(rest, step);
      OneMoreStep(|rest|, step);
    } else {
      assert m == map[] && Raised(m, step) == map[];
    }
  }

  lemma {:induction false} TotalOfUnion(union: map<string, nat>, a: map<string, nat>, b: map<string, nat>)
    requires forall k :: k in union ==> (k in a && union[k] <= a[k]) || (k in b && union[k] <= b[k])
    ensures Total(union) <= Total(a) + Total(b) && |union| <= |a| + |b|
  {
    if k :| k in union {
      TotalWithout(union, k);
      if k in a && union[k] <= a[k] {
        TotalWithout(a, k);
        TotalOfUnion(union - {k}, a - {k}, b);
      } else {
        TotalWithout(b, k);
        TotalOfUnion(union - {k}, a, b - {k});
      }
    }
  }
}
