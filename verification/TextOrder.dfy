// The order of texts.
module TextOrder {
  // Python's <= on strings
  predicate StringLe(a: string, b: string) {
    a == "" || (b != "" && (a[0] < b[0] || (a[0] == b[0] && StringLe(a[1..], b[1..]))))
  }

  lemma {:induction false} StringLeTotal(a: string, b: string)
    ensures StringLe(a, b) || StringLe(b, a)
    ensures StringLe(a, b) && StringLe(b, a) ==> a == b
    ensures StringLe(a, a)
  {
    if a != "" {
      StringLeTotal(a[1..], a[1..]);
      if b != "" {
        StringLeTotal(a[1..], b[1..]);
        assert a == [a[0]] + a[1..] && b == [b[0]] + b[1..];
      }
    }
  }

  lemma {:induction false} StringLeTransitive(a: string, b: string, c: string)
    requires StringLe(a, b) && StringLe(b, c)
    ensures StringLe(a, c)
  {
    if a != "" && a[0] == b[0] && b[0] == c[0] {
      StringLeTransitive(a[1..], b[1..], c[1..]);
    }
  }

  // Strictly earlier in a dictionary: the texts agree up to some place, where the first one ends or
  // has the smaller character.
  ghost predicate Earlier(a: string, b: string) {
    exists k: nat :: EarlierAt(a, b, k)
  }

  ghost predicate EarlierAt(a: string, b: string, k: nat) {
    k <= |a| && k < |b| && (forall m :: 0 <= m < k ==> a[m] == b[m]) && (k == |a| || a[k] < b[k])
  }

  lemma EarlierOneLater(a: string, b: string, k: nat)
    requires a != "" && b != "" && a[0] == b[0]
    ensures EarlierAt(a, b, k + 1) <==> EarlierAt(a[1..], b[1..], k)
    ensures !EarlierAt(a, b, 0)
  {
    if EarlierAt(a, b, k + 1) {
      forall m | 0 <= m < k ensures a[1..][m] == b[1..][m] {
        assert a[m + 1] == b[m + 1];
      }
    }
    if EarlierAt(a[1..], b[1..], k) {
      forall m | 0 <= m < k + 1 ensures a[m] == b[m] {
        assert m > 0 ==> a[1..][m - 1] == b[1..][m - 1];
      }
    }
  }

  lemma EarlierTail(a: string, b: string)
    requires a != "" && b != "" && a[0] == b[0]
    ensures Earlier(a, b) <==> Earlier(a[1..], b[1..])
  {
    if k: nat :| EarlierAt(a, b, k) {
      EarlierOneLater(a, b, if k > 0 then k - 1 else 0);
    }
    if k: nat :| EarlierAt(a[1..], b[1..], k) {
      EarlierOneLater(a, b, k);
    }
  }

  // The recursion is the dictionary order.
  lemma {:induction false} StringLeMeans(a: string, b: string)
    ensures StringLe(a, b) <==> a == b || Earlier(a, b)
  {
    if a == "" || b == "" {
      assert a == "" && b != "" ==> EarlierAt(a, b, 0);
    } else if a[0] == b[0] {
      StringLeMeans(a[1..], b[1..]);
      EarlierTail(a, b);
      assert a == [a[0]] + a[1..] && b == [b[0]] + b[1..];
    } else {
      assert a[0] < b[0] ==> EarlierAt(a, b, 0);
    }
  }

  lemma EarlierDiffers(a: string)
    ensures !Earlier(a, a)
  {
  }

  // No two different texts are each earlier than the other.
  lemma EarlierIsStrict(a: string, b: string)
    requires Earlier(a, b)
    ensures !Earlier(b, a) && a != b
  {
    StringLeMeans(a, b);
    StringLeMeans(b, a);
    StringLeTotal(a, b);
    EarlierDiffers(a);
  }
}
