/** JavaScript's `<` on strings: lexicographic by code unit. */
module TextOrder {
  predicate Before(a: string, b: string) {
    b != [] && (a == [] || a[0] < b[0] || (a[0] == b[0] && Before(a[1..], b[1..])))
  }

  lemma {:induction false} BeforeIrreflexive(a: string)
    ensures !Before(a, a)
  {
    if a != [] {
      BeforeIrreflexive(a[1..]);
    }
  }

  lemma {:induction false} BeforeTransitive(a: string, b: string, c: string)
    requires Before(a, b) && Before(b, c)
    ensures Before(a, c)
  {
    if a != [] && a[0] == b[0] == c[0] {
      BeforeTransitive(a[1..], b[1..], c[1..]);
    }
  }

  /** Two texts that neither precedes are the same text. */
  lemma {:induction false} BeforeTotal(a: string, b: string)
    ensures Before(a, b) || a == b || Before(b, a)
  {
    if a != [] && b != [] && a[0] == b[0] {
      BeforeTotal(a[1..], b[1..]);
      assert a == [a[0]] + a[1..] && b == [b[0]] + b[1..];
    }
  }

  /** What it comes to: the first code units that differ decide, and a proper beginning comes first. */
  lemma {:induction false} BeforeSays(a: string, b: string)
    ensures Before(a, b) <==> exists k :: DecidedAt(a, b, k)
  {
    if a == [] || b == [] || a[0] != b[0] {
      assert DecidedAt(a, b, 0) <==> b != [] && (a == [] || a[0] < b[0]);
      assert forall k :: 0 < k <= |a| && k <= |b| ==> a[..k][0] == a[0] && b[..k][0] == b[0];
    } else {
      BeforeSays(a[1..], b[1..]);
      if k :| DecidedAt(a, b, k) {
        DecidedLater(a, b, k - 1);
        assert DecidedAt(a[1..], b[1..], k - 1);
      }
      if k :| DecidedAt(a[1..], b[1..], k) {
        DecidedLater(a, b, k);
        assert DecidedAt(a, b, k + 1);
      }
      hide DecidedAt;
    }
  }

  predicate DecidedAt(a: string, b: string, k: int) {
    0 <= k <= |a| && k < |b| && a[..k] == b[..k] && (k == |a| || a[k] < b[k])
  }

  lemma DecidedLater(a: string, b: string, k: int)
    requires a != [] && b != [] && a[0] == b[0]
    ensures DecidedAt(a, b, k + 1) <==> DecidedAt(a[1..], b[1..], k)
  {
    if 0 <= k < |a| && k < |b| {
      assert a[..k + 1] == [a[0]] + a[1..][..k] && b[..k + 1] == [b[0]] + b[1..][..k];
      assert a[1..][..k] == a[..k + 1][1..] && b[1..][..k] == b[..k + 1][1..];
    }
  }
}
