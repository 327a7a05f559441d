/** The order of strings: character by character, a proper prefix first. */
module LexOrder {
  predicate Below(a: string, b: string) {
    b != [] && (a == [] || a[0] < b[0] || (a[0] == b[0] && Below(a[1..], b[1..])))
  }

  lemma {:induction false} Irreflexive(a: string)
    ensures !Below(a, a)
  {
    if a != [] {
      Irreflexive(a[1..]);
    }
  }

  lemma {:induction false} Transitive(a: string, b: string, c: string)
    requires Below(a, b) && Below(b, c)
    ensures Below(a, c)
  {
    if a != [] && a[0] == b[0] && b[0] == c[0] {
      Transitive(a[1..], b[1..], c[1..]);
    }
  }

  lemma {:induction false} Total(a: string, b: string)
    ensures Below(a, b) || a == b || Below(b, a)
  {
    if a != [] && b != [] && a[0] == b[0] {
      Total(a[1..], b[1..]);
      assert a == [a[0]] + a[1..] && b == [b[0]] + b[1..];
    }
  }

  lemma Asymmetric(a: string, b: string)
    requires Below(a, b)
    ensures !Below(b, a)
  {
    if Below(b, a) {
      Transitive(a, b, a);
      Irreflexive(a);
    }
  }

  /** Some place after a common start decides: one string ends there, or has the smaller character. */
  lemma {:induction false} FirstDifference(a: string, b: string)
    ensures Below(a, b) <==> exists k: nat :: k < |b| && k <= |a| && DiffersAt(a, b, k)
  {
    if a == [] || b == [] || a[0] != b[0] {
      forall k: nat | k < |b| && k <= |a| && DiffersAt(a, b, k) {
        SameStart(a, b, k);
      }
      assert b != [] ==> a[..0] == b[..0] && (DiffersAt(a, b, 0) <==> a == [] || a[0] < b[0]);
    } else {
      FirstDifference(a[1..], b[1..]);
      if k: nat :| k < |b[1..]| && k <= |a[1..]| && DiffersAt(a[1..], b[1..], k) {
        LaterDifference(a, b, k);
      }
      if k: nat :| k < |b| && k <= |a| && DiffersAt(a, b, k) {
        LaterDifference(a, b, k - 1);
      }
    }
  }

  predicate DiffersAt(a: string, b: string, k: nat)
    requires k < |b| && k <= |a|
  {
    a[..k] == b[..k] && (k == |a| || a[k] < b[k])
  }

  lemma SameStart(a: string, b: string, k: nat)
    requires k < |b| && k <= |a| && DiffersAt(a, b, k)
    ensures k > 0 ==> a[0] == b[0]
  {
    if k > 0 {
      assert a[..k][0] == a[0] && b[..k][0] == b[0];
    }
  }

  lemma LaterDifference(a: string, b: string, k: nat)
    requires a != [] && b != [] && a[0] == b[0] && k < |b| - 1 && k <= |a| - 1
    ensures DiffersAt(a, b, k + 1) <==> DiffersAt(a[1..], b[1..], k)
  {
    assert a[..k + 1] == [a[0]] + a[1..][..k] && b[..k + 1] == [b[0]] + b[1..][..k];
    assert a[..k + 1] == b[..k + 1] ==> a[..k + 1][1..] == b[..k + 1][1..];
    assert a[..k + 1][1..] == a[1..][..k] && b[..k + 1][1..] == b[1..][..k];
  }

  /** Not below is equal or above. */
  lemma NotBelow(a: string, b: string)
    ensures !Below(a, b) <==> a == b || Below(b, a)
  {
    Total(a, b);
    Irreflexive(a);
    if Below(a, b) {
      Asymmetric(a, b);
    }
  }
}
