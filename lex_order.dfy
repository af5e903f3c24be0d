/**
 * JavaScript's relational operators on two strings (`a < b`, `b > a`) compare
 * them lexicographically, element by element: the first position where they
 * differ decides, and a proper prefix is smaller than the longer string.
 * Dafny's own `<` on sequences means "proper prefix", so the order is written
 * out here. Characters are compared by Dafny's `char` order, the order of
 * Unicode scalar values. JavaScript compares UTF-16 code units instead; the
 * two orders agree below U+FFFF and can differ for characters above it.
 */
module LexOrder {

  /** `a < b` in JavaScript, equivalently `b > a`. */
  predicate Less(a: string, b: string)
  {
    if |a| == 0 then |b| > 0
    else if |b| == 0 then false
    else a[0] < b[0] || (a[0] == b[0] && Less(a[1..], b[1..]))
  }

  /** `a` and `b` agree on their first `k` characters and `a` is smaller right there. */
  ghost predicate LessAt(a: string, b: string, k: nat)
  {
    k <= |a| && k <= |b| && a[..k] == b[..k] &&
    ((k == |a| && k < |b|) || (k < |a| && k < |b| && a[k] < b[k]))
  }

  /** The textbook definition: a common prefix followed by a smaller character or by the end of `a`. */
  ghost predicate LessByPrefix(a: string, b: string)
  {
    exists k: nat :: LessAt(a, b, k)
  }

  lemma LessAtShift(a: string, b: string, k: nat)
    requires |a| > 0 && |b| > 0 && a[0] == b[0]
    ensures LessAt(a, b, k + 1) <==> LessAt(a[1..], b[1..], k)
  {
    if k + 1 <= |a| && k + 1 <= |b| {
      assert a[..k + 1] == [a[0]] + a[1..][..k];
      assert b[..k + 1] == [b[0]] + b[1..][..k];
    }
  }

  /** One step of the comparison, on the suffixes that start at position `k`. */
  lemma LessStep(a: string, b: string, k: nat)
    requires k < |a| && k < |b|
    ensures Less(a[k..], b[k..]) <==> a[k] < b[k] || (a[k] == b[k] && Less(a[k + 1..], b[k + 1..]))
  {
    assert a[k..][1..] == a[k + 1..];
    assert b[k..][1..] == b[k + 1..];
  }

  /** The recursive comparison is exactly the prefix definition. */
  lemma {:induction false} LessIsLexicographic(a: string, b: string)
    ensures Less(a, b) <==> LessByPrefix(a, b)
    decreases |a|
  {
    if |a| == 0 {
      if |b| > 0 {
        assert LessAt(a, b, 0);
      }
    } else if |b| == 0 {
      forall k: nat ensures !LessAt(a, b, k) { }
    } else if a[0] < b[0] {
      assert LessAt(a, b, 0);
    } else if a[0] == b[0] {
      LessIsLexicographic(a[1..], b[1..]);
      if Less(a, b) {
        var k: nat :| LessAt(a[1..], b[1..], k);
        LessAtShift(a, b, k);
      } else {
        forall k: nat ensures !LessAt(a, b, k) {
          if k > 0 {
            LessAtShift(a, b, k - 1);
          }
        }
      }
    } else {
      forall k: nat ensures !LessAt(a, b, k) {
        if 0 < k <= |a| && k <= |b| {
          assert a[..k][0] != b[..k][0];
        }
      }
    }
  }

  /** No string is greater than itself, so `x > x` is false in JavaScript. */
  lemma {:induction false} LessIrreflexive(a: string)
    ensures !Less(a, a)
    decreases |a|
  {
    if |a| > 0 {
      LessIrreflexive(a[1..]);
    }
  }

  /** Any two strings are equal or ordered one way, and never both ways. */
  lemma {:induction false} LessTrichotomous(a: string, b: string)
    ensures a == b || Less(a, b) || Less(b, a)
    ensures !(Less(a, b) && Less(b, a))
    decreases |a|
  {
    if |a| > 0 && |b| > 0 && a[0] == b[0] {
      LessTrichotomous(a[1..], b[1..]);
      if a[1..] == b[1..] {
        assert a == [a[0]] + a[1..] && b == [b[0]] + b[1..];
      }
    }
  }

  /** The order is transitive: `a < b` and `b < c` give `a < c`. */
  lemma {:induction false} LessTransitive(a: string, b: string, c: string)
    requires Less(a, b) && Less(b, c)
    ensures Less(a, c)
    decreases |a|
  {
    if |a| > 0 && a[0] == b[0] && b[0] == c[0] {
      LessTransitive(a[1..], b[1..], c[1..]);
    }
  }
}
