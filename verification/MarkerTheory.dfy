/**
 Texts with in-band markers. Everything here holds for any family of markers that
 cannot be confused with one another; module Markers shows that the four markers of
 the service are such a family.
 */
module MarkerTheory {
  import opened Text

  const CRLF := "\r\n"

  /** `q`, laid over `p` from index `d` of `p`, disagrees with `p` somewhere. */
  ghost predicate Clash(p: string, q: string, d: nat) {
    exists j: nat :: j < |q| && d + j < |p| && p[d + j] != q[j]
  }

  /** A word that holds no line break and whose last letter is no digit of a status code. */
  ghost predicate Solid(p: string) {
    && |p| >= 5
    && (forall k | 0 <= k < |p| :: p[k] != '\r' && p[k] != '\n')
    && p[|p| - 1] == 'e'
  }

  ghost predicate Family(ms: set<string>) {
    && (forall p | p in ms :: Solid(p))
    && (forall p, q, d: nat | p in ms && q in ms && d < |p| && (d > 0 || p != q) :: Clash(p, q, d))
  }

  /** Occurrences of markers in any text never overlap. */
  lemma MarkersNeverOverlap(ms: set<string>, m: string, p: string, i: nat, q: string, j: nat)
    requires Family(ms) && p in ms && q in ms && OccursAt(m, p, i)
    ensures OccursAt(m, q, j) ==> i + |p| <= j || j + |q| <= i || (i == j && p == q)
  {
    if i <= j < i + |p| && (i < j || p != q) {
      assert Clash(p, q, j - i);
      var k: nat :| k < |q| && j - i + k < |p| && p[j - i + k] != q[k];
      assert m[i + (j - i + k)] == p[j - i + k];
      assert m[j + k] != q[k];
    } else if j < i < j + |q| {
      assert Clash(q, p, i - j);
      var k: nat :| k < |p| && i - j + k < |q| && q[i - j + k] != p[k];
      assert m[i + k] == p[k];
      assert j + |q| <= |m| ==> m[j + (i - j + k)] != q[i - j + k];
    }
  }

  /** No marker of a family that occurs anywhere in `m`. */
  ghost predicate MarkerFree(ms: set<string>, m: string) {
    forall p | p in ms :: !Contains(m, p)
  }

  /** Where a marker can stand in a text that is put together around a marker. */
  lemma OccurrenceAround(ms: set<string>, x: string, p: string, y: string, q: string, i: nat)
    requires Family(ms) && p in ms && q in ms
    requires OccursAt(x + p + y, q, i)
    ensures (i == |x| && q == p) || OccursAt(x, q, i) || (i >= |x| + |p| && OccursAt(y, q, i - |x| - |p|))
  {
    var m := x + p + y;
    assert OccursAt(m, p, |x|);
    MarkersNeverOverlap(ms, m, p, |x|, q, i);
    if i + |q| <= |x| {
      forall k | 0 <= k < |q| ensures x[i + k] == q[k] {
        assert m[i + k] == q[k];
      }
    } else if i >= |x| + |p| {
      forall k | 0 <= k < |q| ensures y[i - |x| - |p| + k] == q[k] {
        assert m[i + k] == q[k];
      }
    }
  }
}
