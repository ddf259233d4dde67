/** Applying a list of updates that commute with one another. */
module Folding {
  function Fold<S, E>(f: (S, E) -> S, s: S, es: seq<E>): S {
    if es == [] then s else f(Fold(f, s, es[..|es| - 1]), es[|es| - 1])
  }

  ghost predicate Commute<S(!new), E>(f: (S, E) -> S, es: seq<E>) {
    forall s, x, y | x in es && y in es :: f(f(s, x), y) == f(f(s, y), x)
  }

  lemma FoldLast<S, E>(f: (S, E) -> S, s: S, es: seq<E>, x: E)
    ensures Fold(f, s, es + [x]) == f(Fold(f, s, es), x)
  {
  }

  lemma {:induction false} MovesLast<S(!new), E>(f: (S, E) -> S, s: S, a: seq<E>, e: E, b: seq<E>)
    requires Commute(f, a + [e] + b)
    ensures Fold(f, s, a + [e] + b) == Fold(f, s, a + b + [e])
  {
    if b == [] {
      assert a + [e] + b == a + b + [e];
    } else {
      var b', x := b[..|b| - 1], b[|b| - 1];
      assert a + [e] + b == a + [e] + b' + [x];
      assert a + b + [e] == a + b' + [x] + [e];
      assert e in a + [e] + b && x in a + [e] + b;
      MovesLast(f, s, a, e, b');
      FoldLast(f, s, a + [e] + b', x);
      FoldLast(f, s, a + b', e);
      FoldLast(f, s, a + b', x);
      FoldLast(f, s, a + b' + [x], e);
    }
  }

  lemma Pick<E>(fs: seq<E>, e: E) returns (a: seq<E>, b: seq<E>)
    requires e in fs
    ensures fs == a + [e] + b
    ensures multiset(a + b) == multiset(fs) - multiset{e}
  {
    var k :| 0 <= k < |fs| && fs[k] == e;
    a, b := fs[..k], fs[k + 1..];
    assert fs == a + [e] + b;
  }

  lemma WithoutLast<E>(es: seq<E>)
    requires es != []
    ensures multiset(es[..|es| - 1]) == multiset(es) - multiset{es[|es| - 1]}
  {
    assert es == es[..|es| - 1] + [es[|es| - 1]];
  }

  /** The order of commuting updates does not matter. */
  lemma {:induction false} OrderIsFree<S(!new), E>(f: (S, E) -> S, s: S, es: seq<E>, fs: seq<E>)
    requires multiset(es) == multiset(fs) && Commute(f, fs)
    ensures Fold(f, s, es) == Fold(f, s, fs)
    decreases |es|
  {
    if es == [] {
      assert |multiset(fs)| == 0;
    } else {
      var e := es[|es| - 1];
      assert e in multiset(fs);
      var a, b := Pick(fs, e);
      WithoutLast(es);
      MovesLast(f, s, a, e, b);
      FoldLast(f, s, a + b, e);
      OrderIsFree(f, s, es[..|es| - 1], a + b);
    }
  }

  lemma {:induction false} FoldAppend<S, E>(f: (S, E) -> S, s: S, es: seq<E>, fs: seq<E>)
    ensures Fold(f, s, es + fs) == Fold(f, Fold(f, s, es), fs)
  {
    if fs == [] {
      assert es + fs == es;
    } else {
      var fs', x := fs[..|fs| - 1], fs[|fs| - 1];
      FoldAppend(f, s, es, fs');
      FoldLast(f, s, es + fs', x);
      assert es + fs == es + fs' + [x];
    }
  }

  ghost predicate Distinct<E>(es: seq<E>) {
    forall i, j | 0 <= i < j < |es| :: es[i] != es[j]
  }

  /** A list without repetition, one of its elements moved to the front. */
  lemma ToFront<E>(es: seq<E>, x: E) returns (rest: seq<E>)
    requires x in es && Distinct(es)
    ensures multiset([x] + rest) == multiset(es) && Distinct(rest) && x !in rest
    ensures forall y :: y in rest <==> y in es && y != x
  {
    var a, b := Pick(es, x);
    rest := a + b;
    assert es[|a|] == x;
    forall y ensures y in rest <==> y in es && y != x {
      if y in es {
        var i :| 0 <= i < |es| && es[i] == y;
        assert i < |a| ==> y == a[i];
        assert i > |a| ==> y == b[i - |a| - 1];
      }
      if i :| 0 <= i < |rest| && rest[i] == y {
        assert y == if i < |a| then es[i] else es[i + 1];
      }
    }
    forall i, j | 0 <= i < j < |rest| ensures rest[i] != rest[j] {
      assert rest[i] == (if i < |a| then es[i] else es[i + 1]) && rest[j] == if j < |a| then es[j] else es[j + 1];
    }
  }
}
