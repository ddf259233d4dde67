/**
 `removeEscapeSequencesTender`: for each escaped marker, erase the line break behind
 its first occurrence. Proved for any family of markers.
 */
module Stripping {
  import opened Text
  import opened MarkerTheory
  import opened Folding

  /** `m.erase(pos, n)` for a position inside the text. */
  function Erase(m: Text, pos: Size, n: Size): Text
    requires pos <= |m|
  {
    if n <= |m| - pos then m[..pos] + m[pos + n..] else m[..pos]
  }

  /** What a pass looks for: at least as long as the line break it ends with. */
  type Pattern = e: string | 2 <= |e| <= MAX_SIZE witness CRLF

  /** One pass of the loop: the line break behind the first occurrence of `pattern` is erased. */
  function StripPattern(m: Text, pattern: Pattern): Text {
    var begin := Find(m, pattern);
    if begin == NPOS then m
    else Erase(m, Minus(Plus(begin, |pattern|), |CRLF|), |CRLF|)
  }

  /** All the passes, first to last. */
  function StripAll(m: Text, patterns: seq<Pattern>): Text {
    Fold(StripPattern, m, patterns)
  }

  /** The loop over the patterns, erasing in place. */
  method StripEach(s: Text, patterns: seq<Pattern>) returns (m: Text)
    ensures m == StripAll(s, patterns)
  {
    m := s;
    for i := 0 to |patterns|
      invariant m == StripAll(s, patterns[..i])
    {
      var pattern := patterns[i];
      assert patterns[..i + 1] == patterns[..i] + [pattern];
      FoldLast(StripPattern, s, patterns[..i], pattern);
      var begin := Find(m, pattern);
      if begin == NPOS {
        continue;
      }
      var beginBreak := Minus(Plus(begin, |pattern|), |CRLF|);
      m := Erase(m, beginBreak, |CRLF|);
    }
    assert patterns[..|patterns|] == patterns;
  }

  ghost predicate EscapedMarkers(ms: set<string>, es: seq<Pattern>) {
    forall e | e in es :: EscapedMarker(ms, e)
  }

  ghost predicate EscapedMarker(ms: set<string>, e: string) {
    exists p :: p in ms && e == p + CRLF
  }

  /** `m` without the two letters at index `e`. */
  function Cut(m: string, e: nat): string
    requires e + 2 <= |m|
  {
    m[..e] + m[e + 2..]
  }

  /** At index `e` of `m` stands a line break, and right before it the marker `p`. */
  predicate BreakAfter(m: string, p: string, e: nat) {
    && |p| <= e && OccursAt(m, p, e - |p|)
    && e + 2 <= |m| && m[e] == '\r' && m[e + 1] == '\n'
  }

  lemma EscapedOccurrence(m: string, p: string, i: nat)
    ensures OccursAt(m, p + CRLF, i) <==> BreakAfter(m, p, i + |p|)
  {
    if OccursAt(m, p + CRLF, i) {
      forall k | 0 <= k < |p| ensures m[i + k] == p[k] {
        assert m[i + k] == (p + CRLF)[k];
      }
      assert m[i + |p|] == (p + CRLF)[|p|];
      assert m[i + (|p| + 1)] == (p + CRLF)[|p| + 1];
    }
  }

  /** A line break behind a marker touches no occurrence of a marker. */
  lemma BreakOutsideMarkers(ms: set<string>, m: string, p: string, e: nat, q: string, i: nat)
    requires Family(ms) && p in ms && q in ms && BreakAfter(m, p, e)
    ensures OccursAt(m, q, i) ==> i + |q| <= e || e + 2 <= i
  {
    assert Solid(q);
    if i <= e < i + |q| {
      assert q[e - i] != '\r';
      assert i + |q| <= |m| ==> m[i + (e - i)] != q[e - i];
    } else if i == e + 1 {
      assert q[0] != '\n';
      assert i + |q| <= |m| ==> m[i + 0] != q[0];
    }
  }

  /** Erasing such a line break neither creates nor destroys an occurrence of a marker; it only moves the later ones. */
  lemma CutMovesMarkers(ms: set<string>, m: string, p: string, e: nat, q: string, i: nat)
    requires Family(ms) && p in ms && q in ms && BreakAfter(m, p, e)
    ensures OccursAt(Cut(m, e), q, i) <==>
            (i + |q| <= e && OccursAt(m, q, i)) || (e <= i && OccursAt(m, q, i + 2))
  {
    var c := Cut(m, e);
    forall k | 0 <= k < |p| ensures c[e - |p| + k] == p[k] {
      assert m[e - |p| + k] == p[k];
    }
    MarkersNeverOverlap(ms, c, p, e - |p|, q, i);
    if i + |q| <= e {
      assert forall k | 0 <= k < |q| :: c[i + k] == q[k] <==> m[i + k] == q[k];
    } else if e <= i && i + |q| <= |c| {
      assert forall k | 0 <= k < |q| :: c[i + k] == q[k] <==> m[i + 2 + k] == q[k];
    }
  }

  /** The same for another marker together with the line break behind it. */
  lemma CutMovesBreaks(ms: set<string>, m: string, p: string, e: nat, q: string, f: nat)
    requires Family(ms) && p in ms && q in ms && p != q && BreakAfter(m, p, e)
    ensures BreakAfter(Cut(m, e), q, f) <==>
            (f + 2 <= e && BreakAfter(m, q, f)) || (e <= f && BreakAfter(m, q, f + 2))
    ensures BreakAfter(m, q, f) ==> f + 2 <= e || e + 2 <= f
  {
    assert Solid(p) && Solid(q);
    assert m[e - 1] == 'e' by { assert m[e - |p| + (|p| - 1)] == p[|p| - 1]; }
    if |q| <= f {
      CutMovesMarkers(ms, m, p, e, q, f - |q|);
      BreakOutsideMarkers(ms, m, p, e, q, f - |q|);
      MarkersNeverOverlap(ms, m, p, e - |p|, q, f - |q|);
    }
    if |q| <= f + 2 {
      BreakOutsideMarkers(ms, m, p, e, q, f + 2 - |q|);
    }
  }

  ghost predicate FirstBreak(m: string, p: string, e: nat) {
    BreakAfter(m, p, e) && forall f: nat | BreakAfter(m, p, f) :: e <= f
  }

  ghost predicate NoBreak(m: string, p: string) {
    forall e: nat :: !BreakAfter(m, p, e)
  }

  lemma BreaksAreEscapedMarkers(m: string, p: string)
    ensures Contains(m, p + CRLF) <==> !NoBreak(m, p)
  {
    if i: nat :| OccursAt(m, p + CRLF, i) {
      EscapedOccurrence(m, p, i);
    } else {
      forall e: nat ensures !BreakAfter(m, p, e) {
        if |p| <= e {
          EscapedOccurrence(m, p, e - |p|);
        }
      }
    }
  }

  lemma FirstOccurrenceIsFirstBreak(m: string, p: string, i: nat)
    requires OccursAt(m, p + CRLF, i) && forall j: nat | OccursAt(m, p + CRLF, j) :: i <= j
    ensures FirstBreak(m, p, i + |p|)
  {
    EscapedOccurrence(m, p, i);
    forall f: nat | BreakAfter(m, p, f) ensures i + |p| <= f {
      EscapedOccurrence(m, p, f - |p|);
    }
  }

  /** One pass cuts at the first break behind the marker, and does nothing where there is none. */
  lemma StripMeaning(m: Text, p: string) returns (e: nat)
    requires |p + CRLF| <= MAX_SIZE
    ensures Contains(m, p + CRLF) <==> !NoBreak(m, p)
    ensures NoBreak(m, p) ==> StripPattern(m, p + CRLF) == m
    ensures !NoBreak(m, p) ==> FirstBreak(m, p, e) && StripPattern(m, p + CRLF) == Cut(m, e)
  {
    BreaksAreEscapedMarkers(m, p);
    var begin := Find(m, p + CRLF);
    e := begin + |p|;
    if begin != NPOS {
      FirstOccurrenceIsFirstBreak(m, p, begin);
    }
  }

  lemma FirstBreakMoves(ms: set<string>, m: string, p: string, e: nat, q: string, f: nat)
    requires Family(ms) && p in ms && q in ms && p != q
    requires BreakAfter(m, p, e) && FirstBreak(m, q, f)
    ensures f + 2 <= e || e + 2 <= f
    ensures FirstBreak(Cut(m, e), q, if f < e then f else f - 2)
  {
    CutMovesBreaks(ms, m, p, e, q, f);
    var f' := if f < e then f else f - 2;
    CutMovesBreaks(ms, m, p, e, q, f');
    forall g: nat | BreakAfter(Cut(m, e), q, g) ensures f' <= g {
      CutMovesBreaks(ms, m, p, e, q, g);
    }
  }

  lemma NoBreakMoves(ms: set<string>, m: string, p: string, e: nat, q: string)
    requires Family(ms) && p in ms && q in ms && p != q && BreakAfter(m, p, e)
    ensures NoBreak(Cut(m, e), q) <==> NoBreak(m, q)
  {
    if f: nat :| BreakAfter(m, q, f) {
      CutMovesBreaks(ms, m, p, e, q, f);
      CutMovesBreaks(ms, m, p, e, q, if f < e then f else f - 2);
    } else {
      forall g: nat ensures !BreakAfter(Cut(m, e), q, g) {
        CutMovesBreaks(ms, m, p, e, q, g);
      }
    }
  }

  /** A pass for one marker leaves the other markers' escaped occurrences as they were. */
  lemma StripKeepsOtherBreaks(ms: set<string>, m: Text, p: string, q: string)
    requires Family(ms) && p in ms && q in ms && p != q && |p + CRLF| <= MAX_SIZE
    ensures NoBreak(StripPattern(m, p + CRLF), q) <==> NoBreak(m, q)
  {
    var e := StripMeaning(m, p);
    if !NoBreak(m, p) {
      NoBreakMoves(ms, m, p, e, q);
    }
  }

  lemma CutsCommute(m: string, e: nat, f: nat)
    requires e + 2 <= f && f + 2 <= |m|
    ensures Cut(Cut(m, e), f - 2) == Cut(Cut(m, f), e)
  {
  }

  lemma StripAt(m: Text, p: string, e: nat)
    requires |p + CRLF| <= MAX_SIZE && FirstBreak(m, p, e)
    ensures StripPattern(m, p + CRLF) == Cut(m, e)
  {
    var e' := StripMeaning(m, p);
  }

  lemma StripTwice(ms: set<string>, m: Text, p: string, e: nat, q: string, f: nat)
    requires Family(ms) && p in ms && q in ms && |p + CRLF| <= MAX_SIZE && |q + CRLF| <= MAX_SIZE && p != q
    requires FirstBreak(m, p, e) && FirstBreak(m, q, f)
    ensures f + 2 <= e || e + 2 <= f
    ensures StripPattern(StripPattern(m, p + CRLF), q + CRLF) == Cut(Cut(m, e), if f < e then f else f - 2)
  {
    FirstBreakMoves(ms, m, p, e, q, f);
    StripAt(m, p, e);
    StripAt(Cut(m, e), q, if f < e then f else f - 2);
  }

  /** Two passes can be exchanged. */
  lemma PassesCommute(ms: set<string>, m: Text, p: string, q: string)
    requires Family(ms) && p in ms && q in ms && |p + CRLF| <= MAX_SIZE && |q + CRLF| <= MAX_SIZE
    ensures StripPattern(StripPattern(m, p + CRLF), q + CRLF) == StripPattern(StripPattern(m, q + CRLF), p + CRLF)
  {
    if p == q {
      return;
    }
    var e := StripMeaning(m, p);
    var f := StripMeaning(m, q);
    if NoBreak(m, p) {
      StripKeepsOtherBreaks(ms, m, q, p);
      var _ := StripMeaning(StripPattern(m, q + CRLF), p);
    } else if NoBreak(m, q) {
      StripKeepsOtherBreaks(ms, m, p, q);
      var _ := StripMeaning(StripPattern(m, p + CRLF), q);
    } else {
      StripTwice(ms, m, p, e, q, f);
      StripTwice(ms, m, q, f, p, e);
      if e < f {
        CutsCommute(m, e, f);
      } else {
        CutsCommute(m, f, e);
      }
    }
  }

  /** The passes can be made in any order. */
  lemma StripOrderIsFree(ms: set<string>, m: Text, es: seq<Pattern>, fs: seq<Pattern>)
    requires Family(ms) && EscapedMarkers(ms, es) && multiset(es) == multiset(fs)
    ensures StripAll(m, es) == StripAll(m, fs)
  {
    forall t: Text, x: Pattern, y: Pattern | x in fs && y in fs
      ensures StripPattern(StripPattern(t, x), y) == StripPattern(StripPattern(t, y), x)
    {
      assert x in multiset(fs) && y in multiset(fs) && x in es && y in es;
      var p :| p in ms && x == p + CRLF;
      var q :| q in ms && y == q + CRLF;
      PassesCommute(ms, t, p, q);
    }
    OrderIsFree(StripPattern, m, es, fs);
  }

  /** How many of the patterns occur in `m`. */
  ghost function Occurring(m: string, es: seq<Pattern>): nat {
    if es == [] then 0
    else Occurring(m, es[..|es| - 1]) + if Contains(m, es[|es| - 1]) then 1 else 0
  }

  lemma {:induction false} StripAllKeepsOthers(ms: set<string>, m: Text, es: seq<Pattern>, e: Pattern)
    requires Family(ms) && EscapedMarkers(ms, es) && EscapedMarker(ms, e) && e !in es
    ensures Contains(StripAll(m, es), e) <==> Contains(m, e)
  {
    if es != [] {
      var es', x := es[..|es| - 1], es[|es| - 1];
      StripAllKeepsOthers(ms, m, es', e);
      assert x in es;
      var p :| p in ms && x == p + CRLF;
      var q :| q in ms && e == q + CRLF;
      var m' := StripAll(m, es');
      StripKeepsOtherBreaks(ms, m', p, q);
      var _ := StripMeaning(m', q);
      var _ := StripMeaning(StripPattern(m', x), q);
    }
  }

  /** Each pattern that occurs in the original costs exactly one line break. */
  lemma {:induction false} StripLength(ms: set<string>, m: Text, es: seq<Pattern>)
    requires Family(ms) && EscapedMarkers(ms, es) && Distinct(es)
    ensures |StripAll(m, es)| == |m| - 2 * Occurring(m, es)
  {
    if es != [] {
      var es', x := es[..|es| - 1], es[|es| - 1];
      StripLength(ms, m, es');
      StripAllKeepsOthers(ms, m, es', x);
      var p :| p in ms && x == p + CRLF;
      var e := StripMeaning(StripAll(m, es'), p);
    }
  }

  /** A pass neither creates nor destroys a marker. */
  lemma StripKeepsMarkers(ms: set<string>, m: Text, p: string, q: string)
    requires Family(ms) && p in ms && q in ms && |p + CRLF| <= MAX_SIZE
    ensures Contains(StripPattern(m, p + CRLF), q) <==> Contains(m, q)
  {
    var e := StripMeaning(m, p);
    if !NoBreak(m, p) {
      if i: nat :| OccursAt(m, q, i) {
        BreakOutsideMarkers(ms, m, p, e, q, i);
        CutMovesMarkers(ms, m, p, e, q, if i < e then i else i - 2);
      } else {
        forall i: nat ensures !OccursAt(Cut(m, e), q, i) {
          CutMovesMarkers(ms, m, p, e, q, i);
        }
      }
    }
  }

  /** An occurrence of a marker in what the passes leave comes from one that stood further on, by at most one line
      break a pass. */
  lemma {:induction false} ComesFrom(ms: set<string>, m: Text, es: seq<Pattern>, q: string, i: nat) returns (j: nat)
    requires Family(ms) && EscapedMarkers(ms, es) && q in ms && OccursAt(StripAll(m, es), q, i)
    ensures OccursAt(m, q, j) && i <= j <= i + 2 * |es|
  {
    j := i;
    if es != [] {
      var es', x := es[..|es| - 1], es[|es| - 1];
      var m' := StripAll(m, es');
      assert x in es && StripAll(m, es) == StripPattern(m', x);
      var p :| p in ms && x == p + CRLF;
      var e := StripMeaning(m', p);
      if !NoBreak(m', p) {
        CutMovesMarkers(ms, m', p, e, q, i);
      }
      j := ComesFrom(ms, m, es', q, if OccursAt(m', q, i) then i else i + 2);
    }
  }

  /** The shape of the suffixes by which the `timeout` utility reports its status. */
  predicate StatusSuffix(c: string) {
    && |c| == 5 && c[4] == '\n' && c[2] != 'e'
    && forall k | 0 <= k < 4 :: c[k] != '\n' && c[k] != 'e'
  }

  lemma CutKeepsStatus(m: string, p: string, e: nat, c: string)
    requires Solid(p) && BreakAfter(m, p, e) && StatusSuffix(c)
    ensures EndsWith(Cut(m, e), c) <==> EndsWith(m, c)
  {
    var s := Cut(m, e);
    assert s[e - 1] == m[e - 1] == 'e' by { assert m[e - |p| + (|p| - 1)] == p[|p| - 1]; }
    if e + 7 <= |m| {
      assert forall k | 0 <= k < 5 :: s[|s| - 5 + k] == c[k] <==> m[|m| - 5 + k] == c[k];
    } else {
      assert s[|s| - 5 + (e + 4 - |s|)] != c[e + 4 - |s|];
      if e + 2 < |m| {
        assert m[|m| - 5 + (e + 6 - |m|)] != c[e + 6 - |m|];
      } else {
        assert m[|m| - 5 + 2] != c[2];
      }
    }
  }

  /** A pass neither creates nor destroys a status suffix. */
  lemma StripKeepsStatus(ms: set<string>, m: Text, p: string, c: string)
    requires Family(ms) && p in ms && |p + CRLF| <= MAX_SIZE && StatusSuffix(c)
    ensures EndsWith(StripPattern(m, p + CRLF), c) <==> EndsWith(m, c)
  {
    var e := StripMeaning(m, p);
    if !NoBreak(m, p) {
      CutKeepsStatus(m, p, e, c);
    }
  }

  /** What `getExitCode` looks at, markers and status suffixes, survives all the passes. */
  lemma {:induction false} StripAllKeepsVerdict(ms: set<string>, m: Text, es: seq<Pattern>, q: string, c: string)
    requires Family(ms) && EscapedMarkers(ms, es) && q in ms && StatusSuffix(c)
    ensures Contains(StripAll(m, es), q) <==> Contains(m, q)
    ensures EndsWith(StripAll(m, es), c) <==> EndsWith(m, c)
  {
    if es != [] {
      var es', x := es[..|es| - 1], es[|es| - 1];
      StripAllKeepsVerdict(ms, m, es', q, c);
      assert x in es;
      var p :| p in ms && x == p + CRLF;
      StripKeepsMarkers(ms, StripAll(m, es'), p, q);
      StripKeepsStatus(ms, StripAll(m, es'), p, c);
    }
  }
}
