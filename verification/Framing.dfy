/** Texts put together around markers, and what the passes of module Stripping leave of them. */
module Framing {
  import opened Text
  import opened Folding
  import opened MarkerTheory
  import opened Stripping

  /** A text put together around a marker holds that marker and the markers of its parts, and no other. */
  lemma ContainsAround(ms: set<string>, x: string, p: string, y: string, q: string)
    requires Family(ms) && p in ms && q in ms
    ensures Contains(x + p + y, q) <==> Contains(x, q) || q == p || Contains(y, q)
  {
    var m := x + p + y;
    forall i: nat | OccursAt(m, q, i) ensures Contains(x, q) || q == p || Contains(y, q) {
      OccurrenceAround(ms, x, p, y, q, i);
    }
    assert OccursAt(m, p, |x|);
    if i: nat :| OccursAt(x, q, i) {
      assert OccursAt(m, q, i);
    } else if i: nat :| OccursAt(y, q, i) {
      assert OccursAt(m, q, |x| + |p| + i);
    }
  }

  lemma TooShort(ms: set<string>, t: string, q: string)
    requires Family(ms) && q in ms && |t| < 5
    ensures !Contains(t, q)
  {
  }

  /** The first occurrence of a marker is where the text before it says it is. */
  lemma FirstIsHere(ms: set<string>, u: string, s: string, y: string)
    requires Family(ms) && s in ms && !Contains(u, s)
    ensures OccursAt(u + s + y, s, |u|)
    ensures forall i: nat | OccursAt(u + s + y, s, i) :: |u| <= i
  {
    forall i: nat | OccursAt(u + s + y, s, i) ensures |u| <= i {
      OccurrenceAround(ms, u, s, y, s, i);
    }
  }

  lemma CutBehind(u: string, s: string, y: string)
    ensures BreakAfter(u + s + (CRLF + y), s, |u| + |s|)
    ensures Cut(u + s + (CRLF + y), |u| + |s|) == u + s + y
  {
  }

  /** The pass for a marker takes off the line break behind its first escaped occurrence. */
  lemma StripFirst(ms: set<string>, u: string, s: string, y: string)
    requires Family(ms) && s in ms && NoBreak(u, s) && |u + s + (CRLF + y)| <= MAX_SIZE
    ensures StripPattern(u + s + (CRLF + y), s + CRLF) == u + s + y
  {
    CutBehind(u, s, y);
    forall f: nat | BreakAfter(u + s + (CRLF + y), s, f) ensures |u| + |s| <= f {
      BreakPlaces(ms, u, s, CRLF + y, s, f);
    }
    StripAt(u + s + (CRLF + y), s, |u| + |s|);
  }

  /** A chapter's answer: the user's output, the inner marker, the tests' output, the verdict's marker. */
  function Frame(u: string, s: string, t: string, k: string): string {
    u + s + (CRLF + (t + k + CRLF))
  }

  lemma FrameSplits(u: string, s: string, t: string, k: string)
    ensures Frame(u, s, t, k) == "" + u + (s + (CRLF + (t + k + CRLF)))
    ensures Frame(u, s, t, k) == u + s + CRLF + t + (k + CRLF)
  {
  }

  lemma EndSplits(u: string, k: string)
    ensures u + k == "" + u + k && u + k + CRLF == "" + u + (k + CRLF)
  {
  }

  /** Any one of the passes can be made first. */
  lemma PassFirst(ms: set<string>, m: Text, es: seq<Pattern>, e: Pattern) returns (rest: seq<Pattern>)
    requires Family(ms) && EscapedMarkers(ms, es) && Distinct(es) && e in es
    ensures StripAll(m, es) == StripAll(StripPattern(m, e), rest)
    ensures EscapedMarkers(ms, rest) && Distinct(rest)
    ensures forall x :: x in rest <==> x in es && x != e
  {
    rest := ToFront<Pattern>(es, e);
    StripOrderIsFree(ms, m, es, [e] + rest);
    FoldAppend<Text, Pattern>(StripPattern, m, [e], rest);
    FoldLast<Text, Pattern>(StripPattern, m, [], e);
    assert [] + [e] == [e];
  }

  /** Passes for markers without a line break behind them change nothing. */
  lemma {:induction false} StripAllAbsent(ms: set<string>, d: Text, es: seq<Pattern>)
    requires EscapedMarkers(ms, es) && forall q | q in ms && q + CRLF in es :: NoBreak(d, q)
    ensures StripAll(d, es) == d
  {
    if es != [] {
      var e := es[|es| - 1];
      assert EscapedMarker(ms, e);
      var q :| q in ms && e == q + CRLF;
      StripAllAbsent(ms, d, es[..|es| - 1]);
      var _ := StripMeaning(d, q);
    }
  }

  lemma EscapedDiffer(s: string, k: string)
    requires s != k
    ensures s + CRLF != k + CRLF
  {
    assert s == (s + CRLF)[..|s + CRLF| - 2] && k == (k + CRLF)[..|k + CRLF| - 2];
  }

  // ---- Where a marker with a line break behind it can stand in a text that is put together around a marker

  lemma BreakInFront(x: string, y: string, q: string, f: nat)
    requires f <= |x| && (y != "" ==> y[0] != '\r' && y[0] != '\n')
    ensures BreakAfter(x + y, q, f) <==> BreakAfter(x, q, f)
  {
  }

  lemma BreakBehind(x: string, y: string, q: string, f: nat)
    requires |q| <= f
    ensures BreakAfter(x + y, q, |x| + f) <==> BreakAfter(y, q, f)
  {
  }

  lemma BreakPlaces(ms: set<string>, x: string, p: string, y: string, q: string, f: nat)
    requires Family(ms) && p in ms && q in ms && BreakAfter(x + p + y, q, f)
    ensures
      || BreakAfter(x, q, f)
      || (q == p && f == |x| + |p| && CRLF <= y)
      || (f >= |x| + |p| + |q| && BreakAfter(y, q, f - |x| - |p|))
  {
    var m := x + p + y;
    assert Solid(p) && Solid(q);
    OccurrenceAround(ms, x, p, y, q, f - |q|);
    if f - |q| >= |x| + |p| {
      BreakBehind(x + p, y, q, f - |x| - |p|);
    } else if f <= |x| {
      assert x + (p + y) == m;
      BreakInFront(x, p + y, q, f);
    } else {
      assert m[f] == y[0] && m[f + 1] == y[1];
    }
  }

  lemma BreakAround(ms: set<string>, x: string, p: string, y: string, q: string)
    requires Family(ms) && p in ms && q in ms
    ensures NoBreak(x + p + y, q) <==> NoBreak(x, q) && NoBreak(y, q) && !(q == p && CRLF <= y)
  {
    var m := x + p + y;
    assert Solid(p);
    forall f: nat | BreakAfter(m, q, f) ensures !(NoBreak(x, q) && NoBreak(y, q) && !(q == p && CRLF <= y)) {
      BreakPlaces(ms, x, p, y, q, f);
    }
    if f: nat :| BreakAfter(x, q, f) {
      assert x + (p + y) == m;
      BreakInFront(x, p + y, q, f);
    } else if f: nat :| BreakAfter(y, q, f) {
      BreakBehind(x + p, y, q, f);
    } else if q == p && CRLF <= y {
      assert y[0] == '\r' && y[1] == '\n' && OccursAt(m, p, |x|);
      assert BreakAfter(m, p, |x| + |p|);
    }
  }

  lemma NoBreakInBreak(ms: set<string>, q: string)
    requires Family(ms) && q in ms
    ensures NoBreak(CRLF, q) && NoBreak("", q)
  {
  }

  // ---- A text that ends with an escaped marker

  /** If no escaped marker stands before the end, all passes together take off the last line break only. */
  lemma StripEnd(ms: set<string>, es: seq<Pattern>, u: string, k: string)
    requires Family(ms) && EscapedMarkers(ms, es) && Distinct(es) && k in ms && k + CRLF in es
    requires |u + k + CRLF| <= MAX_SIZE
    requires forall q | q in ms && q + CRLF in es :: NoBreak(u, q)
    ensures StripAll(u + k + CRLF, es) == u + k
  {
    var d: Text, m: Text := u + k, u + k + CRLF;
    StripLast(ms, u, k);
    var rest := PassFirst(ms, m, es, k + CRLF);
    assert u + k + "" == d;
    forall q | q in ms && q + CRLF in rest ensures NoBreak(d, q) {
      BreakAround(ms, u, k, "", q);
      NoBreakInBreak(ms, q);
    }
    StripAllAbsent(ms, d, rest);
  }

  lemma LastBreak(u: string, k: string)
    ensures BreakAfter(u + k + CRLF, k, |u| + |k|) && Cut(u + k + CRLF, |u| + |k|) == u + k
  {
  }

  lemma StripLast(ms: set<string>, u: string, k: string)
    requires Family(ms) && k in ms && |u + k + CRLF| <= MAX_SIZE && NoBreak(u, k)
    ensures StripPattern(u + k + CRLF, k + CRLF) == u + k
  {
    LastBreak(u, k);
    forall f: nat | BreakAfter(u + k + CRLF, k, f) ensures |u| + |k| <= f {
      BreakPlaces(ms, u, k, CRLF, k, f);
    }
    StripAt(u + k + CRLF, k, |u| + |k|);
  }

  lemma {:induction false} OccurringAtLeast(m: string, es: seq<Pattern>, a: set<Pattern>)
    requires forall e | e in a :: e in es && Contains(m, e)
    ensures Occurring(m, es) >= |a|
    ensures Occurring(m, es) <= |es|
  {
    if es != [] {
      OccurringAtLeast(m, es[..|es| - 1], a - {es[|es| - 1]});
    }
  }

  /** If a text lost one line break only, its one escaped marker is the last one. */
  lemma OnlyOneOccurs(m: string, es: seq<Pattern>, e: Pattern, x: Pattern)
    requires Occurring(m, es) <= 1 && e in es && x in es && e != x && Contains(m, e)
    ensures !Contains(m, x)
  {
    if Contains(m, x) {
      OccurringAtLeast(m, es, {e, x});
    }
  }

  /** A text that equals itself two places on is all line breaks behind a line break. */
  lemma {:induction false} BreaksSpread(m: string, e: nat, n: nat, i: nat)
    requires e + 2 <= n + 2 <= |m| && m[e] in CRLF && m[e + 1] in CRLF
    requires forall j | e <= j < n :: m[j] == m[j + 2]
    requires e <= i < n + 2
    ensures m[i] in CRLF
  {
    if i >= e + 2 {
      BreaksSpread(m, e, n, i - 2);
      assert m[i - 2] == m[i];
    }
  }

  /** Cutting behind an earlier occurrence of the marker shows: what precedes this one is changed. */
  lemma EarlierCutShows(ms: set<string>, u: string, k: string, y: string, e: nat)
    requires Family(ms) && k in ms && BreakAfter(u + k + y, k, e) && e < |u| + |k|
    ensures !(u <= Cut(u + k + y, e))
  {
    var m := u + k + y;
    BreakPlaces(ms, u, k, y, k, e);
    assert Solid(k) && e + 2 <= |u|;
    assert m[|u|] == k[0];
    if u <= Cut(m, e) {
      forall j | e <= j < |u| ensures m[j] == m[j + 2] {
        assert Cut(m, e)[j] == m[j + 2] && u[j] == m[j];
      }
      BreaksSpread(m, e, |u|, |u|);
    }
  }

  /** Conversely, what the passes leave tells whether an escaped marker stood before the end. */
  lemma StripEndOnly(ms: set<string>, es: seq<Pattern>, u: string, k: string, q: string)
    requires Family(ms) && EscapedMarkers(ms, es) && Distinct(es) && k in ms && k + CRLF in es
    requires |u + k + CRLF| <= MAX_SIZE
    requires u <= StripAll(u + k + CRLF, es) && |StripAll(u + k + CRLF, es)| >= |u + k|
    requires q in ms && q + CRLF in es
    ensures NoBreak(u, q)
  {
    var m: Text := u + k + CRLF;
    StripLength(ms, m, es);
    LastBreak(u, k);
    BreaksAreEscapedMarkers(m, k);
    assert Occurring(m, es) <= 1;
    forall p | p in ms && p != k && p + CRLF in es ensures NoBreak(m, p) {
      EscapedDiffer(p, k);
      OnlyOneOccurs(m, es, k + CRLF, p + CRLF);
      BreaksAreEscapedMarkers(m, p);
    }
    BreakAround(ms, u, k, CRLF, q);
    if q == k {
      OnlyLastPass(ms, es, m, k);
      var e := StripMeaning(m, k);
      if e < |u| + |k| {
        EarlierCutShows(ms, u, k, CRLF, e);
      } else {
        NoBreakBefore(u, k, CRLF, e);
      }
    }
  }

  lemma OnlyLastPass(ms: set<string>, es: seq<Pattern>, m: Text, k: string)
    requires Family(ms) && EscapedMarkers(ms, es) && Distinct(es) && k in ms && k + CRLF in es
    requires forall p | p in ms && p != k && p + CRLF in es :: NoBreak(m, p)
    ensures StripAll(m, es) == StripPattern(m, k + CRLF)
  {
    var rest := PassFirst(ms, m, es, k + CRLF);
    forall p | p in ms && p + CRLF in rest ensures NoBreak(StripPattern(m, k + CRLF), p) {
      StripKeepsOtherBreaks(ms, m, k, p);
    }
    StripAllAbsent(ms, StripPattern(m, k + CRLF), rest);
  }

  lemma NoBreakBefore(u: string, k: string, y: string, e: nat)
    requires FirstBreak(u + k + y, k, e) && e >= |u| + |k|
    ensures NoBreak(u, k)
  {
    forall f: nat ensures !BreakAfter(u, k, f) {
      assert BreakAfter(u, k, f) ==> OccursAt(u + k + y, k, f - |k|) && BreakAfter(u + k + y, k, f);
    }
  }

  // ---- A text around two markers

  /** All passes over a frame begin with the one that takes off the line break behind the inner marker. */
  lemma FramePass(ms: set<string>, es: seq<Pattern>, u: string, s: string, t: string, k: string)
    returns (rest: seq<Pattern>)
    requires Family(ms) && EscapedMarkers(ms, es) && Distinct(es)
    requires {s, k} <= ms && s != k && s + CRLF in es && k + CRLF in es
    requires NoBreak(u, s) && |Frame(u, s, t, k)| <= MAX_SIZE
    ensures StripAll(Frame(u, s, t, k), es) == StripAll(u + s + t + k + CRLF, rest)
    ensures EscapedMarkers(ms, rest) && Distinct(rest) && k + CRLF in rest
    ensures forall q | q in ms :: q + CRLF in rest <==> q + CRLF in es && q != s
  {
    StripFirst(ms, u, s, t + k + CRLF);
    rest := PassFirst(ms, Frame(u, s, t, k), es, s + CRLF);
    EscapedDiffer(s, k);
    forall q | q in ms ensures q + CRLF in rest <==> q + CRLF in es && q != s {
      if q != s {
        EscapedDiffer(q, s);
      }
    }
    assert u + s + (t + k + CRLF) == u + s + t + k + CRLF;
  }

  /** All passes over a frame of two markers. */
  lemma StripFrame(ms: set<string>, es: seq<Pattern>, u: string, s: string, t: string, k: string)
    requires Family(ms) && EscapedMarkers(ms, es) && Distinct(es)
    requires {s, k} <= ms && s != k && s + CRLF in es && k + CRLF in es
    requires NoBreak(u, s) && |Frame(u, s, t, k)| <= MAX_SIZE
    requires forall q | q in ms && q != s :: NoBreak(u, q) && NoBreak(t, q)
    ensures StripAll(Frame(u, s, t, k), es) == u + s + t + k
  {
    var rest := FramePass(ms, es, u, s, t, k);
    forall q | q in ms && q + CRLF in rest ensures NoBreak(u + s + t, q) {
      BreakAround(ms, u, s, t, q);
    }
    StripEnd(ms, rest, u + s + t, k);
  }

  /** Conversely, if all that precedes the last marker is left as it was, no other escaped marker stood there. */
  lemma StripFrameOnly(ms: set<string>, es: seq<Pattern>, u: string, s: string, t: string, k: string, q: string)
    requires Family(ms) && EscapedMarkers(ms, es) && Distinct(es)
    requires {s, k} <= ms && s != k && s + CRLF in es && k + CRLF in es
    requires NoBreak(u, s) && |Frame(u, s, t, k)| <= MAX_SIZE
    requires u + s + t <= StripAll(Frame(u, s, t, k), es) && |StripAll(Frame(u, s, t, k), es)| >= |u + s + t + k|
    requires q in ms && q + CRLF in es && q != s
    ensures NoBreak(u, q) && NoBreak(t, q)
  {
    var rest := FramePass(ms, es, u, s, t, k);
    StripEndOnly(ms, rest, u + s + t, k, q);
    BreakAround(ms, u, s, t, q);
  }

  lemma OnlyTwoOccur(m: string, es: seq<Pattern>, d: Pattern, e: Pattern, x: Pattern)
    requires Occurring(m, es) <= 2 && {d, e, x} <= (set p | p in es) && d != e && x != d && x != e
    requires Contains(m, d) && Contains(m, e)
    ensures !Contains(m, x)
  {
    if Contains(m, x) {
      assert |{d, e, x}| == 3;
      OccurringAtLeast(m, es, {d, e, x});
    }
  }

  lemma FrameBreaks(u: string, s: string, t: string, k: string)
    ensures Contains(Frame(u, s, t, k), s + CRLF) && Contains(Frame(u, s, t, k), k + CRLF)
  {
    FrameSplits(u, s, t, k);
    assert OccursAt(Frame(u, s, t, k), s + CRLF, |u|);
    assert OccursAt(Frame(u, s, t, k), k + CRLF, |u + s + CRLF + t|);
  }

  /** If a frame lost two line breaks only, no third marker stood in it with a line break behind it. */
  lemma NoThirdBreak(ms: set<string>, es: seq<Pattern>, u: string, s: string, t: string, k: string, q: string)
    requires Family(ms) && EscapedMarkers(ms, es) && Distinct(es)
    requires {s, k, q} <= ms && s != k && q != s && q != k && s + CRLF in es && k + CRLF in es && q + CRLF in es
    requires |Frame(u, s, t, k)| <= MAX_SIZE && |StripAll(Frame(u, s, t, k), es)| >= |u + s + t + k|
    ensures NoBreak(Frame(u, s, t, k), q)
  {
    var m: Text := Frame(u, s, t, k);
    StripLength(ms, m, es);
    FrameBreaks(u, s, t, k);
    EscapedDiffer(s, k);
    EscapedDiffer(q, s);
    EscapedDiffer(q, k);
    OnlyTwoOccur(m, es, s + CRLF, k + CRLF, q + CRLF);
    BreaksAreEscapedMarkers(m, q);
  }

  /** If a pass leaves what precedes an escaped marker as it was, that marker is the first one escaped. */
  lemma FirstPassShows(ms: set<string>, u: string, s: string, y: string)
    requires Family(ms) && s in ms && |u + s + (CRLF + y)| <= MAX_SIZE
    requires u <= StripPattern(u + s + (CRLF + y), s + CRLF)
    ensures NoBreak(u, s)
  {
    CutBehind(u, s, y);
    var e := StripMeaning(u + s + (CRLF + y), s);
    if e < |u| + |s| {
      EarlierCutShows(ms, u, s, CRLF + y, e);
    } else {
      NoBreakBefore(u, s, CRLF + y, e);
    }
  }

  /** Two passes do all the work on a text without further escaped markers. */
  lemma OnlyTwoPasses(ms: set<string>, es: seq<Pattern>, x: string, s: string, k: string)
    requires Family(ms) && EscapedMarkers(ms, es) && Distinct(es)
    requires {s, k} <= ms && s != k && s + CRLF in es && k + CRLF in es
    requires |x + k + CRLF| <= MAX_SIZE && NoBreak(x, k)
    requires forall q | q in ms && q != s && q != k && q + CRLF in es :: NoBreak(x + k + CRLF, q)
    ensures StripAll(x + k + CRLF, es) == StripPattern(x + k, s + CRLF)
  {
    StripLast(ms, x, k);
    var rest := PassFirst(ms, x + k + CRLF, es, k + CRLF);
    EscapedDiffer(s, k);
    forall q | q in ms && q != s && q + CRLF in rest ensures NoBreak(x + k, q) {
      StripKeepsOtherBreaks(ms, x + k + CRLF, k, q);
    }
    OnlyLastPass(ms, rest, x + k, s);
  }

  lemma FrameGroups(u: string, s: string, t: string, k: string)
    ensures Frame(u, s, t, k) == (u + s + CRLF + t) + k + CRLF
    ensures u + s + CRLF + t + k == u + s + (CRLF + (t + k))
  {
  }

  lemma BreakBehindBreak(ms: set<string>, t: string, k: string, f: nat)
    requires Family(ms) && k in ms && BreakAfter(CRLF + t, k, f)
    ensures |k| + 2 <= f && BreakAfter(t, k, f - 2)
  {
    assert Solid(k);
    assert (CRLF + t)[f - |k| + 0] == k[0] && (CRLF + t)[0] == '\r' && (CRLF + t)[1] == '\n';
    BreakBehind(CRLF, t, k, f - 2);
  }

  lemma NoBreakAcross(ms: set<string>, u: string, s: string, t: string, k: string)
    requires Family(ms) && {s, k} <= ms && s != k && NoBreak(u, k) && NoBreak(t, k)
    ensures NoBreak(u + s + CRLF + t, k)
  {
    assert u + s + (CRLF + t) == u + s + CRLF + t;
    BreakAround(ms, u, s, CRLF + t, k);
    if f: nat :| BreakAfter(CRLF + t, k, f) {
      BreakBehindBreak(ms, t, k, f);
    }
  }

  /** If the last marker is not escaped earlier and the user's output is left as it was, the line break behind the
      inner marker is the first one behind such a marker. */
  lemma InnerBreakIsFirst(ms: set<string>, es: seq<Pattern>, u: string, s: string, t: string, k: string)
    requires Family(ms) && EscapedMarkers(ms, es) && Distinct(es)
    requires {s, k} <= ms && s != k && s + CRLF in es && k + CRLF in es
    requires |Frame(u, s, t, k)| <= MAX_SIZE && NoBreak(u + s + CRLF + t, k)
    requires forall q | q in ms && q != s && q != k && q + CRLF in es :: NoBreak(Frame(u, s, t, k), q)
    requires u <= StripAll(Frame(u, s, t, k), es)
    ensures NoBreak(u, s)
  {
    FrameGroups(u, s, t, k);
    OnlyTwoPasses(ms, es, u + s + CRLF + t, s, k);
    FirstPassShows(ms, u, s, t + k);
  }
}
