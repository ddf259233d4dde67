/**
 The playground decoder on the chapter's answers. It documents the chapter's frame as its pattern, but it
 does not look for the inner marker.
 */
module Playgrounds {
  import opened Wrappers
  import opened Text
  import opened MarkerTheory
  import opened Markers
  import opened Stripping
  import opened Framing
  import opened Answer
  import opened Responses
  import opened RoundTrips

  /** No marker of success can come to stand right behind the user's output. */
  lemma NoSuccessBehind(u: string, t: string)
    requires |Frame(u, CODE_TESTS_SEPARATOR, t, USER_CODE_SEPARATOR)| <= MAX_SIZE
    ensures !OccursAt(RemoveEscapes(Frame(u, CODE_TESTS_SEPARATOR, t, USER_CODE_SEPARATOR)), USER_CODE_SEPARATOR, |u|)
  {
    var s, k := CODE_TESTS_SEPARATOR, USER_CODE_SEPARATOR;
    var m: Text := Frame(u, s, t, k);
    if OccursAt(RemoveEscapes(m), k, |u|) {
      PatternsOfMarkers();
      MarkersAreListed(OK);
      Lengths();
      assert |ESCAPE_PATTERNS| == 4;
      var j := ComesFrom(MARKERS, m, ESCAPE_PATTERNS, k, |u|);
      assert OccursAt(m, s, |u|);
      MarkersNeverOverlap(MARKERS, m, s, |u|, k, j);
    }
  }

  lemma FrameEnds(u: string, s: string, t: string, k: string)
    ensures HasEscapeSequence(Frame(u, s, t, k))
  {
  }

  lemma PlaygroundDecodeShows(m: Text, x: string)
    requires HasEscapeSequence(m) && Decode(Playground, m) == Some(Response(OK, x, None))
    ensures ExitCode(RemoveEscapes(m)) == OK && PlaygroundOutput(RemoveEscapes(m)) == Some(x)
    ensures OccursAt(RemoveEscapes(m), USER_CODE_SEPARATOR, |x|)
  {
    DecodeIsTotal(Playground, m);
    StrippingKeepsVerdict(m);
    assert Find(RemoveEscapes(m), USER_CODE_SEPARATOR) != NPOS;
  }

  /** The pattern of the comment is never met: for no chapter's answer does the decoder give the user's output alone. */
  lemma PlaygroundNeverSplits(u: string, t: string)
    requires |Frame(u, CODE_TESTS_SEPARATOR, t, USER_CODE_SEPARATOR)| <= MAX_SIZE
    ensures Decode(Playground, Frame(u, CODE_TESTS_SEPARATOR, t, USER_CODE_SEPARATOR)) != Some(Response(OK, u, None))
  {
    var m: Text := Frame(u, CODE_TESTS_SEPARATOR, t, USER_CODE_SEPARATOR);
    FrameEnds(u, CODE_TESTS_SEPARATOR, t, USER_CODE_SEPARATOR);
    NoSuccessBehind(u, t);
    if Decode(Playground, m) == Some(Response(OK, u, None)) {
      PlaygroundDecodeShows(m, u);
    }
  }

  /** Nor is it met where the answer has no line breaks behind its markers. */
  lemma PlainPlaygroundNeverSplits(u: string, t: string)
    requires |u + CODE_TESTS_SEPARATOR + t + USER_CODE_SEPARATOR| <= MAX_SIZE
    ensures Decode(Playground, u + CODE_TESTS_SEPARATOR + t + USER_CODE_SEPARATOR) != Some(Response(OK, u, None))
  {
    var s, k := CODE_TESTS_SEPARATOR, USER_CODE_SEPARATOR;
    var m: Text := u + s + t + k;
    PatternsOfMarkers();
    MarkersAreListed(OK);
    NoEscapeAtEnd(u + s + t, OK);
    assert OccursAt(m, s, |u|);
    MarkersNeverOverlap(MARKERS, m, s, |u|, k, |u|);
    if Decode(Playground, m) == Some(Response(OK, u, None)) {
      DecodeIsTotal(Playground, m);
    }
  }

  /** The outputs hold nothing that the decoder would take for its marker or shorten. */
  ghost predicate Inert(u: string, t: string) {
    && NoEscapedMarker(u, {}) && NoEscapedMarker(t, {CODE_TESTS_SEPARATOR})
    && !Contains(u, USER_CODE_SEPARATOR) && !Contains(t, USER_CODE_SEPARATOR)
  }

  lemma InertFrame(u: string, t: string)
    requires Inert(u, t) && |Frame(u, CODE_TESTS_SEPARATOR, t, USER_CODE_SEPARATOR)| <= MAX_SIZE
    ensures Decode(Playground, Frame(u, CODE_TESTS_SEPARATOR, t, USER_CODE_SEPARATOR))
         == Some(Response(OK, u + CODE_TESTS_SEPARATOR + t, None))
  {
    var s, k := CODE_TESTS_SEPARATOR, USER_CODE_SEPARATOR;
    var x := u + s + t;
    PatternsOfMarkers();
    MarkersAreListed(OK);
    NoEscapedMarkerMeans(u, {});
    NoEscapedMarkerMeans(t, {s});
    StripFrame(MARKERS, ESCAPE_PATTERNS, u, s, t, k);
    FrameEnds(u, s, t, k);
    ContainsAround(MARKERS, u, s, t, k);
    PlaygroundOutputOf(x);
  }

  /** If the decoder passes both outputs on unchanged, no escaped marker was there to be shortened. */
  lemma UnchangedShows(u: string, t: string)
    requires |Frame(u, CODE_TESTS_SEPARATOR, t, USER_CODE_SEPARATOR)| <= MAX_SIZE
    requires !Contains(u + CODE_TESTS_SEPARATOR + t, USER_CODE_SEPARATOR)
    requires
      var c := RemoveEscapes(Frame(u, CODE_TESTS_SEPARATOR, t, USER_CODE_SEPARATOR));
      u + CODE_TESTS_SEPARATOR + t <= c && |c| >= |u + CODE_TESTS_SEPARATOR + t + USER_CODE_SEPARATOR|
    ensures Inert(u, t)
  {
    var s, k := CODE_TESTS_SEPARATOR, USER_CODE_SEPARATOR;
    PatternsOfMarkers();
    MarkersAreListed(OK);
    forall q | q in MARKERS && q != s && q != k ensures NoBreak(Frame(u, s, t, k), q) {
      NoThirdBreak(MARKERS, ESCAPE_PATTERNS, u, s, t, k, q);
    }
    ContainsAround(MARKERS, u, s, t, k);
    NoBreakAcross(MARKERS, u, s, t, k);
    InnerBreakIsFirst(MARKERS, ESCAPE_PATTERNS, u, s, t, k);
    forall q | q in MARKERS && q != s ensures NoBreak(u, q) && NoBreak(t, q) {
      StripFrameOnly(MARKERS, ESCAPE_PATTERNS, u, s, t, k, q);
    }
    NoEscapedMarkerMeans(u, {});
    NoEscapedMarkerMeans(t, {s});
  }

  /** Exactly for inert outputs the decoder passes on all that precedes its marker, the inner marker included. */
  lemma PlaygroundOfChapterFrame(u: string, t: string)
    requires |Frame(u, CODE_TESTS_SEPARATOR, t, USER_CODE_SEPARATOR)| <= MAX_SIZE
    ensures Decode(Playground, Frame(u, CODE_TESTS_SEPARATOR, t, USER_CODE_SEPARATOR))
         == Some(Response(OK, u + CODE_TESTS_SEPARATOR + t, None))
       <==> Inert(u, t)
  {
    var m: Text := Frame(u, CODE_TESTS_SEPARATOR, t, USER_CODE_SEPARATOR);
    if Inert(u, t) {
      InertFrame(u, t);
    }
    if Decode(Playground, m) == Some(Response(OK, u + CODE_TESTS_SEPARATOR + t, None)) {
      FrameEnds(u, CODE_TESTS_SEPARATOR, t, USER_CODE_SEPARATOR);
      PlaygroundDecodeShows(m, u + CODE_TESTS_SEPARATOR + t);
      PlaygroundShows(RemoveEscapes(m), u + CODE_TESTS_SEPARATOR + t);
      UnchangedShows(u, t);
    }
  }
}
