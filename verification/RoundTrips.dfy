/** Answers put together from their parts, and exactly when decoding gives the parts back. */
module RoundTrips {
  import opened Wrappers
  import opened Text
  import opened Folding
  import opened MarkerTheory
  import opened Markers
  import opened Stripping
  import opened Framing
  import opened Answer
  import opened Responses

  /** The marker that ends an answer with this verdict. */
  function MarkerOf(code: int): string
    requires code in {OK, USER_ERROR, TEST_ERROR}
  {
    if code == OK then USER_CODE_SEPARATOR else if code == USER_ERROR then USER_SOLUTION_ERROR else TEST_CASES_ERROR
  }

  lemma MarkersAreListed(code: int)
    requires code in {OK, USER_ERROR, TEST_ERROR}
    ensures CODE_TESTS_SEPARATOR in MARKERS && CODE_TESTS_SEPARATOR + CRLF in ESCAPE_PATTERNS
    ensures MarkerOf(code) in MARKERS && MarkerOf(code) + CRLF in ESCAPE_PATTERNS
    ensures MarkerOf(code) != CODE_TESTS_SEPARATOR && GetStringLength(code) == |MarkerOf(code)| <= 28
  {
  }

  lemma NoStatusBehindMarker(ms: set<string>, x: string, k: string, c: string)
    requires Family(ms) && k in ms && StatusSuffix(c)
    ensures !EndsWith(x + k, c)
  {
  }

  /** `x` holds no marker of a verdict that would win over `code`. */
  ghost predicate NoOtherVerdict(x: string, code: int) {
    code != OK ==> !Contains(x, USER_CODE_SEPARATOR) && (code != USER_ERROR ==> !Contains(x, USER_SOLUTION_ERROR))
  }

  /** The verdict on a text that ends with its marker. */
  lemma VerdictAtEnd(x: string, code: int)
    requires code in {OK, USER_ERROR, TEST_ERROR} && |x + MarkerOf(code)| <= MAX_SIZE
    requires NoOtherVerdict(x, code)
    ensures ExitCode(x + MarkerOf(code)) == code
  {
    MarkersAreAFamily();
    CodesAreSuffixes();
    MarkersAreListed(code);
    var ms, k := MARKERS, MarkerOf(code);
    NoStatusBehindMarker(ms, x, k, "124\r\n");
    NoStatusBehindMarker(ms, x, k, "125\r\n");
    NoStatusBehindMarker(ms, x, k, "137\r\n");
    assert x + k + "" == x + k;
    forall q | q in ms ensures Contains(x + k, q) <==> Contains(x, q) || q == k {
      ContainsAround(ms, x, k, "", q);
      TooShort(ms, "", q);
    }
    Lengths();
  }

  lemma FoundHere(u: string, s: string, y: string)
    requires s in MARKERS && !Contains(u, s) && |u + s + y| <= MAX_SIZE
    ensures Find(u + s + y, s) == |u|
  {
    MarkersAreAFamily();
    FirstIsHere(MARKERS, u, s, y);
  }

  lemma SlicesOf(u: string, s: string, t: string, k: string)
    ensures (u + s + t + k)[..|u|] == u
    ensures (u + s + t + k)[|u| + |s|..|u + s + t + k| - |k|] == t
    ensures u + s + t + k == u + s + (t + k)
  {
  }

  /** The sections of a text whose first inner marker stands behind `u`. */
  lemma SectionsOf(u: string, t: string, code: int)
    requires (code == OK || code == TEST_ERROR) && !Contains(u, CODE_TESTS_SEPARATOR)
    requires |u + CODE_TESTS_SEPARATOR + t + MarkerOf(code)| <= MAX_SIZE
    ensures ChapterOutput(code, u + CODE_TESTS_SEPARATOR + t + MarkerOf(code)) == Some((u, t))
  {
    var s, k := CODE_TESTS_SEPARATOR, MarkerOf(code);
    var d: Text := u + s + t + k;
    MarkersAreListed(code);
    Lengths();
    SlicesOf(u, s, t, k);
    FoundHere(u, s, t + k);
    ChapterOutputMeaning(code, d);
  }

  /** No marker but those in `except` stands in `x` with a line break behind it. */
  ghost predicate NoEscapedMarker(x: string, except: set<string>) {
    forall q | q in MARKERS - except :: !Contains(x, q + CRLF)
  }

  /** What the outputs must not hold so that a chapter's answer can be taken apart. */
  ghost predicate Separable(u: string, t: string, code: int) {
    && !Contains(u, CODE_TESTS_SEPARATOR)
    && NoEscapedMarker(u, {CODE_TESTS_SEPARATOR}) && NoEscapedMarker(t, {CODE_TESTS_SEPARATOR})
    && NoOtherVerdict(u, code) && NoOtherVerdict(t, code)
  }

  lemma NoEscapedMarkerMeans(x: string, except: set<string>)
    ensures NoEscapedMarker(x, except) <==> forall q | q in MARKERS - except :: NoBreak(x, q)
  {
    forall q | q in MARKERS - except ensures !Contains(x, q + CRLF) <==> NoBreak(x, q) {
      BreaksAreEscapedMarkers(x, q);
    }
  }

  /** The four patterns are those of the four markers. */
  lemma PatternsOfMarkers()
    ensures Family(MARKERS) && EscapedMarkers(MARKERS, ESCAPE_PATTERNS) && Distinct(ESCAPE_PATTERNS)
    ensures forall q | q in MARKERS :: q + CRLF in ESCAPE_PATTERNS
  {
    MarkersAreAFamily();
    PatternsAreMarkers();
    MarkersAreListed(OK);
    MarkersAreListed(USER_ERROR);
    MarkersAreListed(TEST_ERROR);
  }

  lemma VerdictsAround(x: string, y: string, code: int)
    requires code in {OK, USER_ERROR, TEST_ERROR}
    ensures NoOtherVerdict(x + CODE_TESTS_SEPARATOR + y, code) <==> NoOtherVerdict(x, code) && NoOtherVerdict(y, code)
  {
    MarkersAreAFamily();
    MarkersAreListed(OK);
    MarkersAreListed(USER_ERROR);
    ContainsAround(MARKERS, x, CODE_TESTS_SEPARATOR, y, USER_CODE_SEPARATOR);
    ContainsAround(MARKERS, x, CODE_TESTS_SEPARATOR, y, USER_SOLUTION_ERROR);
  }

  lemma SeparableRoundTrip(action: Action, u: string, t: string, code: int)
    requires action != Playground && code in {OK, TEST_ERROR} && Separable(u, t, code)
    requires |Frame(u, CODE_TESTS_SEPARATOR, t, MarkerOf(code))| <= MAX_SIZE
    ensures Decode(action, Frame(u, CODE_TESTS_SEPARATOR, t, MarkerOf(code))) == Some(Response(code, u, Some(t)))
  {
    var s, k := CODE_TESTS_SEPARATOR, MarkerOf(code);
    var m: Text := Frame(u, s, t, k);
    PatternsOfMarkers();
    MarkersAreListed(code);
    NoEscapedMarkerMeans(u, {s});
    NoEscapedMarkerMeans(t, {s});
    StripFrame(MARKERS, ESCAPE_PATTERNS, u, s, t, k);
    assert HasEscapeSequence(m);
    SectionsOf(u, t, code);
    VerdictsAround(u, t, code);
    VerdictAtEnd(u + s + t, code);
  }

  /** A verdict shows that no marker of a stronger verdict is there. */
  lemma VerdictShows(a: string, x: string, b: string, code: int)
    requires code in {OK, USER_ERROR, TEST_ERROR} && |a + x + b| <= MAX_SIZE && ExitCode(a + x + b) == code
    ensures NoOtherVerdict(x, code)
  {
    Lengths();
    forall q, i: nat | OccursAt(x, q, i) ensures Contains(a + x + b, q) {
      assert OccursAt(a + x + b, q, |a| + i);
    }
  }

  lemma NotInPrefix(c: string, u: string, s: string)
    requires u <= c && s != "" && forall i: nat | OccursAt(c, s, i) :: |u| <= i
    ensures !Contains(u, s)
  {
    forall i: nat ensures !OccursAt(u, s, i) {
      assert OccursAt(u, s, i) ==> OccursAt(c, s, i);
    }
  }

  lemma PartsOf(c: string, u: string, s: string, t: string, n: nat)
    requires |u| + |s| + n <= |c| && u == c[..|u|] && OccursAt(c, s, |u|) && t == c[|u| + |s|..|c| - n]
    ensures u + s + t <= c && |c| == |u + s + t| + n
  {
  }

  lemma SectionsBegin(c: Text, u: string, t: string, code: int)
    requires (code == OK || code == TEST_ERROR) && Contains(c, CODE_TESTS_SEPARATOR)
    requires |c| >= |u| + |t| + |MarkerOf(code)| && ChapterOutput(code, c) == Some((u, t))
    ensures
      var s, n := CODE_TESTS_SEPARATOR, |MarkerOf(code)|;
      |u| + |s| + n <= |c| && u == c[..|u|] && Find(c, s) == |u| && s != "" && t == c[|u| + |s|..|c| - n]
  {
  }

  /** What the two outputs tell about the text they were taken from. */
  lemma SectionsShow(c: Text, u: string, t: string, code: int)
    requires (code == OK || code == TEST_ERROR) && Contains(c, CODE_TESTS_SEPARATOR)
    requires |c| >= |u| + |t| + |MarkerOf(code)| && ChapterOutput(code, c) == Some((u, t))
    ensures !Contains(u, CODE_TESTS_SEPARATOR)
    ensures u + CODE_TESTS_SEPARATOR + t <= c && |c| == |u + CODE_TESTS_SEPARATOR + t + MarkerOf(code)|
  {
    SectionsBegin(c, u, t, code);
    NotInPrefix(c, u, CODE_TESTS_SEPARATOR);
    PartsOf(c, u, CODE_TESTS_SEPARATOR, t, |MarkerOf(code)|);
  }

  lemma LittleIsLost(m: Text)
    ensures |RemoveEscapes(m)| >= |m| - 8
  {
    StrippingLength(m);
    OccurringAtLeast(m, ESCAPE_PATTERNS, {});
  }

  lemma FramesAreLong(u: string, t: string, code: int)
    requires code in {OK, TEST_ERROR}
    requires |Frame(u, CODE_TESTS_SEPARATOR, t, MarkerOf(code))| <= MAX_SIZE
    ensures
      var m := Frame(u, CODE_TESTS_SEPARATOR, t, MarkerOf(code));
      && HasEscapeSequence(m)
      && |RemoveEscapes(m)| >= |u| + |t| + |MarkerOf(code)|
      && Contains(RemoveEscapes(m), CODE_TESTS_SEPARATOR)
  {
    var s, k := CODE_TESTS_SEPARATOR, MarkerOf(code);
    var m: Text := Frame(u, s, t, k);
    PatternsOfMarkers();
    MarkersAreListed(code);
    CodesAreSuffixes();
    Lengths();
    assert OccursAt(m, s, |u|);
    StripAllKeepsVerdict(MARKERS, m, ESCAPE_PATTERNS, s, "124\r\n");
    LittleIsLost(m);
  }

  lemma FrameVerdict(u: string, t: string, code: int)
    requires code in {OK, TEST_ERROR} && |Frame(u, CODE_TESTS_SEPARATOR, t, MarkerOf(code))| <= MAX_SIZE
    requires ExitCode(Frame(u, CODE_TESTS_SEPARATOR, t, MarkerOf(code))) == code
    ensures NoOtherVerdict(u, code) && NoOtherVerdict(t, code)
  {
    var s, k := CODE_TESTS_SEPARATOR, MarkerOf(code);
    var m: Text := Frame(u, s, t, k);
    FrameSplits(u, s, t, k);
    VerdictShows("", u, s + (CRLF + (t + k + CRLF)), code);
    VerdictShows(u + s + CRLF, t, k + CRLF, code);
  }

  lemma DecodeShows(action: Action, m: Text, u: string, t: string, code: int)
    requires action != Playground && code in {OK, TEST_ERROR} && HasEscapeSequence(m)
    requires Decode(action, m) == Some(Response(code, u, Some(t)))
    ensures ExitCode(m) == code && ChapterOutput(code, RemoveEscapes(m)) == Some((u, t))
  {
    DecodeIsTotal(action, m);
    StrippingKeepsVerdict(m);
  }

  lemma UntouchedMeans(u: string, t: string, code: int)
    requires code in {OK, TEST_ERROR} && !Contains(u, CODE_TESTS_SEPARATOR)
    requires |Frame(u, CODE_TESTS_SEPARATOR, t, MarkerOf(code))| <= MAX_SIZE
    requires u + CODE_TESTS_SEPARATOR + t <= RemoveEscapes(Frame(u, CODE_TESTS_SEPARATOR, t, MarkerOf(code)))
    requires |RemoveEscapes(Frame(u, CODE_TESTS_SEPARATOR, t, MarkerOf(code)))|
          >= |u + CODE_TESTS_SEPARATOR + t + MarkerOf(code)|
    ensures NoEscapedMarker(u, {CODE_TESTS_SEPARATOR}) && NoEscapedMarker(t, {CODE_TESTS_SEPARATOR})
  {
    var s, k := CODE_TESTS_SEPARATOR, MarkerOf(code);
    PatternsOfMarkers();
    MarkersAreListed(code);
    forall q | q in MARKERS && q != s ensures NoBreak(u, q) && NoBreak(t, q) {
      StripFrameOnly(MARKERS, ESCAPE_PATTERNS, u, s, t, k, q);
    }
    NoEscapedMarkerMeans(u, {s});
    NoEscapedMarkerMeans(t, {s});
  }

  lemma OnlySeparableRoundTrip(action: Action, u: string, t: string, code: int)
    requires action != Playground && code in {OK, TEST_ERROR}
    requires |Frame(u, CODE_TESTS_SEPARATOR, t, MarkerOf(code))| <= MAX_SIZE
    requires Decode(action, Frame(u, CODE_TESTS_SEPARATOR, t, MarkerOf(code))) == Some(Response(code, u, Some(t)))
    ensures Separable(u, t, code)
  {
    var m: Text := Frame(u, CODE_TESTS_SEPARATOR, t, MarkerOf(code));
    FramesAreLong(u, t, code);
    DecodeShows(action, m, u, t, code);
    SectionsShow(RemoveEscapes(m), u, t, code);
    UntouchedMeans(u, t, code);
    FrameVerdict(u, t, code);
  }

  /** A chapter's answer is taken apart as it was put together exactly if its parts are separable. */
  lemma ChapterRoundTrip(action: Action, u: string, t: string, code: int)
    requires action != Playground && code in {OK, TEST_ERROR}
    requires |Frame(u, CODE_TESTS_SEPARATOR, t, MarkerOf(code))| <= MAX_SIZE
    ensures Decode(action, Frame(u, CODE_TESTS_SEPARATOR, t, MarkerOf(code))) == Some(Response(code, u, Some(t)))
       <==> Separable(u, t, code)
  {
    if Separable(u, t, code) {
      SeparableRoundTrip(action, u, t, code);
    }
    if Decode(action, Frame(u, CODE_TESTS_SEPARATOR, t, MarkerOf(code))) == Some(Response(code, u, Some(t))) {
      OnlySeparableRoundTrip(action, u, t, code);
    }
  }

  lemma NoEscapeAtEnd(x: string, code: int)
    requires code in {OK, USER_ERROR, TEST_ERROR}
    ensures !HasEscapeSequence(x + MarkerOf(code))
  {
    var m := x + MarkerOf(code);
    MarkersAreAFamily();
    MarkersAreListed(code);
    assert Solid(MarkerOf(code));
    assert m[|m| - 2 + 1] != CRLF[1];
  }

  lemma PlainRoundTrip(action: Action, u: string, t: string, code: int)
    requires action != Playground && code in {OK, TEST_ERROR}
    requires |u + CODE_TESTS_SEPARATOR + t + MarkerOf(code)| <= MAX_SIZE
    requires !Contains(u, CODE_TESTS_SEPARATOR) && NoOtherVerdict(u, code) && NoOtherVerdict(t, code)
    ensures Decode(action, u + CODE_TESTS_SEPARATOR + t + MarkerOf(code)) == Some(Response(code, u, Some(t)))
  {
    var x := u + CODE_TESTS_SEPARATOR + t;
    NoEscapeAtEnd(x, code);
    VerdictsAround(u, t, code);
    SectionsOf(u, t, code);
    VerdictAtEnd(x, code);
  }

  lemma PlainVerdict(x: string, k: string, code: int)
    requires code in {OK, USER_ERROR, TEST_ERROR} && |x + k| <= MAX_SIZE && ExitCode(x + k) == code
    ensures NoOtherVerdict(x, code)
  {
    EndSplits(x, k);
    VerdictShows("", x, k, code);
  }

  lemma OccursBehind(u: string, s: string, t: string, k: string)
    ensures Contains(u + s + t + k, s)
  {
    assert OccursAt(u + s + t + k, s, |u|);
  }

  lemma PlainDecodeShows(action: Action, m: Text, u: string, t: string, code: int)
    requires action != Playground && code in {OK, TEST_ERROR} && !HasEscapeSequence(m)
    requires Decode(action, m) == Some(Response(code, u, Some(t)))
    ensures ExitCode(m) == code && ChapterOutput(code, m) == Some((u, t))
  {
  }

  lemma OnlyPlainRoundTrip(action: Action, u: string, t: string, code: int)
    requires action != Playground && code in {OK, TEST_ERROR}
    requires |u + CODE_TESTS_SEPARATOR + t + MarkerOf(code)| <= MAX_SIZE
    requires Decode(action, u + CODE_TESTS_SEPARATOR + t + MarkerOf(code)) == Some(Response(code, u, Some(t)))
    ensures !Contains(u, CODE_TESTS_SEPARATOR) && NoOtherVerdict(u, code) && NoOtherVerdict(t, code)
  {
    var x := u + CODE_TESTS_SEPARATOR + t;
    NoEscapeAtEnd(x, code);
    PlainDecodeShows(action, x + MarkerOf(code), u, t, code);
    PlainVerdict(x, MarkerOf(code), code);
    VerdictsAround(u, t, code);
    OccursBehind(u, CODE_TESTS_SEPARATOR, t, MarkerOf(code));
    SectionsShow(x + MarkerOf(code), u, t, code);
  }

  /** An answer without line breaks behind its markers is not stripped, so that its parts may hold escaped markers. */
  lemma PlainChapterRoundTrip(action: Action, u: string, t: string, code: int)
    requires action != Playground && code in {OK, TEST_ERROR}
    requires |u + CODE_TESTS_SEPARATOR + t + MarkerOf(code)| <= MAX_SIZE
    ensures Decode(action, u + CODE_TESTS_SEPARATOR + t + MarkerOf(code)) == Some(Response(code, u, Some(t)))
       <==> !Contains(u, CODE_TESTS_SEPARATOR) && NoOtherVerdict(u, code) && NoOtherVerdict(t, code)
  {
    if !Contains(u, CODE_TESTS_SEPARATOR) && NoOtherVerdict(u, code) && NoOtherVerdict(t, code) {
      PlainRoundTrip(action, u, t, code);
    }
    if Decode(action, u + CODE_TESTS_SEPARATOR + t + MarkerOf(code)) == Some(Response(code, u, Some(t))) {
      OnlyPlainRoundTrip(action, u, t, code);
    }
  }

  /** The same for an answer that ends with the verdict on the user's code. */
  lemma PlainUserErrorRoundTrip(action: Action, u: string)
    requires |u + USER_SOLUTION_ERROR| <= MAX_SIZE
    ensures Decode(action, u + USER_SOLUTION_ERROR) == Some(Response(USER_ERROR, u, None))
       <==> NoOtherVerdict(u, USER_ERROR)
  {
    var k := USER_SOLUTION_ERROR;
    NoEscapeAtEnd(u, USER_ERROR);
    if NoOtherVerdict(u, USER_ERROR) {
      VerdictAtEnd(u, USER_ERROR);
      Lengths();
      assert (u + k)[0..|u|] == u;
    }
    if Decode(action, u + k) == Some(Response(USER_ERROR, u, None)) {
      DecodeIsTotal(action, u + k);
      PlainVerdict(u, k, USER_ERROR);
    }
  }

  lemma PlaygroundOutputOf(u: string)
    requires |u + USER_CODE_SEPARATOR| <= MAX_SIZE && !Contains(u, USER_CODE_SEPARATOR)
    ensures ExitCode(u + USER_CODE_SEPARATOR) == OK && PlaygroundOutput(u + USER_CODE_SEPARATOR) == Some(u)
  {
    var k := USER_CODE_SEPARATOR;
    MarkersAreListed(OK);
    VerdictAtEnd(u, OK);
    FoundHere(u, k, "");
    assert u + k + "" == u + k && (u + k)[0..|u|] == u;
  }

  /** The same for a playground's answer. */
  lemma PlainPlaygroundRoundTrip(u: string)
    requires |u + USER_CODE_SEPARATOR| <= MAX_SIZE
    ensures Decode(Playground, u + USER_CODE_SEPARATOR) == Some(Response(OK, u, None))
       <==> !Contains(u, USER_CODE_SEPARATOR)
  {
    var k := USER_CODE_SEPARATOR;
    NoEscapeAtEnd(u, OK);
    if !Contains(u, k) {
      PlaygroundOutputOf(u);
    }
    if Decode(Playground, u + k) == Some(Response(OK, u, None)) {
      DecodeIsTotal(Playground, u + k);
      PlaygroundShows(u + k, u);
    }
  }

  lemma MarkerFreeMeans(x: string, except: set<string>)
    requires MarkerFree(MARKERS, x)
    ensures NoEscapedMarker(x, except) && forall code :: NoOtherVerdict(x, code)
  {
    forall q | q in MARKERS - except ensures !Contains(x, q + CRLF) {
      forall i: nat ensures !OccursAt(x, q + CRLF, i) {
        EscapedOccurrence(x, q, i);
      }
    }
    MarkersAreListed(OK);
    MarkersAreListed(USER_ERROR);
  }

  /** What the user's output tells about the text it was taken from. */
  lemma UserOutputShows(c: Text, u: string)
    requires ExitCode(c) == USER_ERROR && UserOutput(c) == Some(u)
    ensures u <= c && |c| == |u + USER_SOLUTION_ERROR|
  {
  }

  /** All passes over a text that ends with an escaped marker: what they leave, and what that tells. */
  lemma EndStripped(u: string, k: string)
    requires k in MARKERS && |u + k + CRLF| <= MAX_SIZE
    ensures HasEscapeSequence(u + k + CRLF)
    ensures NoEscapedMarker(u, {}) ==> RemoveEscapes(u + k + CRLF) == u + k
    ensures u <= RemoveEscapes(u + k + CRLF) && |RemoveEscapes(u + k + CRLF)| >= |u + k| ==> NoEscapedMarker(u, {})
  {
    PatternsOfMarkers();
    NoEscapedMarkerMeans(u, {});
    if NoEscapedMarker(u, {}) {
      StripEnd(MARKERS, ESCAPE_PATTERNS, u, k);
    }
    if u <= RemoveEscapes(u + k + CRLF) && |RemoveEscapes(u + k + CRLF)| >= |u + k| {
      forall q | q in MARKERS ensures NoBreak(u, q) {
        StripEndOnly(MARKERS, ESCAPE_PATTERNS, u, k, q);
      }
    }
  }

  lemma UserDecodeShows(action: Action, m: Text, u: string)
    requires HasEscapeSequence(m) && Decode(action, m) == Some(Response(USER_ERROR, u, None))
    ensures ExitCode(m) == ExitCode(RemoveEscapes(m)) == USER_ERROR && UserOutput(RemoveEscapes(m)) == Some(u)
  {
    DecodeIsTotal(action, m);
    StrippingKeepsVerdict(m);
  }

  lemma UserErrorOnly(action: Action, u: string)
    requires |u + USER_SOLUTION_ERROR + CRLF| <= MAX_SIZE
    requires Decode(action, u + USER_SOLUTION_ERROR + CRLF) == Some(Response(USER_ERROR, u, None))
    ensures NoEscapedMarker(u, {}) && NoOtherVerdict(u, USER_ERROR)
  {
    var k := USER_SOLUTION_ERROR;
    var m: Text := u + k + CRLF;
    MarkersAreListed(USER_ERROR);
    EndStripped(u, k);
    UserDecodeShows(action, m, u);
    UserOutputShows(RemoveEscapes(m), u);
    EndSplits(u, k);
    VerdictShows("", u, k + CRLF, USER_ERROR);
  }

  /** The user's output comes out of an answer that ends with the verdict on the user's code exactly if it holds
      no escaped marker and no marker of success. */
  lemma UserErrorRoundTrip(action: Action, u: string)
    requires |u + USER_SOLUTION_ERROR + CRLF| <= MAX_SIZE
    ensures Decode(action, u + USER_SOLUTION_ERROR + CRLF) == Some(Response(USER_ERROR, u, None))
       <==> NoEscapedMarker(u, {}) && NoOtherVerdict(u, USER_ERROR)
  {
    var k := USER_SOLUTION_ERROR;
    var m: Text := u + k + CRLF;
    if NoEscapedMarker(u, {}) && NoOtherVerdict(u, USER_ERROR) {
      MarkersAreListed(USER_ERROR);
      EndStripped(u, k);
      VerdictAtEnd(u, USER_ERROR);
      assert (u + k)[0..|u|] == u;
    }
    if Decode(action, m) == Some(Response(USER_ERROR, u, None)) {
      UserErrorOnly(action, u);
    }
  }

  /** A playground's answer: everything before the first marker of success is the user's output. */
  lemma PlaygroundRoundTrip(u: string)
    requires |u + USER_CODE_SEPARATOR + CRLF| <= MAX_SIZE
    ensures Decode(Playground, u + USER_CODE_SEPARATOR + CRLF) == Some(Response(OK, u, None))
       <==> NoEscapedMarker(u, {}) && !Contains(u, USER_CODE_SEPARATOR)
  {
    var k := USER_CODE_SEPARATOR;
    var m: Text := u + k + CRLF;
    MarkersAreListed(OK);
    EndStripped(u, k);
    if NoEscapedMarker(u, {}) && !Contains(u, k) {
      PlaygroundOutputOf(u);
    }
    if Decode(Playground, m) == Some(Response(OK, u, None)) {
      DecodeIsTotal(Playground, m);
      StrippingKeepsVerdict(m);
      PlaygroundShows(RemoveEscapes(m), u);
    }
  }

  lemma PlaygroundShows(c: Text, u: string)
    requires ExitCode(c) == OK && PlaygroundOutput(c) == Some(u)
    ensures u <= c && |c| >= |u + USER_CODE_SEPARATOR| && !Contains(u, USER_CODE_SEPARATOR)
  {
    var k := USER_CODE_SEPARATOR;
    var f := Find(c, k);
    assert f != NPOS;
    assert f == |u| && u == c[..f];
    forall i: nat ensures !OccursAt(u, k, i) {
      assert OccursAt(u, k, i) ==> OccursAt(c, k, i);
    }
  }

  // ---- All answers of a chapter

  /** What a chapter's container has to say: the tests ran and passed or failed, or the user's code failed. */
  datatype Report = Tested(passed: bool, user: string, tests: string) | Failed(user: string)

  function CodeOf(a: Report): int {
    if a.Failed? then USER_ERROR else if a.passed then OK else TEST_ERROR
  }

  /** How it is said. */
  function Written(a: Report): string {
    if a.Failed? then a.user + USER_SOLUTION_ERROR + CRLF
    else Frame(a.user, CODE_TESTS_SEPARATOR, a.tests, MarkerOf(CodeOf(a)))
  }

  ghost predicate Clear(a: Report) {
    match a
    case Tested(_, user, tests) => Separable(user, tests, CodeOf(a))
    case Failed(user) => NoEscapedMarker(user, {}) && NoOtherVerdict(user, USER_ERROR)
  }

  /** All answers of a chapter are understood exactly if they are clear. */
  lemma ReportRoundTrip(action: Action, a: Report)
    requires action != Playground && |Written(a)| <= MAX_SIZE
    ensures Decode(action, Written(a)) == Some(Response(CodeOf(a), a.user, if a.Tested? then Some(a.tests) else None))
       <==> Clear(a)
  {
    match a
    case Tested(_, user, tests) => ChapterRoundTrip(action, user, tests, CodeOf(a));
    case Failed(user) => UserErrorRoundTrip(action, user);
  }

  /** What running code in a container brings back: the report, exactly if it is clear. */
  lemma RunReport(action: Action, a: Report)
    requires action != Playground && |Written(a)| <= MAX_SIZE
    ensures RunCode(Answered(Written(a)), action)
         == Some(Response(CodeOf(a), a.user, if a.Tested? then Some(a.tests) else None))
       <==> Clear(a)
  {
    ReportRoundTrip(action, a);
  }

  /** In a playground: the output of successful code, exactly under the conditions of its round trip. */
  lemma RunPlayground(u: string)
    requires |u + USER_CODE_SEPARATOR + CRLF| <= MAX_SIZE
    ensures RunCode(Answered(u + USER_CODE_SEPARATOR + CRLF), Playground) == Some(Response(OK, u, None))
       <==> NoEscapedMarker(u, {}) && !Contains(u, USER_CODE_SEPARATOR)
  {
    PlaygroundRoundTrip(u);
  }

  /** And the output of code that failed, in a playground as elsewhere. */
  lemma RunFailure(action: Action, u: string)
    requires |u + USER_SOLUTION_ERROR + CRLF| <= MAX_SIZE
    ensures RunCode(Answered(u + USER_SOLUTION_ERROR + CRLF), action) == Some(Response(USER_ERROR, u, None))
       <==> NoEscapedMarker(u, {}) && NoOtherVerdict(u, USER_ERROR)
  {
    UserErrorRoundTrip(action, u);
  }

  /** Answers whose parts hold no marker are clear, whatever line breaks they hold. */
  lemma MarkerFreeIsClear(a: Report)
    requires MarkerFree(MARKERS, a.user) && (a.Tested? ==> MarkerFree(MARKERS, a.tests))
    ensures Clear(a)
  {
    MarkersAreListed(OK);
    MarkerFreeMeans(a.user, {});
    if a.Tested? {
      MarkerFreeMeans(a.tests, {CODE_TESTS_SEPARATOR});
    }
  }

  /** Hence no two clear answers of a chapter look the same. */
  lemma FramingIsInjective(a: Report, b: Report)
    requires Clear(a) && Clear(b) && Written(a) == Written(b) && |Written(a)| <= MAX_SIZE
    ensures a == b
  {
    ReportRoundTrip(Chapter, a);
    ReportRoundTrip(Chapter, b);
  }
}
