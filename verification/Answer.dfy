/** The common part of decoding a container's answer: the verdict and the removal of line breaks. */
module Answer {
  import opened Text
  import opened Folding
  import opened MarkerTheory
  import opened Markers
  import opened Stripping

  /** The statuses of the enumeration `ExitCodes`; a status of the `timeout` utility is cast into it unchanged. */
  const OK := 0
  const USER_ERROR := 1
  const TEST_ERROR := 2
  const UNKNOWN := 3

  const TIMEOUT_CODES: seq<(string, int)> := [("124\r\n", 124), ("125\r\n", 125), ("137\r\n", 137)]

  const CORRELATIONS: seq<(string, int)> :=
    [(USER_CODE_SEPARATOR, OK), (USER_SOLUTION_ERROR, USER_ERROR), (TEST_CASES_ERROR, TEST_ERROR)]

  const ESCAPE_PATTERNS: seq<Pattern> :=
    [CODE_TESTS_SEPARATOR + CRLF, USER_CODE_SEPARATOR + CRLF, TEST_CASES_ERROR + CRLF, USER_SOLUTION_ERROR + CRLF]

  /** `getStringLength`: the length of the marker of a verdict; `-1` wraps to `NPOS`. */
  function GetStringLength(code: int): Size {
    if code == OK then |CORRELATIONS[0].0|
    else if code == USER_ERROR then |CORRELATIONS[1].0|
    else if code == TEST_ERROR then |CORRELATIONS[2].0|
    else NPOS
  }

  lemma Lengths()
    ensures |CODE_TESTS_SEPARATOR| == 21
    ensures GetStringLength(OK) == |USER_CODE_SEPARATOR| == 25
    ensures GetStringLength(USER_ERROR) == |USER_SOLUTION_ERROR| == 28
    ensures GetStringLength(TEST_ERROR) == |TEST_CASES_ERROR| == 26
  {
  }

  /** The verdict on a text: a `timeout` suffix first, then the first marker of the table that occurs. */
  function ExitCode(m: Text): int {
    if EndsWith(m, "124\r\n") then 124
    else if EndsWith(m, "125\r\n") then 125
    else if EndsWith(m, "137\r\n") then 137
    else if Find(m, USER_CODE_SEPARATOR) != NPOS then OK
    else if Find(m, USER_SOLUTION_ERROR) != NPOS then USER_ERROR
    else if Find(m, TEST_CASES_ERROR) != NPOS then TEST_ERROR
    else UNKNOWN
  }

  /** No status of the `timeout` utility ends the text. */
  predicate InTime(m: string) {
    !EndsWith(m, "124\r\n") && !EndsWith(m, "125\r\n") && !EndsWith(m, "137\r\n")
  }

  /** Each verdict by what the text holds: success wins over failed code, and that over failed tests. */
  lemma VerdictMeans(m: Text)
    ensures ExitCode(m) == 0 <==> InTime(m) && Contains(m, USER_CODE_SEPARATOR)
    ensures ExitCode(m) == 1 <==>
            InTime(m) && !Contains(m, USER_CODE_SEPARATOR) && Contains(m, USER_SOLUTION_ERROR)
    ensures ExitCode(m) == 2 <==>
            && InTime(m) && !Contains(m, USER_CODE_SEPARATOR) && !Contains(m, USER_SOLUTION_ERROR)
            && Contains(m, TEST_CASES_ERROR)
    ensures ExitCode(m) == 3 <==>
            && InTime(m) && !Contains(m, USER_CODE_SEPARATOR) && !Contains(m, USER_SOLUTION_ERROR)
            && !Contains(m, TEST_CASES_ERROR)
  {
  }

  method GetExitCode(m: Text) returns (code: int)
    ensures code == ExitCode(m)
  {
    for i := 0 to |TIMEOUT_CODES|
      invariant forall j | 0 <= j < i :: !EndsWith(m, TIMEOUT_CODES[j].0)
    {
      assert i > 0 ==> !EndsWith(m, TIMEOUT_CODES[0].0);
      assert i > 1 ==> !EndsWith(m, TIMEOUT_CODES[1].0);
      if EndsWith(m, TIMEOUT_CODES[i].0) {
        return TIMEOUT_CODES[i].1;
      }
    }
    assert !EndsWith(m, TIMEOUT_CODES[0].0) && !EndsWith(m, TIMEOUT_CODES[1].0) && !EndsWith(m, TIMEOUT_CODES[2].0);
    for i := 0 to |CORRELATIONS|
      invariant forall j | 0 <= j < i :: !Contains(m, CORRELATIONS[j].0)
    {
      assert i > 0 ==> !Contains(m, CORRELATIONS[0].0);
      assert i > 1 ==> !Contains(m, CORRELATIONS[1].0);
      if Find(m, CORRELATIONS[i].0) != NPOS {
        return CORRELATIONS[i].1;
      }
    }
    assert !Contains(m, CORRELATIONS[0].0) && !Contains(m, CORRELATIONS[1].0) && !Contains(m, CORRELATIONS[2].0);
    return UNKNOWN;
  }

  function RemoveEscapes(m: Text): Text {
    StripAll(m, ESCAPE_PATTERNS)
  }

  method RemoveEscapeSequencesTender(s: Text) returns (m: Text)
    ensures m == RemoveEscapes(s)
  {
    m := StripEach(s, ESCAPE_PATTERNS);
  }

  predicate HasEscapeSequence(m: string) {
    EndsWith(m, CRLF)
  }

  lemma PatternsAreMarkers()
    ensures EscapedMarkers(MARKERS, ESCAPE_PATTERNS) && Distinct(ESCAPE_PATTERNS)
  {
  }

  lemma CodesAreSuffixes()
    ensures StatusSuffix("124\r\n") && StatusSuffix("125\r\n") && StatusSuffix("137\r\n")
  {
  }

  /** Removing the line breaks never changes the verdict, whatever the text. */
  lemma StrippingKeepsVerdict(m: Text)
    ensures ExitCode(RemoveEscapes(m)) == ExitCode(m)
  {
    MarkersAreAFamily();
    PatternsAreMarkers();
    CodesAreSuffixes();
    StripAllKeepsVerdict(MARKERS, m, ESCAPE_PATTERNS, USER_CODE_SEPARATOR, "124\r\n");
    StripAllKeepsVerdict(MARKERS, m, ESCAPE_PATTERNS, USER_SOLUTION_ERROR, "125\r\n");
    StripAllKeepsVerdict(MARKERS, m, ESCAPE_PATTERNS, TEST_CASES_ERROR, "137\r\n");
  }

  /** The four passes can be made in any order. */
  lemma StrippingOrderIsFree(m: Text, es: seq<Pattern>)
    requires multiset(es) == multiset(ESCAPE_PATTERNS)
    ensures StripAll(m, es) == RemoveEscapes(m)
  {
    MarkersAreAFamily();
    PatternsAreMarkers();
    StripOrderIsFree(MARKERS, m, ESCAPE_PATTERNS, es);
  }

  /** The text shrinks by one line break for each of the four escaped markers that occurs in it. */
  lemma StrippingLength(m: Text)
    ensures |RemoveEscapes(m)| == |m| - 2 * Occurring(m, ESCAPE_PATTERNS)
  {
    MarkersAreAFamily();
    PatternsAreMarkers();
    StripLength(MARKERS, m, ESCAPE_PATTERNS);
  }
}
