/**
 Decoding a container's answer into a response, for chapters, playgrounds and practices.
 `None` stands for a `std::out_of_range` thrown by `substr`.
 */
module Responses {
  import opened Wrappers
  import opened Text
  import opened Markers
  import opened Answer

  datatype Response = Response(sourceCode: int, output: string, testsOutput: Option<string>)

  datatype Action = Chapter | Playground | Practice

  const INVALID_CODE := -1
  const INTERNAL_ERROR := "Internal error"

  /** `getMessageOutput` of process_chapter.cpp: the user's output and the tests' output. */
  function ChapterOutput(code: int, m: Text): Option<(Text, Text)> {
    var userCodeEnd := Find(m, CODE_TESTS_SEPARATOR);
    var users := if userCodeEnd == 0 then Some("") else Substr(m, 0, userCodeEnd);
    var from := Plus(userCodeEnd, |CODE_TESTS_SEPARATOR|);
    var amount := Minus(Minus(|m|, from), GetStringLength(code));
    var tests := Substr(m, from, amount);
    if users.None? || tests.None? then None else Some((users.value, tests.value))
  }

  /** `getMessageOutput` of process_playground.cpp. */
  function PlaygroundOutput(m: Text): Option<Text> {
    var userCodeEnd := Find(m, USER_CODE_SEPARATOR);
    if userCodeEnd == 0 then Some("") else Substr(m, 0, userCodeEnd)
  }

  function UserOutput(m: Text): Option<Text> {
    Substr(m, 0, Minus(|m|, GetStringLength(USER_ERROR)))
  }

  function UserErrorResponse(m: Text): Option<Response> {
    var out := UserOutput(m);
    if out.None? then None else Some(Response(USER_ERROR, out.value, None))
  }

  function ProcessChapter(m: Text): Option<Response> {
    var code := ExitCode(m);
    if code == OK || code == TEST_ERROR then
      var out := ChapterOutput(code, m);
      if out.None? then None else Some(Response(code, out.value.0, Some(out.value.1)))
    else if code == USER_ERROR then UserErrorResponse(m)
    else Some(Response(code, INTERNAL_ERROR, Some("")))
  }

  function ProcessPlayground(m: Text): Option<Response> {
    var code := ExitCode(m);
    if code == OK then
      var out := PlaygroundOutput(m);
      if out.None? then None else Some(Response(OK, out.value, None))
    else if code == USER_ERROR then UserErrorResponse(m)
    else Some(Response(code, INTERNAL_ERROR, Some("")))
  }

  /** The text that is processed: line breaks are only removed where the answer ends with one. */
  function Cleaned(m: Text): Text {
    if HasEscapeSequence(m) then RemoveEscapes(m) else m
  }

  /** `getCourseResponse`, `getPlaygroungResponse` and `getPracticeResponse`. */
  function Decode(action: Action, m: Text): Option<Response> {
    match action
    case Chapter => ProcessChapter(Cleaned(m))
    case Playground => ProcessPlayground(Cleaned(m))
    case Practice => ProcessChapter(Cleaned(m))
  }

  lemma VerdictNeedsRoom(m: Text)
    ensures ExitCode(m) == OK ==> |m| >= 25
    ensures ExitCode(m) == USER_ERROR ==> |m| >= 28
    ensures ExitCode(m) == TEST_ERROR ==> |m| >= 26
  {
  }

  /** What the wrapping index arithmetic of the chapter decoder comes to, in plain arithmetic. */
  lemma ChapterOutputMeaning(code: int, m: Text)
    requires (code == OK || code == TEST_ERROR) && GetStringLength(code) <= |m|
    ensures
      var s := Find(m, CODE_TESTS_SEPARATOR);
      var users := if s == NPOS then m else m[..s];
      var from := if s == NPOS then 20 else s + 21;
      var end := if from + GetStringLength(code) <= |m| then |m| - GetStringLength(code) else |m|;
      ChapterOutput(code, m) == Some((users, m[from..end]))
  {
    Lengths();
    var s := Find(m, CODE_TESTS_SEPARATOR);
    SubstrOfTail(m, if s == NPOS then 20 else s + 21, GetStringLength(code));
    assert Plus(s, 21) == if s == NPOS then 20 else s + 21;
  }

  /** Decoding never throws, and the status is the verdict on the raw answer, in all three paths. Without a verdict
      on the user's code or on its tests nothing of the answer is passed on. */
  lemma DecodeIsTotal(action: Action, m: Text)
    ensures Decode(action, m).Some?
    ensures Decode(action, m).value.sourceCode == ExitCode(m)
    ensures ExitCode(m) in {0, 1, 2, 3, 124, 125, 137}
    ensures ExitCode(m) !in {OK, USER_ERROR, TEST_ERROR} || (ExitCode(m) == TEST_ERROR && action == Playground) ==>
              Decode(action, m).value == Response(ExitCode(m), INTERNAL_ERROR, Some(""))
  {
    StrippingKeepsVerdict(m);
    var d := Cleaned(m);
    VerdictNeedsRoom(d);
    Lengths();
    if ExitCode(d) == OK || ExitCode(d) == TEST_ERROR {
      ChapterOutputMeaning(ExitCode(d), d);
    }
  }

  /** The text the decoder works on: stripped if the answer ends with a line break, and otherwise the answer itself. */
  ghost predicate WorksOn(m: Text, c: Text) {
    c == if EndsWith(m, "\r\n") then RemoveEscapes(m) else m
  }

  /** Everything in front of the first `p`, and everything where there is none. */
  function Before(c: Text, p: string): string {
    if Find(c, p) == NPOS then c else c[..Find(c, p)]
  }

  /** The tests' output: from 21 letters behind the place of the inner marker on, that place being -1 where there is
      none, to the marker of the verdict at the end, which has `n` letters, if that leaves anything. */
  function TestsOutput(c: Text, n: nat): string
    requires 25 <= n <= |c|
  {
    var s := Find(c, CODE_TESTS_SEPARATOR);
    var from := if s == NPOS then 20 else s + 21;
    assert s != NPOS ==> OccursAt(c, CODE_TESTS_SEPARATOR, s) && |CODE_TESTS_SEPARATOR| == 21;
    c[from..if from + n <= |c| then |c| - n else |c|]
  }

  lemma SectionsMeaning(code: int, c: Text, n: nat)
    requires (code == OK && n == 25) || (code == TEST_ERROR && n == 26)
    requires n <= |c|
    ensures ChapterOutput(code, c) == Some((Before(c, CODE_TESTS_SEPARATOR), TestsOutput(c, n)))
  {
    Lengths();
    ChapterOutputMeaning(code, c);
  }

  lemma ChapterMeaning(c: Text)
    requires ExitCode(c) in {OK, TEST_ERROR}
    ensures
      var n := if ExitCode(c) == OK then 25 else 26;
      && n <= |c|
      && ProcessChapter(c) == Some(Response(ExitCode(c), Before(c, CODE_TESTS_SEPARATOR), Some(TestsOutput(c, n))))
  {
    VerdictNeedsRoom(c);
    SectionsMeaning(ExitCode(c), c, if ExitCode(c) == OK then 25 else 26);
  }

  lemma FailureMeaning(c: Text)
    requires ExitCode(c) == USER_ERROR
    ensures |c| >= 28 && ProcessChapter(c) == ProcessPlayground(c) == Some(Response(1, c[..|c| - 28], None))
  {
    VerdictNeedsRoom(c);
    Lengths();
    assert c[0..|c| - 28] == c[..|c| - 28];
  }

  lemma PlaygroundMeaning(c: Text)
    requires ExitCode(c) == OK
    ensures Contains(c, USER_CODE_SEPARATOR)
    ensures ProcessPlayground(c) == Some(Response(0, Before(c, USER_CODE_SEPARATOR), None))
  {
    assert Find(c, USER_CODE_SEPARATOR) != NPOS;
  }

  /** What the decoder makes of any text whatever, `c` being what it works on: tests passed or failed, the user's code
      failed, success in a playground, and no verdict. */
  lemma DecodeMeaning(action: Action, m: Text, c: Text)
    requires WorksOn(m, c)
    ensures action != Playground && ExitCode(m) in {OK, TEST_ERROR} ==>
              var n := if ExitCode(m) == OK then 25 else 26;
              && n <= |c|
              && Decode(action, m)
                 == Some(Response(ExitCode(m), Before(c, CODE_TESTS_SEPARATOR), Some(TestsOutput(c, n))))
    ensures ExitCode(m) == USER_ERROR ==>
              |c| >= 28 && Decode(action, m) == Some(Response(1, c[..|c| - 28], None))
    ensures action == Playground && ExitCode(m) == OK ==>
              Decode(action, m) == Some(Response(0, Before(c, USER_CODE_SEPARATOR), None))
    ensures ExitCode(m) !in {OK, USER_ERROR, TEST_ERROR} || (action == Playground && ExitCode(m) == TEST_ERROR) ==>
              Decode(action, m) == Some(Response(ExitCode(m), "Internal error", Some("")))
  {
    StrippingKeepsVerdict(m);
    assert c == Cleaned(m) && ExitCode(c) == ExitCode(m);
    if ExitCode(m) == USER_ERROR {
      FailureMeaning(c);
    } else if action == Playground && ExitCode(m) == OK {
      PlaygroundMeaning(c);
    } else if action != Playground && ExitCode(m) in {OK, TEST_ERROR} {
      ChapterMeaning(c);
    }
  }

  lemma OneSuffix(m: string, c: string, c': string)
    requires |c| == |c'|
    ensures EndsWith(m, c) && EndsWith(m, c') ==> c == c'
  {
  }

  lemma OneStatus(m: string)
    ensures !(EndsWith(m, "124\r\n") && EndsWith(m, "125\r\n"))
    ensures !(EndsWith(m, "124\r\n") && EndsWith(m, "137\r\n"))
    ensures !(EndsWith(m, "125\r\n") && EndsWith(m, "137\r\n"))
  {
    OneSuffix(m, "124\r\n", "125\r\n");
    OneSuffix(m, "124\r\n", "137\r\n");
    OneSuffix(m, "125\r\n", "137\r\n");
    assert "124\r\n"[2] == '4' && "125\r\n"[2] == '5' && "137\r\n"[2] == '7';
  }

  /** A `timeout` suffix of the raw answer decides, whatever markers stand before it. */
  lemma TimeoutDominates(action: Action, m: Text)
    ensures Decode(action, m).Some?
    ensures Decode(action, m).value.sourceCode == 124 <==> EndsWith(m, "124\r\n")
    ensures Decode(action, m).value.sourceCode == 125 <==> EndsWith(m, "125\r\n")
    ensures Decode(action, m).value.sourceCode == 137 <==> EndsWith(m, "137\r\n")
  {
    DecodeIsTotal(action, m);
    OneStatus(m);
  }

  /** What running code in a container comes to: the archive could not be put, the execution failed, or it answered. */
  datatype Execution = NotPrepared | ExecFailed(message: Text) | Answered(message: Text)

  /** `BaseCodeLauncher::runCode`. A failed execution passes its success flag, false, on as the status 0. */
  function RunCode(execution: Execution, action: Action): Option<Response> {
    match execution
    case NotPrepared => Some(Response(INVALID_CODE, "", None))
    case ExecFailed(message) => Some(Response(0, message, None))
    case Answered(message) => Decode(action, message)
  }

  /** The status 0 means success of the user's code exactly where the execution did not fail. */
  lemma SuccessMeans(execution: Execution, action: Action)
    ensures RunCode(execution, action).Some?
    ensures RunCode(execution, action).value.sourceCode == OK <==>
            || execution.ExecFailed?
            || (execution.Answered? && Contains(execution.message, USER_CODE_SEPARATOR)
                && !EndsWith(execution.message, "124\r\n") && !EndsWith(execution.message, "125\r\n")
                && !EndsWith(execution.message, "137\r\n"))
  {
    if execution.Answered? {
      DecodeIsTotal(action, execution.message);
    }
  }

  /** Without an answer there is no tests' output, and the message of the failure, if there is one, is the output. */
  lemma NoAnswerMeans(execution: Execution, action: Action)
    requires !execution.Answered?
    ensures RunCode(execution, action).Some?
    ensures
      var r := RunCode(execution, action).value;
      && r.testsOutput == None
      && (execution.NotPrepared? ==> r.sourceCode == -1 && r.output == "")
      && (execution.ExecFailed? ==> r.sourceCode == 0 && r.output == execution.message)
  {
  }

  /** A failed execution is reported as a success although no marker was printed. */
  lemma FailedExecutionLooksLikeSuccess()
    ensures RunCode(ExecFailed("error"), Chapter).value.sourceCode == OK
    ensures !Contains("error", USER_CODE_SEPARATOR)
  {
    Lengths();
  }
}
