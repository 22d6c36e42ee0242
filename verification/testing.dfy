/** The testing phase: the generated project's tests are run when there is
    somewhere and something to run, a tester reads the report, and unless
    the tester reports no errors the programmer fixes the code; this repeats
    a bounded number of times. */
module Testing {
  import opened Options
  import opened Text
  import opened OrderedMaps
  import opened CodeManager
  import opened DevState
  import opened TestRunner
  import opened Session
  import opened BoundedLoop

  const Phase := "Testing"
  const NoErrors := "<INFO>No errors</INFO>"
  const SpacedNoErrors := "<INFO> No errors</INFO>"
  const NotRun := "Tests not run (missing directory or language)"
  const Completed := "Testing completed"

  /** The words that, in a lower-cased result, signal a problem. */
  const ProblemWords: seq<string> := ["error", "fail", "bug", "issue", "problem"]

  /** The tester's all-clear marker, in either spelling; matched exactly,
      with case. */
  predicate Clear(text: string) {
    Contains(text, NoErrors) || Contains(text, SpacedNoErrors)
  }

  predicate SignalsProblem(text: string) {
    exists n :: 0 <= n < |ProblemWords| && Contains(Lower(text), ProblemWords[n])
  }

  /** The stored error summary mentions an error, in any case. */
  predicate SummaryMentionsError(s: State) {
    s.errorSummary != "" && Contains(Lower(s.errorSummary), "error")
  }

  /** `test_condition`: the all-clear marker stops the loop; otherwise an
      error in the stored summary, or a problem word in the result, keeps it
      going. */
  predicate Continues(result: string, w: World) {
    if Clear(result) then false
    else if SummaryMentionsError(w.state) then true
    else SignalsProblem(result)
  }

  /** The loop goes on exactly when the result is not all-clear and either
      the summary or the result points at a problem. */
  lemma ContinuesIff(result: string, w: World)
    ensures Continues(result, w) <==> !Clear(result) && (SummaryMentionsError(w.state) || SignalsProblem(result))
  {
  }

  /** Tests run only with both an output directory and a language. */
  predicate Ready(s: State) {
    s.outputDirectory != "" && s.language != ""
  }

  /** Step 1: run the tests and store the report, and the error summary of a
      failed run.  Without a directory or language a fixed report is stored
      and nothing runs.  A test runner exception propagates. */
  function RunSuite(env: Env, w: World): (s: Step<World>)
    ensures s.world.calls == w.calls && s.world.saves == w.saves
    ensures s.world.testRuns == w.testRuns + (if Ready(w.state) then 1 else 0)
    ensures s.world.state.(testReports := w.state.testReports, errorSummary := w.state.errorSummary) == w.state
    ensures s.result.Raise? <==> Ready(w.state) && RunTests(w.state.language, env.toolchain(w.testRuns)).Raise?
    ensures s.result.Raise? ==> s.world.state == w.state
    ensures s.result.Ok? ==> s.result.value == s.world.state.testReports
    ensures !Ready(w.state) ==> s.world.state.testReports == NotRun && s.world.state.errorSummary == ""
    ensures Ready(w.state) && s.result.Ok? ==>
      var (passed, output) := RunTests(w.state.language, env.toolchain(w.testRuns)).value;
      && s.world.state.testReports == output
      && (passed ==> s.world.state.errorSummary == "")
      && (!passed ==> s.world.state.errorSummary == ParseTestErrors(output))
  {
    var st := w.state;
    if Ready(st) then
      var w' := w.(testRuns := w.testRuns + 1);
      match RunTests(st.language, env.toolchain(w.testRuns))
      case Raise(m) => Step(Raise(m), w')
      case Ok((passed, output)) =>
        var summary := if !passed then ParseTestErrors(output) else "";
        Step(Ok(output), w'.(state := st.(testReports := output, errorSummary := summary)))
    else
      Step(Ok(NotRun), w.(state := st.(testReports := NotRun, errorSummary := "")))
  }

  /** Step 2: the tester reads the task, the language, the report, the error
      summary and the files. */
  function Analyse(env: Env, w: World): (s: Step<World>)
    ensures s.world.saves == w.saves && s.world.testRuns == w.testRuns
    ensures s.world.calls == w.calls + [Call("Tester", env.prompts.testing(w.state.taskPrompt, w.state.language,
      w.state.testReports, w.state.errorSummary, CodesFormatted(w.state)))]
    ensures s.result.Ok? <==> env.reply(|w.calls|).Answer?
    ensures s.result.Ok? ==> s.result.value == env.reply(|w.calls|).text
    ensures s.world.state.(usage := w.state.usage) == w.state
  {
    var st := w.state;
    Ask(env, w, "Tester", Phase, env.models.phase,
        env.prompts.testing(st.taskPrompt, st.language, st.testReports, st.errorSummary, CodesFormatted(st)))
  }

  /** The result of a round in which the programmer made fixes. */
  function AnalysisSummary(analysis: string, fix: string): string {
    "Test Analysis: " + analysis + "\n\nFixes applied: " + fix
  }

  /** A fix reply carrying the all-clear marker ends the loop, whatever the
      tester said. */
  lemma FixClears(analysis: string, fix: string, w: World)
    requires Clear(fix)
    ensures !Continues(AnalysisSummary(analysis, fix), w)
  {
    var pre := "Test Analysis: " + analysis + "\n\nFixes applied: ";
    assert AnalysisSummary(analysis, fix) == pre + fix;
    if Contains(fix, NoErrors) {
      ContainsInSuffix(pre, fix, NoErrors);
    } else {
      ContainsInSuffix(pre, fix, SpacedNoErrors);
    }
  }

  /** An analysis that names a problem, followed by a fix reply without the
      marker, keeps the loop going. */
  lemma FixedRoundContinues(analysis: string, fix: string, w: World)
    requires !Clear(analysis) && !Clear(fix) && SignalsProblem(analysis)
    ensures Continues(AnalysisSummary(analysis, fix), w)
  {
    var head := "Test Analysis: ";
    var glue := "\n\nFixes applied: ";
    assert AnalysisSummary(analysis, fix) == "" + head + analysis + glue + fix;
    SummaryGlue(head, glue);
    MarkerAcross("", head, analysis);
    MarkerAcross("" + head + analysis, glue, fix);
    var n :| 0 <= n < |ProblemWords| && Contains(Lower(analysis), ProblemWords[n]);
    LowerAppend(head, analysis);
    LowerAppend(head + analysis, glue + fix);
    assert AnalysisSummary(analysis, fix) == (head + analysis) + (glue + fix);
    ContainsInSuffix(Lower(head), Lower(analysis), ProblemWords[n]);
    ContainsInPrefix(Lower(head + analysis), Lower(glue + fix), ProblemWords[n]);
  }

  lemma SummaryGlue(head: string, glue: string)
    requires head == "Test Analysis: " && glue == "\n\nFixes applied: "
    ensures forall i :: 0 <= i < |head| ==> head[i] != '<'
    ensures forall i :: 0 <= i < |glue| ==> glue[i] != '<'
    ensures forall i :: 0 <= i < |NoErrors| ==> NoErrors[i] != head[0] && NoErrors[i] != glue[0]
    ensures forall i :: 0 <= i < |SpacedNoErrors| ==> SpacedNoErrors[i] != head[0] && SpacedNoErrors[i] != glue[0]
  {
  }

  /** Glue that neither starts a marker nor occurs in one cannot create one. */
  lemma MarkerAcross(a: string, g: string, b: string)
    requires |g| > 0 && forall i :: 0 <= i < |g| ==> g[i] != '<'
    requires forall i :: 0 <= i < |NoErrors| ==> NoErrors[i] != g[0]
    requires forall i :: 0 <= i < |SpacedNoErrors| ==> SpacedNoErrors[i] != g[0]
    requires !Clear(a) && !Clear(b)
    ensures !Clear(a + g + b)
  {
    NotContainsAcross(a, g, b, NoErrors);
    NotContainsAcross(a, g, b, SpacedNoErrors);
  }

  /** `test_handler`. */
  function Handler(env: Env, w: World): (s: Step<World>)
    ensures s.world.testRuns <= w.testRuns + 1
    ensures |w.calls| <= |s.world.calls| <= |w.calls| + 2
    ensures s.world.state.taskPrompt == w.state.taskPrompt && s.world.state.language == w.state.language
    ensures s.world.state.outputDirectory == w.state.outputDirectory
  {
    var ran := RunSuite(env, w);
    match ran.result
    case Raise(_) => ran
    case Ok(_) =>
      var asked := Analyse(env, ran.world);
      match asked.result
      case Raise(_) => asked
      case Ok(analysis) =>
        if Clear(analysis) then asked
        else
          var fixed := Fix(env, asked.world, Phase, analysis);
          match fixed.result
          case Raise(_) => fixed
          case Ok(fix) => Step(Ok(AnalysisSummary(analysis, fix)), fixed.world)
  }

  /** A test runner exception ends the round before any agent is asked. */
  lemma HandlerRunnerRaises(env: Env, w: World)
    requires Ready(w.state) && RunTests(w.state.language, env.toolchain(w.testRuns)).Raise?
    ensures var s := Handler(env, w);
      && s.result == Raise(RunTests(w.state.language, env.toolchain(w.testRuns)).message)
      && s.world.calls == w.calls && s.world.state == w.state && s.world.testRuns == w.testRuns + 1
  {
  }

  /** An all-clear analysis: one agent call, the files are untouched and
      nothing is written, and the round ends the loop. */
  lemma HandlerClear(env: Env, w: World)
    requires !Ready(w.state) || RunTests(w.state.language, env.toolchain(w.testRuns)).Ok?
    requires env.reply(|w.calls|).Answer? && Clear(env.reply(|w.calls|).text)
    ensures var s := Handler(env, w);
      && s.result == Ok(env.reply(|w.calls|).text)
      && !Continues(s.result.value, s.world)
      && |s.world.calls| == |w.calls| + 1 && s.world.calls[|w.calls|].agent == "Tester"
      && s.world.state.codes == w.state.codes && s.world.saves == w.saves
  {
  }

  /** An analysis without the marker that the programmer answers: the
      analysis is the fix prompt's feedback and the fix reply's files are
      merged in. */
  lemma HandlerFixes(env: Env, w: World)
    requires !Ready(w.state) || RunTests(w.state.language, env.toolchain(w.testRuns)).Ok?
    requires env.reply(|w.calls|).Answer? && !Clear(env.reply(|w.calls|).text)
    requires env.reply(|w.calls| + 1).Answer?
    ensures var s := Handler(env, w);
      var analysis := env.reply(|w.calls|).text;
      var fix := env.reply(|w.calls| + 1).text;
      && s.result == Ok(AnalysisSummary(analysis, fix))
      && |s.world.calls| == |w.calls| + 2
      && s.world.calls[|w.calls|].agent == "Tester"
      && s.world.calls[|w.calls| + 1] == Call("Programmer",
           env.prompts.fix(w.state.taskPrompt, w.state.language, analysis, CodesFormatted(w.state)))
      && s.world.state.codes == Update(w.state.codes, ExtractCodeBlocks(fix))
  {
    var ran := RunSuite(env, w);
    var asked := Analyse(env, ran.world);
    assert ran.world.state.codes == w.state.codes;
    assert asked.world.state.codes == w.state.codes;
    var fixed := Fix(env, asked.world, Phase, env.reply(|w.calls|).text);
    assert Handler(env, w) == Step(Ok(AnalysisSummary(env.reply(|w.calls|).text, fixed.result.value)), fixed.world);
  }

  /** Without a directory or a language nothing runs: the tester is told the
      tests were not run and is given no error summary. */
  lemma NotReadyReport(env: Env, w: World)
    requires !Ready(w.state)
    ensures var s := Handler(env, w);
      && s.world.testRuns == w.testRuns
      && s.world.calls[|w.calls|] == Call("Tester",
           env.prompts.testing(w.state.taskPrompt, w.state.language, NotRun, "", CodesFormatted(w.state)))
  {
    var ran := RunSuite(env, w);
    assert ran.world.state.codes == w.state.codes;
  }

  /** A failed run whose output has no error line leaves the fixed summary,
      which itself mentions an error: any result without the all-clear
      marker then keeps the loop going. */
  lemma UnexplainedFailureContinues(env: Env, w: World, result: string)
    requires Ready(w.state)
    requires RunTests(w.state.language, env.toolchain(w.testRuns)).Ok?
    requires var (passed, output) := RunTests(w.state.language, env.toolchain(w.testRuns)).value;
      !passed && output != "" && ErrorLines(Split(output)) == []
    requires !Clear(result)
    ensures var s := RunSuite(env, w);
      s.world.state.errorSummary == NoSpecificErrors && Continues(result, s.world)
  {
    NoSpecificErrorsIsError();
  }

  /** `TestingPhase.run`. */
  function Run(env: Env, maxIterations: int, w: World): (s: Step<World>)
    ensures s.result.Ok? ==> s.result.value != ""
  {
    RunPhase(Handler, env, Continues, maxIterations, Completed, w)
  }

  /** The phase makes at most two agent calls and one test run per allowed
      round. */
  lemma RunBounds(env: Env, maxIterations: int, w: World)
    ensures var s := Run(env, maxIterations, w);
      var m := if maxIterations < 0 then 0 else maxIterations;
      |s.world.calls| <= |w.calls| + 2 * m && s.world.testRuns <= w.testRuns + m
  {
    var m := if maxIterations < 0 then 0 else maxIterations;
    LoopGrowth(Handler, env, Continues, m, w, (v: World) => |v.calls|, 2);
    LoopGrowth(Handler, env, Continues, m, w, (v: World) => v.testRuns, 1);
  }

  /** An all-clear first analysis ends the phase after one agent call, with
      the analysis as its result. */
  lemma RunClearAtOnce(env: Env, maxIterations: int, w: World)
    requires maxIterations >= 1
    requires !Ready(w.state) || RunTests(w.state.language, env.toolchain(w.testRuns)).Ok?
    requires env.reply(|w.calls|).Answer? && Clear(env.reply(|w.calls|).text)
    ensures var s := Run(env, maxIterations, w);
      s.result == Ok(env.reply(|w.calls|).text) && |s.world.calls| == |w.calls| + 1
  {
    HandlerClear(env, w);
    StopsAtFirst(Handler, env, Continues, maxIterations, Completed, w);
  }

  /** A test runner exception in the first round ends the phase with it. */
  lemma RunRunnerRaises(env: Env, maxIterations: int, w: World)
    requires maxIterations >= 1
    requires Ready(w.state) && RunTests(w.state.language, env.toolchain(w.testRuns)).Raise?
    ensures Run(env, maxIterations, w).result == Raise(RunTests(w.state.language, env.toolchain(w.testRuns)).message)
  {
    HandlerRunnerRaises(env, w);
    RaisesAtFirst(Handler, env, Continues, maxIterations, Completed, w);
  }
}
