/** The code review phase: a reviewer reads the code; unless it approves,
    the programmer fixes what the review says, and this repeats a bounded
    number of times. */
module CodeReview {
  import opened Options
  import opened Text
  import opened OrderedMaps
  import opened CodeManager
  import opened DevState
  import opened Session
  import opened BoundedLoop

  const Phase := "Code Review"
  const Finished := "<INFO>Finished</INFO>"
  const SpacedFinished := "<INFO> Finished</INFO>"
  const Passed := "Code review passed"
  const Completed := "Code review completed"

  /** The reviewer's approval marker, in either spelling; matched exactly,
      with case. */
  predicate Approved(text: string) {
    Contains(text, Finished) || Contains(text, SpacedFinished)
  }

  /** `review_condition`: go on while the last result carries no approval. */
  predicate Continues(result: string, w: World) {
    !Approved(result)
  }

  /** The result of a round in which the programmer made fixes. */
  function FixSummary(review: string, fix: string): string {
    "Review: " + review + "\n\nFixes applied: " + fix
  }

  /** A fix summary after an unapproving review carries the approval marker
      exactly when the fix does: the programmer's reply alone can end the
      loop. */
  lemma SummaryApproved(review: string, fix: string)
    requires !Approved(review)
    ensures Approved(FixSummary(review, fix)) <==> Approved(fix)
  {
    var head := "Review: ";
    var glue := "\n\nFixes applied: ";
    assert FixSummary(review, fix) == "" + head + review + glue + fix;
    if Approved(fix) {
      if Contains(fix, Finished) {
        ContainsInSuffix("" + head + review + glue, fix, Finished);
      } else {
        ContainsInSuffix("" + head + review + glue, fix, SpacedFinished);
      }
    } else {
      GlueFacts(head, glue);
      MarkerAcross("", head, review);
      MarkerAcross("" + head + review, glue, fix);
    }
  }

  lemma GlueFacts(head: string, glue: string)
    requires head == "Review: " && glue == "\n\nFixes applied: "
    ensures forall i :: 0 <= i < |head| ==> head[i] != '<'
    ensures forall i :: 0 <= i < |glue| ==> glue[i] != '<'
    ensures forall i :: 0 <= i < |Finished| ==> Finished[i] != head[0] && Finished[i] != glue[0]
    ensures forall i :: 0 <= i < |SpacedFinished| ==> SpacedFinished[i] != head[0] && SpacedFinished[i] != glue[0]
  {
  }

  /** Glue that neither starts a marker nor occurs in one cannot create one. */
  lemma MarkerAcross(a: string, g: string, b: string)
    requires |g| > 0 && forall i :: 0 <= i < |g| ==> g[i] != '<'
    requires forall i :: 0 <= i < |Finished| ==> Finished[i] != g[0]
    requires forall i :: 0 <= i < |SpacedFinished| ==> SpacedFinished[i] != g[0]
    requires !Approved(a) && !Approved(b)
    ensures !Approved(a + g + b)
  {
    NotContainsAcross(a, g, b, Finished);
    NotContainsAcross(a, g, b, SpacedFinished);
  }

  /** Step 1: the reviewer reads the task, the language and the files. */
  function Review(env: Env, w: World): (s: Step<World>)
    ensures s.world.saves == w.saves && s.world.testRuns == w.testRuns
    ensures s.world.calls == w.calls + [Call("Reviewer",
      env.prompts.review(w.state.taskPrompt, w.state.language, CodesFormatted(w.state)))]
    ensures s.result.Ok? <==> env.reply(|w.calls|).Answer?
    ensures s.result.Ok? ==> s.result.value == env.reply(|w.calls|).text
    ensures s.world.state.(usage := w.state.usage) == w.state
  {
    var st := w.state;
    Ask(env, w, "Reviewer", Phase, env.models.phase,
        env.prompts.review(st.taskPrompt, st.language, CodesFormatted(st)))
  }

  /** `review_handler`: an approving review is stored as passed and
      returned; otherwise it is stored as the review comments and the
      programmer fixes the code. */
  function Handler(env: Env, w: World): (s: Step<World>)
    ensures s.world.testRuns == w.testRuns
    ensures |w.calls| < |s.world.calls| <= |w.calls| + 2
    ensures s.world.calls[..|w.calls|] == w.calls
    ensures s.world.state.taskPrompt == w.state.taskPrompt && s.world.state.language == w.state.language
    ensures s.world.state.modality == w.state.modality && s.world.state.outputDirectory == w.state.outputDirectory
  {
    var reviewed := Review(env, w);
    match reviewed.result
    case Raise(_) => reviewed
    case Ok(review) =>
      if Approved(review) then
        Step(Ok(review), reviewed.world.(state := reviewed.world.state.(reviewComments := Passed)))
      else
        var commented := reviewed.world.(state := reviewed.world.state.(reviewComments := review));
        var fixed := Fix(env, commented, Phase, review);
        match fixed.result
        case Raise(_) => fixed
        case Ok(fix) => Step(Ok(FixSummary(review, fix)), fixed.world)
  }

  /** An approving review: one call, the comments say the review passed, the
      files are untouched and nothing is written; the round ends the loop. */
  lemma HandlerApproves(env: Env, w: World)
    requires env.reply(|w.calls|).Answer? && Approved(env.reply(|w.calls|).text)
    ensures var s := Handler(env, w);
      && s.result == Ok(env.reply(|w.calls|).text)
      && !Continues(s.result.value, s.world)
      && |s.world.calls| == |w.calls| + 1
      && s.world.state.reviewComments == Passed
      && s.world.state.codes == w.state.codes && s.world.saves == w.saves
  {
  }

  /** An unapproving review that the programmer answers: the review becomes
      the comments and the fix prompt's feedback, the fix reply's files are
      merged in, and the round ends the loop exactly when the fix reply
      carries the approval marker. */
  lemma HandlerFixes(env: Env, w: World)
    requires env.reply(|w.calls|).Answer? && !Approved(env.reply(|w.calls|).text)
    requires env.reply(|w.calls| + 1).Answer?
    ensures var s := Handler(env, w);
      var review := env.reply(|w.calls|).text;
      var fix := env.reply(|w.calls| + 1).text;
      && s.result == Ok(FixSummary(review, fix))
      && (Continues(s.result.value, s.world) <==> !Approved(fix))
      && s.world.calls == w.calls + [
           Call("Reviewer", env.prompts.review(w.state.taskPrompt, w.state.language, CodesFormatted(w.state))),
           Call("Programmer", env.prompts.fix(w.state.taskPrompt, w.state.language, review, CodesFormatted(w.state)))]
      && s.world.state.reviewComments == review
      && s.world.state.codes == Update(w.state.codes, ExtractCodeBlocks(fix))
  {
    var review := env.reply(|w.calls|).text;
    SummaryApproved(review, env.reply(|w.calls| + 1).text);
    var reviewed := Review(env, w);
    var commented := reviewed.world.(state := reviewed.world.state.(reviewComments := review));
    assert commented.state.codes == w.state.codes;
    var fixed := Fix(env, commented, Phase, review);
    assert Handler(env, w) == Step(Ok(FixSummary(review, fixed.result.value)), fixed.world);
    var st := w.state;
    var r := Call("Reviewer", env.prompts.review(st.taskPrompt, st.language, CodesFormatted(st)));
    var p := Call("Programmer", env.prompts.fix(st.taskPrompt, st.language, review, CodesFormatted(st)));
    assert fixed.world.calls == w.calls + [r] + [p];
    assert w.calls + [r] + [p] == w.calls + [r, p];
  }

  /** `CodeReviewPhase.run`. */
  function Run(env: Env, maxIterations: int, w: World): (s: Step<World>)
    ensures s.result.Ok? ==> s.result.value != ""
  {
    RunPhase(Handler, env, Continues, maxIterations, Completed, w)
  }

  /** Each round asks at most two agents, so the phase makes at most twice
      `maxIterations` agent calls; it runs no tests. */
  lemma RunCalls(env: Env, maxIterations: int, w: World)
    ensures |Run(env, maxIterations, w).world.calls| <= |w.calls| + 2 * (if maxIterations < 0 then 0 else maxIterations)
    ensures Run(env, maxIterations, w).world.testRuns <= w.testRuns
  {
    LoopGrowth(Handler, env, Continues, if maxIterations < 0 then 0 else maxIterations, w, (v: World) => |v.calls|, 2);
    LoopGrowth(Handler, env, Continues, if maxIterations < 0 then 0 else maxIterations, w, (v: World) => v.testRuns, 0);
  }

  /** An approving first review ends the phase after one call, with the
      review as its result. */
  lemma RunApprovedAtOnce(env: Env, maxIterations: int, w: World)
    requires maxIterations >= 1
    requires env.reply(|w.calls|).Answer? && Approved(env.reply(|w.calls|).text)
    ensures var s := Run(env, maxIterations, w);
      s.result == Ok(env.reply(|w.calls|).text) && |s.world.calls| == |w.calls| + 1
  {
    HandlerApproves(env, w);
    StopsAtFirst(Handler, env, Continues, maxIterations, Completed, w);
  }

  /** A programmer whose fix reply carries the marker ends the phase after
      one round, although the reviewer never approved. */
  lemma RunStopsOnFix(env: Env, maxIterations: int, w: World)
    requires maxIterations >= 1
    requires env.reply(|w.calls|).Answer? && !Approved(env.reply(|w.calls|).text)
    requires env.reply(|w.calls| + 1).Answer? && Approved(env.reply(|w.calls| + 1).text)
    ensures var s := Run(env, maxIterations, w);
      && s.result == Ok(FixSummary(env.reply(|w.calls|).text, env.reply(|w.calls| + 1).text))
      && |s.world.calls| == |w.calls| + 2
  {
    HandlerFixes(env, w);
    StopsAtFirst(Handler, env, Continues, maxIterations, Completed, w);
  }

  /** With two rounds allowed and no approval anywhere, the phase is two
      fixing rounds and its result is the second round's summary. */
  lemma RunTwoRounds(env: Env, w: World)
    requires env.reply(|w.calls|).Answer? && !Approved(env.reply(|w.calls|).text)
    requires env.reply(|w.calls| + 1).Answer? && !Approved(env.reply(|w.calls| + 1).text)
    requires env.reply(|w.calls| + 2).Answer? && !Approved(env.reply(|w.calls| + 2).text)
    requires env.reply(|w.calls| + 3).Answer? && !Approved(env.reply(|w.calls| + 3).text)
    ensures var n := |w.calls|;
      Run(env, 2, w) == Step(Ok(FixSummary(env.reply(n + 2).text, env.reply(n + 3).text)),
                             Handler(env, Handler(env, w).world).world)
  {
    var n := |w.calls|;
    HandlerFixes(env, w);
    var h1 := Handler(env, w);
    HandlerFixes(env, h1.world);
    TwoRounds(Handler, env, Continues, Completed, w);
  }

  /** In those two rounds the reviewer and the programmer are each asked
      twice, alternately. */
  lemma TwoRoundsCalls(env: Env, w: World)
    requires env.reply(|w.calls|).Answer? && !Approved(env.reply(|w.calls|).text)
    requires env.reply(|w.calls| + 1).Answer? && !Approved(env.reply(|w.calls| + 1).text)
    requires env.reply(|w.calls| + 2).Answer? && !Approved(env.reply(|w.calls| + 2).text)
    requires env.reply(|w.calls| + 3).Answer? && !Approved(env.reply(|w.calls| + 3).text)
    ensures var n := |w.calls|;
      var calls := Run(env, 2, w).world.calls;
      && |calls| == n + 4
      && calls[n].agent == "Reviewer" && calls[n + 1].agent == "Programmer"
      && calls[n + 2].agent == "Reviewer" && calls[n + 3].agent == "Programmer"
  {
    var n := |w.calls|;
    RunTwoRounds(env, w);
    HandlerFixes(env, w);
    var h1 := Handler(env, w);
    HandlerFixes(env, h1.world);
    var h2 := Handler(env, h1.world);
    assert h2.world.calls == w.calls + [h1.world.calls[n], h1.world.calls[n + 1]]
                                     + [h2.world.calls[n + 2], h2.world.calls[n + 3]];
  }
}
