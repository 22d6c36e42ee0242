/** The demand analysis phase: the CEO reads the task, the CPO reads the
    task with the CEO's analysis, and the product modality is taken from the
    CPO's reply. */
module DemandAnalysis {
  import opened Options
  import opened UsageTracker
  import opened DevState
  import opened Classify
  import opened Session

  const Phase := "Demand Analysis"

  function CpoPrompt(prompt: string, ceo: string): string {
    prompt + "\n\nCEO Analysis:\n" + ceo
  }

  /** `demand_analysis_handler`. */
  function Handler(env: Env, w: World): (s: Step<World>)
    ensures s.world.saves == w.saves && s.world.testRuns == w.testRuns
    ensures |w.calls| < |s.world.calls| <= |w.calls| + 2 && s.world.calls[..|w.calls|] == w.calls
    ensures s.world.state.(modality := w.state.modality, usage := w.state.usage) == w.state
    ensures s.result.Ok? <==> env.reply(|w.calls|).Answer? && env.reply(|w.calls| + 1).Answer?
  {
    var prompt := env.prompts.demand(w.state.taskPrompt);
    var ceo := Ask(env, w, "CEO", Phase, env.models.ceo, prompt);
    match ceo.result
    case Raise(_) => ceo
    case Ok(ceoText) =>
      var cpo := Ask(env, ceo.world, "CPO", Phase, env.models.cpo, CpoPrompt(prompt, ceoText));
      match cpo.result
      case Raise(_) => cpo
      case Ok(cpoText) =>
        var modality := ExtractModality(cpoText);
        Step(Ok("Modality determined: " + modality + "\n\nCPO Response: " + cpoText),
             cpo.world.(state := cpo.world.state.(modality := modality)))
  }

  /** With both agents answering: the CEO is asked first and the CPO second
      with the CEO's analysis appended, two usage records are added for the
      phase, and the modality comes from the CPO's reply alone. */
  lemma HandlerAnswered(env: Env, w: World)
    requires env.reply(|w.calls|).Answer? && env.reply(|w.calls| + 1).Answer?
    ensures var s := Handler(env, w);
      var prompt := env.prompts.demand(w.state.taskPrompt);
      var ceo := env.reply(|w.calls|).text;
      var cpo := env.reply(|w.calls| + 1).text;
      var u := s.world.state.usage.calls;
      && s.world.calls == w.calls + [Call("CEO", prompt), Call("CPO", CpoPrompt(prompt, ceo))]
      && s.world.state.modality == ExtractModality(cpo)
      && s.result == Ok("Modality determined: " + ExtractModality(cpo) + "\n\nCPO Response: " + cpo)
      && |u| == |w.state.usage.calls| + 2 && u[..|w.state.usage.calls|] == w.state.usage.calls
      && u[|w.state.usage.calls|].agent == "CEO" && u[|w.state.usage.calls| + 1].agent == "CPO"
      && u[|w.state.usage.calls|].phase == Phase && u[|w.state.usage.calls| + 1].phase == Phase
  {
    var n := |w.state.usage.calls|;
    var prompt := env.prompts.demand(w.state.taskPrompt);
    var ceo := Ask(env, w, "CEO", Phase, env.models.ceo, prompt);
    var cpo := Ask(env, ceo.world, "CPO", Phase, env.models.cpo, CpoPrompt(prompt, ceo.result.value));
    var u := cpo.world.state.usage.calls;
    assert u[..n + 1] == ceo.world.state.usage.calls;
    assert u[..n] == ceo.world.state.usage.calls[..n];
  }

  /** When the CEO call raises, nothing but the call log changes. */
  lemma CeoRaises(env: Env, w: World)
    requires env.reply(|w.calls|).Failure?
    ensures Handler(env, w) == Step(Raise(env.reply(|w.calls|).message),
                                    w.(calls := w.calls + [Call("CEO", env.prompts.demand(w.state.taskPrompt))]))
  {
  }
}
