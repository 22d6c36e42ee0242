/** The coding phase: the CTO picks the language, the programmer writes the
    code for it, and the files in the reply enter the state. */
module Coding {
  import opened Options
  import opened OrderedMaps
  import opened CodeManager
  import opened UsageTracker
  import opened DevState
  import opened Classify
  import opened Session

  const Phase := "Coding"
  const DefaultBase := "./output"

  /** After the code arrives: when the project has a name, its directory
      (under the output directory, or `./output` when that is unset) becomes
      the output directory and the files are written there. */
  function Place(env: Env, w: World): (r: World)
    ensures r.calls == w.calls && r.testRuns == w.testRuns
    ensures r.state.(outputDirectory := w.state.outputDirectory) == w.state
    ensures w.state.projectName == "" ==> r == w
    ensures w.state.projectName != "" ==>
      var base := if w.state.outputDirectory != "" then w.state.outputDirectory else DefaultBase;
      r.state.outputDirectory == env.projectDirectory(w.state.projectName, base)
  {
    if w.state.projectName == "" then w
    else
      var base := if w.state.outputDirectory != "" then w.state.outputDirectory else DefaultBase;
      Save(w.(state := w.state.(outputDirectory := env.projectDirectory(w.state.projectName, base))))
  }

  /** Step 1: the CTO's reply decides the language, which is stored at once. */
  function ChooseLanguage(env: Env, w: World): (s: Step<World>)
    ensures s.world.saves == w.saves && s.world.testRuns == w.testRuns
    ensures s.world.calls == w.calls + [Call("CTO", env.prompts.languageSelection(w.state.taskPrompt, w.state.modality))]
    ensures |s.world.state.usage.calls| == |w.state.usage.calls| + (if s.result.Ok? then 1 else 0)
    ensures s.result.Ok? <==> env.reply(|w.calls|).Answer?
    ensures s.result.Ok? ==> s.result.value == ExtractLanguage(env.reply(|w.calls|).text)
    ensures s.world.state.(language := w.state.language, usage := w.state.usage) == w.state
    ensures s.result.Ok? ==> s.world.state.language == s.result.value
  {
    var cto := Ask(env, w, "CTO", Phase, env.models.cto,
                   env.prompts.languageSelection(w.state.taskPrompt, w.state.modality));
    match cto.result
    case Raise(_) => cto
    case Ok(ctoText) =>
      var language := ExtractLanguage(ctoText);
      Step(Ok(language), cto.world.(state := cto.world.state.(language := language)))
  }

  /** Step 2: the programmer writes the code in that language; its files are
      merged into the map and placed in the project directory. */
  function WriteCode(env: Env, w: World, language: string): (s: Step<World>)
    ensures s.world.testRuns == w.testRuns
    ensures s.world.calls == w.calls + [Call("Programmer", env.prompts.coding(w.state.taskPrompt, w.state.modality, language))]
    ensures |s.world.state.usage.calls| == |w.state.usage.calls| + (if s.result.Ok? then 1 else 0)
    ensures s.result.Ok? <==> env.reply(|w.calls|).Answer?
    ensures s.result.Ok? ==> s.result.value == env.reply(|w.calls|).text
    ensures s.result.Ok? ==> s.world.state.codes == Update(w.state.codes, ExtractCodeBlocks(s.result.value))
    ensures s.result.Raise? ==> s.world.state == w.state && s.world.saves == w.saves
    ensures s.world.state.language == w.state.language && s.world.state.taskPrompt == w.state.taskPrompt
    ensures s.world.state.modality == w.state.modality
  {
    var prog := Ask(env, w, "Programmer", Phase, env.models.programmer,
                    env.prompts.coding(w.state.taskPrompt, w.state.modality, language));
    match prog.result
    case Raise(_) => prog
    case Ok(code) => Step(Ok(code), Place(env, prog.world.(state := UpdateCodes(prog.world.state, code))))
  }

  /** `coding_handler`. */
  function Handler(env: Env, w: World): (s: Step<World>)
    ensures s.world.testRuns == w.testRuns
    ensures s.result.Ok? <==> env.reply(|w.calls|).Answer? && env.reply(|w.calls| + 1).Answer?
  {
    var chosen := ChooseLanguage(env, w);
    match chosen.result
    case Raise(_) => chosen
    case Ok(language) =>
      var written := WriteCode(env, chosen.world, language);
      match written.result
      case Raise(_) => written
      case Ok(code) => Step(Ok("Language selected: " + language + "\n\nCode generated:\n" + code), written.world)
  }

  /** The phase asks one or two agents: the CTO, then the programmer if the
      CTO answered. */
  lemma HandlerCalls(env: Env, w: World)
    ensures |w.calls| < |Handler(env, w).world.calls| <= |w.calls| + 2
  {
    var chosen := ChooseLanguage(env, w);
    if chosen.result.Ok? {
      var written := WriteCode(env, chosen.world, chosen.result.value);
    }
  }

  /** With both agents answering: the CTO is asked before the programmer,
      the language taken from the CTO's reply is both stored and used in the
      coding prompt, and the programmer's files are merged into the map. */
  lemma HandlerAnswered(env: Env, w: World)
    requires env.reply(|w.calls|).Answer? && env.reply(|w.calls| + 1).Answer?
    ensures var s := Handler(env, w);
      var st := w.state;
      var language := ExtractLanguage(env.reply(|w.calls|).text);
      var code := env.reply(|w.calls| + 1).text;
      && s.world.calls == w.calls + [Call("CTO", env.prompts.languageSelection(st.taskPrompt, st.modality)),
                                     Call("Programmer", env.prompts.coding(st.taskPrompt, st.modality, language))]
      && s.world.state.language == language
      && s.world.state.codes == Update(st.codes, ExtractCodeBlocks(code))
      && s.result == Ok("Language selected: " + language + "\n\nCode generated:\n" + code)
      && |s.world.state.usage.calls| == |st.usage.calls| + 2
  {
    var chosen := ChooseLanguage(env, w);
    assert w.calls + [Call("CTO", env.prompts.languageSelection(w.state.taskPrompt, w.state.modality))]
                   + [Call("Programmer", env.prompts.coding(w.state.taskPrompt, w.state.modality, chosen.result.value))]
        == w.calls + [Call("CTO", env.prompts.languageSelection(w.state.taskPrompt, w.state.modality)),
                      Call("Programmer", env.prompts.coding(w.state.taskPrompt, w.state.modality, chosen.result.value))];
  }

  /** Nothing is written for a project without a name; otherwise the merged
      files are written once, to the project's directory, when it is named. */
  lemma PlaceSaves(env: Env, w: World)
    ensures var r := Place(env, w);
      && (w.state.projectName == "" ==> r.saves == w.saves)
      && (w.state.projectName != "" && r.state.outputDirectory != "" ==>
            r.saves == w.saves + [(r.state.outputDirectory, w.state.codes)])
  {
  }

  /** A programmer failure leaves the chosen language in place. */
  lemma ProgrammerRaises(env: Env, w: World)
    requires env.reply(|w.calls|).Answer? && env.reply(|w.calls| + 1).Failure?
    ensures var s := Handler(env, w);
      && s.result == Raise(env.reply(|w.calls| + 1).message)
      && s.world.state.language == ExtractLanguage(env.reply(|w.calls|).text)
      && s.world.state.codes == w.state.codes && s.world.saves == w.saves
  {
  }
}
