/** What the phases run against.  Agents are an oracle: the reply to the
    n-th agent call of the whole run is `reply(n)`, and the calls made are
    logged in order.  Prompt templates, model names and the project
    directory naming are opaque functions and strings.  Writing files is
    logged as an event, never performed. */
module Session {
  import opened Options
  import opened OrderedMaps
  import opened CodeManager
  import opened UsageTracker
  import opened DevState
  import opened TestRunner

  /** An agent's answer, or the exception running it raised. */
  datatype Reply = Answer(text: string) | Failure(message: string)

  /** One agent call: who was asked, and with what prompt. */
  datatype Call = Call(agent: string, prompt: string)

  /** The prompt templates, each applied to the fields it is formatted with. */
  datatype Prompts = Prompts(
    demand: string -> string,
    languageSelection: (string, string) -> string,
    coding: (string, string, string) -> string,
    review: (string, string, string) -> string,
    fix: (string, string, string, string) -> string,
    testing: (string, string, string, string, string) -> string)

  /** The model each agent runs on; review and testing record the phase model. */
  datatype Models = Models(ceo: string, cpo: string, cto: string, programmer: string, phase: string)

  datatype Env = Env(
    reply: nat -> Reply,
    toolchain: nat -> Toolchain,
    prompts: Prompts,
    models: Models,
    projectDirectory: (string, string) -> string)

  /** The shared state, the agent calls made so far, the directories written
      with the files written there, and the number of test runs started. */
  datatype World = World(state: State, calls: seq<Call>, saves: seq<(string, FileMap)>, testRuns: nat)

  /** `run_agent` followed by `record_api_call_with_text`: the call is logged;
      an answer is recorded in the usage log, a failure propagates with
      nothing recorded. */
  function Ask(env: Env, w: World, agent: string, phase: string, model: string, prompt: string): (s: Step<World>)
    ensures s.world.calls == w.calls + [Call(agent, prompt)]
    ensures s.world.saves == w.saves && s.world.testRuns == w.testRuns
    ensures s.world.state.(usage := w.state.usage) == w.state
    ensures match env.reply(|w.calls|)
      case Answer(t) =>
        && s.result == Ok(t)
        && s.world.state.usage == RecordWithText(w.state.usage, agent, phase, model, prompt, t)
      case Failure(m) => s.result == Raise(m) && s.world.state == w.state
  {
    var w' := w.(calls := w.calls + [Call(agent, prompt)]);
    match env.reply(|w.calls|)
    case Answer(t) =>
      Step(Ok(t), w'.(state := w'.state.(usage := RecordWithText(w.state.usage, agent, phase, model, prompt, t))))
    case Failure(m) => Step(Raise(m), w')
  }

  /** `save_to_directory()`: the files are written to the output directory
      when there is one. */
  function Save(w: World): (r: World)
    ensures r.state == w.state && r.calls == w.calls && r.testRuns == w.testRuns
    ensures w.state.outputDirectory == "" ==> r.saves == w.saves
    ensures w.state.outputDirectory != "" ==> r.saves == w.saves + [(w.state.outputDirectory, w.state.codes)]
  {
    if w.state.outputDirectory != "" then w.(saves := w.saves + [(w.state.outputDirectory, w.state.codes)]) else w
  }

  /** The fix step shared by review and testing: the programmer is asked to
      address `feedback`, the files in the reply are merged into the map, and
      the files are written out. */
  function Fix(env: Env, w: World, phase: string, feedback: string): (s: Step<World>)
    ensures s.world.testRuns == w.testRuns
    ensures s.world.calls == w.calls + [Call("Programmer",
      env.prompts.fix(w.state.taskPrompt, w.state.language, feedback, CodesFormatted(w.state)))]
    ensures s.result.Ok? <==> env.reply(|w.calls|).Answer?
    ensures s.world.state.(codes := w.state.codes, usage := w.state.usage) == w.state
    ensures s.result.Raise? ==> s.world.state.codes == w.state.codes && s.world.saves == w.saves
    ensures s.result.Ok? ==>
      && s.result.value == env.reply(|w.calls|).text
      && s.world.state.codes == Update(w.state.codes, ExtractCodeBlocks(s.result.value))
      && s.world.saves == w.saves + (if w.state.outputDirectory == "" then [] else [(w.state.outputDirectory, s.world.state.codes)])
  {
    var st := w.state;
    var prog := Ask(env, w, "Programmer", phase, env.models.phase,
                    env.prompts.fix(st.taskPrompt, st.language, feedback, CodesFormatted(st)));
    match prog.result
    case Raise(_) => prog
    case Ok(f) => Step(Ok(f), Save(prog.world.(state := UpdateCodes(prog.world.state, f))))
  }
}
