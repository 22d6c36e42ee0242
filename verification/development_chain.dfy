/** The development chain: demand analysis, coding, code review and testing
    run in this order on one shared state; the chain reports each phase's
    result, and an exception in any phase ends it with the results so far. */
module DevelopmentChain {
  import opened Options
  import opened Text
  import opened DevState
  import opened Session
  import DemandAnalysis
  import Coding
  import CodeReview
  import Testing

  const PhaseNames: seq<string> := ["Demand Analysis", "Coding", "Code Review", "Testing"]
  const ErrorPrefix := "Error in development chain: "
  const PartialHeader := "\n\nPartial results:\n"

  /** The loop limits of the review and testing phases. */
  datatype Limits = Limits(maxReviewIterations: int, maxTestIterations: int)

  const DefaultLimits := Limits(3, 3)

  /** What the phases run against. */
  datatype Setting = Setting(env: Env, limits: Limits)

  /** Phase `k` of the chain. */
  function PhaseAt(c: Setting, k: nat, w: World): Step<World> {
    if k == 0 then DemandAnalysis.Handler(c.env, w)
    else if k == 1 then Coding.Handler(c.env, w)
    else if k == 2 then CodeReview.Run(c.env, c.limits.maxReviewIterations, w)
    else Testing.Run(c.env, c.limits.maxTestIterations, w)
  }

  /** A phase that returned: its name, its result and the state after it. */
  datatype Entry<W> = Entry(name: string, result: string, after: W)

  /** The phases that returned, the exception that ended the chain if one
      did, and the final state. */
  datatype Progress<W> = Progress(entries: seq<Entry<W>>, error: Option<string>, final: W)

  /** The state phase `k + j` starts from. */
  function StartOf<W>(w: W, entries: seq<Entry<W>>, j: nat): W
    requires j <= |entries|
  {
    if j == 0 then w else entries[j - 1].after
  }

  /** The phases from `k` on, each on the state the one before left; the
      first exception stops the chain. */
  function Stages<C, W>(phase: (C, nat, W) -> Step<W>, c: C, k: nat, w: W): (r: Progress<W>)
    requires k <= |PhaseNames|
    ensures |r.entries| <= |PhaseNames| - k
    ensures r.error.None? ==> |r.entries| == |PhaseNames| - k
    ensures forall j :: 0 <= j < |r.entries| ==> r.entries[j].name == PhaseNames[k + j]
    decreases |PhaseNames| - k
  {
    if k == |PhaseNames| then Progress([], None, w)
    else
      var s := phase(c, k, w);
      match s.result
      case Raise(m) => Progress([], Some(m), s.world)
      case Ok(text) =>
        var rest := Stages(phase, c, k + 1, s.world);
        Progress([Entry(PhaseNames[k], text, s.world)] + rest.entries, rest.error, rest.final)
  }

  /** Each entry is phase `k + j`'s result on the state the entry before
      left. */
  ghost predicate Returned<C, W>(phase: (C, nat, W) -> Step<W>, c: C, k: nat, w: W, entries: seq<Entry<W>>) {
    forall j :: 0 <= j < |entries| ==>
      phase(c, k + j, StartOf(w, entries, j)) == Step(Ok(entries[j].result), entries[j].after)
  }

  /** Each recorded phase returned its result on the state the previous one
      left. */
  lemma {:induction false} StagesReturned<C, W>(phase: (C, nat, W) -> Step<W>, c: C, k: nat, w: W)
    requires k <= |PhaseNames|
    ensures Returned(phase, c, k, w, Stages(phase, c, k, w).entries)
    decreases |PhaseNames| - k
  {
    if k < |PhaseNames| {
      var s := phase(c, k, w);
      if s.result.Ok? {
        StagesReturned(phase, c, k + 1, s.world);
        var rest := Stages(phase, c, k + 1, s.world);
        var entries := [Entry(PhaseNames[k], s.result.value, s.world)] + rest.entries;
        assert Stages(phase, c, k, w).entries == entries;
        forall j | 1 <= j < |entries|
          ensures phase(c, k + j, StartOf(w, entries, j)) == Step(Ok(entries[j].result), entries[j].after)
        {
          assert entries[j] == rest.entries[j - 1];
          assert StartOf(w, entries, j) == StartOf(s.world, rest.entries, j - 1);
          assert phase(c, (k + 1) + (j - 1), StartOf(s.world, rest.entries, j - 1))
              == Step(Ok(rest.entries[j - 1].result), rest.entries[j - 1].after);
        }
        assert phase(c, k, StartOf(w, entries, 0)) == Step(Ok(entries[0].result), entries[0].after);
      }
    }
  }

  /** An exception came from the phase after the last recorded one, on the
      state that phase left; otherwise the final state is the last phase's. */
  lemma {:induction false} StagesEnd<C, W>(phase: (C, nat, W) -> Step<W>, c: C, k: nat, w: W)
    requires k <= |PhaseNames|
    ensures var r := Stages(phase, c, k, w);
      && (r.error.None? ==> r.final == StartOf(w, r.entries, |r.entries|))
      && (r.error.Some? ==>
            phase(c, k + |r.entries|, StartOf(w, r.entries, |r.entries|)) == Step(Raise(r.error.value), r.final))
    decreases |PhaseNames| - k
  {
    if k < |PhaseNames| {
      var s := phase(c, k, w);
      if s.result.Ok? {
        StagesEnd(phase, c, k + 1, s.world);
        var rest := Stages(phase, c, k + 1, s.world);
        var entries := [Entry(PhaseNames[k], s.result.value, s.world)] + rest.entries;
        assert Stages(phase, c, k, w) == Progress(entries, rest.error, rest.final);
        assert StartOf(w, entries, |entries|) == StartOf(s.world, rest.entries, |rest.entries|);
        assert k + |entries| == (k + 1) + |rest.entries|;
      }
    }
  }

  /** When phase `k` grows a measure of the state by at most `bound(k)`, the
      chain from `k` on grows it by at most the sum of the remaining bounds. */
  lemma {:induction false} StagesGrowth<C, W>(phase: (C, nat, W) -> Step<W>, c: C, k: nat, w: W,
                                              size: W -> nat, bound: nat -> nat)
    requires k <= |PhaseNames|
    requires forall j: nat, v :: k <= j < |PhaseNames| ==> size(phase(c, j, v).world) <= size(v) + bound(j)
    ensures size(Stages(phase, c, k, w).final) <= size(w) + Allowance(bound, k)
    decreases |PhaseNames| - k
  {
    if k < |PhaseNames| {
      var s := phase(c, k, w);
      if s.result.Ok? {
        StagesGrowth(phase, c, k + 1, s.world, size, bound);
      }
    }
  }

  /** The sum of the bounds of phases `k` onwards. */
  function Allowance(bound: nat -> nat, k: nat): nat
    decreases |PhaseNames| - k
  {
    if k >= |PhaseNames| then 0 else bound(k) + Allowance(bound, k + 1)
  }

  /** `"{phase}:\n{result}"`, joined by blank lines. */
  function Report<W>(entries: seq<Entry<W>>): (r: string)
    ensures |entries| == 0 <==> r == ""
  {
    if |entries| == 0 then ""
    else
      var section := entries[0].name + ":\n" + entries[0].result;
      assert |section| > 0 by { assert section[|entries[0].name|] == ':'; }
      if |entries| == 1 then section
      else section + "\n\n" + Report(entries[1..])
  }

  /** The report of a finished chain, or the error and the partial results. */
  function Outcome<W>(p: Progress<W>): (r: string)
    ensures p.error.Some? ==> StartsWith(r, ErrorPrefix + p.error.value + PartialHeader)
  {
    match p.error
    case None => Report(p.entries)
    case Some(m) =>
      var head := ErrorPrefix + m + PartialHeader;
      assert (head + Report(p.entries))[..|head|] == head;
      head + Report(p.entries)
  }

  /** The starting state: the one given, or a fresh one holding the task. */
  function Start(input: string, given: Option<State>): (w: World)
    ensures w.calls == [] && w.saves == [] && w.testRuns == 0
    ensures given.Some? ==> w.state == given.value
    ensures given.None? ==> w.state == Init().(taskPrompt := input)
  {
    match given
    case Some(s) => World(s, [], [], 0)
    case None => World(Init().(taskPrompt := input), [], [], 0)
  }

  /** `DevelopmentChain.run`: the text returned and the world left behind. */
  function Run(env: Env, limits: Limits, input: string, given: Option<State>): (r: (string, World))
  {
    var p := Stages(PhaseAt, Setting(env, limits), 0, Start(input, given));
    (Outcome(p), p.final)
  }

  /** Phase calls: demand analysis and coding ask two agents each, review
      and testing at most two per allowed round. */
  function CallBound(limits: Limits, k: nat): nat {
    if k <= 1 then 2
    else if k == 2 then 2 * (if limits.maxReviewIterations < 0 then 0 else limits.maxReviewIterations)
    else 2 * (if limits.maxTestIterations < 0 then 0 else limits.maxTestIterations)
  }

  lemma PhaseCalls(c: Setting, k: nat, w: World)
    requires k < |PhaseNames|
    ensures |PhaseAt(c, k, w).world.calls| <= |w.calls| + CallBound(c.limits, k)
  {
    if k == 1 {
      Coding.HandlerCalls(c.env, w);
    } else if k == 2 {
      CodeReview.RunCalls(c.env, c.limits.maxReviewIterations, w);
    } else if k == 3 {
      Testing.RunBounds(c.env, c.limits.maxTestIterations, w);
    }
  }

  /** The whole chain asks at most four agents plus two per allowed review
      and testing round: sixteen with the default limits. */
  lemma RunCalls(env: Env, limits: Limits, input: string, given: Option<State>)
    ensures |Run(env, limits, input, given).1.calls| <= 4 + CallBound(limits, 2) + CallBound(limits, 3)
    ensures limits == DefaultLimits ==> |Run(env, limits, input, given).1.calls| <= 16
  {
    var c := Setting(env, limits);
    forall j: nat, v | 0 <= j < |PhaseNames|
      ensures |PhaseAt(c, j, v).world.calls| <= |v.calls| + CallBound(limits, j)
    {
      PhaseCalls(c, j, v);
    }
    StagesGrowth(PhaseAt, c, 0, Start(input, given), (v: World) => |v.calls|, (j: nat) => CallBound(limits, j));
    assert Allowance((j: nat) => CallBound(limits, j), 0) == 4 + CallBound(limits, 2) + CallBound(limits, 3);
  }

  /** Without an exception the text reports the four phases in order. */
  lemma ChainComplete<C, W>(phase: (C, nat, W) -> Step<W>, c: C, w: W)
    ensures var p := Stages(phase, c, 0, w);
      p.error.None? ==>
        && |p.entries| == 4
        && (forall j :: 0 <= j < 4 ==> p.entries[j].name == PhaseNames[j])
        && Outcome(p) == Report(p.entries)
  {
  }

  /** When the CEO's call fails, the chain reports the error with no partial
      results and no later phase runs: only that one agent call was made. */
  lemma CeoFailure(env: Env, limits: Limits, input: string, given: Option<State>)
    requires env.reply(0).Failure?
    ensures var (text, w) := Run(env, limits, input, given);
      && text == ErrorPrefix + env.reply(0).message + PartialHeader
      && |w.calls| == 1 && w.saves == [] && w.testRuns == 0
  {
    var w0 := Start(input, given);
    DemandAnalysis.CeoRaises(env, w0);
    var c := Setting(env, limits);
    assert PhaseAt(c, 0, w0) == DemandAnalysis.Handler(env, w0);
    assert Stages(PhaseAt, c, 0, w0) == Progress([], Some(env.reply(0).message), DemandAnalysis.Handler(env, w0).world);
  }

  /** Tests run only in the testing phase, at most once per allowed round. */
  function TestBound(limits: Limits, k: nat): nat {
    if k == 3 && limits.maxTestIterations > 0 then limits.maxTestIterations else 0
  }

  lemma PhaseTestRuns(c: Setting, k: nat, w: World)
    requires k < |PhaseNames|
    ensures PhaseAt(c, k, w).world.testRuns <= w.testRuns + TestBound(c.limits, k)
  {
    if k == 2 {
      CodeReview.RunCalls(c.env, c.limits.maxReviewIterations, w);
    } else if k == 3 {
      Testing.RunBounds(c.env, c.limits.maxTestIterations, w);
    }
  }

  /** The chain runs the tests at most once per allowed testing round. */
  lemma RunTestRuns(env: Env, limits: Limits, input: string, given: Option<State>)
    ensures Run(env, limits, input, given).1.testRuns <= TestBound(limits, 3)
  {
    var c := Setting(env, limits);
    forall j: nat, v | 0 <= j < |PhaseNames|
      ensures PhaseAt(c, j, v).world.testRuns <= v.testRuns + TestBound(limits, j)
    {
      PhaseTestRuns(c, j, v);
    }
    StagesGrowth(PhaseAt, c, 0, Start(input, given), (v: World) => v.testRuns, (j: nat) => TestBound(limits, j));
    assert Allowance((j: nat) => TestBound(limits, j), 0) == TestBound(limits, 3);
  }

  /** An exception ends the chain before the phases it did not reach, and
      the text is the error followed by the results of the phases before it,
      in order.  (`Run` is `Outcome` of `Stages` from phase 0.) */
  lemma ChainError<C, W>(phase: (C, nat, W) -> Step<W>, c: C, w: W)
    ensures var p := Stages(phase, c, 0, w);
      p.error.Some? ==>
        && |p.entries| < 4
        && (forall j :: 0 <= j < |p.entries| ==> p.entries[j].name == PhaseNames[j])
        && Outcome(p) == ErrorPrefix + p.error.value + PartialHeader + Report(p.entries)
  {
  }
}
