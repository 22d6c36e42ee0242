/** The loop both the review and the testing phase run: call the handler up
    to a maximum number of times, stop right after a result on which the
    condition is false, and return the last result or a default.  The
    handler is a function of an environment `E`, which stays fixed, and of a
    state `W`, which each call hands on to the next. */
module BoundedLoop {
  import opened Options

  /** One handler call that returned: its result and the state after it. */
  datatype Round<W> = Round(result: string, after: W)

  /** The handler calls that returned, the exception that ended the loop if
      one did, and the final state. */
  datatype Run<W> = Run(rounds: seq<Round<W>>, raised: Option<string>, final: W)

  /** The state a round starts from. */
  function Before<W>(w: W, rounds: seq<Round<W>>, j: nat): W
    requires j <= |rounds|
  {
    if j == 0 then w else rounds[j - 1].after
  }

  /** `for i in range(n): result = handler(); if not condition(result): break`
      (lemmas `LoopSteps`, `LoopStops` and `LoopRaises` relate the rounds to
      the handler). */
  function Loop<E, W>(handler: (E, W) -> Step<W>, env: E, cont: (string, W) -> bool,
                      remaining: nat, w: W): (r: Run<W>)
    ensures |r.rounds| <= remaining
    ensures r.raised.Some? ==> |r.rounds| < remaining
    decreases remaining
  {
    if remaining == 0 then Run([], None, w)
    else
      var s := handler(env, w);
      match s.result
      case Raise(m) => Run([], Some(m), s.world)
      case Ok(text) =>
        if !cont(text, s.world) then Run([Round(text, s.world)], None, s.world)
        else
          var rest := Loop(handler, env, cont, remaining - 1, s.world);
          Run([Round(text, s.world)] + rest.rounds, rest.raised, rest.final)
  }

  /** Each round is the handler's result on the state the previous round
      left. */
  ghost predicate Steps<E, W>(handler: (E, W) -> Step<W>, env: E, w: W, rounds: seq<Round<W>>) {
    forall j :: 0 <= j < |rounds| ==>
      handler(env, Before(w, rounds, j)) == Step(Ok(rounds[j].result), rounds[j].after)
  }

  /** The rounds are the handler's successive results, each started from the
      state the previous one left. */
  lemma {:induction false} LoopSteps<E, W>(handler: (E, W) -> Step<W>, env: E, cont: (string, W) -> bool,
                                           remaining: nat, w: W)
    ensures Steps(handler, env, w, Loop(handler, env, cont, remaining, w).rounds)
    decreases remaining
  {
    if remaining > 0 {
      var s := handler(env, w);
      if s.result.Ok? && cont(s.result.value, s.world) {
        var w1 := s.world;
        LoopSteps(handler, env, cont, remaining - 1, w1);
        var rest := Loop(handler, env, cont, remaining - 1, w1);
        var rounds := [Round(s.result.value, w1)] + rest.rounds;
        assert Loop(handler, env, cont, remaining, w).rounds == rounds;
        forall j | 1 <= j < |rounds|
          ensures handler(env, Before(w, rounds, j)) == Step(Ok(rounds[j].result), rounds[j].after)
        {
          assert rounds[j] == rest.rounds[j - 1];
          assert Before(w, rounds, j) == Before(w1, rest.rounds, j - 1);
          assert handler(env, Before(w1, rest.rounds, j - 1))
              == Step(Ok(rest.rounds[j - 1].result), rest.rounds[j - 1].after);
        }
        assert handler(env, Before(w, rounds, 0)) == Step(Ok(rounds[0].result), rounds[0].after);
      }
    }
  }

  /** Every round but the last asked to go on; without an exception the loop
      ends early only on a result that asks to stop, and leaves the state the
      last round left. */
  lemma {:induction false} LoopStops<E, W>(handler: (E, W) -> Step<W>, env: E, cont: (string, W) -> bool,
                                           remaining: nat, w: W)
    ensures var r := Loop(handler, env, cont, remaining, w);
      && (forall j :: 0 <= j < |r.rounds| - 1 ==> cont(r.rounds[j].result, r.rounds[j].after))
      && (r.raised.None? ==> r.final == Before(w, r.rounds, |r.rounds|))
      && (r.raised.None? && |r.rounds| < remaining ==>
            |r.rounds| > 0 && !cont(r.rounds[|r.rounds| - 1].result, r.rounds[|r.rounds| - 1].after))
    decreases remaining
  {
    if remaining > 0 {
      var s := handler(env, w);
      if s.result.Ok? && cont(s.result.value, s.world) {
        var w1 := s.world;
        LoopStops(handler, env, cont, remaining - 1, w1);
        var rest := Loop(handler, env, cont, remaining - 1, w1);
        var rounds := [Round(s.result.value, w1)] + rest.rounds;
        assert Loop(handler, env, cont, remaining, w) == Run(rounds, rest.raised, rest.final);
        assert forall j :: 1 <= j < |rounds| ==> rounds[j] == rest.rounds[j - 1];
        assert Before(w, rounds, |rounds|) == Before(w1, rest.rounds, |rest.rounds|);
      }
    }
  }

  /** An exception ends the loop, leaving the state the raising call left. */
  lemma {:induction false} LoopRaises<E, W>(handler: (E, W) -> Step<W>, env: E, cont: (string, W) -> bool,
                                            remaining: nat, w: W)
    ensures var r := Loop(handler, env, cont, remaining, w);
      r.raised.Some? ==> handler(env, Before(w, r.rounds, |r.rounds|)) == Step(Raise(r.raised.value), r.final)
    decreases remaining
  {
    if remaining > 0 {
      var s := handler(env, w);
      if s.result.Ok? && cont(s.result.value, s.world) {
        var w1 := s.world;
        LoopRaises(handler, env, cont, remaining - 1, w1);
        var rest := Loop(handler, env, cont, remaining - 1, w1);
        var rounds := [Round(s.result.value, w1)] + rest.rounds;
        assert Loop(handler, env, cont, remaining, w) == Run(rounds, rest.raised, rest.final);
        assert Before(w, rounds, |rounds|) == Before(w1, rest.rounds, |rest.rounds|);
      }
    }
  }

  /** `run`: the loop, then the last result, or `default` when there was no
      round or the last result is empty.  An exception propagates. */
  function RunPhase<E, W>(handler: (E, W) -> Step<W>, env: E, cont: (string, W) -> bool,
                          maxIterations: int, default: string, w: W): (r: Step<W>)
    ensures r.result.Ok? ==> r.result.value != "" || default == ""
    ensures r.world == Loop(handler, env, cont, if maxIterations < 0 then 0 else maxIterations, w).final
  {
    var run := Loop(handler, env, cont, if maxIterations < 0 then 0 else maxIterations, w);
    match run.raised
    case Some(m) => Step(Raise(m), run.final)
    case None =>
      if |run.rounds| == 0 || run.rounds[|run.rounds| - 1].result == "" then Step(Ok(default), run.final)
      else Step(Ok(run.rounds[|run.rounds| - 1].result), run.final)
  }

  /** With no iterations allowed the handler is never called. */
  lemma NoIterations<E, W>(handler: (E, W) -> Step<W>, env: E, cont: (string, W) -> bool,
                           maxIterations: int, default: string, w: W)
    requires maxIterations <= 0
    ensures RunPhase(handler, env, cont, maxIterations, default, w) == Step(Ok(default), w)
  {
  }

  /** When every result says to go on and the handler never raises, the
      handler runs exactly `remaining` times. */
  lemma {:induction false} RunsToLimit<E, W>(handler: (E, W) -> Step<W>, env: E, cont: (string, W) -> bool,
                                             remaining: nat, w: W)
    requires forall v :: handler(env, v).result.Ok? && cont(handler(env, v).result.value, handler(env, v).world)
    ensures var r := Loop(handler, env, cont, remaining, w); |r.rounds| == remaining && r.raised.None?
    decreases remaining
  {
    if remaining > 0 {
      RunsToLimit(handler, env, cont, remaining - 1, handler(env, w).world);
    }
  }

  /** When a call grows a measure of the state by at most `k`, the loop grows
      it by at most `k` per allowed round. */
  lemma {:induction false} LoopGrowth<E, W>(handler: (E, W) -> Step<W>, env: E, cont: (string, W) -> bool,
                                            remaining: nat, w: W, size: W -> nat, k: nat)
    requires forall v :: size(handler(env, v).world) <= size(v) + k
    ensures size(Loop(handler, env, cont, remaining, w).final) <= size(w) + k * remaining
    decreases remaining
  {
    if remaining > 0 {
      var s := handler(env, w);
      if s.result.Ok? && cont(s.result.value, s.world) {
        LoopGrowth(handler, env, cont, remaining - 1, s.world, size, k);
        assert k * remaining == k * (remaining - 1) + k;
      }
    }
  }

  /** A first round that asks to stop ends the phase with its result. */
  lemma StopsAtFirst<E, W>(handler: (E, W) -> Step<W>, env: E, cont: (string, W) -> bool,
                           maxIterations: int, default: string, w: W)
    requires maxIterations >= 1
    requires handler(env, w).result.Ok?
    requires !cont(handler(env, w).result.value, handler(env, w).world)
    ensures var s := handler(env, w);
      RunPhase(handler, env, cont, maxIterations, default, w)
        == Step(Ok(if s.result.value == "" then default else s.result.value), s.world)
  {
    var s := handler(env, w);
    assert Loop(handler, env, cont, maxIterations, w) == Run([Round(s.result.value, s.world)], None, s.world);
  }

  /** An exception in the first round ends the phase with it. */
  lemma RaisesAtFirst<E, W>(handler: (E, W) -> Step<W>, env: E, cont: (string, W) -> bool,
                            maxIterations: int, default: string, w: W)
    requires maxIterations >= 1
    requires handler(env, w).result.Raise?
    ensures RunPhase(handler, env, cont, maxIterations, default, w) == handler(env, w)
  {
    var s := handler(env, w);
    assert Loop(handler, env, cont, maxIterations, w) == Run([], Some(s.result.message), s.world);
  }

  /** Two rounds that both ask to go on use up a limit of two, and the
      second result is the phase's. */
  lemma TwoRounds<E, W>(handler: (E, W) -> Step<W>, env: E, cont: (string, W) -> bool, default: string, w: W)
    requires handler(env, w).result.Ok?
    requires cont(handler(env, w).result.value, handler(env, w).world)
    requires handler(env, handler(env, w).world).result.Ok?
    requires cont(handler(env, handler(env, w).world).result.value, handler(env, handler(env, w).world).world)
    ensures var s := handler(env, handler(env, w).world);
      RunPhase(handler, env, cont, 2, default, w)
        == Step(Ok(if s.result.value == "" then default else s.result.value), s.world)
  {
    var s1 := handler(env, w);
    var s2 := handler(env, s1.world);
    assert Loop(handler, env, cont, 0, s2.world) == Run([], None, s2.world);
    assert Loop(handler, env, cont, 1, s1.world) == Run([Round(s2.result.value, s2.world)], None, s2.world);
    assert Loop(handler, env, cont, 2, w)
        == Run([Round(s1.result.value, s1.world), Round(s2.result.value, s2.world)], None, s2.world);
  }
}
