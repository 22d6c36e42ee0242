/** The integer side of usage accounting: one record per agent call,
    token estimates from text length, totals, and per-phase and per-agent
    breakdowns kept in first-appearance order.  Timestamps, durations and
    the floating-point cost are not modelled. */
module UsageTracker {
  import opened Options
  import opened Text
  import opened OrderedMaps

  /** One recorded call (`APIUsage` without its timestamp). */
  datatype ApiUsage = ApiUsage(agent: string, phase: string, inputTokens: int, outputTokens: int, model: string)

  /** The tracker's summary: the call log and the totals as last computed. */
  datatype Tracker = Tracker(calls: seq<ApiUsage>, totalInput: int, totalOutput: int)

  const Fresh := Tracker([], 0, 0)

  /** Roughly four characters per token, rounded down; nothing for empty text. */
  function EstimateTokens(text: string): (n: nat)
    ensures 4 * n <= |text| < 4 * n + 4
  {
    if |text| == 0 then 0 else |text| / 4
  }

  /** Longer text never gets a smaller estimate. */
  lemma EstimateMonotone(a: string, b: string)
    requires |a| <= |b|
    ensures EstimateTokens(a) <= EstimateTokens(b)
  {
  }

  /** `record_api_call`: one record appended, earlier ones and the totals untouched. */
  function RecordCall(t: Tracker, agent: string, phase: string, model: string,
                      inputTokens: int, outputTokens: int): (r: Tracker)
    ensures |r.calls| == |t.calls| + 1 && r.calls[..|t.calls|] == t.calls
    ensures r.calls[|t.calls|] == ApiUsage(agent, phase, inputTokens, outputTokens, model)
    ensures r.totalInput == t.totalInput && r.totalOutput == t.totalOutput
  {
    t.(calls := t.calls + [ApiUsage(agent, phase, inputTokens, outputTokens, model)])
  }

  /** `record_api_call_with_text`: the token counts are the estimates of the two texts. */
  function RecordWithText(t: Tracker, agent: string, phase: string, model: string,
                          inputText: string, outputText: string): (r: Tracker)
    ensures |r.calls| == |t.calls| + 1 && r.calls[..|t.calls|] == t.calls
    ensures var u := r.calls[|t.calls|];
      && u.agent == agent && u.phase == phase && u.model == model
      && 4 * u.inputTokens <= |inputText| < 4 * u.inputTokens + 4
      && 4 * u.outputTokens <= |outputText| < 4 * u.outputTokens + 4
  {
    RecordCall(t, agent, phase, model, EstimateTokens(inputText), EstimateTokens(outputText))
  }

  /** Calls, input tokens and output tokens, side by side. */
  datatype Stats = Stats(calls: int, inputTokens: int, outputTokens: int)

  function Plus(a: Stats, b: Stats): Stats {
    Stats(a.calls + b.calls, a.inputTokens + b.inputTokens, a.outputTokens + b.outputTokens)
  }

  function One(u: ApiUsage): Stats {
    Stats(1, u.inputTokens, u.outputTokens)
  }

  /** The number of calls and the token sums over a log. */
  function Totals(calls: seq<ApiUsage>): Stats
    decreases |calls|
  {
    if |calls| == 0 then Stats(0, 0, 0) else Plus(One(calls[0]), Totals(calls[1..]))
  }

  lemma {:induction false} TotalsAppend(calls: seq<ApiUsage>, u: ApiUsage)
    ensures Totals(calls + [u]) == Plus(Totals(calls), One(u))
    decreases |calls|
  {
    if |calls| > 0 {
      assert (calls + [u])[1..] == calls[1..] + [u];
      TotalsAppend(calls[1..], u);
    }
  }

  lemma TotalsCount(calls: seq<ApiUsage>)
    ensures Totals(calls).calls == |calls|
    decreases |calls|
  {
  }

  /** `calculate_tokens`: the stored totals become the sums over the log. */
  function CalculateTokens(t: Tracker): (r: Tracker)
    ensures r.calls == t.calls
    ensures r.totalInput == Totals(t.calls).inputTokens && r.totalOutput == Totals(t.calls).outputTokens
  {
    var s := Totals(t.calls);
    t.(totalInput := s.inputTokens, totalOutput := s.outputTokens)
  }

  /** Recording a call after the totals were computed adds its tokens to the
      sums but leaves the stored totals behind until they are computed again. */
  lemma RecordAfterTotals(t: Tracker, agent: string, phase: string, model: string, i: int, o: int)
    requires t == CalculateTokens(t)
    ensures var r := RecordCall(t, agent, phase, model, i, o);
      && CalculateTokens(r).totalInput == r.totalInput + i
      && CalculateTokens(r).totalOutput == r.totalOutput + o
  {
    TotalsAppend(t.calls, ApiUsage(agent, phase, i, o, model));
  }

  // ---------------------------------------------------------------------
  // Breakdowns by phase and by agent.

  datatype GroupKey = ByPhase | ByAgent

  function KeyOf(u: ApiUsage, g: GroupKey): string {
    match g
    case ByPhase => u.phase
    case ByAgent => u.agent
  }

  function KeyList(calls: seq<ApiUsage>, g: GroupKey): (ks: seq<string>)
    ensures |ks| == |calls|
    decreases |calls|
  {
    if |calls| == 0 then [] else [KeyOf(calls[0], g)] + KeyList(calls[1..], g)
  }

  /** The calls of the log whose group is `k`, in order. */
  function Matching(calls: seq<ApiUsage>, g: GroupKey, k: string): seq<ApiUsage>
    decreases |calls|
  {
    if |calls| == 0 then []
    else (if KeyOf(calls[0], g) == k then [calls[0]] else []) + Matching(calls[1..], g, k)
  }

  /** One loop step: the call's group is created at zero when new, then counted. */
  function AddCall(groups: OrderedMap<Stats>, u: ApiUsage, g: GroupKey): OrderedMap<Stats> {
    var k := KeyOf(u, g);
    Put(groups, k, Plus(Held(groups, k), One(u)))
  }

  /** What group `k` holds so far, zero when it does not exist yet. */
  function Held(groups: OrderedMap<Stats>, k: string): Stats {
    match Lookup(groups, k)
    case Some(s) => s
    case None => Stats(0, 0, 0)
  }

  function GroupFrom(calls: seq<ApiUsage>, groups: OrderedMap<Stats>, g: GroupKey): OrderedMap<Stats>
    decreases |calls|
  {
    if |calls| == 0 then groups else GroupFrom(calls[1..], AddCall(groups, calls[0], g), g)
  }

  /** `_group_by_phase` and `_group_by_agent`. */
  function GroupBy(calls: seq<ApiUsage>, g: GroupKey): (r: OrderedMap<Stats>)
    ensures UniqueKeys(r)
    ensures Keys(r) == NewKeys(KeyList(calls, g), [])
    ensures SumStats(r) == Totals(calls)
    ensures forall k :: k in Keys(r) ==> Lookup(r, k) == Some(Totals(Matching(calls, g, k)))
  {
    GroupKeys(calls, [], g);
    GroupUnique(calls, [], g);
    GroupSums(calls, [], g);
    var r := GroupFrom(calls, [], g);
    forall k | k in Keys(r) ensures Lookup(r, k) == Some(Totals(Matching(calls, g, k))) {
      GroupLookup(calls, [], g, k);
    }
    r
  }

  /** The sum of the statistics of every group. */
  function SumStats(m: OrderedMap<Stats>): Stats
    decreases |m|
  {
    if |m| == 0 then Stats(0, 0, 0) else Plus(m[0].1, SumStats(m[1..]))
  }

  /** Groups appear in the order their first call appears. */
  lemma {:induction false} GroupKeys(calls: seq<ApiUsage>, groups: OrderedMap<Stats>, g: GroupKey)
    ensures Keys(GroupFrom(calls, groups, g)) == Keys(groups) + NewKeys(KeyList(calls, g), Keys(groups))
    decreases |calls|
  {
    if |calls| > 0 {
      var u := calls[0];
      var next := AddCall(groups, u, g);
      PutKeys(groups, KeyOf(u, g), Plus(Held(groups, KeyOf(u, g)), One(u)));
      GroupKeys(calls[1..], next, g);
      assert KeyList(calls, g) == [KeyOf(u, g)] + KeyList(calls[1..], g);
    }
  }

  lemma {:induction false} GroupUnique(calls: seq<ApiUsage>, groups: OrderedMap<Stats>, g: GroupKey)
    requires UniqueKeys(groups)
    ensures UniqueKeys(GroupFrom(calls, groups, g))
    decreases |calls|
  {
    if |calls| > 0 {
      var u := calls[0];
      PutUnique(groups, KeyOf(u, g), Plus(Held(groups, KeyOf(u, g)), One(u)));
      GroupUnique(calls[1..], AddCall(groups, u, g), g);
    }
  }

  /** Replacing or adding one group changes the sum by the difference. */
  lemma {:induction false} SumPut(m: OrderedMap<Stats>, k: string, before: Stats, s: Stats)
    requires before == Held(m, k)
    ensures Plus(SumStats(Put(m, k, s)), before) == Plus(SumStats(m), s)
    decreases |m|
  {
    if |m| > 0 && m[0].0 != k {
      SumPut(m[1..], k, before, s);
      assert Put(m, k, s)[1..] == Put(m[1..], k, s);
    } else if |m| > 0 {
      assert Put(m, k, s)[1..] == m[1..];
    }
  }

  /** The group sums grow by exactly the calls folded in. */
  lemma {:induction false} GroupSums(calls: seq<ApiUsage>, groups: OrderedMap<Stats>, g: GroupKey)
    ensures SumStats(GroupFrom(calls, groups, g)) == Plus(SumStats(groups), Totals(calls))
    decreases |calls|
  {
    if |calls| > 0 {
      var u := calls[0];
      var k := KeyOf(u, g);
      SumPut(groups, k, Held(groups, k), Plus(Held(groups, k), One(u)));
      GroupSums(calls[1..], AddCall(groups, u, g), g);
    }
  }

  /** Each group holds the totals of exactly the calls with its key, on top
      of what it held before; a key with neither stays absent. */
  lemma {:induction false} GroupLookup(calls: seq<ApiUsage>, groups: OrderedMap<Stats>, g: GroupKey, k: string)
    ensures var m := Matching(calls, g, k);
      Lookup(GroupFrom(calls, groups, g), k) ==
        if Lookup(groups, k).Some? || |m| > 0 then Some(Plus(Held(groups, k), Totals(m))) else None
    decreases |calls|
  {
    if |calls| > 0 {
      var u := calls[0];
      var next := AddCall(groups, u, g);
      PutLookup(groups, KeyOf(u, g), Plus(Held(groups, KeyOf(u, g)), One(u)), k);
      GroupLookup(calls[1..], next, g, k);
      var rest := Matching(calls[1..], g, k);
      if KeyOf(u, g) == k {
        var m := [u] + rest;
        assert m[0] == u && m[1..] == rest;
        assert Totals(m) == Plus(One(u), Totals(rest));
        assert Held(next, k) == Plus(Held(groups, k), One(u));
      } else {
        assert Matching(calls, g, k) == [] + rest == rest;
        assert Held(next, k) == Held(groups, k);
      }
    }
  }

  // ---------------------------------------------------------------------
  // Model names and the summary.

  /** The models the pricing table has an entry for. */
  const PricingKeys: seq<string> :=
    ["gemini-pro", "gemini-1.5-pro", "gemini-1.5-flash", "gemini-2.0-flash-exp", "gemini-3-flash", "gemini-3-pro"]

  /** The pricing key a model name is charged under: the lower-cased name is
      tested for each family in turn, and anything unrecognised is priced as
      `gemini-pro`.  The `gemini-3-pro` entry is never chosen. */
  function NormaliseModel(model: string): (key: string)
    ensures key == PricingKeys[0] || key == PricingKeys[1] || key == PricingKeys[2]
         || key == PricingKeys[3] || key == PricingKeys[4]
  {
    var m := Lower(model);
    if Contains(m, "1.5-pro") || Contains(m, "1_5_pro") then "gemini-1.5-pro"
    else if Contains(m, "1.5-flash") || Contains(m, "1_5_flash") then "gemini-1.5-flash"
    else if Contains(m, "2.0") || Contains(m, "2_0") then "gemini-2.0-flash-exp"
    else if Contains(m, "gemini-3") then "gemini-3-flash"
    else "gemini-pro"
  }

  /** Every normalised name has a price, and the last table entry is dead. */
  lemma NormalisedPriced(model: string)
    ensures NormaliseModel(model) in PricingKeys
    ensures NormaliseModel(model) != PricingKeys[5]
  {
    var k := NormaliseModel(model);
    assert k == PricingKeys[0] || k == PricingKeys[1] || k == PricingKeys[2]
        || k == PricingKeys[3] || k == PricingKeys[4];
  }

  lemma LowerIdempotent(s: string)
    ensures Lower(Lower(s)) == Lower(s)
  {
    assert forall i :: 0 <= i < |s| ==> Lower(Lower(s))[i] == Lower(s)[i];
  }

  /** Case never matters. */
  lemma NormaliseIgnoresCase(model: string)
    ensures NormaliseModel(Lower(model)) == NormaliseModel(model)
  {
    LowerIdempotent(model);
  }

  /** `gemini-3-pro` is priced as `gemini-3-flash`. */
  lemma Gemini3Pro()
    ensures NormaliseModel("gemini-3-pro") == "gemini-3-flash"
  {
    var m := "gemini-3-pro";
    assert Lower(m) == m;
    NotContainsWithoutHead(m, "1.5-pro");
    NotContainsWithoutHead(m, "1_5_pro");
    NotContainsWithoutHead(m, "1.5-flash");
    NotContainsWithoutHead(m, "1_5_flash");
    NotContainsWithoutHead(m, "2.0");
    NotContainsWithoutHead(m, "2_0");
    assert OccursAt(m, "gemini-3", 0);
  }

  /** `finish` without the clock and the cost: the totals are computed. */
  function Finish(t: Tracker): (r: Tracker)
    ensures r.calls == t.calls
    ensures r.totalInput == Totals(t.calls).inputTokens && r.totalOutput == Totals(t.calls).outputTokens
  {
    CalculateTokens(t)
  }

  /** The integer fields of `get_summary`. */
  datatype Summary = Summary(totalApiCalls: nat, totalInput: int, totalOutput: int, totalTokens: int,
                             byPhase: OrderedMap<Stats>, byAgent: OrderedMap<Stats>)

  function GetSummary(t: Tracker): (r: Summary)
    ensures r.totalTokens == r.totalInput + r.totalOutput
    ensures r.totalApiCalls == |t.calls|
    ensures Keys(r.byPhase) == NewKeys(KeyList(t.calls, ByPhase), [])
    ensures Keys(r.byAgent) == NewKeys(KeyList(t.calls, ByAgent), [])
  {
    Summary(|t.calls|, t.totalInput, t.totalOutput, t.totalInput + t.totalOutput,
            GroupBy(t.calls, ByPhase), GroupBy(t.calls, ByAgent))
  }

  /** After `finish`, each breakdown adds up to the summary's own totals. */
  lemma SummaryConsistent(t: Tracker)
    ensures var r := GetSummary(Finish(t));
      && SumStats(r.byPhase) == Stats(r.totalApiCalls, r.totalInput, r.totalOutput)
      && SumStats(r.byAgent) == Stats(r.totalApiCalls, r.totalInput, r.totalOutput)
  {
    TotalsCount(t.calls);
  }
}
