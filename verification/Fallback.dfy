/** The mechanical fallback under the cost law of the benchmark workers. */
module Fallback {
  import opened Domain
  import opened AgentSpec
  import opened AgentInvariants
  import AgentTheorems
  import opened Recommendations
  import opened Measurement

  /** The figures are those of some raw requests on this GPU profile. */
  ghost predicate Computed(gpuProfile: string, r: Result) {
    exists raw: seq<RawRequest> :: FiguresOf(r) == ComputeResult(gpuProfile, raw)
  }

  function FiguresOf(r: Result): Figures {
    Figures(r.tokPerSec, r.errorRate, r.costPerMTok)
  }

  /** Every answer without an error comes from the workers' arithmetic. */
  ghost predicate WorkersAnswer(c: Campaign, bs: seq<Submission>) {
    forall k :: 0 <= k < |bs| && (bs[k].reply.err.None? || bs[k].reply.err.value == "") ==>
      Computed(c.gpuProfile, bs[k].reply.result)
  }

  lemma ComputedFollowsPrice(gpuProfile: string, r: Result)
    requires Computed(gpuProfile, r) && r.tokPerSec > 0.0
    ensures PricePerUnit(gpuProfile) > 0.0 && r.costPerMTok * r.tokPerSec == PricePerUnit(gpuProfile)
  {
    hide ComputeResult, PricePerUnit;
    var raw :| FiguresOf(r) == ComputeResult(gpuProfile, raw);
    CostLaw(gpuProfile, raw);
  }

  lemma TrialFollowsPrice(c: Campaign, s: AgentState, i: nat)
    requires Inv(c, s) && WorkersAnswer(c, Submissions(s.trace))
    requires i < |s.trials| && s.trials[i].err == "" && s.trials[i].result.tokPerSec > 0.0
    ensures s.trials[i].result.costPerMTok * s.trials[i].result.tokPerSec == PricePerUnit(c.gpuProfile)
  {
    hide Submissions, Measurements, Streams, Computed, PricePerUnit;
    var j := SourceOf(s.trials, i);
    var k := TrialIsMeasurement(s.trials, j);
    assert Answers(Measurements(s.trials)[k], Submissions(s.trace)[k]);
    ComputedFollowsPrice(c.gpuProfile, s.trials[i].result);
  }

  lemma AllAtOnePrice(c: Campaign, s: AgentState)
    requires Inv(c, s) && WorkersAnswer(c, Submissions(s.trace))
    ensures OnePrice(s.trials, PricePerUnit(c.gpuProfile))
  {
    hide Inv, WorkersAnswer, Submissions, PricePerUnit;
    CostLaw(c.gpuProfile, []);
    forall i | 0 <= i < |s.trials| && s.trials[i].err == "" && s.trials[i].result.tokPerSec > 0.0
      ensures s.trials[i].result.costPerMTok * s.trials[i].result.tokPerSec == PricePerUnit(c.gpuProfile)
    {
      TrialFollowsPrice(c, s, i);
    }
  }

  lemma PickIsFirstCheapest(trials: seq<Trial>, i: nat)
    requires FirstCheapest(trials, i)
    ensures BestTrial(trials) == Some(trials[i])
  {
    hide BestTrial;
    AgentTheorems.NoBest(trials);
    var k := BestIsFirstCheapest(trials);
    assert k == i;
  }

  /**
   A campaign runs on one GPU profile, so when its measurements come from the workers' own
   arithmetic, a mechanical recommendation - chosen as the cheapest - is also the fastest usable
   error-free trial of the whole run.
   */
  lemma FallbackIsFastest(c: Campaign, clock: Clock, script: seq<PlannerReply>)
    requires c.Valid() && WorkersAnswer(c, Submissions(Run(c, clock, script).state.trace))
    requires Run(c, clock, script).state.recommendation.Some?
    requires Run(c, clock, script).state.recommendation.value.fallback
    ensures var s := Run(c, clock, script).state;
            && s.recommendation.value.measured.Some?
            && forall j :: 0 <= j < |s.trials| && UsableErrorFree(s.trials[j]) ==>
                 s.trials[j].result.tokPerSec <= s.recommendation.value.measured.value.tokPerSec
  {
    hide Run, Inv, WorkersAnswer, Submissions, BestTrial, OnePrice;
    var s := Run(c, clock, script).state;
    RunKeeps(c, clock, script);
    EveryFigureWasMeasured(c, clock, script);
    AllAtOnePrice(c, s);
    PickIsFastest(s.trials, PricePerUnit(c.gpuProfile));
    var i: nat :| FirstCheapest(s.trials, i) && !s.trials[i].reused
               && s.recommendation.value.measured == Some(s.trials[i].result);
    PickIsFirstCheapest(s.trials, i);
  }
}
