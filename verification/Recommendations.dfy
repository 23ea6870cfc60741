/** Where a recommendation and its headline figures come from. */
module Recommendations {
  import opened Domain
  import opened AgentSpec
  import opened AgentInvariants
  import AgentTheorems

  // ----- the mechanical pick

  /** The first of the cheapest such trials is at position `i`. */
  ghost predicate FirstCheapest(trials: seq<Trial>, i: nat) {
    && i < |trials| && Pickable(trials[i])
    && (forall j :: 0 <= j < |trials| && Pickable(trials[j]) ==>
          trials[i].result.costPerMTok <= trials[j].result.costPerMTok)
    && (forall j :: 0 <= j < i && Pickable(trials[j]) ==>
          trials[i].result.costPerMTok < trials[j].result.costPerMTok)
  }

  lemma {:induction false} BestIsFirstCheapest(trials: seq<Trial>) returns (i: nat)
    requires BestTrial(trials).Some?
    ensures FirstCheapest(trials, i) && trials[i] == BestTrial(trials).value
  {
    var n := |trials| - 1;
    if BestTrial(trials[..n]).Some? {
      i := BestIsFirstCheapest(trials[..n]);
      if BestTrial(trials).value != trials[i] {
        i := n;
      }
    } else {
      AgentTheorems.NoBest(trials[..n]);
      i := n;
    }
  }

  /** A reused trial copies an earlier one of the same cost. */
  lemma ReusedIsNotFirst(trials: seq<Trial>, i: nat)
    requires ReusesCopy(trials) && i < |trials| && trials[i].reused
    ensures !FirstCheapest(trials, i)
  {
    assert MeasuredBefore(trials, i);
    var k :| 0 <= k < i && !trials[k].reused && SameMeasurement(trials[k], trials[i]);
    assert Pickable(trials[i]) ==> Pickable(trials[k]);
  }

  /** So the first cheapest trial is never a reused one. */
  lemma PickIsMeasured(trials: seq<Trial>, i: nat)
    requires ReusesCopy(trials) && FirstCheapest(trials, i)
    ensures !trials[i].reused
  {
    hide ReusesCopy;
    if trials[i].reused {
      ReusedIsNotFirst(trials, i);
    }
  }

  /** Cost per token and throughput of every usable trial multiply to one positive price. */
  ghost predicate OnePrice(trials: seq<Trial>, price: real) {
    price > 0.0 && forall i :: 0 <= i < |trials| && trials[i].err == "" && trials[i].result.tokPerSec > 0.0 ==>
      trials[i].result.costPerMTok * trials[i].result.tokPerSec == price
  }

  lemma CheaperIsFaster(price: real, cost1: real, tok1: real, cost2: real, tok2: real)
    requires price > 0.0 && tok1 > 0.0 && tok2 > 0.0
    requires cost1 * tok1 == price && cost2 * tok2 == price
    ensures cost1 > 0.0 && cost2 > 0.0
    ensures cost1 <= cost2 <==> tok1 >= tok2
  {
    assert cost1 == price / tok1 > 0.0 && cost2 == price / tok2 > 0.0;
    QuotientOrder(price, tok1, tok2);
    QuotientOrder(price, tok2, tok1);
  }

  lemma QuotientOrder(price: real, tok1: real, tok2: real)
    requires price > 0.0 && tok1 > 0.0 && tok2 > 0.0
    ensures tok1 >= tok2 ==> price / tok1 <= price / tok2
    ensures tok1 < tok2 ==> price / tok1 > price / tok2
  {
    var d := price / tok2 - price / tok1;
    assert d * (tok1 * tok2) == price * (tok1 - tok2) by {
      assert price / tok2 * tok2 == price && price / tok1 * tok1 == price;
      assert d * (tok1 * tok2) == (price / tok2 * tok2) * tok1 - (price / tok1 * tok1) * tok2;
    }
    ProductSign(tok1 * tok2, d);
    ProductSign(price, tok1 - tok2);
  }

  lemma ProductSign(x: real, y: real)
    requires x > 0.0
    ensures x * y >= 0.0 <==> y >= 0.0
  {
  }

  /** Ended without an error, with throughput and no failed request. */
  predicate UsableErrorFree(t: Trial) {
    t.err == "" && t.result.tokPerSec > 0.0 && t.result.errorRate <= 0.0
  }

  /** At one GPU price the cheapest pick is also the fastest usable error-free trial, and there
      is a pick as soon as there is such a trial. */
  lemma PickIsFastest(trials: seq<Trial>, price: real)
    requires OnePrice(trials, price)
    ensures BestTrial(trials).None? <==>
            forall i :: 0 <= i < |trials| ==> !UsableErrorFree(trials[i])
    ensures BestTrial(trials).Some? ==>
              forall j :: 0 <= j < |trials| && UsableErrorFree(trials[j]) ==>
                trials[j].result.tokPerSec <= BestTrial(trials).value.result.tokPerSec
  {
    hide BestTrial;
    forall j | 0 <= j < |trials| && UsableErrorFree(trials[j]) ensures Pickable(trials[j])
    {
      CheaperIsFaster(price, trials[j].result.costPerMTok, trials[j].result.tokPerSec,
                      trials[j].result.costPerMTok, trials[j].result.tokPerSec);
    }
    AgentTheorems.NoBest(trials);
    if BestTrial(trials).Some? {
      var i := BestIsFirstCheapest(trials);
      forall j | 0 <= j < |trials| && UsableErrorFree(trials[j])
        ensures trials[j].result.tokPerSec <= trials[i].result.tokPerSec
      {
        assert Pickable(trials[j]);
        CheaperIsFaster(price, trials[i].result.costPerMTok, trials[i].result.tokPerSec,
                        trials[j].result.costPerMTok, trials[j].result.tokPerSec);
      }
    }
  }

  // ----- the measurement attached to a recommendation

  /** Trials of one specification agree on the outcome, whichever the search returns. */
  lemma SameSpecSameMeasurement(trials: seq<Trial>, i: nat, j: nat)
    requires ReusesCopy(trials) && DistinctSpecs(Measurements(trials))
    requires i < |trials| && j < |trials| && trials[i].spec == trials[j].spec
    ensures SameMeasurement(trials[i], trials[j])
  {
    hide Measurements;
    var i0 := SourceOf(trials, i);
    var j0 := SourceOf(trials, j);
    var a := TrialIsMeasurement(trials, i0);
    var b := TrialIsMeasurement(trials, j0);
    var ms := Measurements(trials);
    DistinctPosition(ms, a, b);
  }

  lemma DistinctPosition(ms: seq<Trial>, a: nat, b: nat)
    requires DistinctSpecs(ms) && a < |ms| && b < |ms| && ms[a].spec == ms[b].spec
    ensures a == b
  {
  }

  lemma SourceOf(trials: seq<Trial>, i: nat) returns (k: nat)
    requires ReusesCopy(trials) && i < |trials|
    ensures k < |trials| && !trials[k].reused && SameMeasurement(trials[k], trials[i])
  {
    if trials[i].reused {
      assert MeasuredBefore(trials, i);
      k :| 0 <= k < i && !trials[k].reused && SameMeasurement(trials[k], trials[i]);
    } else {
      k := i;
    }
  }

  /** At the moment of submission a measurement is attached exactly when the campaign has a
      usable trial of the recommended configuration. */
  lemma MeasuredIffUsableTrialNow(c: Campaign, clock: Clock, s: AgentState, args: RecArgs)
    requires Inv(c, s)
    ensures var rec := CallRecommend(c, clock, s, Some(args)).0.recommendation;
            rec.Some? && (rec.value.measured.Some? <==>
              exists i :: 0 <= i < |s.trials| && AgentTheorems.Configured(s.trials[i], args.engine, args.config)
                       && s.trials[i].err == "" && s.trials[i].result.tokPerSec > 0.0)
  {
    hide FindTrial, Streams, Measurements;
    var spec := c.SpecFor(args.engine, args.config);
    FoundTrial(s.trials, spec);
    assert forall i :: 0 <= i < |s.trials| ==> InCampaign(c, s.trials[i].spec);
    assert forall i :: 0 <= i < |s.trials| && AgentTheorems.Configured(s.trials[i], args.engine, args.config) ==>
             s.trials[i].spec == spec;
    if FindTrial(s.trials, spec).Some? {
      var k := FirstMatchWasMeasured(s.trials, spec);
      forall i | 0 <= i < |s.trials| && s.trials[i].spec == spec ensures SameMeasurement(s.trials[k], s.trials[i]) {
        SameSpecSameMeasurement(s.trials, k, i);
      }
    }
  }

  /** The recommendation's figures, if any, are those of a usable trial that was measured for it. */
  ghost predicate Grounded(c: Campaign, trials: seq<Trial>, rec: Recommendation) {
    rec.measured.Some? ==>
      exists i :: 0 <= i < |trials| && BackedBy(c, trials[i], rec)
  }

  ghost predicate BackedBy(c: Campaign, t: Trial, rec: Recommendation) {
    && !t.reused && t.err == "" && t.result.tokPerSec > 0.0
    && AgentTheorems.Configured(t, rec.engine, rec.engineConfig)
    && rec.measured == Some(t.result)
  }

  ghost predicate GroundedState(c: Campaign, s: AgentState) {
    s.recommendation.Some? ==> Grounded(c, s.trials, s.recommendation.value)
  }

  lemma GroundedGrows(c: Campaign, trials: seq<Trial>, more: seq<Trial>, rec: Recommendation)
    requires Grounded(c, trials, rec) && trials <= more
    ensures Grounded(c, more, rec)
  {
    if rec.measured.Some? {
      var i :| 0 <= i < |trials| && BackedBy(c, trials[i], rec);
      assert BackedBy(c, more[i], rec);
    }
  }

  lemma RecommendGrounds(c: Campaign, clock: Clock, s: AgentState, args: RecArgs)
    requires Inv(c, s)
    ensures GroundedState(c, CallRecommend(c, clock, s, Some(args)).0)
  {
    hide FindTrial, Streams, Booked;
    var spec := c.SpecFor(args.engine, args.config);
    var rec := CallRecommend(c, clock, s, Some(args)).0.recommendation.value;
    if rec.measured.Some? {
      var k := FirstMatchWasMeasured(s.trials, spec);
      assert BackedBy(c, s.trials[k], rec);
    }
  }

  /** Only the recommendation tool touches the recommendation, and trials are only added. */
  lemma BlockGrows(c: Campaign, clock: Clock, s: AgentState, block: Block)
    ensures s.trials <= AfterBlock(c, clock, s, block).trials
    ensures AfterBlock(c, clock, s, block).recommendation == s.recommendation
            || (block.ToolUse? && block.call.Recommend? && block.call.recArgs.Some?)
  {
    hide FindTrial;
  }

  lemma BlockGrounds(c: Campaign, clock: Clock, s: AgentState, block: Block)
    requires Inv(c, s) && GroundedState(c, s)
    ensures GroundedState(c, AfterBlock(c, clock, s, block))
  {
    hide Inv, Grounded, CallRecommend, CallRunBenchmark;
    BlockGrows(c, clock, s, block);
    if block.ToolUse? && block.call.Recommend? && block.call.recArgs.Some? {
      RecommendGrounds(c, clock, s, block.call.recArgs.value);
    } else if s.recommendation.Some? {
      GroundedGrows(c, s.trials, AfterBlock(c, clock, s, block).trials, s.recommendation.value);
    }
  }

  lemma {:induction false} BlocksGround(c: Campaign, clock: Clock, s: AgentState, blocks: seq<Block>)
    requires Inv(c, s) && GroundedState(c, s)
    ensures GroundedState(c, AfterBlocks(c, clock, s, blocks))
    decreases blocks
  {
    hide Inv, GroundedState, AfterBlock;
    if blocks != [] {
      BlockKeeps(c, clock, s, blocks[0]);
      BlockGrounds(c, clock, s, blocks[0]);
      BlocksGround(c, clock, AfterBlock(c, clock, s, blocks[0]), blocks[1..]);
    }
  }

  /** A mechanical recommendation is the first cheapest trial of the report. */
  ghost predicate MechanicalPick(s: AgentState) {
    s.recommendation.Some? && s.recommendation.value.fallback ==>
      exists i: nat :: FirstCheapest(s.trials, i) && !s.trials[i].reused
               && s.recommendation.value.engine == s.trials[i].spec.engine
               && s.recommendation.value.engineConfig == s.trials[i].spec.engineConfig
               && s.recommendation.value.measured == Some(s.trials[i].result)
  }

  lemma ConcludeGrounds(c: Campaign, clock: Clock, s: AgentState)
    requires Inv(c, s) && s.recommendation.None?
    ensures GroundedState(c, Conclude(clock, s).state) && MechanicalPick(Conclude(clock, s).state)
  {
    hide BestTrial, Streams, Booked;
    if BestTrial(s.trials).Some? {
      var i := BestIsFirstCheapest(s.trials);
      PickIsMeasured(s.trials, i);
      assert InCampaign(c, s.trials[i].spec);
      assert BackedBy(c, s.trials[i], Conclude(clock, s).state.recommendation.value);
    }
  }

  ghost predicate NoFallbackYet(s: AgentState) {
    s.recommendation.Some? ==> !s.recommendation.value.fallback
  }

  lemma {:induction false} BlocksDoNotFallBack(c: Campaign, clock: Clock, s: AgentState, blocks: seq<Block>)
    requires NoFallbackYet(s)
    ensures NoFallbackYet(AfterBlocks(c, clock, s, blocks))
    decreases blocks
  {
    if blocks != [] {
      BlockGrows(c, clock, s, blocks[0]);
      BlocksDoNotFallBack(c, clock, AfterBlock(c, clock, s, blocks[0]), blocks[1..]);
    }
  }

  lemma {:induction false} RunFromGrounds(c: Campaign, clock: Clock, s: AgentState, script: seq<PlannerReply>)
    requires Inv(c, s) && s.recommendation.None?
    ensures GroundedState(c, RunFrom(c, clock, s, script).state)
    ensures MechanicalPick(RunFrom(c, clock, s, script).state)
    decreases script
  {
    hide Inv, Grounded, FirstCheapest, AfterBlocks, Conclude;
    if s.turns >= c.budget.maxTurns {
      ConcludeGrounds(c, clock, s);
    } else if script != [] && script[0].Response? {
      var s1 := Received(s, script[0].usage);
      InvIgnoresRest(c, s, s1);
      var s2 := AfterBlocks(c, clock, s1, script[0].content);
      BlocksKeep(c, clock, s1, script[0].content);
      BlocksGround(c, clock, s1, script[0].content);
      BlocksDoNotFallBack(c, clock, s1, script[0].content);
      if s2.recommendation.None? && !script[0].stop.StopRefusal? {
        ConcludeGrounds(c, clock, s2);
        RunFromGrounds(c, clock, s2, script[1..]);
      }
    }
  }

  /**
   Every figure of a report was measured: a recommendation's measurement is the platform's own
   answer to a benchmark of exactly the recommended configuration, submitted in this campaign
   on an allowed engine, that ended without an error and with positive throughput. A mechanical
   recommendation always carries one, and it is the first cheapest eligible trial.
   */
  lemma EveryFigureWasMeasured(c: Campaign, clock: Clock, script: seq<PlannerReply>)
    requires c.Valid()
    ensures var s := Run(c, clock, script).state;
            s.recommendation.Some? && s.recommendation.value.measured.Some? ==>
              exists k :: 0 <= k < |Submissions(s.trace)| && Answered(c, Submissions(s.trace)[k], s.recommendation.value)
    ensures MechanicalPick(Run(c, clock, script).state)
  {
    hide Run, RunFrom, Streams, Measurements, Submissions, MechanicalPick;
    var s := Run(c, clock, script).state;
    RunKeeps(c, clock, script);
    assert GroundedState(c, s) && MechanicalPick(s) by {
      RunGrounds(c, clock, script);
    }
    if s.recommendation.Some? && s.recommendation.value.measured.Some? {
      var i :| 0 <= i < |s.trials| && BackedBy(c, s.trials[i], s.recommendation.value);
      var k := TrialIsMeasurement(s.trials, i);
      assert Answers(Measurements(s.trials)[k], Submissions(s.trace)[k]);
      assert InCampaign(c, s.trials[i].spec);
      assert Answered(c, Submissions(s.trace)[k], s.recommendation.value);
    }
  }

  ghost predicate Answered(c: Campaign, b: Submission, rec: Recommendation) {
    && b.spec.engine == rec.engine && b.spec.engineConfig == rec.engineConfig && rec.engine in c.engines
    && b.spec.model == c.model && b.spec.gpuProfile == c.gpuProfile && b.spec.workload == c.workload
    && rec.measured == Some(b.reply.result)
    && (b.reply.err.None? || b.reply.err.value == "") && b.reply.result.tokPerSec > 0.0
  }

  lemma RunGrounds(c: Campaign, clock: Clock, script: seq<PlannerReply>)
    requires c.Valid()
    ensures GroundedState(c, Run(c, clock, script).state) && MechanicalPick(Run(c, clock, script).state)
  {
    hide RunFrom, GroundedState, MechanicalPick, Inv;
    InitialInv(c, clock);
    RunFromGrounds(c, clock, Initial(clock), script);
  }

  /**
   Tool calls after a submission in the same response still run, so a report can hold a usable
   trial of the recommended configuration that the recommendation does not cite.
   */
  lemma LateMeasurementIsNotCited(c: Campaign, args: RecArgs, hypothesis: string, reply: BenchReply, usage: Usage)
    requires c.Valid() && args.engine in c.engines
    requires reply.err.None? && reply.result.tokPerSec > 0.0
    ensures var late := BenchArgs(args.engine, hypothesis, args.config);
            var script := [Response(StopToolUse, usage,
                             [ToolUse("a", Recommend(Some(args))), ToolUse("b", RunBenchmark(Some(late), reply))])];
            var o := Run(c, n => 0, script);
            && o.err.None? && o.state.recommendation.Some? && o.state.recommendation.value.measured.None?
            && |o.state.trials| == 1 && o.state.trials[0].err == "" && o.state.trials[0].result.tokPerSec > 0.0
            && AgentTheorems.Configured(o.state.trials[0], args.engine, args.config)
  {
    var late := BenchArgs(args.engine, hypothesis, args.config);
    var blocks := [ToolUse("a", Recommend(Some(args))), ToolUse("b", RunBenchmark(Some(late), reply))];
    var script := [Response(StopToolUse, usage, blocks)];
    var clock: Clock := n => 0;
    var s1 := Received(Initial(clock), usage);
    var s2 := AfterBlock(c, clock, s1, blocks[0]);
    assert FindTrial([], c.SpecFor(args.engine, args.config)).None?;
    var s3 := AfterBlock(c, clock, s2, blocks[1]);
    assert AfterBlocks(c, clock, s1, blocks) == s3 by {
      assert blocks[1..] == [blocks[1]];
      assert AfterBlocks(c, clock, s2, [blocks[1]]) == AfterBlocks(c, clock, s3, []);
    }
  }
}
