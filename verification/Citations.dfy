/** Which benchmarks a submitted recommendation cites, over a whole run. */
module Citations {
  import opened Domain
  import opened AgentSpec
  import opened AgentInvariants
  import AgentTheorems
  import opened Recommendations

  predicate IsDone(a: Action) {
    a.Emitted? && a.event.kind.Done?
  }

  /** The position of the last submission, or -1. */
  function LastDone(trace: seq<Action>): (d: int)
    ensures -1 <= d < |trace|
  {
    if trace == [] then -1
    else if IsDone(trace[|trace| - 1]) then |trace| - 1
    else LastDone(trace[..|trace| - 1])
  }

  /** A benchmark of this engine with these knobs that ended without an error and with throughput. */
  predicate Usable(b: Submission, engine: string, config: EngineConfig) {
    && b.spec.engine == engine && b.spec.engineConfig == config
    && (b.reply.err.None? || b.reply.err.value == "") && b.reply.result.tokPerSec > 0.0
  }

  /** There is one among these. */
  predicate UsableIn(bs: seq<Submission>, engine: string, config: EngineConfig) {
    exists k :: 0 <= k < |bs| && Usable(bs[k], engine, config)
  }

  /** What was measured before the last submission. */
  function Before(trace: seq<Action>): seq<Submission> {
    if LastDone(trace) < 0 then [] else Submissions(trace[..LastDone(trace)])
  }

  /** A submitted recommendation carries figures exactly when they were there at its submission. */
  ghost predicate CitesWhatWasThere(c: Campaign, s: AgentState) {
    s.recommendation.Some? && !s.recommendation.value.fallback ==>
      var rec := s.recommendation.value;
      && LastDone(s.trace) >= 0
      && (rec.measured.Some? <==> UsableIn(Before(s.trace), rec.engine, rec.engineConfig))
  }

  // ----- nothing but a submission changes it

  /** More actions, none of them a submission. */
  ghost predicate GoesOn(before: seq<Action>, after: seq<Action>) {
    before <= after && forall k :: |before| <= k < |after| ==> !IsDone(after[k])
  }

  lemma {:induction false} LastDoneStays(before: seq<Action>, after: seq<Action>)
    requires GoesOn(before, after)
    ensures LastDone(after) == LastDone(before) && Before(after) == Before(before)
    decreases |after|
  {
    if |after| == |before| {
      assert after == before;
    } else {
      var init := after[..|after| - 1];
      LastDoneStays(before, init);
      var d := LastDone(before);
      assert d >= 0 ==> after[..d] == before[..d] == init[..d];
    }
  }

  lemma EmitGoesOn(clock: Clock, s: AgentState, kind: EventKind, text: string,
                   trial: Option<TrialSpec>, result: Option<Result>)
    requires !kind.Done?
    ensures GoesOn(s.trace, Emit(clock, s, kind, text, trial, result).trace)
  {
  }

  lemma GoOn(a: seq<Action>, b: seq<Action>, c: seq<Action>)
    requires GoesOn(a, b) && GoesOn(b, c)
    ensures GoesOn(a, c)
  {
    forall k | |a| <= k < |c| ensures !IsDone(c[k]) {
      assert k < |b| ==> c[k] == b[k];
    }
  }

  lemma MeasureGoesOn(c: Campaign, clock: Clock, s: AgentState, spec: TrialSpec,
                      hypothesis: string, checked: int, reply: BenchReply)
    ensures GoesOn(s.trace, Measure(c, clock, s, spec, hypothesis, checked, reply).0.trace)
    ensures Measure(c, clock, s, spec, hypothesis, checked, reply).0.recommendation == s.recommendation
  {
    hide GoesOn;
    var s2 := Submitted(clock, s, spec, hypothesis, checked, reply);
    assert GoesOn(s.trace, s2.trace) by {
      SubmitGoesOn(clock, s, spec, hypothesis, checked, reply);
    }
    EmitGoesOn(clock, s2, TrialFailed, ErrorText(reply), Some(spec), None);
    EmitGoesOn(clock, s2, TrialDone, "", Some(spec), Some(reply.result));
    GoOn(s.trace, s2.trace, Measure(c, clock, s, spec, hypothesis, checked, reply).0.trace);
  }

  lemma SubmitGoesOn(clock: Clock, s: AgentState, spec: TrialSpec,
                     hypothesis: string, checked: int, reply: BenchReply)
    ensures GoesOn(s.trace, Submitted(clock, s, spec, hypothesis, checked, reply).trace)
  {
  }

  lemma NoAction(trace: seq<Action>)
    ensures GoesOn(trace, trace)
  {
  }

  lemma BenchmarkGoesOn(c: Campaign, clock: Clock, s: AgentState, args: Option<BenchArgs>, reply: BenchReply)
    ensures GoesOn(s.trace, CallRunBenchmark(c, clock, s, args, reply).0.trace)
    ensures CallRunBenchmark(c, clock, s, args, reply).0.recommendation == s.recommendation
  {
    hide GoesOn, Measure, FindTrial;
    NoAction(s.trace);
    if args.Some? && args.value.engine in c.engines {
      var s1 := AfterCheck(c, clock, s);
      if Exhausted(c, clock, s).Some? {
        EmitGoesOn(clock, s1, Warn, ExhaustionText(Exhausted(c, clock, s).value), None, None);
      } else {
        MeasureGoesOn(c, clock, s1, c.SpecFor(args.value.engine, args.value.config), args.value.hypothesis,
                      clock(s.ticks) - s.started, reply);
      }
    }
  }

  lemma OtherBlockGoesOn(c: Campaign, clock: Clock, s: AgentState, block: Block)
    requires !AgentTheorems.SubmitsOne(block)
    ensures GoesOn(s.trace, AfterBlock(c, clock, s, block).trace)
    ensures AfterBlock(c, clock, s, block).recommendation == s.recommendation
  {
    hide GoesOn, CallRunBenchmark;
    NoAction(s.trace);
    match block
    case TextBlock(text) => EmitGoesOn(clock, s, Plan, text, None, None);
    case ThinkingBlock(text) => EmitGoesOn(clock, s, Thinking, text, None, None);
    case OtherBlock =>
    case ToolUse(_, call) =>
      match call
      case ListWorkers(_) => EmitGoesOn(clock, s, Lookup, "checking registered workers", None, None);
      case Classify(_, _) => EmitGoesOn(clock, s, Lookup, "classifying workload shape", None, None);
      case Historical(engine, _) =>
        if engine.Some? {
          EmitGoesOn(clock, s, Lookup, "looking up past " + engine.value + " results", None, None);
        }
      case RunBenchmark(args, reply) => BenchmarkGoesOn(c, clock, s, args, reply);
      case Recommend(_) =>
      case UnknownTool =>
  }

  // ----- a submission

  predicate UsableTrial(t: Trial, engine: string, config: EngineConfig) {
    AgentTheorems.Configured(t, engine, config) && t.err == "" && t.result.tokPerSec > 0.0
  }

  /** The usable trials of the accounts are the usable benchmarks of the trace. */
  lemma UsableTrialIffBenchmark(c: Campaign, s: AgentState, engine: string, config: EngineConfig)
    requires Inv(c, s)
    ensures (exists i :: 0 <= i < |s.trials| && UsableTrial(s.trials[i], engine, config))
            <==> UsableIn(Submissions(s.trace), engine, config)
  {
    hide Streams, Measurements, Submissions;
    var ms, bs := Measurements(s.trials), Submissions(s.trace);
    if exists i :: 0 <= i < |s.trials| && UsableTrial(s.trials[i], engine, config) {
      var i :| 0 <= i < |s.trials| && UsableTrial(s.trials[i], engine, config);
      var source := SourceOf(s.trials, i);
      var k := TrialIsMeasurement(s.trials, source);
      assert Answers(ms[k], bs[k]);
      assert Usable(bs[k], engine, config);
    }
    if UsableIn(bs, engine, config) {
      var k :| 0 <= k < |bs| && Usable(bs[k], engine, config);
      assert Answers(ms[k], bs[k]);
      var i := MeasurementIsTrial(s.trials, k);
      assert UsableTrial(s.trials[i], engine, config);
    }
  }

  lemma RecommendCites(c: Campaign, clock: Clock, s: AgentState, args: RecArgs)
    requires Inv(c, s)
    ensures CitesWhatWasThere(c, CallRecommend(c, clock, s, Some(args)).0)
  {
    hide FindTrial, Inv, UsableIn, Submissions;
    MeasuredIffUsableTrialNow(c, clock, s, args);
    UsableTrialIffBenchmark(c, s, args.engine, args.config);
    assert forall i :: 0 <= i < |s.trials| ==>
      (UsableTrial(s.trials[i], args.engine, args.config) <==>
       AgentTheorems.Configured(s.trials[i], args.engine, args.config)
       && s.trials[i].err == "" && s.trials[i].result.tokPerSec > 0.0);
    var s1 := CallRecommend(c, clock, s, Some(args)).0;
    assert IsDone(s1.trace[|s.trace|]) && s1.trace[..|s.trace|] == s.trace;
    assert LastDone(s1.trace) == |s.trace|;
  }

  // ----- over a run

  lemma BlockCites(c: Campaign, clock: Clock, s: AgentState, block: Block)
    requires Inv(c, s) && CitesWhatWasThere(c, s)
    ensures CitesWhatWasThere(c, AfterBlock(c, clock, s, block))
  {
    hide Inv, LastDone, Before, UsableIn, CallRecommend, CallRunBenchmark, GoesOn;
    if AgentTheorems.SubmitsOne(block) {
      RecommendCites(c, clock, s, block.call.recArgs.value);
    } else {
      OtherBlockGoesOn(c, clock, s, block);
      LastDoneStays(s.trace, AfterBlock(c, clock, s, block).trace);
    }
  }

  lemma {:induction false} BlocksCite(c: Campaign, clock: Clock, s: AgentState, blocks: seq<Block>)
    requires Inv(c, s) && CitesWhatWasThere(c, s)
    ensures CitesWhatWasThere(c, AfterBlocks(c, clock, s, blocks))
    decreases blocks
  {
    hide Inv, CitesWhatWasThere, AfterBlock;
    if blocks != [] {
      BlockKeeps(c, clock, s, blocks[0]);
      BlockCites(c, clock, s, blocks[0]);
      BlocksCite(c, clock, AfterBlock(c, clock, s, blocks[0]), blocks[1..]);
    }
  }

  lemma ConcludeCites(c: Campaign, clock: Clock, s: AgentState)
    requires s.recommendation.None?
    ensures CitesWhatWasThere(c, Conclude(clock, s).state)
  {
    hide BestTrial, LastDone, Before, UsableIn;
  }

  lemma {:induction false} RunFromCites(c: Campaign, clock: Clock, s: AgentState, script: seq<PlannerReply>)
    requires Inv(c, s) && s.recommendation.None?
    ensures CitesWhatWasThere(c, RunFrom(c, clock, s, script).state)
    decreases script
  {
    hide Inv, AfterBlocks, Conclude, LastDone, Before, UsableIn;
    ConcludeCites(c, clock, s);
    if s.turns < c.budget.maxTurns && script != [] && script[0].Response? {
      var s1 := Received(s, script[0].usage);
      InvIgnoresRest(c, s, s1);
      var s2 := AfterBlocks(c, clock, s1, script[0].content);
      BlocksKeep(c, clock, s1, script[0].content);
      BlocksCite(c, clock, s1, script[0].content);
      if s2.recommendation.None? {
        ConcludeCites(c, clock, s2);
        RunFromCites(c, clock, s2, script[1..]);
      }
    }
  }

  /**
   Over a whole run, a recommendation that the planner submitted carries figures exactly when a
   usable benchmark of its configuration comes before the last submission; what is measured in the
   same reply after it is not cited.
   */
  lemma CitedIffMeasuredBeforeSubmission(c: Campaign, clock: Clock, script: seq<PlannerReply>)
    requires c.Valid()
    requires Run(c, clock, script).state.recommendation.Some?
    requires !Run(c, clock, script).state.recommendation.value.fallback
    ensures var s := Run(c, clock, script).state;
            var rec := s.recommendation.value;
            var d := LastDone(s.trace);
            && d >= 0
            && (rec.measured.Some? <==> UsableIn(Submissions(s.trace[..d]), rec.engine, rec.engineConfig))
  {
    hide RunFrom, LastDone, UsableIn, Inv;
    InitialInv(c, clock);
    RunFromCites(c, clock, Initial(clock), script);
  }
}
