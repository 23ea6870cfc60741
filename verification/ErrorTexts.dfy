/**
 What the agent makes of the text of a benchmark's error: nothing. Rewording errors, and with
 them a cancellation, rewords what a run reports and changes nothing else.
 */
module ErrorTexts {
  import opened Domain
  import opened AgentSpec

  /** A rewording: an error stays an error, and no error stays none. */
  type Rewording = string -> string

  ghost predicate KeepsErrors(f: Rewording) {
    forall text :: f(text) == "" <==> text == ""
  }

  function InReply(f: Rewording, reply: BenchReply): BenchReply {
    reply.(err := if reply.err.Some? then Some(f(reply.err.value)) else None)
  }

  function InBlock(f: Rewording, block: Block): Block {
    if block.ToolUse? && block.call.RunBenchmark? then
      block.(call := RunBenchmark(block.call.benchArgs, InReply(f, block.call.reply)))
    else block
  }

  function InBlocks(f: Rewording, blocks: seq<Block>): seq<Block> {
    if blocks == [] then [] else [InBlock(f, blocks[0])] + InBlocks(f, blocks[1..])
  }

  function InPlannerReply(f: Rewording, reply: PlannerReply): PlannerReply {
    if reply.PlannerError? then reply else reply.(content := InBlocks(f, reply.content))
  }

  /** The same planner and platform, with every benchmark error reworded. */
  function InScript(f: Rewording, script: seq<PlannerReply>): seq<PlannerReply> {
    if script == [] then [] else [InPlannerReply(f, script[0])] + InScript(f, script[1..])
  }

  function InTrial(f: Rewording, t: Trial): Trial {
    t.(err := f(t.err))
  }

  function InTrials(f: Rewording, trials: seq<Trial>): seq<Trial> {
    seq(|trials|, i requires 0 <= i < |trials| => InTrial(f, trials[i]))
  }

  function InAction(f: Rewording, a: Action): Action {
    match a
    case Emitted(e) => if e.kind.TrialFailed? then Emitted(e.(text := f(e.text))) else a
    case Benchmarked(b) => Benchmarked(b.(reply := InReply(f, b.reply)))
  }

  function InTrace(f: Rewording, trace: seq<Action>): seq<Action> {
    seq(|trace|, i requires 0 <= i < |trace| => InAction(f, trace[i]))
  }

  /** The reworded report: trials and actions carry the new texts, the rest is the same. */
  function InState(f: Rewording, s: AgentState): AgentState {
    s.(trials := InTrials(f, s.trials), trace := InTrace(f, s.trace))
  }

  function InFound(f: Rewording, found: Option<Trial>): Option<Trial> {
    if found.Some? then Some(InTrial(f, found.value)) else None
  }

  lemma InTraceAppend(f: Rewording, trace: seq<Action>, a: Action)
    ensures InTrace(f, trace + [a]) == InTrace(f, trace) + [InAction(f, a)]
  {
  }

  lemma InTrialsAppend(f: Rewording, trials: seq<Trial>, t: Trial)
    ensures InTrials(f, trials + [t]) == InTrials(f, trials) + [InTrial(f, t)]
  {
  }

  lemma EmitReworded(f: Rewording, clock: Clock, s: AgentState, kind: EventKind, text: string,
                     trial: Option<TrialSpec>, result: Option<Result>)
    ensures Emit(clock, InState(f, s), kind, if kind.TrialFailed? then f(text) else text, trial, result)
            == InState(f, Emit(clock, s, kind, text, trial, result))
  {
    InTraceAppend(f, s.trace, Emitted(Event(kind, text, trial, result, clock(s.ticks) - s.started)));
  }

  lemma {:induction false} FindReworded(f: Rewording, trials: seq<Trial>, spec: TrialSpec)
    ensures FindTrial(InTrials(f, trials), spec) == InFound(f, FindTrial(trials, spec))
  {
    if trials != [] {
      assert InTrials(f, trials)[1..] == InTrials(f, trials[1..]);
      FindReworded(f, trials[1..], spec);
    }
  }

  lemma {:induction false} BestReworded(f: Rewording, trials: seq<Trial>)
    requires KeepsErrors(f)
    ensures BestTrial(InTrials(f, trials)) == InFound(f, BestTrial(trials))
  {
    if trials != [] {
      var n := |trials| - 1;
      assert InTrials(f, trials)[..n] == InTrials(f, trials[..n]);
      BestReworded(f, trials[..n]);
      assert InTrial(f, trials[n]).Eligible() <==> trials[n].Eligible();
    }
  }

  lemma SubmitReworded(f: Rewording, clock: Clock, s: AgentState, spec: TrialSpec,
                       hypothesis: string, checked: int, reply: BenchReply)
    requires KeepsErrors(f)
    ensures Submitted(clock, InState(f, s), spec, hypothesis, checked, InReply(f, reply))
            == InState(f, Submitted(clock, s, spec, hypothesis, checked, reply))
  {
    hide InTrace, InTrials;
    EmitReworded(f, clock, s, TrialStart, hypothesis, Some(spec), None);
    var s1 := Emit(clock, s, TrialStart, hypothesis, Some(spec), None);
    InTraceAppend(f, s1.trace, Benchmarked(Submission(spec, checked, reply)));
    var duration := clock(s1.ticks + 1) - clock(s1.ticks);
    InTrialsAppend(f, s1.trials, Trial(spec, reply.result, ErrorText(reply), duration, hypothesis, false));
    assert ErrorText(InReply(f, reply)) == f(ErrorText(reply));
  }

  lemma MeasureReworded(f: Rewording, c: Campaign, clock: Clock, s: AgentState, spec: TrialSpec,
                        hypothesis: string, checked: int, reply: BenchReply)
    requires KeepsErrors(f)
    ensures Measure(c, clock, InState(f, s), spec, hypothesis, checked, InReply(f, reply)).0
            == InState(f, Measure(c, clock, s, spec, hypothesis, checked, reply).0)
  {
    hide InTrace, InTrials, Submitted, Emit;
    SubmitReworded(f, clock, s, spec, hypothesis, checked, reply);
    var s2 := Submitted(clock, s, spec, hypothesis, checked, reply);
    assert ErrorText(InReply(f, reply)) == f(ErrorText(reply));
    if reply.err.Some? {
      EmitReworded(f, clock, s2, TrialFailed, ErrorText(reply), Some(spec), None);
    } else {
      EmitReworded(f, clock, s2, TrialDone, "", Some(spec), Some(reply.result));
    }
  }

  lemma BenchmarkReworded(f: Rewording, c: Campaign, clock: Clock, s: AgentState,
                          args: Option<BenchArgs>, reply: BenchReply)
    requires KeepsErrors(f)
    ensures CallRunBenchmark(c, clock, InState(f, s), args, InReply(f, reply)).0
            == InState(f, CallRunBenchmark(c, clock, s, args, reply).0)
  {
    hide InTrace, InTrials, Emit, Measure, FindTrial, InReply, KeepsErrors;
    if args.Some? && args.value.engine in c.engines {
      var s1 := AfterCheck(c, clock, s);
      var spec := c.SpecFor(args.value.engine, args.value.config);
      assert Exhausted(c, clock, InState(f, s)) == Exhausted(c, clock, s);
      assert AfterCheck(c, clock, InState(f, s)) == InState(f, s1);
      if Exhausted(c, clock, s).Some? {
        EmitReworded(f, clock, s1, Warn, ExhaustionText(Exhausted(c, clock, s).value), None, None);
      } else {
        FindReworded(f, s.trials, spec);
        if FindTrial(s.trials, spec).Some? {
          var prior := FindTrial(s.trials, spec).value;
          InTrialsAppend(f, s1.trials, Trial(spec, prior.result, prior.err, 0, args.value.hypothesis, true));
        } else {
          MeasureReworded(f, c, clock, s1, spec, args.value.hypothesis, clock(s.ticks) - s.started, reply);
        }
      }
    }
  }

  lemma RecommendReworded(f: Rewording, c: Campaign, clock: Clock, s: AgentState, args: Option<RecArgs>)
    requires KeepsErrors(f)
    ensures CallRecommend(c, clock, InState(f, s), args).0 == InState(f, CallRecommend(c, clock, s, args).0)
  {
    hide InTrace, InTrials, Emit, FindTrial;
    if args.Some? {
      var a := args.value;
      FindReworded(f, s.trials, c.SpecFor(a.engine, a.config));
      var s1 := s.(recommendation := CallRecommend(c, clock, s, args).0.recommendation);
      RecommendEmits(c, clock, s, args);
      RecommendEmits(c, clock, InState(f, s), args);
      EmitReworded(f, clock, s1, Done, a.reasoning, None, None);
    }
  }

  /** The recommendation that a submission leaves, and that the rest of it is one event. */
  lemma RecommendEmits(c: Campaign, clock: Clock, s: AgentState, args: Option<RecArgs>)
    requires args.Some?
    ensures var a := args.value;
            var found := FindTrial(s.trials, c.SpecFor(a.engine, a.config));
            var measured := if found.Some? && found.value.OK() then Some(found.value.result) else None;
            var rec := Recommendation(a.engine, a.config, a.reasoning, a.runnerUp, a.confidence, a.caveats, measured, false);
            var s1 := CallRecommend(c, clock, s, args).0;
            && s1.recommendation == Some(rec)
            && s1 == Emit(clock, s.(recommendation := Some(rec)), Done, a.reasoning, None, None)
  {
    hide FindTrial;
  }

  lemma BlockReworded(f: Rewording, c: Campaign, clock: Clock, s: AgentState, block: Block)
    requires KeepsErrors(f)
    ensures AfterBlock(c, clock, InState(f, s), InBlock(f, block)) == InState(f, AfterBlock(c, clock, s, block))
  {
    hide InTrace, InTrials, InReply, Emit, CallRunBenchmark, CallRecommend, KeepsErrors;
    match block
    case TextBlock(text) => EmitReworded(f, clock, s, Plan, text, None, None);
    case ThinkingBlock(text) => EmitReworded(f, clock, s, Thinking, text, None, None);
    case OtherBlock =>
    case ToolUse(_, call) =>
      match call
      case ListWorkers(_) => EmitReworded(f, clock, s, Lookup, "checking registered workers", None, None);
      case Classify(_, _) => EmitReworded(f, clock, s, Lookup, "classifying workload shape", None, None);
      case Historical(engine, _) =>
        if engine.Some? {
          EmitReworded(f, clock, s, Lookup, "looking up past " + engine.value + " results", None, None);
        }
      case RunBenchmark(args, reply) => BenchmarkReworded(f, c, clock, s, args, reply);
      case Recommend(args) => RecommendReworded(f, c, clock, s, args);
      case UnknownTool =>
  }

  lemma {:induction false} BlocksReworded(f: Rewording, c: Campaign, clock: Clock, s: AgentState, blocks: seq<Block>)
    requires KeepsErrors(f)
    ensures AfterBlocks(c, clock, InState(f, s), InBlocks(f, blocks)) == InState(f, AfterBlocks(c, clock, s, blocks))
    decreases blocks
  {
    hide InState, InBlock, AfterBlock, KeepsErrors;
    if blocks != [] {
      assert InBlocks(f, blocks)[1..] == InBlocks(f, blocks[1..]);
      BlockReworded(f, c, clock, s, blocks[0]);
      BlocksReworded(f, c, clock, AfterBlock(c, clock, s, blocks[0]), blocks[1..]);
    }
  }

  lemma ConcludeReworded(f: Rewording, clock: Clock, s: AgentState)
    requires KeepsErrors(f)
    ensures Conclude(clock, InState(f, s)) == Outcome(InState(f, Conclude(clock, s).state), Conclude(clock, s).err)
  {
    hide InTrace, InTrials, Emit, BestTrial;
    BestReworded(f, s.trials);
    EmitReworded(f, clock, s, Warn, "planner ended without a recommendation", None, None);
  }

  lemma {:induction false} RunFromReworded(f: Rewording, c: Campaign, clock: Clock, s: AgentState, script: seq<PlannerReply>)
    requires KeepsErrors(f)
    ensures var o := RunFrom(c, clock, s, script);
            RunFrom(c, clock, InState(f, s), InScript(f, script)) == Outcome(InState(f, o.state), o.err)
    decreases script
  {
    hide InTrace, InTrials, InBlocks, AfterBlocks, Conclude, KeepsErrors;
    if s.turns >= c.budget.maxTurns {
      ConcludeReworded(f, clock, s);
    } else if script != [] && script[0].Response? {
      var reply := script[0];
      assert InScript(f, script)[0] == InPlannerReply(f, reply) && InScript(f, script)[1..] == InScript(f, script[1..]);
      var s1 := Received(s, reply.usage);
      assert Received(InState(f, s), reply.usage) == InState(f, s1);
      BlocksReworded(f, c, clock, s1, reply.content);
      var s2 := AfterBlocks(c, clock, s1, reply.content);
      ConcludeReworded(f, clock, s2);
      RunFromReworded(f, c, clock, s2, script[1..]);
    }
  }

  /** A run with reworded errors is the run, reworded. */
  lemma RunIsBlindToErrorTexts(f: Rewording, c: Campaign, clock: Clock, script: seq<PlannerReply>)
    requires KeepsErrors(f)
    ensures var o := Run(c, clock, script);
            Run(c, clock, InScript(f, script)) == Outcome(InState(f, o.state), o.err)
  {
    hide RunFrom, InScript, KeepsErrors;
    assert InState(f, Initial(clock)) == Initial(clock);
    RunFromReworded(f, c, clock, Initial(clock), script);
  }
}
