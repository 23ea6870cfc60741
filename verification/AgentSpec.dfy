/**
 The campaign loop as a function of everything it cannot control: a script of planner
 replies, the platform's answer to every benchmark, and the readings of the clock. A script
 that is too short stands for a planner call that fails.
 */
module AgentSpec {
  import opened Domain

  datatype BenchArgs = BenchArgs(engine: string, hypothesis: string, config: EngineConfig)

  datatype RecArgs = RecArgs(
    engine: string,
    config: EngineConfig,
    reasoning: string,
    runnerUp: string,
    confidence: string,
    caveats: string)

  /** What the platform returns for a benchmark: a result and, possibly, an error's text. */
  datatype BenchReply = BenchReply(result: Result, err: Option<string>)

  /** A tool call; arguments that do not parse are None. */
  datatype ToolCall =
    | ListWorkers(failed: bool)
    | Classify(parsed: bool, failed: bool)
    | Historical(engine: Option<string>, failed: bool)
    | RunBenchmark(benchArgs: Option<BenchArgs>, reply: BenchReply)
    | Recommend(recArgs: Option<RecArgs>)
    | UnknownTool

  datatype Exhaustion = TrialBudget | TimeBudget

  /** What the planner is told about a tool call. */
  datatype ToolReply =
    | Unparsed
    | EngineRejected
    | Refused(why: Exhaustion)
    | ReusedResult(result: Result)
    | BenchmarkFailed(err: string, trialsLeft: int)
    | BenchmarkDone(result: Result, trialsLeft: int, timeLeft: int)
    | Recorded
    | LookedUp
    | LookupFailed
    | NoSuchTool
  {
    predicate IsError() {
      Unparsed? || EngineRejected? || Refused? || BenchmarkFailed? || LookupFailed? || NoSuchTool?
    }
  }

  datatype Block =
    | TextBlock(text: string)
    | ThinkingBlock(thinking: string)
    | ToolUse(id: string, call: ToolCall)
    | OtherBlock

  datatype StopReason = StopToolUse | StopRefusal | StopOther

  datatype PlannerReply =
    | PlannerError
    | Response(stop: StopReason, usage: Usage, content: seq<Block>)

  /** One call of the platform's benchmark, with the elapsed time that its budget check read. */
  datatype Submission = Submission(spec: TrialSpec, elapsedAtCheck: int, reply: BenchReply)

  /** What the loop does to the world, in order: events emitted and benchmarks submitted. */
  datatype Action =
    | Emitted(event: Event)
    | Benchmarked(submission: Submission)

  datatype AgentState = AgentState(
    trials: seq<Trial>,
    recommendation: Option<Recommendation>,
    spent: nat,
    turns: nat,
    usage: Usage,
    started: int,
    ticks: nat,
    trace: seq<Action>)
  {
    function Report(): Report {
      Domain.Report(recommendation, trials, usage, turns)
    }
  }

  datatype RunError = PlannerFailed | PlannerRefused | NoRecommendation | LoopCancelled

  datatype Outcome = Outcome(state: AgentState, err: Option<RunError>)

  /** The reading number `i` of the clock; readings never go back. */
  type Clock = nat -> int

  ghost predicate Monotone(clock: Clock) {
    forall i, j :: 0 <= i <= j ==> clock(i) <= clock(j)
  }

  function Initial(clock: Clock): AgentState {
    AgentState([], None, 0, 0, NO_USAGE, clock(0), 1, [])
  }

  // ----- the tools

  function Emit(clock: Clock, s: AgentState, kind: EventKind, text: string,
                trial: Option<TrialSpec>, result: Option<Result>): AgentState
  {
    var e := Event(kind, text, trial, result, clock(s.ticks) - s.started);
    s.(trace := s.trace + [Emitted(e)], ticks := s.ticks + 1)
  }

  function FindTrial(trials: seq<Trial>, spec: TrialSpec): Option<Trial> {
    if trials == [] then None
    else if trials[0].spec == spec then Some(trials[0])
    else FindTrial(trials[1..], spec)
  }

  /** The clock is read only when trials are left, and once more to word that time is up. */
  function Exhausted(c: Campaign, clock: Clock, s: AgentState): Option<Exhaustion> {
    if s.spent >= c.budget.maxTrials then Some(TrialBudget)
    else if clock(s.ticks) - s.started >= c.budget.maxDuration then Some(TimeBudget)
    else None
  }

  function AfterCheck(c: Campaign, clock: Clock, s: AgentState): AgentState {
    match Exhausted(c, clock, s)
    case Some(TrialBudget) => s
    case Some(TimeBudget) => s.(ticks := s.ticks + 2)
    case None => s.(ticks := s.ticks + 1)
  }

  function CallRunBenchmark(c: Campaign, clock: Clock, s: AgentState,
                            args: Option<BenchArgs>, reply: BenchReply): (AgentState, ToolReply)
  {
    if args.None? then (s, Unparsed)
    else if args.value.engine !in c.engines then (s, EngineRejected)
    else
      var s1 := AfterCheck(c, clock, s);
      var spec := c.SpecFor(args.value.engine, args.value.config);
      match Exhausted(c, clock, s)
      case Some(why) =>
        (Emit(clock, s1, Warn, ExhaustionText(why), None, None), Refused(why))
      case None =>
        match FindTrial(s.trials, spec)
        case Some(prior) =>
          var again := Trial(spec, prior.result, prior.err, 0, args.value.hypothesis, true);
          (s1.(trials := s1.trials + [again]), ReusedResult(prior.result))
        case None =>
          Measure(c, clock, s1, spec, args.value.hypothesis, clock(s.ticks) - s.started, reply)
  }

  function ErrorText(reply: BenchReply): string {
    if reply.err.Some? then reply.err.value else ""
  }

  function ExhaustionText(why: Exhaustion): string {
    if why.TrialBudget? then "trial budget exhausted" else "time budget exhausted"
  }

  /** A benchmark that is really submitted: announced, run between two readings of the clock,
      charged and booked. */
  function Submitted(clock: Clock, s: AgentState, spec: TrialSpec,
                     hypothesis: string, checked: int, reply: BenchReply): AgentState
  {
    var s1 := Emit(clock, s, TrialStart, hypothesis, Some(spec), None);
    var duration := clock(s1.ticks + 1) - clock(s1.ticks);
    s1.(trace := s1.trace + [Benchmarked(Submission(spec, checked, reply))],
        ticks := s1.ticks + 2,
        spent := s1.spent + 1,
        trials := s1.trials + [Trial(spec, reply.result, ErrorText(reply), duration, hypothesis, false)])
  }

  /** Two events around one platform call. */
  function Measure(c: Campaign, clock: Clock, s: AgentState, spec: TrialSpec,
                   hypothesis: string, checked: int, reply: BenchReply): (AgentState, ToolReply)
  {
    var s2 := Submitted(clock, s, spec, hypothesis, checked, reply);
    var left := c.budget.maxTrials - s2.spent;
    if reply.err.Some? then
      (Emit(clock, s2, TrialFailed, ErrorText(reply), Some(spec), None), BenchmarkFailed(ErrorText(reply), left))
    else
      var s3 := Emit(clock, s2, TrialDone, "", Some(spec), Some(reply.result));
      (s3.(ticks := s3.ticks + 1),
       BenchmarkDone(reply.result, left, c.budget.maxDuration - (clock(s3.ticks) - s.started)))
  }

  function CallRecommend(c: Campaign, clock: Clock, s: AgentState, args: Option<RecArgs>): (AgentState, ToolReply) {
    if args.None? then (s, Unparsed)
    else
      var a := args.value;
      var found := FindTrial(s.trials, c.SpecFor(a.engine, a.config));
      var measured := if found.Some? && found.value.OK() then Some(found.value.result) else None;
      var rec := Recommendation(a.engine, a.config, a.reasoning, a.runnerUp, a.confidence, a.caveats,
                                measured, false);
      (Emit(clock, s.(recommendation := Some(rec)), Done, a.reasoning, None, None), Recorded)
  }

  function DispatchTool(c: Campaign, clock: Clock, s: AgentState, call: ToolCall): (AgentState, ToolReply) {
    match call
    case ListWorkers(failed) =>
      (Emit(clock, s, Lookup, "checking registered workers", None, None),
       if failed then LookupFailed else LookedUp)
    case Classify(parsed, failed) =>
      if !parsed then (s, Unparsed)
      else (Emit(clock, s, Lookup, "classifying workload shape", None, None),
            if failed then LookupFailed else LookedUp)
    case Historical(engine, failed) =>
      if engine.None? then (s, Unparsed)
      else
        var s1 := Emit(clock, s, Lookup, "looking up past " + engine.value + " results", None, None);
        (s1.(ticks := s1.ticks + 1), if failed then LookupFailed else LookedUp)
    case RunBenchmark(args, reply) => CallRunBenchmark(c, clock, s, args, reply)
    case Recommend(args) => CallRecommend(c, clock, s, args)
    case UnknownTool => (s, NoSuchTool)
  }

  // ----- one planner response

  function AfterBlock(c: Campaign, clock: Clock, s: AgentState, block: Block): AgentState {
    match block
    case TextBlock(text) => if text == "" then s else Emit(clock, s, Plan, text, None, None)
    case ThinkingBlock(text) => if text == "" then s else Emit(clock, s, Thinking, text, None, None)
    case ToolUse(_, call) => DispatchTool(c, clock, s, call).0
    case OtherBlock => s
  }

  function AfterBlocks(c: Campaign, clock: Clock, s: AgentState, blocks: seq<Block>): AgentState
    decreases blocks
  {
    if blocks == [] then s
    else AfterBlocks(c, clock, AfterBlock(c, clock, s, blocks[0]), blocks[1..])
  }

  // ----- the loop

  /** The first of the cheapest eligible trials. */
  function BestTrial(trials: seq<Trial>): Option<Trial> {
    if trials == [] then None
    else
      var t := trials[|trials| - 1];
      var best := BestTrial(trials[..|trials| - 1]);
      if t.Eligible() && (best.None? || t.result.costPerMTok < best.value.result.costPerMTok) then Some(t)
      else best
  }

  const FALLBACK_CAVEATS := "Not the planner's judgement."
  const FALLBACK_REASONING := "Selected mechanically: lowest measured cost per million tokens."

  function Conclude(clock: Clock, s: AgentState): Outcome {
    match BestTrial(s.trials)
    case None => Outcome(s, Some(NoRecommendation))
    case Some(best) =>
      var s1 := Emit(clock, s, Warn, "planner ended without a recommendation", None, None);
      var rec := Recommendation(best.spec.engine, best.spec.engineConfig, FALLBACK_REASONING, "", "low",
                                FALLBACK_CAVEATS, Some(best.result), true);
      Outcome(s1.(recommendation := Some(rec)), None)
  }

  /** The state in which a response's content is processed: one more turn, its tokens added. */
  function Received(s: AgentState, usage: Usage): AgentState {
    s.(turns := s.turns + 1, usage := s.usage.Plus(usage))
  }

  function RunFrom(c: Campaign, clock: Clock, s: AgentState, script: seq<PlannerReply>): Outcome
    decreases script
  {
    if s.turns >= c.budget.maxTurns then Conclude(clock, s)
    else if script == [] || script[0].PlannerError? then
      Outcome(s.(turns := s.turns + 1), Some(PlannerFailed))
    else
      var s1 := Received(s, script[0].usage);
      if script[0].stop.StopRefusal? then Outcome(s1, Some(PlannerRefused))
      else
        var s2 := AfterBlocks(c, clock, s1, script[0].content);
        if s2.recommendation.Some? then Outcome(s2, None)
        else if !script[0].stop.StopToolUse? then Conclude(clock, s2)
        else RunFrom(c, clock, s2, script[1..])
  }

  function Run(c: Campaign, clock: Clock, script: seq<PlannerReply>): Outcome {
    RunFrom(c, clock, Initial(clock), script)
  }
}
