/** What a run does, action by action: the planner's words it passes on, in their order, the calls
    it makes, and the two events around every benchmark. */
module AgentWords {
  import opened Domain
  import opened AgentSpec
  import opened AgentInvariants
  import AgentReadings
  import AgentTheorems

  // ----- words

  /** What the planner has to say: a plan, a thought, a conclusion, or that it looks something up. */
  datatype Word = Planned(text: string) | Thought(text: string) | Concluded(reasoning: string) | Consulted

  function Heard(e: Event): seq<Word> {
    match e.kind
    case Plan => [Planned(e.text)]
    case Thinking => [Thought(e.text)]
    case Done => [Concluded(e.text)]
    case Lookup => [Consulted]
    case _ => []
  }

  /** The words among the events of a trace. */
  function Words(trace: seq<Action>): seq<Word> {
    if trace == [] then []
    else
      var last := trace[|trace| - 1];
      Words(trace[..|trace| - 1]) + (if last.Emitted? then Heard(last.event) else [])
  }

  function Said(block: Block): seq<Word> {
    match block
    case TextBlock(text) => if text == "" then [] else [Planned(text)]
    case ThinkingBlock(text) => if text == "" then [] else [Thought(text)]
    case OtherBlock => []
    case ToolUse(_, call) =>
      match call
      case ListWorkers(_) => [Consulted]
      case Classify(parsed, _) => if parsed then [Consulted] else []
      case Historical(engine, _) => if engine.Some? then [Consulted] else []
      case Recommend(args) => if args.Some? then [Concluded(args.value.reasoning)] else []
      case _ => []
  }

  function SaidIn(blocks: seq<Block>): seq<Word> {
    if blocks == [] then [] else Said(blocks[0]) + SaidIn(blocks[1..])
  }

  /** The words of these replies; one that is declined is not read. */
  function Spoken(replies: seq<PlannerReply>): seq<Word> {
    if replies == [] then []
    else
      (if replies[0].PlannerError? || replies[0].stop.StopRefusal? then [] else SaidIn(replies[0].content))
      + Spoken(replies[1..])
  }

  /** How many calls the planner gets: it is called until one fails, is declined, stops by itself
      or submits a recommendation, and at most `left` times. */
  function Calls(script: seq<PlannerReply>, left: nat): nat
    decreases script
  {
    if left == 0 then 0
    else if script == [] || script[0].PlannerError? || !script[0].stop.StopToolUse?
            || AgentTheorems.Submits(script[0].content) then 1
    else 1 + Calls(script[1..], left - 1)
  }

  lemma WordsAppend(trace: seq<Action>, a: Action)
    ensures Words(trace + [a]) == Words(trace) + if a.Emitted? then Heard(a.event) else []
  {
    assert (trace + [a])[..|trace|] == trace;
  }

  lemma EmitSays(clock: Clock, s: AgentState, kind: EventKind, text: string)
    ensures var e := Event(kind, text, None, None, clock(s.ticks) - s.started);
            Words(Emit(clock, s, kind, text, None, None).trace) == Words(s.trace) + Heard(e)
  {
    hide Words;
    WordsAppend(s.trace, Emitted(Event(kind, text, None, None, clock(s.ticks) - s.started)));
  }

  lemma MeasureSaysNothing(c: Campaign, clock: Clock, s: AgentState, spec: TrialSpec,
                           hypothesis: string, checked: int, reply: BenchReply)
    ensures Words(Measure(c, clock, s, spec, hypothesis, checked, reply).0.trace) == Words(s.trace)
  {
    hide Words, Measure;
    var start, outcome, m, b := AgentReadings.MeasureReads(c, clock, s, spec, hypothesis, checked, reply);
    WordsAppend(s.trace, Emitted(start));
    WordsAppend(s.trace + [Emitted(start)], Benchmarked(b));
    WordsAppend(s.trace + [Emitted(start)] + [Benchmarked(b)], Emitted(outcome));
  }

  lemma BenchmarkSaysNothing(c: Campaign, clock: Clock, s: AgentState, args: Option<BenchArgs>, reply: BenchReply)
    ensures Words(CallRunBenchmark(c, clock, s, args, reply).0.trace) == Words(s.trace)
  {
    hide Words, Measure, FindTrial;
    if args.Some? && args.value.engine in c.engines {
      var s1 := AfterCheck(c, clock, s);
      if Exhausted(c, clock, s).Some? {
        EmitSays(clock, s1, Warn, ExhaustionText(Exhausted(c, clock, s).value));
      } else {
        MeasureSaysNothing(c, clock, s1, c.SpecFor(args.value.engine, args.value.config),
                           args.value.hypothesis, clock(s.ticks) - s.started, reply);
      }
    }
  }

  lemma BlockSays(c: Campaign, clock: Clock, s: AgentState, block: Block)
    ensures Words(AfterBlock(c, clock, s, block).trace) == Words(s.trace) + Said(block)
  {
    hide Words, CallRunBenchmark, FindTrial;
    match block
    case TextBlock(text) => EmitSays(clock, s, Plan, text);
    case ThinkingBlock(text) => EmitSays(clock, s, Thinking, text);
    case OtherBlock =>
    case ToolUse(_, call) =>
      match call
      case ListWorkers(_) => EmitSays(clock, s, Lookup, "checking registered workers");
      case Classify(_, _) => EmitSays(clock, s, Lookup, "classifying workload shape");
      case Historical(engine, _) =>
        if engine.Some? {
          EmitSays(clock, s, Lookup, "looking up past " + engine.value + " results");
        }
      case RunBenchmark(args, reply) => BenchmarkSaysNothing(c, clock, s, args, reply);
      case Recommend(args) =>
        if args.Some? {
          var s1 := CallRecommend(c, clock, s, args).0;
          WordsAppend(s.trace, Emitted(Event(Done, args.value.reasoning, None, None, clock(s.ticks) - s.started)));
        }
      case UnknownTool =>
  }

  lemma {:induction false} BlocksSay(c: Campaign, clock: Clock, s: AgentState, blocks: seq<Block>)
    ensures Words(AfterBlocks(c, clock, s, blocks).trace) == Words(s.trace) + SaidIn(blocks)
    decreases blocks
  {
    hide AfterBlock, Words, Said;
    if blocks != [] {
      var s1 := AfterBlock(c, clock, s, blocks[0]);
      BlockSays(c, clock, s, blocks[0]);
      BlocksSay(c, clock, s1, blocks[1..]);
      var said, more := Said(blocks[0]), SaidIn(blocks[1..]);
      assert Words(s.trace) + said + more == Words(s.trace) + (said + more);
    }
  }

  lemma ConcludeSays(clock: Clock, s: AgentState)
    ensures Words(Conclude(clock, s).state.trace) == Words(s.trace) && Conclude(clock, s).state.turns == s.turns
  {
    hide Words, BestTrial;
    EmitSays(clock, s, Warn, "planner ended without a recommendation");
  }

  lemma OneCall(script: seq<PlannerReply>)
    ensures Spoken(AgentTheorems.RepliesTo(0, script)) == []
    ensures Spoken(AgentTheorems.RepliesTo(1, script)) ==
            if script == [] || script[0].PlannerError? || script[0].stop.StopRefusal? then []
            else SaidIn(script[0].content)
  {
    hide SaidIn;
    if script != [] {
      assert script[..1][1..] == [];
    }
  }

  lemma MoreCalls(n: nat, script: seq<PlannerReply>)
    requires script != [] && script[0].Response? && script[0].stop.StopToolUse?
    ensures Spoken(AgentTheorems.RepliesTo(n + 1, script)) ==
            SaidIn(script[0].content) + Spoken(AgentTheorems.RepliesTo(n, script[1..]))
  {
    hide SaidIn;
    assert AgentTheorems.RepliesTo(n + 1, script)[1..] == AgentTheorems.RepliesTo(n, script[1..]);
  }

  lemma {:induction false} RunFromSays(c: Campaign, clock: Clock, s: AgentState, script: seq<PlannerReply>)
    requires s.recommendation.None? && s.turns <= c.budget.maxTurns
    ensures var o, calls := RunFrom(c, clock, s, script).state, Calls(script, c.budget.maxTurns - s.turns);
            && o.turns == s.turns + calls
            && Words(o.trace) == Words(s.trace) + Spoken(AgentTheorems.RepliesTo(calls, script))
    decreases script
  {
    hide Words, Spoken, SaidIn, AfterBlocks, Conclude, AgentTheorems.Submits, AgentTheorems.RepliesTo;
    OneCall(script);
    ConcludeSays(clock, s);
    if s.turns < c.budget.maxTurns && script != [] && script[0].Response? && !script[0].stop.StopRefusal? {
      var s1 := Received(s, script[0].usage);
      var s2 := AfterBlocks(c, clock, s1, script[0].content);
      BlocksSay(c, clock, s1, script[0].content);
      AgentTheorems.BlocksSubmit(c, clock, s1, script[0].content);
      ConcludeSays(clock, s2);
      if s2.recommendation.None? && script[0].stop.StopToolUse? {
        RunFromSays(c, clock, s2, script[1..]);
        MoreCalls(Calls(script[1..], c.budget.maxTurns - s2.turns), script);
      }
    }
  }

  /** A run makes exactly the planner calls it should, and passes on every word of the replies it
      reads, in order: plans, thoughts, lookups and the reasons given with a recommendation. */
  lemma EveryWordIsPassedOn(c: Campaign, clock: Clock, script: seq<PlannerReply>)
    requires c.Valid()
    ensures var s := Run(c, clock, script).state;
            && s.turns == Calls(script, c.budget.maxTurns)
            && Words(s.trace) == Spoken(AgentTheorems.RepliesTo(s.turns, script))
  {
    hide RunFrom, Spoken, Calls, AgentTheorems.RepliesTo;
    RunFromSays(c, clock, Initial(clock), script);
  }

  // ----- the events around a benchmark

  predicate IsStart(a: Action) {
    a.Emitted? && a.event.kind.TrialStart?
  }

  predicate IsOutcome(a: Action) {
    a.Emitted? && (a.event.kind.TrialDone? || a.event.kind.TrialFailed?)
  }

  /** The event tells how the benchmark ended. */
  predicate Tells(e: Event, b: Submission) {
    && e.trial == Some(b.spec)
    && match b.reply.err
       case Some(text) => e.kind.TrialFailed? && e.text == text && e.result.None?
       case None => e.kind.TrialDone? && e.result == Some(b.reply.result)
  }

  /** The action at `q` is a benchmark, announced by the one before and reported by the one after. */
  predicate FramedAt(trace: seq<Action>, q: nat) {
    && 0 < q < |trace| - 1 && trace[q].Benchmarked?
    && IsStart(trace[q - 1]) && trace[q - 1].event.trial == Some(trace[q].submission.spec)
    && IsOutcome(trace[q + 1]) && Tells(trace[q + 1].event, trace[q].submission)
  }

  /** Nor does such an event come without its benchmark. */
  ghost predicate InFrame(trace: seq<Action>, q: nat)
    requires q < |trace|
  {
    && (trace[q].Benchmarked? ==> FramedAt(trace, q))
    && (IsStart(trace[q]) ==> FramedAt(trace, q + 1))
    && (IsOutcome(trace[q]) ==> q > 0 && FramedAt(trace, q - 1))
  }

  ghost predicate Framed(trace: seq<Action>) {
    forall q :: 0 <= q < |trace| ==> InFrame(trace, q)
  }

  lemma InFrameStays(trace: seq<Action>, more: seq<Action>, q: nat)
    requires q < |trace| && InFrame(trace, q)
    ensures InFrame(trace + more, q)
  {
  }

  lemma FramedAnyway(trace: seq<Action>, a: Action)
    requires Framed(trace) && a.Emitted? && !IsStart(a) && !IsOutcome(a)
    ensures Framed(trace + [a])
  {
    var all := trace + [a];
    assert InFrame(all, |trace|);
    hide InFrame;
    forall q | 0 <= q < |all| ensures InFrame(all, q) {
      if q < |trace| {
        InFrameStays(trace, [a], q);
      }
    }
  }

  lemma FramedMore(trace: seq<Action>, start: Event, b: Submission, outcome: Event)
    requires Framed(trace) && start.kind.TrialStart? && start.trial == Some(b.spec) && Tells(outcome, b)
    ensures Framed(trace + [Emitted(start), Benchmarked(b), Emitted(outcome)])
  {
    var more := [Emitted(start), Benchmarked(b), Emitted(outcome)];
    var n, all := |trace|, trace + more;
    assert FramedAt(all, n + 1);
    assert InFrame(all, n) && InFrame(all, n + 1) && InFrame(all, n + 2);
    hide InFrame;
    forall q | 0 <= q < |all| ensures InFrame(all, q) {
      if q < n {
        InFrameStays(trace, more, q);
      }
    }
  }

  lemma MeasureFrames(c: Campaign, clock: Clock, s: AgentState, spec: TrialSpec,
                      hypothesis: string, checked: int, reply: BenchReply)
    requires Framed(s.trace)
    ensures Framed(Measure(c, clock, s, spec, hypothesis, checked, reply).0.trace)
  {
    hide Framed;
    var s1 := Measure(c, clock, s, spec, hypothesis, checked, reply).0;
    var n := |s.trace|;
    assert s1.trace == s.trace + [s1.trace[n], s1.trace[n + 1], s1.trace[n + 2]];
    FramedMore(s.trace, s1.trace[n].event, s1.trace[n + 1].submission, s1.trace[n + 2].event);
  }

  lemma EmitFrames(clock: Clock, s: AgentState, kind: EventKind, text: string)
    requires Framed(s.trace) && !kind.TrialStart? && !kind.TrialDone? && !kind.TrialFailed?
    ensures Framed(Emit(clock, s, kind, text, None, None).trace)
  {
    hide Framed;
    FramedAnyway(s.trace, Emitted(Event(kind, text, None, None, clock(s.ticks) - s.started)));
  }

  lemma BlockFrames(c: Campaign, clock: Clock, s: AgentState, block: Block)
    requires Framed(s.trace)
    ensures Framed(AfterBlock(c, clock, s, block).trace)
  {
    hide Framed, FindTrial, Measure;
    match block
    case TextBlock(text) => EmitFrames(clock, s, Plan, text);
    case ThinkingBlock(text) => EmitFrames(clock, s, Thinking, text);
    case OtherBlock =>
    case ToolUse(_, call) =>
      match call
      case ListWorkers(_) => EmitFrames(clock, s, Lookup, "checking registered workers");
      case Classify(_, _) => EmitFrames(clock, s, Lookup, "classifying workload shape");
      case Historical(engine, _) =>
        if engine.Some? {
          EmitFrames(clock, s, Lookup, "looking up past " + engine.value + " results");
        }
      case RunBenchmark(args, reply) =>
        if args.Some? && args.value.engine in c.engines {
          var s1 := AfterCheck(c, clock, s);
          if Exhausted(c, clock, s).Some? {
            EmitFrames(clock, s1, Warn, ExhaustionText(Exhausted(c, clock, s).value));
          }
          MeasureFrames(c, clock, s1, c.SpecFor(args.value.engine, args.value.config),
                        args.value.hypothesis, clock(s.ticks) - s.started, reply);
        }
      case Recommend(args) =>
        if args.Some? {
          FramedAnyway(s.trace, Emitted(Event(Done, args.value.reasoning, None, None, clock(s.ticks) - s.started)));
        }
      case UnknownTool =>
  }

  lemma {:induction false} BlocksFrame(c: Campaign, clock: Clock, s: AgentState, blocks: seq<Block>)
    requires Framed(s.trace)
    ensures Framed(AfterBlocks(c, clock, s, blocks).trace)
    decreases blocks
  {
    hide Framed, AfterBlock;
    if blocks != [] {
      BlockFrames(c, clock, s, blocks[0]);
      BlocksFrame(c, clock, AfterBlock(c, clock, s, blocks[0]), blocks[1..]);
    }
  }

  lemma ConcludeFrames(clock: Clock, s: AgentState)
    requires Framed(s.trace)
    ensures Framed(Conclude(clock, s).state.trace)
  {
    hide Framed, BestTrial;
    EmitFrames(clock, s, Warn, "planner ended without a recommendation");
  }

  lemma {:induction false} RunFromFrames(c: Campaign, clock: Clock, s: AgentState, script: seq<PlannerReply>)
    requires Framed(s.trace)
    ensures Framed(RunFrom(c, clock, s, script).state.trace)
    decreases script
  {
    hide Framed, AfterBlocks, Conclude;
    ConcludeFrames(clock, s);
    if s.turns < c.budget.maxTurns && script != [] && script[0].Response? {
      var s1 := Received(s, script[0].usage);
      BlocksFrame(c, clock, s1, script[0].content);
      var s2 := AfterBlocks(c, clock, s1, script[0].content);
      ConcludeFrames(clock, s2);
      RunFromFrames(c, clock, s2, script[1..]);
    }
  }

  /** In every run each benchmark comes right after an event that announces it and right before one
      that tells its outcome, and there are no other such events. */
  lemma EveryBenchmarkIsAnnounced(c: Campaign, clock: Clock, script: seq<PlannerReply>)
    ensures Framed(Run(c, clock, script).state.trace)
  {
    hide RunFrom;
    RunFromFrames(c, clock, Initial(clock), script);
  }
}
