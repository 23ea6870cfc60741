/** What a campaign run guarantees to its owner, for every planner, platform and clock. */
module AgentTheorems {
  import opened Domain
  import opened AgentSpec
  import opened AgentInvariants

  // ----- hard budget, one measurement per configuration

  /**
   A run submits one benchmark per measured trial and never more than the cap; each carries the
   campaign's fixed model, GPU profile and workload and an allowed engine, passed a budget check
   with time left, and is reported exactly as the platform answered it. No configuration is
   measured twice, and a reused trial repeats an earlier measurement of its specification.
   */
  lemma EveryRunIsAccounted(c: Campaign, clock: Clock, script: seq<PlannerReply>)
    requires c.Valid()
    ensures var s := Run(c, clock, script).state;
            var ms := Measurements(s.trials);
            var bs := Submissions(s.trace);
            && s.spent == |ms| == |bs| <= c.budget.maxTrials
            && (forall k :: 0 <= k < |bs| ==>
                  && Answers(ms[k], bs[k]) && bs[k].elapsedAtCheck < c.budget.maxDuration
                  && bs[k].spec.engine in c.engines && bs[k].spec.model == c.model
                  && bs[k].spec.gpuProfile == c.gpuProfile && bs[k].spec.workload == c.workload)
            && (forall i, j :: 0 <= i < j < |bs| ==> bs[i].spec != bs[j].spec)
            && (forall j :: 0 <= j < |s.trials| && s.trials[j].reused ==> MeasuredBefore(s.trials, j))
  {
    hide Run, RunFrom, Measurements, Submissions, Streams;
    RunKeeps(c, clock, script);
    var s := Run(c, clock, script).state;
    var ms := Measurements(s.trials);
    forall k | 0 <= k < |ms| ensures InCampaign(c, ms[k].spec) {
      var i := MeasurementIsTrial(s.trials, k);
      assert InCampaign(c, s.trials[i].spec);
    }
  }

  /** No trial may start: the cap is reached, or the clock has reached the limit. */
  ghost predicate Spent(c: Campaign, clock: Clock, s: AgentState) {
    s.spent >= c.budget.maxTrials || clock(s.ticks) - s.started >= c.budget.maxDuration
  }

  /** The part of the state that only a benchmark call can change. */
  ghost predicate NoNewTrials(s: AgentState, s1: AgentState) {
    s1.trials == s.trials && s1.spent == s.spent && Submissions(s1.trace) == Submissions(s.trace)
  }

  lemma StillSpent(c: Campaign, clock: Clock, s: AgentState, s1: AgentState)
    requires Monotone(clock) && Spent(c, clock, s)
    requires s1.spent == s.spent && s1.started == s.started && s1.ticks >= s.ticks
    ensures Spent(c, clock, s1)
  {
    assert clock(s.ticks) <= clock(s1.ticks);
  }

  ghost predicate AtMostOneEvent(before: seq<Action>, after: seq<Action>) {
    after == before || exists e :: after == before + [Emitted(e)]
  }

  lemma EmitIsOneEvent(clock: Clock, s: AgentState, kind: EventKind, text: string,
                       trial: Option<TrialSpec>, result: Option<Result>)
    ensures AtMostOneEvent(s.trace, Emit(clock, s, kind, text, trial, result).trace)
  {
    var e := Event(kind, text, trial, result, clock(s.ticks) - s.started);
    assert Emit(clock, s, kind, text, trial, result).trace == s.trace + [Emitted(e)];
  }

  lemma ExhaustedBlock(c: Campaign, clock: Clock, s: AgentState, block: Block)
    requires Exhausted(c, clock, s).Some?
    ensures var s1 := AfterBlock(c, clock, s, block);
            && s1.spent == s.spent && s1.trials == s.trials && s1.started == s.started && s1.ticks >= s.ticks
            && AtMostOneEvent(s.trace, s1.trace)
  {
    hide FindTrial, Measure, AtMostOneEvent;
    assert AtMostOneEvent(s.trace, s.trace) by { NoEvent(s.trace); }
    match block
    case TextBlock(text) => EmitIsOneEvent(clock, s, Plan, text, None, None);
    case ThinkingBlock(text) => EmitIsOneEvent(clock, s, Thinking, text, None, None);
    case OtherBlock =>
    case ToolUse(_, call) =>
      match call
      case ListWorkers(_) => EmitIsOneEvent(clock, s, Lookup, "checking registered workers", None, None);
      case Classify(_, _) => EmitIsOneEvent(clock, s, Lookup, "classifying workload shape", None, None);
      case Historical(engine, _) =>
        if engine.Some? {
          EmitIsOneEvent(clock, s, Lookup, "looking up past " + engine.value + " results", None, None);
        }
      case RunBenchmark(_, _) =>
        EmitIsOneEvent(clock, AfterCheck(c, clock, s), Warn, ExhaustionText(Exhausted(c, clock, s).value), None, None);
      case Recommend(args) =>
        if args.Some? {
          EmitIsOneEvent(clock, s, Done, args.value.reasoning, None, None);
        }
      case UnknownTool =>
  }

  lemma NoEvent(trace: seq<Action>)
    ensures AtMostOneEvent(trace, trace)
  {
  }

  lemma OneEventNoSubmission(before: seq<Action>, after: seq<Action>)
    requires AtMostOneEvent(before, after)
    ensures Submissions(after) == Submissions(before)
  {
    hide Submissions;
    if after != before {
      var e :| after == before + [Emitted(e)];
      SubmissionsAppend(before, Emitted(e));
    }
  }

  lemma SpentBlock(c: Campaign, clock: Clock, s: AgentState, block: Block)
    requires Monotone(clock) && Spent(c, clock, s)
    ensures Spent(c, clock, AfterBlock(c, clock, s, block))
    ensures NoNewTrials(s, AfterBlock(c, clock, s, block))
  {
    hide Monotone, Submissions, Spent, Exhausted, AfterBlock, AtMostOneEvent;
    SpentIsExhausted(c, clock, s);
    ExhaustedBlock(c, clock, s, block);
    var s1 := AfterBlock(c, clock, s, block);
    StillSpent(c, clock, s, s1);
    OneEventNoSubmission(s.trace, s1.trace);
  }

  lemma SpentIsExhausted(c: Campaign, clock: Clock, s: AgentState)
    ensures Spent(c, clock, s) <==> Exhausted(c, clock, s).Some?
  {
  }

  lemma {:induction false} SpentBlocks(c: Campaign, clock: Clock, s: AgentState, blocks: seq<Block>)
    requires Monotone(clock) && Spent(c, clock, s)
    ensures Spent(c, clock, AfterBlocks(c, clock, s, blocks))
    ensures NoNewTrials(s, AfterBlocks(c, clock, s, blocks))
    decreases blocks
  {
    hide Monotone, Submissions, AfterBlock, Spent;
    if blocks != [] {
      SpentBlock(c, clock, s, blocks[0]);
      SpentBlocks(c, clock, AfterBlock(c, clock, s, blocks[0]), blocks[1..]);
    }
  }

  lemma SpentConclude(clock: Clock, s: AgentState)
    ensures NoNewTrials(s, Conclude(clock, s).state)
  {
    hide Submissions, BestTrial, AtMostOneEvent;
    if BestTrial(s.trials).Some? {
      EmitIsOneEvent(clock, s, Warn, "planner ended without a recommendation", None, None);
      OneEventNoSubmission(s.trace, Conclude(clock, s).state.trace);
    }
  }

  /** Exhaustion is for good: whatever the planner asks for afterwards, nothing is submitted. */
  lemma {:induction false} ExhaustionIsPermanent(c: Campaign, clock: Clock, s: AgentState, script: seq<PlannerReply>)
    requires Monotone(clock) && Spent(c, clock, s)
    ensures NoNewTrials(s, RunFrom(c, clock, s, script).state)
    decreases script
  {
    hide Monotone, Submissions, AfterBlocks, Spent, Conclude;
    if s.turns >= c.budget.maxTurns {
      SpentConclude(clock, s);
    } else if script != [] && script[0].Response? {
      var s1 := Received(s, script[0].usage);
      StillSpent(c, clock, s, s1);
      SpentBlocks(c, clock, s1, script[0].content);
      var s2 := AfterBlocks(c, clock, s1, script[0].content);
      SpentConclude(clock, s2);
      ExhaustionIsPermanent(c, clock, s2, script[1..]);
    }
  }

  /**
   The documentation promises that re-requesting a measured configuration returns the earlier
   result. The code asks the budget first, so it does exactly when the campaign is not exhausted.
   */
  lemma RepeatIsServedIffBudgetLeft(c: Campaign, clock: Clock, s: AgentState, args: BenchArgs, reply: BenchReply)
    requires Inv(c, s)
    requires exists i :: 0 <= i < |s.trials| && Configured(s.trials[i], args.engine, args.config)
    ensures var answer := CallRunBenchmark(c, clock, s, Some(args), reply).1;
            && (!Spent(c, clock, s) ==>
                  exists i :: 0 <= i < |s.trials| && Configured(s.trials[i], args.engine, args.config)
                           && answer == ReusedResult(s.trials[i].result))
            && (Spent(c, clock, s) ==>
                  answer == Refused(if s.spent >= c.budget.maxTrials then TrialBudget else TimeBudget))
    ensures CallRunBenchmark(c, clock, s, Some(args), reply).0.spent == s.spent
  {
    hide Streams, Booked, Measure, FindTrial;
    var spec := c.SpecFor(args.engine, args.config);
    var i :| 0 <= i < |s.trials| && Configured(s.trials[i], args.engine, args.config);
    assert InCampaign(c, s.trials[i].spec);
    assert s.trials[i].spec == spec;
    FoundTrial(s.trials, spec);
    SpentIsExhausted(c, clock, s);
  }

  /** A trial of this engine with these knobs. */
  predicate Configured(t: Trial, engine: string, config: EngineConfig) {
    t.spec.engine == engine && t.spec.engineConfig == config
  }

  /** Within budget, a configuration that the campaign has not tried and whose engine it allows is
      submitted, and nothing else is; the trial keeps the planner's hypothesis. */
  lemma SubmittedIffFresh(c: Campaign, clock: Clock, s: AgentState, args: BenchArgs, reply: BenchReply)
    requires Inv(c, s)
    ensures var s1 := CallRunBenchmark(c, clock, s, Some(args), reply).0;
            var tried := exists i :: 0 <= i < |s.trials| && Configured(s.trials[i], args.engine, args.config);
            var accepted := args.engine in c.engines && !Spent(c, clock, s) && !tried;
            && |Submissions(s1.trace)| == |Submissions(s.trace)| + (if accepted then 1 else 0)
            && (accepted ==>
                  var b := Submissions(s1.trace)[|Submissions(s.trace)|];
                  && b.spec.engine == args.engine && b.spec.engineConfig == args.config && b.reply == reply
                  && |s1.trials| == |s.trials| + 1 && s1.trials[|s.trials|].hypothesis == args.hypothesis)
  {
    hide Streams, Booked, FindTrial, Submissions, Measure, Submitted;
    SpentIsExhausted(c, clock, s);
    var spec := c.SpecFor(args.engine, args.config);
    FoundTrial(s.trials, spec);
    assert forall i :: 0 <= i < |s.trials| ==> InCampaign(c, s.trials[i].spec);
    assert forall i :: 0 <= i < |s.trials| && Configured(s.trials[i], args.engine, args.config) ==>
      s.trials[i].spec == spec;
    var s1 := AfterCheck(c, clock, s);
    if args.engine in c.engines && Exhausted(c, clock, s).Some? {
      var why := Exhausted(c, clock, s).value;
      SubmissionsAppend(s1.trace, Emitted(Event(Warn, ExhaustionText(why), None, None, clock(s1.ticks) - s1.started)));
    } else if args.engine in c.engines && FindTrial(s.trials, spec).None? {
      var e1, e2, t, b := MeasureAdds(c, clock, s1, spec, args.hypothesis, clock(s.ticks) - s.started, reply);
    }
  }

  /** What any other request leaves behind: an exhausted budget nothing but one warning, a repeat
      nothing but a trial marked as reused that took no time, an engine that is not allowed nothing. */
  lemma UnmeasuredRequestLeaves(c: Campaign, clock: Clock, s: AgentState, args: BenchArgs, reply: BenchReply)
    requires Inv(c, s)
    ensures var s1 := CallRunBenchmark(c, clock, s, Some(args), reply).0;
            var tried := exists i :: 0 <= i < |s.trials| && Configured(s.trials[i], args.engine, args.config);
            && (args.engine !in c.engines ==> s1 == s)
            && (args.engine in c.engines && Spent(c, clock, s) ==>
                  && s1.trials == s.trials && |s1.trace| == |s.trace| + 1 && s.trace <= s1.trace
                  && s1.trace[|s.trace|].Emitted? && s1.trace[|s.trace|].event.kind.Warn?)
            && (args.engine in c.engines && !Spent(c, clock, s) && tried ==>
                  && s1.trace == s.trace && |s1.trials| == |s.trials| + 1 && s.trials <= s1.trials
                  && var again := s1.trials[|s.trials|];
                     again.reused && again.duration == 0 && again.hypothesis == args.hypothesis
                     && Configured(again, args.engine, args.config))
  {
    hide Streams, Booked, Measure, FindTrial;
    SpentIsExhausted(c, clock, s);
    FoundTrial(s.trials, c.SpecFor(args.engine, args.config));
    assert forall i :: 0 <= i < |s.trials| ==> InCampaign(c, s.trials[i].spec);
  }

  /** After a benchmark the planner is told exactly what is left: the trials that the cap allows
      beyond those submitted and, after a success, the time up to the limit at the last reading. */
  lemma PlannerIsToldWhatIsLeft(c: Campaign, clock: Clock, s: AgentState, args: BenchArgs, reply: BenchReply)
    requires Inv(c, s)
    ensures var after := CallRunBenchmark(c, clock, s, Some(args), reply);
            var used := |Submissions(after.0.trace)|;
            && (after.1.BenchmarkFailed? ==>
                  after.1.trialsLeft == c.budget.maxTrials - used && reply.err == Some(after.1.err))
            && (after.1.BenchmarkDone? ==>
                  && after.1.trialsLeft == c.budget.maxTrials - used && after.1.result == reply.result
                  && after.0.ticks > 0
                  && after.1.timeLeft == c.budget.maxDuration - (clock(after.0.ticks - 1) - s.started))
  {
    hide Streams, FindTrial, Submissions, EventsOf, Measurements, DistinctSpecs, ReusesCopy;
    if args.engine in c.engines && Exhausted(c, clock, s).None? {
      var s1 := AfterCheck(c, clock, s);
      var e1, e2, t, b := MeasureAdds(c, clock, s1, c.SpecFor(args.engine, args.config), args.hypothesis,
                                      clock(s.ticks) - s.started, reply);
    }
  }

  // ----- how a run ends

  ghost predicate HasDone(trace: seq<Action>) {
    exists i :: 0 <= i < |trace| && trace[i].Emitted? && trace[i].event.kind.Done?
  }

  /** The planner's verdict so far: a recommendation exists exactly when one was submitted. */
  ghost predicate Verdict(s: AgentState) {
    && (s.recommendation.Some? <==> HasDone(s.trace))
    && (s.recommendation.Some? ==> !s.recommendation.value.fallback)
  }

  lemma HasDoneAppend(trace: seq<Action>, a: Action)
    ensures HasDone(trace + [a]) <==> HasDone(trace) || (a.Emitted? && a.event.kind.Done?)
  {
    var all := trace + [a];
    if HasDone(trace) {
      var i :| 0 <= i < |trace| && trace[i].Emitted? && trace[i].event.kind.Done?;
      assert all[i] == trace[i];
    }
    assert all[|trace|] == a;
  }

  lemma EmitVerdict(clock: Clock, s: AgentState, kind: EventKind, text: string,
                    trial: Option<TrialSpec>, result: Option<Result>)
    requires Verdict(s) && !kind.Done?
    ensures Verdict(Emit(clock, s, kind, text, trial, result))
  {
    hide HasDone;
    HasDoneAppend(s.trace, Emitted(Event(kind, text, trial, result, clock(s.ticks) - s.started)));
  }

  lemma MeasureVerdict(c: Campaign, clock: Clock, s: AgentState, spec: TrialSpec,
                       hypothesis: string, checked: int, reply: BenchReply)
    requires Verdict(s)
    ensures Verdict(Measure(c, clock, s, spec, hypothesis, checked, reply).0)
    ensures Measure(c, clock, s, spec, hypothesis, checked, reply).0.turns == s.turns
    ensures Measure(c, clock, s, spec, hypothesis, checked, reply).0.usage == s.usage
  {
    hide HasDone;
    var s1 := Measure(c, clock, s, spec, hypothesis, checked, reply).0;
    var n := |s.trace|;
    assert s1.trace == s.trace + [s1.trace[n]] + [s1.trace[n + 1]] + [s1.trace[n + 2]];
    HasDoneAppend(s.trace, s1.trace[n]);
    HasDoneAppend(s.trace + [s1.trace[n]], s1.trace[n + 1]);
    HasDoneAppend(s.trace + [s1.trace[n]] + [s1.trace[n + 1]], s1.trace[n + 2]);
  }

  lemma BlockVerdict(c: Campaign, clock: Clock, s: AgentState, block: Block)
    requires Verdict(s)
    ensures Verdict(AfterBlock(c, clock, s, block))
    ensures AfterBlock(c, clock, s, block).turns == s.turns && AfterBlock(c, clock, s, block).usage == s.usage
  {
    hide HasDone, Measure, FindTrial;
    match block
    case TextBlock(text) => EmitVerdict(clock, s, Plan, text, None, None);
    case ThinkingBlock(text) => EmitVerdict(clock, s, Thinking, text, None, None);
    case OtherBlock =>
    case ToolUse(_, call) =>
      match call
      case ListWorkers(_) => EmitVerdict(clock, s, Lookup, "checking registered workers", None, None);
      case Classify(_, _) => EmitVerdict(clock, s, Lookup, "classifying workload shape", None, None);
      case Historical(engine, _) =>
        if engine.Some? {
          EmitVerdict(clock, s, Lookup, "looking up past " + engine.value + " results", None, None);
        }
      case RunBenchmark(args, reply) =>
        if args.Some? && args.value.engine in c.engines {
          var s1 := AfterCheck(c, clock, s);
          if Exhausted(c, clock, s).Some? {
            EmitVerdict(clock, s1, Warn, ExhaustionText(Exhausted(c, clock, s).value), None, None);
          }
          MeasureVerdict(c, clock, s1, c.SpecFor(args.value.engine, args.value.config),
                         args.value.hypothesis, clock(s.ticks) - s.started, reply);
        }
      case Recommend(args) =>
        if args.Some? {
          HasDoneAppend(s.trace, Emitted(Event(Done, args.value.reasoning, None, None, clock(s.ticks) - s.started)));
        }
      case UnknownTool =>
  }

  lemma {:induction false} BlocksVerdict(c: Campaign, clock: Clock, s: AgentState, blocks: seq<Block>)
    requires Verdict(s)
    ensures Verdict(AfterBlocks(c, clock, s, blocks))
    ensures AfterBlocks(c, clock, s, blocks).turns == s.turns && AfterBlocks(c, clock, s, blocks).usage == s.usage
    decreases blocks
  {
    hide Verdict, AfterBlock;
    if blocks != [] {
      BlockVerdict(c, clock, s, blocks[0]);
      BlocksVerdict(c, clock, AfterBlock(c, clock, s, blocks[0]), blocks[1..]);
    }
  }

  /** The four counts of a reply's usage. */
  datatype TokenKind = InputTokens | OutputTokens | CacheReadTokens | CacheCreationTokens

  function CountOf(usage: Usage, kind: TokenKind): int {
    match kind
    case InputTokens => usage.input
    case OutputTokens => usage.output
    case CacheReadTokens => usage.cacheRead
    case CacheCreationTokens => usage.cacheCreation
  }

  /** One count, added up over the replies received; a failed call has none. */
  function TokensIn(script: seq<PlannerReply>, kind: TokenKind): int {
    if script == [] then 0
    else (if script[0].PlannerError? then 0 else CountOf(script[0].usage, kind)) + TokensIn(script[1..], kind)
  }

  /** The replies that the first `calls` planner calls returned. */
  function RepliesTo(calls: nat, script: seq<PlannerReply>): seq<PlannerReply> {
    if calls <= |script| then script[..calls] else script
  }

  /** The verdict a finished run returns. */
  ghost predicate Ended(o: Outcome) {
    && (o.err.None? <==> o.state.recommendation.Some?)
    && (o.state.recommendation.Some? ==> (o.state.recommendation.value.fallback <==> !HasDone(o.state.trace)))
    && (o.state.recommendation.None? ==> !HasDone(o.state.trace))
    && (o.err == Some(NoRecommendation) ==> forall i :: 0 <= i < |o.state.trials| ==> !Pickable(o.state.trials[i]))
    && o.err != Some(LoopCancelled)
  }

  /** There is a pick exactly when some trial is pickable. */
  lemma {:induction false} NoBest(trials: seq<Trial>)
    ensures BestTrial(trials).None? <==> forall i :: 0 <= i < |trials| ==> !Pickable(trials[i])
  {
    if trials != [] {
      NoBest(trials[..|trials| - 1]);
    }
  }

  lemma ConcludeEnds(clock: Clock, s: AgentState)
    requires Verdict(s) && s.recommendation.None?
    ensures Ended(Conclude(clock, s))
    ensures Conclude(clock, s).state.turns == s.turns && Conclude(clock, s).state.usage == s.usage
  {
    hide HasDone, BestTrial;
    if BestTrial(s.trials).None? {
      NoBest(s.trials);
    } else {
      EmitVerdict(clock, s, Warn, "planner ended without a recommendation", None, None);
    }
  }

  lemma InitialVerdict(clock: Clock)
    ensures Verdict(Initial(clock))
  {
  }

  lemma ReceivedVerdict(s: AgentState, usage: Usage)
    requires Verdict(s)
    ensures Verdict(Received(s, usage))
  {
  }

  lemma {:induction false} RunFromEnds(c: Campaign, clock: Clock, s: AgentState, script: seq<PlannerReply>)
    requires Verdict(s) && s.recommendation.None? && s.turns <= c.budget.maxTurns
    ensures Ended(RunFrom(c, clock, s, script))
    ensures s.turns <= RunFrom(c, clock, s, script).state.turns <= c.budget.maxTurns
    decreases script
  {
    hide HasDone, AfterBlocks, Conclude;
    if s.turns >= c.budget.maxTurns {
      ConcludeEnds(clock, s);
    } else if script != [] && script[0].Response? {
      var s1 := Received(s, script[0].usage);
      ReceivedVerdict(s, script[0].usage);
      BlocksVerdict(c, clock, s1, script[0].content);
      var s2 := AfterBlocks(c, clock, s1, script[0].content);
      if !script[0].stop.StopRefusal? && s2.recommendation.None? {
        if script[0].stop.StopToolUse? {
          RunFromEnds(c, clock, s2, script[1..]);
        } else {
          ConcludeEnds(clock, s2);
        }
      }
    }
  }

  lemma PlusAdds(u: Usage, v: Usage, kind: TokenKind)
    ensures CountOf(u.Plus(v), kind) == CountOf(u, kind) + CountOf(v, kind)
  {
  }

  lemma {:induction false} RunFromTokens(c: Campaign, clock: Clock, s: AgentState, script: seq<PlannerReply>, kind: TokenKind)
    requires Verdict(s) && s.recommendation.None? && s.turns <= c.budget.maxTurns
    ensures var o := RunFrom(c, clock, s, script).state;
            && o.turns >= s.turns
            && CountOf(o.usage, kind) == CountOf(s.usage, kind) + TokensIn(RepliesTo(o.turns - s.turns, script), kind)
    decreases script
  {
    hide Verdict, Ended, AfterBlocks, Conclude, CountOf;
    if s.turns >= c.budget.maxTurns {
      ConcludeEnds(clock, s);
    } else if script == [] || script[0].PlannerError? {
      FirstReply(script, kind);
    } else {
      var s1 := Received(s, script[0].usage);
      ReceivedVerdict(s, script[0].usage);
      PlusAdds(s.usage, script[0].usage, kind);
      BlocksVerdict(c, clock, s1, script[0].content);
      var s2 := AfterBlocks(c, clock, s1, script[0].content);
      FirstReply(script, kind);
      if !script[0].stop.StopRefusal? && s2.recommendation.None? {
        if script[0].stop.StopToolUse? {
          RunFromTokens(c, clock, s2, script[1..], kind);
          TokensStep(RunFrom(c, clock, s2, script[1..]).state.turns - s2.turns, script, kind);
        } else {
          ConcludeEnds(clock, s2);
        }
      }
    }
  }

  lemma FirstReply(script: seq<PlannerReply>, kind: TokenKind)
    ensures TokensIn(RepliesTo(1, script), kind) ==
            if script == [] || script[0].PlannerError? then 0 else CountOf(script[0].usage, kind)
  {
    if script != [] {
      assert script[..1][1..] == [];
    }
  }

  lemma TokensStep(n: nat, script: seq<PlannerReply>, kind: TokenKind)
    requires script != [] && script[0].Response?
    ensures TokensIn(RepliesTo(n + 1, script), kind) ==
            CountOf(script[0].usage, kind) + TokensIn(RepliesTo(n, script[1..]), kind)
  {
    assert RepliesTo(n + 1, script)[1..] == RepliesTo(n, script[1..]);
  }

  /**
   A run makes at most MaxTurns planner calls. It returns no error exactly when it returns a
   recommendation, gives up only when no trial is eligible, marks a recommendation mechanical
   exactly when the planner submitted none, and reports of each kind of token the sum over every
   reply it received.
   */
  lemma EveryRunEnds(c: Campaign, clock: Clock, script: seq<PlannerReply>)
    requires c.Valid()
    ensures Ended(Run(c, clock, script))
    ensures var s := Run(c, clock, script).state;
            && s.turns <= c.budget.maxTurns
            && s.usage.input == TokensIn(RepliesTo(s.turns, script), InputTokens)
            && s.usage.output == TokensIn(RepliesTo(s.turns, script), OutputTokens)
            && s.usage.cacheRead == TokensIn(RepliesTo(s.turns, script), CacheReadTokens)
            && s.usage.cacheCreation == TokensIn(RepliesTo(s.turns, script), CacheCreationTokens)
  {
    hide RunFrom, Verdict, Ended, TokensIn;
    InitialVerdict(clock);
    RunFromEnds(c, clock, Initial(clock), script);
    RunFromTokens(c, clock, Initial(clock), script, InputTokens);
    RunFromTokens(c, clock, Initial(clock), script, OutputTokens);
    RunFromTokens(c, clock, Initial(clock), script, CacheReadTokens);
    RunFromTokens(c, clock, Initial(clock), script, CacheCreationTokens);
  }

  // ----- when the fallback is missed

  /** Some tool call of the reply submits a recommendation. */
  predicate Submits(blocks: seq<Block>) {
    exists i :: 0 <= i < |blocks| && SubmitsOne(blocks[i])
  }

  predicate SubmitsOne(block: Block) {
    block.ToolUse? && block.call.Recommend? && block.call.recArgs.Some?
  }

  /** How a run is cut short: by a planner call that fails or is declined before the planner submits
      a recommendation, stops by itself or runs out of its `left` turns. */
  function CutShort(script: seq<PlannerReply>, left: nat): Option<RunError>
    decreases script
  {
    if left == 0 then None
    else if script == [] || script[0].PlannerError? then Some(PlannerFailed)
    else if script[0].stop.StopRefusal? then Some(PlannerRefused)
    else if script[0].stop.StopToolUse? && !Submits(script[0].content) then CutShort(script[1..], left - 1)
    else None
  }

  lemma BlockSubmits(c: Campaign, clock: Clock, s: AgentState, block: Block)
    ensures AfterBlock(c, clock, s, block).recommendation.Some? <==> s.recommendation.Some? || SubmitsOne(block)
    ensures AfterBlock(c, clock, s, block).turns == s.turns
  {
    hide FindTrial;
  }

  lemma {:induction false} BlocksSubmit(c: Campaign, clock: Clock, s: AgentState, blocks: seq<Block>)
    ensures AfterBlocks(c, clock, s, blocks).recommendation.Some? <==> s.recommendation.Some? || Submits(blocks)
    ensures AfterBlocks(c, clock, s, blocks).turns == s.turns
    decreases blocks
  {
    hide AfterBlock, SubmitsOne;
    if blocks != [] {
      var s1 := AfterBlock(c, clock, s, blocks[0]);
      BlockSubmits(c, clock, s, blocks[0]);
      BlocksSubmit(c, clock, s1, blocks[1..]);
      SubmitsStep(blocks);
    }
  }

  lemma SubmitsStep(blocks: seq<Block>)
    requires blocks != []
    ensures Submits(blocks) <==> SubmitsOne(blocks[0]) || Submits(blocks[1..])
  {
    hide SubmitsOne;
    if Submits(blocks[1..]) {
      var i :| 0 <= i < |blocks[1..]| && SubmitsOne(blocks[1..][i]);
      assert SubmitsOne(blocks[i + 1]);
    }
    if Submits(blocks) {
      var i :| 0 <= i < |blocks| && SubmitsOne(blocks[i]);
      assert i > 0 ==> SubmitsOne(blocks[1..][i - 1]);
    }
  }

  lemma {:induction false} CutByPlanner(script: seq<PlannerReply>, left: nat)
    ensures CutShort(script, left).Some? ==>
              CutShort(script, left) == Some(PlannerFailed) || CutShort(script, left) == Some(PlannerRefused)
    decreases script
  {
    hide Submits;
    if left > 0 && script != [] {
      CutByPlanner(script[1..], left - 1);
    }
  }

  lemma ConcludeIsNotCut(clock: Clock, s: AgentState)
    ensures Conclude(clock, s).err != Some(PlannerFailed) && Conclude(clock, s).err != Some(PlannerRefused)
  {
    hide BestTrial;
  }

  lemma {:induction false} RunFromCutShort(c: Campaign, clock: Clock, s: AgentState, script: seq<PlannerReply>)
    requires s.recommendation.None? && s.turns <= c.budget.maxTurns
    ensures var err, cut := RunFrom(c, clock, s, script).err, CutShort(script, c.budget.maxTurns - s.turns);
            && (err == Some(PlannerFailed) <==> cut == Some(PlannerFailed))
            && (err == Some(PlannerRefused) <==> cut == Some(PlannerRefused))
    decreases script
  {
    hide AfterBlocks, Conclude, Submits;
    ConcludeIsNotCut(clock, s);
    if s.turns < c.budget.maxTurns && script != [] && script[0].Response? {
      var s1 := Received(s, script[0].usage);
      BlocksSubmit(c, clock, s1, script[0].content);
      var s2 := AfterBlocks(c, clock, s1, script[0].content);
      ConcludeIsNotCut(clock, s2);
      if s2.recommendation.None? {
        RunFromCutShort(c, clock, s2, script[1..]);
      }
    }
  }

  /**
   The documentation promises the cheapest error-free trial whenever the planner ends without
   concluding. A run that has an eligible trial lacks a recommendation exactly when its planner is
   cut short: a call fails - which is also how the run's own deadline shows - or is declined, with
   turns left and nothing submitted before.
   */
  lemma FallbackIsMissedIff(c: Campaign, clock: Clock, script: seq<PlannerReply>)
    requires c.Valid()
    requires exists i :: 0 <= i < |Run(c, clock, script).state.trials| && Pickable(Run(c, clock, script).state.trials[i])
    ensures Run(c, clock, script).state.recommendation.None? <==> CutShort(script, c.budget.maxTurns).Some?
  {
    hide RunFrom, HasDone, CutShort;
    EveryRunEnds(c, clock, script);
    RunFromCutShort(c, clock, Initial(clock), script);
    CutByPlanner(script, c.budget.maxTurns);
    var o := Run(c, clock, script);
    var i :| 0 <= i < |o.state.trials| && Pickable(o.state.trials[i]);
    assert o.err != Some(NoRecommendation);
    match o.err
    case None =>
    case Some(e) => assert e == PlannerFailed || e == PlannerRefused;
  }

  // ----- what a submitted recommendation says

  /** The last submission of a reply. */
  function LastArgs(blocks: seq<Block>): Option<RecArgs> {
    if blocks == [] then None
    else
      var later := LastArgs(blocks[1..]);
      if later.Some? then later
      else if SubmitsOne(blocks[0]) then blocks[0].call.recArgs
      else None
  }

  /** The last submission of the first reply that has one, if the planner gets that far. */
  function SubmittedArgs(script: seq<PlannerReply>, left: nat): Option<RecArgs>
    decreases script
  {
    if left == 0 || script == [] || script[0].PlannerError? || script[0].stop.StopRefusal? then None
    else
      var here := LastArgs(script[0].content);
      if here.Some? then here
      else if script[0].stop.StopToolUse? then SubmittedArgs(script[1..], left - 1)
      else None
  }

  /** The recommendation repeats the planner's words and choice. */
  predicate SaysAs(rec: Recommendation, a: RecArgs) {
    && rec.engine == a.engine && rec.engineConfig == a.config && rec.reasoning == a.reasoning
    && rec.runnerUp == a.runnerUp && rec.confidence == a.confidence && rec.caveats == a.caveats
  }

  lemma BlockSays(c: Campaign, clock: Clock, s: AgentState, block: Block)
    ensures var rec := AfterBlock(c, clock, s, block).recommendation;
            if SubmitsOne(block) then rec.Some? && SaysAs(rec.value, block.call.recArgs.value) && !rec.value.fallback
            else rec == s.recommendation
  {
    hide FindTrial;
  }

  lemma {:induction false} BlocksSay(c: Campaign, clock: Clock, s: AgentState, blocks: seq<Block>)
    ensures var rec, said := AfterBlocks(c, clock, s, blocks).recommendation, LastArgs(blocks);
            if said.Some? then rec.Some? && SaysAs(rec.value, said.value) && !rec.value.fallback
            else rec == s.recommendation
    ensures AfterBlocks(c, clock, s, blocks).turns == s.turns
    decreases blocks
  {
    hide AfterBlock, SaysAs;
    if blocks != [] {
      var s1 := AfterBlock(c, clock, s, blocks[0]);
      BlockSays(c, clock, s, blocks[0]);
      BlockSubmits(c, clock, s, blocks[0]);
      BlocksSay(c, clock, s1, blocks[1..]);
    }
  }

  lemma ConcludeFallsBack(clock: Clock, s: AgentState)
    requires s.recommendation.None?
    ensures var rec := Conclude(clock, s).state.recommendation; rec.Some? ==> rec.value.fallback
  {
    hide BestTrial;
  }

  lemma {:induction false} RunFromSays(c: Campaign, clock: Clock, s: AgentState, script: seq<PlannerReply>)
    requires s.recommendation.None? && s.turns <= c.budget.maxTurns
    ensures var rec := RunFrom(c, clock, s, script).state.recommendation;
            var said := SubmittedArgs(script, c.budget.maxTurns - s.turns);
            if said.Some? then rec.Some? && SaysAs(rec.value, said.value) && !rec.value.fallback
            else rec.Some? ==> rec.value.fallback
    decreases script
  {
    hide AfterBlocks, Conclude, SaysAs, LastArgs;
    ConcludeFallsBack(clock, s);
    if s.turns < c.budget.maxTurns && script != [] && script[0].Response? {
      var s1 := Received(s, script[0].usage);
      var s2 := AfterBlocks(c, clock, s1, script[0].content);
      BlocksSay(c, clock, s1, script[0].content);
      if s2.recommendation.None? {
        ConcludeFallsBack(clock, s2);
        RunFromSays(c, clock, s2, script[1..]);
      }
    }
  }

  /** A run recommends what the planner submitted last in the first reply in which it submitted
      anything, word for word; any other recommendation is mechanical. */
  lemma TheLastWordStands(c: Campaign, clock: Clock, script: seq<PlannerReply>)
    requires c.Valid()
    ensures var rec, said := Run(c, clock, script).state.recommendation, SubmittedArgs(script, c.budget.maxTurns);
            && (rec.Some? && !rec.value.fallback <==> said.Some?)
            && (said.Some? ==>
                  && rec.value.engine == said.value.engine && rec.value.engineConfig == said.value.config
                  && rec.value.reasoning == said.value.reasoning && rec.value.runnerUp == said.value.runnerUp
                  && rec.value.confidence == said.value.confidence && rec.value.caveats == said.value.caveats)
  {
    hide RunFrom, SubmittedArgs;
    RunFromSays(c, clock, Initial(clock), script);
  }

  // ----- when a failure is handed back as an error

  /**
   The documentation says a failed trial is handed back to the planner as an error. With budget
   left, a request that comes to a failed trial - because the benchmark fails now, or because the
   configuration failed before - is answered with an error exactly when the campaign has no trial
   of that configuration yet.
   */
  lemma FailureIsHandedBackIffFresh(c: Campaign, clock: Clock, s: AgentState, args: BenchArgs, reply: BenchReply)
    requires args.engine in c.engines && !Spent(c, clock, s)
    requires var found := FindTrial(s.trials, c.SpecFor(args.engine, args.config));
             if found.Some? then found.value.err != "" else ErrorText(reply) != ""
    ensures CallRunBenchmark(c, clock, s, Some(args), reply).1.IsError() <==>
            forall i :: 0 <= i < |s.trials| ==> s.trials[i].spec != c.SpecFor(args.engine, args.config)
  {
    hide FindTrial;
    SpentIsExhausted(c, clock, s);
    FoundTrial(s.trials, c.SpecFor(args.engine, args.config));
  }
}
