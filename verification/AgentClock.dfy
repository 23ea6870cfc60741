/** How a run spends its time, for every clock that does not run backwards. */
module AgentClock {
  import opened Domain
  import opened AgentSpec
  import opened AgentInvariants

  function TotalTime(ms: seq<Trial>): int {
    if ms == [] then 0 else TotalTime(ms[..|ms| - 1]) + ms[|ms| - 1].duration
  }

  /** The events' times are not negative, never go back and do not lie ahead. */
  ghost predicate InOrder(events: seq<Event>, now: int) {
    && (forall i :: 0 <= i < |events| ==> 0 <= events[i].elapsed <= now)
    && (forall i, j :: 0 <= i < j < |events| ==> events[i].elapsed <= events[j].elapsed)
  }

  /** Every benchmark's budget check came after all the time the earlier benchmarks took. */
  ghost predicate Spaced(ms: seq<Trial>, bs: seq<Submission>) {
    |ms| == |bs| && forall k :: 0 <= k < |bs| ==> ms[k].duration >= 0 && TotalTime(ms[..k]) <= bs[k].elapsedAtCheck
  }

  ghost predicate OnTime(clock: Clock, s: AgentState) {
    var now := clock(s.ticks) - s.started;
    && InOrder(EventsOf(s.trace), now) && 0 <= now
    && Spaced(Measurements(s.trials), Submissions(s.trace))
    && TotalTime(Measurements(s.trials)) <= now
  }

  /** Time passes; nothing that the clock bears on changes. */
  lemma TimePasses(clock: Clock, s: AgentState, s1: AgentState)
    requires Monotone(clock) && OnTime(clock, s)
    requires s1.ticks >= s.ticks && s1.started == s.started && s1.trace == s.trace
    requires Measurements(s1.trials) == Measurements(s.trials)
    ensures OnTime(clock, s1)
  {
    hide EventsOf, Submissions, Measurements, Spaced, TotalTime;
    assert clock(s.ticks) <= clock(s1.ticks);
  }

  lemma EmitOnTime(clock: Clock, s: AgentState, kind: EventKind, text: string,
                   trial: Option<TrialSpec>, result: Option<Result>)
    requires Monotone(clock) && OnTime(clock, s)
    ensures OnTime(clock, Emit(clock, s, kind, text, trial, result))
  {
    hide EventsOf, Submissions, Measurements, Spaced, TotalTime;
    var s1 := Emit(clock, s, kind, text, trial, result);
    var a := s1.trace[|s.trace|];
    assert s1.trace == s.trace + [a];
    EventsOfAppend(s.trace, a);
    SubmissionsAppend(s.trace, a);
    assert clock(s.ticks) <= clock(s1.ticks);
  }

  lemma SpacedAppend(ms: seq<Trial>, bs: seq<Submission>, t: Trial, b: Submission)
    requires Spaced(ms, bs) && t.duration >= 0 && TotalTime(ms) <= b.elapsedAtCheck
    ensures Spaced(ms + [t], bs + [b]) && TotalTime(ms + [t]) == TotalTime(ms) + t.duration
  {
    var all := ms + [t];
    forall k | 0 <= k < |bs| + 1 ensures all[..k] == if k < |ms| then ms[..k] else ms {
    }
  }

  /** The platform call lies between two readings of the clock. */
  lemma BenchmarkOnTime(clock: Clock, s: AgentState, s1: AgentState, t: Trial, b: Submission)
    requires Monotone(clock) && OnTime(clock, s) && !t.reused
    requires TotalTime(Measurements(s.trials)) <= b.elapsedAtCheck
    requires t.duration == clock(s.ticks + 1) - clock(s.ticks)
    requires s1.trials == s.trials + [t] && s1.trace == s.trace + [Benchmarked(b)]
    requires s1.ticks == s.ticks + 2 && s1.started == s.started
    ensures OnTime(clock, s1)
  {
    hide EventsOf, Submissions, Measurements, Spaced, TotalTime;
    EventsOfAppend(s.trace, Benchmarked(b));
    SubmissionsAppend(s.trace, Benchmarked(b));
    MeasurementsAppend(s.trials, t);
    assert clock(s.ticks) <= clock(s.ticks + 1) <= clock(s1.ticks);
    SpacedAppend(Measurements(s.trials), Submissions(s.trace), t, b);
  }

  lemma MeasureOnTime(c: Campaign, clock: Clock, s: AgentState, spec: TrialSpec,
                      hypothesis: string, checked: int, reply: BenchReply)
    requires Monotone(clock) && OnTime(clock, s) && TotalTime(Measurements(s.trials)) <= checked
    ensures OnTime(clock, Measure(c, clock, s, spec, hypothesis, checked, reply).0)
  {
    hide OnTime, Monotone, Measurements, TotalTime;
    var s1 := Emit(clock, s, TrialStart, hypothesis, Some(spec), None);
    EmitOnTime(clock, s, TrialStart, hypothesis, Some(spec), None);
    var b := Submission(spec, checked, reply);
    var t := Trial(spec, reply.result, ErrorText(reply), clock(s1.ticks + 1) - clock(s1.ticks), hypothesis, false);
    var s2 := s1.(trace := s1.trace + [Benchmarked(b)], ticks := s1.ticks + 2,
                  spent := s1.spent + 1, trials := s1.trials + [t]);
    BenchmarkOnTime(clock, s1, s2, t, b);
    if reply.err.Some? {
      EmitOnTime(clock, s2, TrialFailed, ErrorText(reply), Some(spec), None);
    } else {
      var s3 := Emit(clock, s2, TrialDone, "", Some(spec), Some(reply.result));
      EmitOnTime(clock, s2, TrialDone, "", Some(spec), Some(reply.result));
      TimePasses(clock, s3, s3.(ticks := s3.ticks + 1));
    }
  }

  lemma RunBenchmarkOnTime(c: Campaign, clock: Clock, s: AgentState, args: Option<BenchArgs>, reply: BenchReply)
    requires Monotone(clock) && OnTime(clock, s)
    ensures OnTime(clock, CallRunBenchmark(c, clock, s, args, reply).0)
  {
    hide Monotone, Measurements, TotalTime, Measure, FindTrial, EventsOf, Submissions, Spaced, InOrder;
    if args.Some? && args.value.engine in c.engines {
      var s1 := AfterCheck(c, clock, s);
      TimePasses(clock, s, s1);
      var spec := c.SpecFor(args.value.engine, args.value.config);
      if Exhausted(c, clock, s).Some? {
        EmitOnTime(clock, s1, Warn, ExhaustionText(Exhausted(c, clock, s).value), None, None);
      } else if FindTrial(s.trials, spec).Some? {
        var prior := FindTrial(s.trials, spec).value;
        var again := Trial(spec, prior.result, prior.err, 0, args.value.hypothesis, true);
        MeasurementsAppend(s.trials, again);
        TimePasses(clock, s1, s1.(trials := s1.trials + [again]));
      } else {
        MeasureOnTime(c, clock, s1, spec, args.value.hypothesis, clock(s.ticks) - s.started, reply);
      }
    }
  }

  lemma BlockOnTime(c: Campaign, clock: Clock, s: AgentState, block: Block)
    requires Monotone(clock) && OnTime(clock, s)
    ensures OnTime(clock, AfterBlock(c, clock, s, block))
  {
    hide Monotone, OnTime, Measurements, CallRunBenchmark, FindTrial;
    match block
    case TextBlock(text) => EmitOnTime(clock, s, Plan, text, None, None);
    case ThinkingBlock(text) => EmitOnTime(clock, s, Thinking, text, None, None);
    case OtherBlock =>
    case ToolUse(_, call) =>
      match call
      case ListWorkers(_) => EmitOnTime(clock, s, Lookup, "checking registered workers", None, None);
      case Classify(_, _) => EmitOnTime(clock, s, Lookup, "classifying workload shape", None, None);
      case Historical(engine, _) =>
        if engine.Some? {
          var text := "looking up past " + engine.value + " results";
          EmitOnTime(clock, s, Lookup, text, None, None);
          var s1 := Emit(clock, s, Lookup, text, None, None);
          TimePasses(clock, s1, s1.(ticks := s1.ticks + 1));
        }
      case RunBenchmark(args, reply) => RunBenchmarkOnTime(c, clock, s, args, reply);
      case Recommend(args) =>
        if args.Some? {
          var s1 := s.(recommendation := CallRecommend(c, clock, s, args).0.recommendation);
          TimePasses(clock, s, s1);
          EmitOnTime(clock, s1, Done, args.value.reasoning, None, None);
        }
      case UnknownTool =>
  }

  lemma {:induction false} BlocksOnTime(c: Campaign, clock: Clock, s: AgentState, blocks: seq<Block>)
    requires Monotone(clock) && OnTime(clock, s)
    ensures OnTime(clock, AfterBlocks(c, clock, s, blocks))
    decreases blocks
  {
    hide Monotone, OnTime, AfterBlock;
    if blocks != [] {
      BlockOnTime(c, clock, s, blocks[0]);
      BlocksOnTime(c, clock, AfterBlock(c, clock, s, blocks[0]), blocks[1..]);
    }
  }

  lemma ConcludeOnTime(clock: Clock, s: AgentState)
    requires Monotone(clock) && OnTime(clock, s)
    ensures OnTime(clock, Conclude(clock, s).state)
  {
    hide Monotone, OnTime, BestTrial, Measurements;
    if BestTrial(s.trials).Some? {
      EmitOnTime(clock, s, Warn, "planner ended without a recommendation", None, None);
      var s1 := Emit(clock, s, Warn, "planner ended without a recommendation", None, None);
      TimePasses(clock, s1, Conclude(clock, s).state);
    }
  }

  lemma {:induction false} RunFromOnTime(c: Campaign, clock: Clock, s: AgentState, script: seq<PlannerReply>)
    requires Monotone(clock) && OnTime(clock, s)
    ensures OnTime(clock, RunFrom(c, clock, s, script).state)
    decreases script
  {
    hide Monotone, OnTime, AfterBlocks, Conclude, Measurements;
    ConcludeOnTime(clock, s);
    TimePasses(clock, s, s.(turns := s.turns + 1));
    if s.turns < c.budget.maxTurns && script != [] && script[0].Response? {
      var s1 := Received(s, script[0].usage);
      TimePasses(clock, s, s1);
      BlocksOnTime(c, clock, s1, script[0].content);
      var s2 := AfterBlocks(c, clock, s1, script[0].content);
      ConcludeOnTime(clock, s2);
      RunFromOnTime(c, clock, s2, script[1..]);
    }
  }

  /**
   How the time limit bounds benchmarks: event times never go back, no benchmark takes negative
   time, and all benchmarks but the last together take less than MaxDuration - all of them at most
   MaxDuration, if the last one returned within the limit counted from its budget check. The time
   of planner calls is not bounded by this; the run's own deadline cuts them short, and shows here
   as a planner call or a benchmark that fails.
   */
  lemma BenchmarkTimeIsBounded(c: Campaign, clock: Clock, script: seq<PlannerReply>)
    requires c.Valid() && Monotone(clock)
    ensures var s := Run(c, clock, script).state;
            var ms, bs := Measurements(s.trials), Submissions(s.trace);
            && |ms| == |bs| && InOrder(EventsOf(s.trace), clock(s.ticks) - s.started)
            && (forall k :: 0 <= k < |ms| ==> ms[k].duration >= 0 && TotalTime(ms[..k]) < c.budget.maxDuration)
            && (ms != [] ==> TotalTime(ms) < c.budget.maxDuration + ms[|ms| - 1].duration)
            && (ms != [] && bs[|ms| - 1].elapsedAtCheck + ms[|ms| - 1].duration <= c.budget.maxDuration ==>
                  TotalTime(ms) <= c.budget.maxDuration)
            && TotalTime(ms) <= clock(s.ticks) - s.started
  {
    hide RunFrom, Streams, Measurements, Submissions, EventsOf, InOrder;
    StartsOnTime(clock);
    RunFromOnTime(c, clock, Initial(clock), script);
    RunKeeps(c, clock, script);
  }

  lemma StartsOnTime(clock: Clock)
    requires Monotone(clock)
    ensures OnTime(clock, Initial(clock))
  {
    assert clock(0) <= clock(1);
  }
}
