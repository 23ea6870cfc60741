/**
 The agent as the object it is: fields updated step by step, loops over trials, blocks and
 turns. Every method is tied to the function of AgentSpec that says what it does.
 */
module Agent {
  import opened Domain
  import opened AgentSpec

  class Agent {
    const campaign: Campaign
    const clock: Clock

    var trials: seq<Trial>
    var recommendation: Option<Recommendation>
    var spentTrials: nat
    var turns: nat
    var usage: Usage
    var started: int
    var ticks: nat
    // what the observer has been handed and the platform has been asked, in order
    var trace: seq<Action>

    ghost function State(): AgentState
      reads this
    {
      AgentState(trials, recommendation, spentTrials, turns, usage, started, ticks, trace)
    }

    constructor (campaign: Campaign, clock: Clock)
      requires campaign.Valid()
      ensures this.campaign == campaign && this.clock == clock
      ensures State() == AgentState([], None, 0, 0, NO_USAGE, 0, 0, [])
    {
      this.campaign, this.clock := campaign, clock;
      trials, recommendation, spentTrials, turns := [], None, 0, 0;
      usage, started, ticks, trace := NO_USAGE, 0, 0, [];
    }

    method Now() returns (t: int)
      modifies this`ticks
      ensures t == clock(old(ticks)) && ticks == old(ticks) + 1
    {
      t := clock(ticks);
      ticks := ticks + 1;
    }

    method Emit(kind: EventKind, text: string, trial: Option<TrialSpec>, result: Option<Result>)
      modifies this`ticks, this`trace
      ensures State() == AgentSpec.Emit(clock, old(State()), kind, text, trial, result)
    {
      var now := Now();
      trace := trace + [Emitted(Event(kind, text, trial, result, now - started))];
    }

    method FindTrial(spec: TrialSpec) returns (found: Option<Trial>)
      ensures found == AgentSpec.FindTrial(trials, spec)
    {
      for i := 0 to |trials|
        invariant AgentSpec.FindTrial(trials, spec) == AgentSpec.FindTrial(trials[i..], spec)
      {
        if trials[i].spec == spec {
          return Some(trials[i]);
        }
      }
      found := None;
    }

    method Exhausted() returns (why: Option<Exhaustion>, elapsed: int)
      modifies this`ticks
      ensures why == AgentSpec.Exhausted(campaign, clock, old(State()))
      ensures State() == AfterCheck(campaign, clock, old(State()))
      ensures why.None? ==> elapsed == clock(old(ticks)) - started
    {
      if spentTrials >= campaign.budget.maxTrials {
        return Some(TrialBudget), 0;
      }
      var now := Now();
      elapsed := now - started;
      if elapsed >= campaign.budget.maxDuration {
        var reported := Now();
        return Some(TimeBudget), elapsed;
      }
      why := None;
    }

    method CallRunBenchmark(args: Option<BenchArgs>, reply: BenchReply) returns (answer: ToolReply)
      modifies this
      ensures (State(), answer) == AgentSpec.CallRunBenchmark(campaign, clock, old(State()), args, reply)
    {
      if args.None? {
        return Unparsed;
      }
      if args.value.engine !in campaign.engines {
        return EngineRejected;
      }
      var why, checked := Exhausted();
      if why.Some? {
        Emit(Warn, ExhaustionText(why.value), None, None);
        return Refused(why.value);
      }
      var spec := campaign.SpecFor(args.value.engine, args.value.config);
      var prior := FindTrial(spec);
      if prior.Some? {
        trials := trials + [Trial(spec, prior.value.result, prior.value.err, 0, args.value.hypothesis, true)];
        return ReusedResult(prior.value.result);
      }
      answer := Measure(spec, args.value.hypothesis, checked, reply);
    }

    method Submit(spec: TrialSpec, hypothesis: string, checked: int, reply: BenchReply)
      modifies this
      ensures State() == Submitted(clock, old(State()), spec, hypothesis, checked, reply)
    {
      Emit(TrialStart, hypothesis, Some(spec), None);
      var start := Now();
      trace := trace + [Benchmarked(Submission(spec, checked, reply))];  // the platform call
      var end := Now();
      spentTrials := spentTrials + 1;
      trials := trials + [Trial(spec, reply.result, ErrorText(reply), end - start, hypothesis, false)];
    }

    method Measure(spec: TrialSpec, hypothesis: string, checked: int, reply: BenchReply)
      returns (answer: ToolReply)
      modifies this
      ensures (State(), answer) == AgentSpec.Measure(campaign, clock, old(State()), spec, hypothesis, checked, reply)
    {
      hide Submitted;
      Submit(spec, hypothesis, checked, reply);
      assert started == old(started) by { SubmittedKeepsStart(clock, old(State()), spec, hypothesis, checked, reply); }
      var left := campaign.budget.maxTrials - spentTrials;
      if reply.err.Some? {
        Emit(TrialFailed, ErrorText(reply), Some(spec), None);
        return BenchmarkFailed(ErrorText(reply), left);
      }
      Emit(TrialDone, "", Some(spec), Some(reply.result));
      var now := Now();
      answer := BenchmarkDone(reply.result, left, campaign.budget.maxDuration - (now - started));
    }

    static lemma SubmittedKeepsStart(clock: Clock, s: AgentState, spec: TrialSpec,
                                     hypothesis: string, checked: int, reply: BenchReply)
      ensures Submitted(clock, s, spec, hypothesis, checked, reply).started == s.started
    {
    }

    method CallRecommend(args: Option<RecArgs>) returns (answer: ToolReply)
      modifies this
      ensures (State(), answer) == AgentSpec.CallRecommend(campaign, clock, old(State()), args)
    {
      if args.None? {
        return Unparsed;
      }
      var a := args.value;
      var rec := Recommendation(a.engine, a.config, a.reasoning, a.runnerUp, a.confidence, a.caveats, None, false);
      var found := FindTrial(campaign.SpecFor(a.engine, a.config));
      if found.Some? && found.value.OK() {
        rec := rec.(measured := Some(found.value.result));
      }
      recommendation := Some(rec);
      Emit(Done, a.reasoning, None, None);
      answer := Recorded;
    }

    method DispatchTool(call: ToolCall) returns (answer: ToolReply)
      modifies this
      ensures (State(), answer) == AgentSpec.DispatchTool(campaign, clock, old(State()), call)
    {
      match call
      case ListWorkers(failed) =>
        Emit(Lookup, "checking registered workers", None, None);
        answer := if failed then LookupFailed else LookedUp;
      case Classify(parsed, failed) =>
        if !parsed {
          return Unparsed;
        }
        Emit(Lookup, "classifying workload shape", None, None);
        answer := if failed then LookupFailed else LookedUp;
      case Historical(engine, failed) =>
        if engine.None? {
          return Unparsed;
        }
        Emit(Lookup, "looking up past " + engine.value + " results", None, None);
        var since := Now();
        answer := if failed then LookupFailed else LookedUp;
      case RunBenchmark(args, reply) =>
        answer := CallRunBenchmark(args, reply);
      case Recommend(args) =>
        answer := CallRecommend(args);
      case UnknownTool =>
        answer := NoSuchTool;
    }

    method ProcessContent(content: seq<Block>)
      modifies this
      ensures State() == AfterBlocks(campaign, clock, old(State()), content)
    {
      for i := 0 to |content|
        invariant AfterBlocks(campaign, clock, old(State()), content) ==
                  AfterBlocks(campaign, clock, State(), content[i..])
      {
        match content[i]
        case TextBlock(text) =>
          if text != "" {
            Emit(Plan, text, None, None);
          }
        case ThinkingBlock(text) =>
          if text != "" {
            Emit(Thinking, text, None, None);
          }
        case ToolUse(_, call) =>
          var answer := DispatchTool(call);
        case OtherBlock =>
      }
    }

    /** Cheapest error-free trial; a later one replaces it only when it is strictly cheaper. */
    static method BestTrial(trials: seq<Trial>) returns (best: Option<Trial>)
      ensures best == AgentSpec.BestTrial(trials)
    {
      best := None;
      for i := 0 to |trials|
        invariant best == AgentSpec.BestTrial(trials[..i])
      {
        assert trials[..i + 1][..i] == trials[..i];
        var t := trials[i];
        if !t.OK() || t.result.errorRate > 0.0 || t.result.costPerMTok <= 0.0 {
          continue;
        }
        if best.None? || t.result.costPerMTok < best.value.result.costPerMTok {
          best := Some(t);
        }
      }
      assert trials[..|trials|] == trials;
    }

    method ConcludeFromTrials() returns (err: Option<RunError>)
      modifies this
      ensures Outcome(State(), err) == Conclude(clock, old(State()))
    {
      var best := BestTrial(trials);
      if best.None? {
        return Some(NoRecommendation);
      }
      Emit(Warn, "planner ended without a recommendation", None, None);
      recommendation := Some(Recommendation(best.value.spec.engine, best.value.spec.engineConfig,
                                            FALLBACK_REASONING, "", "low", FALLBACK_CAVEATS,
                                            Some(best.value.result), true));
      err := None;
    }

    function Report(): Report
      reads this
    {
      Domain.Report(recommendation, trials, usage, turns)
    }

    /** A whole campaign on a freshly built agent. */
    method Run(script: seq<PlannerReply>) returns (report: Report, err: Option<RunError>)
      requires State() == AgentState([], None, 0, 0, NO_USAGE, 0, 0, [])
      modifies this
      ensures Outcome(State(), err) == AgentSpec.Run(campaign, clock, script)
      ensures report == Domain.Report(recommendation, trials, usage, turns)
    {
      hide AfterBlocks, Conclude;
      started := Now();
      var calls := 0;
      while turns < campaign.budget.maxTurns
        invariant calls <= |script|
        invariant RunFrom(campaign, clock, State(), script[calls..]) == AgentSpec.Run(campaign, clock, script)
        decreases |script| - calls
      {
        turns := turns + 1;
        if calls == |script| || script[calls].PlannerError? {
          return Report(), Some(PlannerFailed);
        }
        var resp := script[calls];
        assert script[calls..][1..] == script[calls + 1..];
        calls := calls + 1;
        usage := usage.Plus(resp.usage);
        if resp.stop.StopRefusal? {
          return Report(), Some(PlannerRefused);
        }
        ProcessContent(resp.content);
        if recommendation.Some? {
          return Report(), None;
        }
        if !resp.stop.StopToolUse? {
          err := ConcludeFromTrials();
          return Report(), err;
        }
      }
      err := ConcludeFromTrials();
      report := Report();
    }
  }
}
