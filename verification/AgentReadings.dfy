/**
 Which readings of the clock a run reports. Every elapsed time and every duration in a report is
 traced back to the readings it was taken from, whatever the clock shows.
 */
module AgentReadings {
  import opened Domain
  import opened AgentSpec
  import opened AgentInvariants

  // ----- the events of trials

  function StartEvents(events: seq<Event>): seq<Event> {
    if events == [] then []
    else
      var last := events[|events| - 1];
      StartEvents(events[..|events| - 1]) + (if last.kind.TrialStart? then [last] else [])
  }

  function OutcomeEvents(events: seq<Event>): seq<Event> {
    if events == [] then []
    else
      var last := events[|events| - 1];
      OutcomeEvents(events[..|events| - 1]) + (if last.kind.TrialDone? || last.kind.TrialFailed? then [last] else [])
  }

  lemma TrialEventsAppend(events: seq<Event>, e: Event)
    ensures StartEvents(events + [e]) == if e.kind.TrialStart? then StartEvents(events) + [e] else StartEvents(events)
    ensures OutcomeEvents(events + [e]) ==
            if e.kind.TrialDone? || e.kind.TrialFailed? then OutcomeEvents(events) + [e] else OutcomeEvents(events)
  {
    assert (events + [e])[..|events|] == events;
  }

  // ----- the readings

  /** Positions in the order of the clock, all of them before `end`. */
  ghost predicate InReadingOrder(ps: seq<nat>, end: nat) {
    && (forall k :: 0 <= k < |ps| ==> 0 < ps[k] < end)
    && (forall k, l :: 0 <= k < l < |ps| ==> ps[k] < ps[l])
  }

  /** The events were stamped with the readings at these positions. */
  ghost predicate Stamped(clock: Clock, started: int, events: seq<Event>, ps: seq<nat>) {
    |ps| == |events| && forall k :: 0 <= k < |ps| ==> events[k].elapsed == clock(ps[k]) - started
  }

  /** Benchmark number `k` ran between the readings `t` and `t + 1`; its budget check, its start
      event and its outcome event took the readings around them. */
  ghost predicate TimedAt(clock: Clock, started: int, m: Trial, b: Submission, start: Event, outcome: Event, t: nat) {
    && t >= 3
    && b.elapsedAtCheck == clock(t - 2) - started
    && start.elapsed == clock(t - 1) - started
    && m.duration == clock(t + 1) - clock(t)
    && outcome.elapsed == clock(t + 2) - started
  }

  ghost predicate Timed(clock: Clock, started: int, ms: seq<Trial>, bs: seq<Submission>, events: seq<Event>,
                        ts: seq<nat>) {
    var starts, outcomes := StartEvents(events), OutcomeEvents(events);
    && |ts| == |ms| == |bs| == |starts| == |outcomes|
    && (forall k :: 0 <= k < |ts| ==> TimedAt(clock, started, ms[k], bs[k], starts[k], outcomes[k], ts[k]))
    && (forall k, l :: 0 <= k < l < |ts| ==> ts[k] + 2 < ts[l] - 2)
  }

  ghost predicate Read(clock: Clock, s: AgentState, ps: seq<nat>, ts: seq<nat>) {
    && s.started == clock(0) && s.ticks > 0
    && InReadingOrder(ps, s.ticks) && Stamped(clock, s.started, EventsOf(s.trace), ps)
    && Timed(clock, s.started, Measurements(s.trials), Submissions(s.trace), EventsOf(s.trace), ts)
    && (forall k :: 0 <= k < |ts| ==> ts[k] + 2 < s.ticks)
  }

  // ----- what each step keeps

  lemma TicksPass(clock: Clock, s: AgentState, s1: AgentState, ps: seq<nat>, ts: seq<nat>)
    requires Read(clock, s, ps, ts) && s1.ticks >= s.ticks && s1.started == s.started && s1.trace == s.trace
    requires Measurements(s1.trials) == Measurements(s.trials)
    ensures Read(clock, s1, ps, ts)
  {
    hide EventsOf, Submissions, Measurements, Timed, Stamped;
  }

  lemma StampMore(clock: Clock, started: int, events: seq<Event>, ps: seq<nat>, e: Event, p: nat)
    requires InReadingOrder(ps, p) && p > 0 && Stamped(clock, started, events, ps) && e.elapsed == clock(p) - started
    ensures InReadingOrder(ps + [p], p + 1) && Stamped(clock, started, events + [e], ps + [p])
  {
  }

  lemma TimedAnyway(clock: Clock, started: int, ms: seq<Trial>, bs: seq<Submission>, events: seq<Event>, ts: seq<nat>,
                    e: Event)
    requires Timed(clock, started, ms, bs, events, ts)
    requires !e.kind.TrialStart? && !e.kind.TrialDone? && !e.kind.TrialFailed?
    ensures Timed(clock, started, ms, bs, events + [e], ts)
  {
    hide TimedAt, StartEvents, OutcomeEvents;
    TrialEventsAppend(events, e);
  }

  lemma EmitRead(clock: Clock, s: AgentState, kind: EventKind, text: string, ps: seq<nat>, ts: seq<nat>)
    requires Read(clock, s, ps, ts) && !kind.TrialStart? && !kind.TrialDone? && !kind.TrialFailed?
    ensures Read(clock, Emit(clock, s, kind, text, None, None), ps + [s.ticks], ts)
  {
    hide EventsOf, Submissions, Measurements, InReadingOrder, Stamped, Timed;
    var e := Event(kind, text, None, None, clock(s.ticks) - s.started);
    EventsOfAppend(s.trace, Emitted(e));
    SubmissionsAppend(s.trace, Emitted(e));
    TimedAnyway(clock, s.started, Measurements(s.trials), Submissions(s.trace), EventsOf(s.trace), ts, e);
    StampMore(clock, s.started, EventsOf(s.trace), ps, e, s.ticks);
  }

  lemma TimedMore(clock: Clock, started: int, ms: seq<Trial>, bs: seq<Submission>, events: seq<Event>, ts: seq<nat>,
                  m: Trial, b: Submission, start: Event, outcome: Event, t: nat)
    requires Timed(clock, started, ms, bs, events, ts) && TimedAt(clock, started, m, b, start, outcome, t)
    requires start.kind.TrialStart? && (outcome.kind.TrialDone? || outcome.kind.TrialFailed?)
    requires forall k :: 0 <= k < |ts| ==> ts[k] + 2 < t - 2
    ensures Timed(clock, started, ms + [m], bs + [b], events + [start] + [outcome], ts + [t])
  {
    hide TimedAt, StartEvents, OutcomeEvents;
    TrialEventsAppend(events, start);
    TrialEventsAppend(events + [start], outcome);
  }

  /** What a measured benchmark adds, in terms of the readings. */
  lemma MeasureReads(c: Campaign, clock: Clock, s: AgentState, spec: TrialSpec,
                     hypothesis: string, checked: int, reply: BenchReply)
    returns (start: Event, outcome: Event, m: Trial, b: Submission)
    ensures var s1 := Measure(c, clock, s, spec, hypothesis, checked, reply).0;
            && s1.trials == s.trials + [m] && s1.started == s.started && s1.ticks >= s.ticks + 4
            && s1.trace == s.trace + [Emitted(start)] + [Benchmarked(b)] + [Emitted(outcome)]
    ensures !m.reused && m.duration == clock(s.ticks + 2) - clock(s.ticks + 1) && b.elapsedAtCheck == checked
    ensures start.kind.TrialStart? && start.elapsed == clock(s.ticks) - s.started
    ensures (outcome.kind.TrialDone? || outcome.kind.TrialFailed?) && outcome.elapsed == clock(s.ticks + 3) - s.started
  {
    var s1 := Measure(c, clock, s, spec, hypothesis, checked, reply).0;
    var n := |s.trace|;
    start, b, outcome := s1.trace[n].event, s1.trace[n + 1].submission, s1.trace[n + 2].event;
    m := s1.trials[|s.trials|];
  }

  lemma ThreeActions(trace: seq<Action>, start: Event, b: Submission, outcome: Event)
    ensures var all := trace + [Emitted(start)] + [Benchmarked(b)] + [Emitted(outcome)];
            && EventsOf(all) == EventsOf(trace) + [start] + [outcome]
            && Submissions(all) == Submissions(trace) + [b]
  {
    hide EventsOf, Submissions;
    EventsOfAppend(trace, Emitted(start));
    EventsOfAppend(trace + [Emitted(start)], Benchmarked(b));
    EventsOfAppend(trace + [Emitted(start)] + [Benchmarked(b)], Emitted(outcome));
    SubmissionsAppend(trace, Emitted(start));
    SubmissionsAppend(trace + [Emitted(start)], Benchmarked(b));
    SubmissionsAppend(trace + [Emitted(start)] + [Benchmarked(b)], Emitted(outcome));
  }

  lemma StampTwice(clock: Clock, started: int, events: seq<Event>, ps: seq<nat>, start: Event, outcome: Event,
                   p: nat, end: nat)
    requires InReadingOrder(ps, p) && p > 0 && Stamped(clock, started, events, ps) && p + 4 <= end
    requires start.elapsed == clock(p) - started && outcome.elapsed == clock(p + 3) - started
    ensures InReadingOrder(ps + [p] + [p + 3], end)
    ensures Stamped(clock, started, events + [start] + [outcome], ps + [p] + [p + 3])
  {
    StampMore(clock, started, events, ps, start, p);
    StampMore(clock, started, events + [start], ps + [p], outcome, p + 3);
  }

  lemma LaterStill(ts: seq<nat>, t: nat, end: nat)
    requires forall k :: 0 <= k < |ts| ==> ts[k] + 2 < t - 2
    requires t + 2 < end
    ensures forall k :: 0 <= k < |ts + [t]| ==> (ts + [t])[k] + 2 < end
  {
  }

  lemma MeasureRead(c: Campaign, clock: Clock, s: AgentState, spec: TrialSpec, hypothesis: string,
                    reply: BenchReply, ps: seq<nat>, ts: seq<nat>)
    requires Read(clock, s, ps, ts) && s.ticks >= 2
    requires forall k :: 0 <= k < |ts| ==> ts[k] + 2 < s.ticks - 1
    ensures var checked := clock(s.ticks - 1) - s.started;
            Read(clock, Measure(c, clock, s, spec, hypothesis, checked, reply).0,
                 ps + [s.ticks] + [s.ticks + 3], ts + [s.ticks + 1])
  {
    hide EventsOf, Submissions, Measurements, StartEvents, OutcomeEvents, Timed, Stamped, InReadingOrder, Measure;
    var checked := clock(s.ticks - 1) - s.started;
    var start, outcome, m, b := MeasureReads(c, clock, s, spec, hypothesis, checked, reply);
    ThreeActions(s.trace, start, b, outcome);
    MeasurementsAppend(s.trials, m);
    TimedMore(clock, s.started, Measurements(s.trials), Submissions(s.trace), EventsOf(s.trace), ts,
              m, b, start, outcome, s.ticks + 1);
    var end := Measure(c, clock, s, spec, hypothesis, checked, reply).0.ticks;
    StampTwice(clock, s.started, EventsOf(s.trace), ps, start, outcome, s.ticks, end);
    LaterStill(ts, s.ticks + 1, end);
  }

  lemma RunBenchmarkRead(c: Campaign, clock: Clock, s: AgentState, args: Option<BenchArgs>, reply: BenchReply,
                         ps: seq<nat>, ts: seq<nat>)
    returns (ps1: seq<nat>, ts1: seq<nat>)
    requires Read(clock, s, ps, ts)
    ensures Read(clock, CallRunBenchmark(c, clock, s, args, reply).0, ps1, ts1)
  {
    hide Measure, FindTrial, EventsOf, Submissions, Measurements, Timed, Stamped, InReadingOrder;
    ps1, ts1 := ps, ts;
    if args.Some? && args.value.engine in c.engines {
      var s1 := AfterCheck(c, clock, s);
      TicksPass(clock, s, s1, ps, ts);
      var spec := c.SpecFor(args.value.engine, args.value.config);
      if Exhausted(c, clock, s).Some? {
        EmitRead(clock, s1, Warn, ExhaustionText(Exhausted(c, clock, s).value), ps, ts);
        ps1 := ps + [s1.ticks];
      } else if FindTrial(s.trials, spec).Some? {
        var prior := FindTrial(s.trials, spec).value;
        var again := Trial(spec, prior.result, prior.err, 0, args.value.hypothesis, true);
        MeasurementsAppend(s.trials, again);
        TicksPass(clock, s1, s1.(trials := s1.trials + [again]), ps, ts);
      } else {
        MeasureRead(c, clock, s1, spec, args.value.hypothesis, reply, ps, ts);
        ps1, ts1 := ps + [s1.ticks] + [s1.ticks + 3], ts + [s1.ticks + 1];
      }
    }
  }

  lemma BlockRead(c: Campaign, clock: Clock, s: AgentState, block: Block, ps: seq<nat>, ts: seq<nat>)
    returns (ps1: seq<nat>, ts1: seq<nat>)
    requires Read(clock, s, ps, ts)
    ensures Read(clock, AfterBlock(c, clock, s, block), ps1, ts1)
  {
    hide Read, CallRunBenchmark, FindTrial, Measurements;
    ps1, ts1 := ps, ts;
    match block {
      case TextBlock(text) =>
        if text != "" {
          EmitRead(clock, s, Plan, text, ps, ts);
          ps1 := ps + [s.ticks];
        }
      case ThinkingBlock(text) =>
        if text != "" {
          EmitRead(clock, s, Thinking, text, ps, ts);
          ps1 := ps + [s.ticks];
        }
      case OtherBlock =>
      case ToolUse(_, call) =>
        match call {
          case ListWorkers(_) =>
            EmitRead(clock, s, Lookup, "checking registered workers", ps, ts);
            ps1 := ps + [s.ticks];
          case Classify(parsed, _) =>
            if parsed {
              EmitRead(clock, s, Lookup, "classifying workload shape", ps, ts);
              ps1 := ps + [s.ticks];
            }
          case Historical(engine, _) =>
            if engine.Some? {
              var text := "looking up past " + engine.value + " results";
              EmitRead(clock, s, Lookup, text, ps, ts);
              ps1 := ps + [s.ticks];
              var s1 := Emit(clock, s, Lookup, text, None, None);
              TicksPass(clock, s1, s1.(ticks := s1.ticks + 1), ps1, ts);
            }
          case RunBenchmark(args, reply) =>
            ps1, ts1 := RunBenchmarkRead(c, clock, s, args, reply, ps, ts);
          case Recommend(args) =>
            if args.Some? {
              var s1 := s.(recommendation := CallRecommend(c, clock, s, args).0.recommendation);
              TicksPass(clock, s, s1, ps, ts);
              EmitRead(clock, s1, Done, args.value.reasoning, ps, ts);
              ps1 := ps + [s.ticks];
            }
          case UnknownTool =>
        }
    }
  }

  lemma {:induction false} BlocksRead(c: Campaign, clock: Clock, s: AgentState, blocks: seq<Block>,
                                      ps: seq<nat>, ts: seq<nat>)
    returns (ps1: seq<nat>, ts1: seq<nat>)
    requires Read(clock, s, ps, ts)
    ensures Read(clock, AfterBlocks(c, clock, s, blocks), ps1, ts1)
    decreases blocks
  {
    hide Read, AfterBlock;
    ps1, ts1 := ps, ts;
    if blocks != [] {
      ps1, ts1 := BlockRead(c, clock, s, blocks[0], ps, ts);
      ps1, ts1 := BlocksRead(c, clock, AfterBlock(c, clock, s, blocks[0]), blocks[1..], ps1, ts1);
    }
  }

  lemma ConcludeRead(clock: Clock, s: AgentState, ps: seq<nat>, ts: seq<nat>) returns (ps1: seq<nat>)
    requires Read(clock, s, ps, ts)
    ensures Read(clock, Conclude(clock, s).state, ps1, ts)
  {
    hide Read, BestTrial, Measurements;
    ps1 := ps;
    if BestTrial(s.trials).Some? {
      EmitRead(clock, s, Warn, "planner ended without a recommendation", ps, ts);
      ps1 := ps + [s.ticks];
      var s1 := Emit(clock, s, Warn, "planner ended without a recommendation", None, None);
      TicksPass(clock, s1, Conclude(clock, s).state, ps1, ts);
    }
  }

  lemma {:induction false} RunFromRead(c: Campaign, clock: Clock, s: AgentState, script: seq<PlannerReply>,
                                       ps: seq<nat>, ts: seq<nat>)
    returns (ps1: seq<nat>, ts1: seq<nat>)
    requires Read(clock, s, ps, ts)
    ensures Read(clock, RunFrom(c, clock, s, script).state, ps1, ts1)
    decreases script
  {
    hide Read, AfterBlocks, Conclude, Measurements;
    ps1, ts1 := ps, ts;
    TicksPass(clock, s, s.(turns := s.turns + 1), ps, ts);
    if s.turns >= c.budget.maxTurns {
      ps1 := ConcludeRead(clock, s, ps, ts);
    } else if script != [] && script[0].Response? {
      var s1 := Received(s, script[0].usage);
      TicksPass(clock, s, s1, ps, ts);
      if !script[0].stop.StopRefusal? {
        ps1, ts1 := BlocksRead(c, clock, s1, script[0].content, ps, ts);
        var s2 := AfterBlocks(c, clock, s1, script[0].content);
        if s2.recommendation.None? {
          if script[0].stop.StopToolUse? {
            ps1, ts1 := RunFromRead(c, clock, s2, script[1..], ps1, ts1);
          } else {
            ps1 := ConcludeRead(clock, s2, ps1, ts1);
          }
        }
      }
    }
  }

  /**
   Every time in a report is read off the clock. The events carry readings in increasing order,
   counted from the first; and benchmark number `k` has a position `t` of its own, later than
   everything the benchmark before it read, such that its duration is the difference of the
   readings `t` and `t + 1` around the platform call, its budget check and its start event took
   the two readings before, and its outcome event the one after.
   */
  lemma EveryTimeIsRead(c: Campaign, clock: Clock, script: seq<PlannerReply>) returns (ps: seq<nat>, ts: seq<nat>)
    ensures var s := Run(c, clock, script).state;
            var ms, bs, events := Measurements(s.trials), Submissions(s.trace), EventsOf(s.trace);
            var starts, outcomes := StartEvents(events), OutcomeEvents(events);
            && |ps| == |events| && |ts| == |ms| == |bs| == |starts| == |outcomes|
            && (forall k :: 0 <= k < |ps| ==> ps[k] > 0 && events[k].elapsed == clock(ps[k]) - clock(0))
            && (forall k, l :: 0 <= k < l < |ps| ==> ps[k] < ps[l])
            && (forall k :: 0 <= k < |ts| ==>
                  && ts[k] >= 3
                  && bs[k].elapsedAtCheck == clock(ts[k] - 2) - clock(0)
                  && starts[k].elapsed == clock(ts[k] - 1) - clock(0)
                  && ms[k].duration == clock(ts[k] + 1) - clock(ts[k])
                  && outcomes[k].elapsed == clock(ts[k] + 2) - clock(0))
            && (forall k, l :: 0 <= k < l < |ts| ==> ts[k] + 2 < ts[l] - 2)
  {
    hide RunFrom, Measurements, Submissions, EventsOf, StartEvents, OutcomeEvents;
    NothingRead(clock);
    ps, ts := RunFromRead(c, clock, Initial(clock), script, [], []);
    var s := Run(c, clock, script).state;
    assert forall k :: 0 <= k < |ts| ==>
      TimedAt(clock, s.started, Measurements(s.trials)[k], Submissions(s.trace)[k],
              StartEvents(EventsOf(s.trace))[k], OutcomeEvents(EventsOf(s.trace))[k], ts[k]);
  }

  lemma NothingRead(clock: Clock)
    ensures Read(clock, Initial(clock), [], [])
  {
  }
}
