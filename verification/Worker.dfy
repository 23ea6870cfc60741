/**
 The queue worker: one delivery of a campaign, from loading the row to recording how it ended.
 Executed without interference it takes exactly steps of the protocol, so what the protocol
 keeps in every interleaving holds of it.
 */
module Worker {
  import opened Domain
  import opened AgentSpec
  import opened AgentInvariants
  import opened FeedSpec
  import opened Store
  import opened Protocol
  import A = Agent
  import P = Platform
  import CampaignTheorems
  import AgentTheorems

  const BAD_CAMPAIGN := "no agent could be built for this campaign"

  datatype LoadReply = Loaded | Missing | LoadError

  /** How the store behaves towards one delivery; appends past the list succeed. */
  datatype Faults = Faults(load: LoadReply, claim: Fault, appends: seq<Fault>, finish: Fault)
  {
    function AppendFault(k: nat): Fault {
      if k < |appends| then appends[k] else NoFault
    }

    ghost predicate AppendsApply() {
      forall k :: 0 <= k < |appends| ==> appends[k].Applies()
    }
  }

  /** The steps lead to this row and this log, with `jobs` more jobs saved and the new delivery
      standing at `pc`. */
  ghost predicate Reached(c: Campaign, s0: Sys, steps: seq<Step>, row: Row, log: seq<Logged>, jobs: nat, pc: Pc) {
    && Legal(c, s0, steps)
    && After(c, s0, steps).row == row && After(c, s0, steps).log == log && After(c, s0, steps).jobs == s0.jobs + jobs
    && |After(c, s0, steps).pcs| == |s0.pcs| + 1 && After(c, s0, steps).pcs[|s0.pcs|] == pc
  }

  // ----- the steps of one delivery, each taking a reached point to the next

  lemma Delivered(c: Campaign, s0: Sys) returns (steps: seq<Step>)
    ensures Reached(c, s0, steps, s0.row, s0.log, 0, Loading)
  {
    steps := [Deliver];
    assert steps[1..] == [];
  }

  lemma LoadStep(c: Campaign, s0: Sys, before: seq<Step>, row: Row, log: seq<Logged>, ok: bool)
    returns (steps: seq<Step>)
    requires Reached(c, s0, before, row, log, 0, Loading)
    ensures Reached(c, s0, steps, row, log, 0, if ok then Claiming else Ended(None))
  {
    hide Legal, After;
    Extend(c, s0, before, Load(|s0.pcs|, ok));
    steps := before + [Load(|s0.pcs|, ok)];
  }

  lemma ClaimStep(c: Campaign, s0: Sys, before: seq<Step>, row: Row, log: seq<Logged>, fault: Fault)
    returns (steps: seq<Step>)
    requires Reached(c, s0, before, row, log, 0, Claiming)
    ensures Reached(c, s0, steps, if fault.Applies() then MarkRunningRow(row) else row, log, 0,
                    if fault.NoFault? && row.state.Pending? then Building else Ended(None))
  {
    hide Legal, After;
    Extend(c, s0, before, Claim(|s0.pcs|, fault));
    steps := before + [Claim(|s0.pcs|, fault)];
  }

  lemma BuildStep(c: Campaign, s0: Sys, before: seq<Step>, row: Row, log: seq<Logged>,
                  clock: Clock, script: seq<PlannerReply>)
    returns (steps: seq<Step>)
    requires Reached(c, s0, before, row, log, 0, Building) && Monotone(clock)
    ensures Reached(c, s0, steps, row, log, 0,
                    if c.Valid() then Looping(Progress(Run(c, clock, script), 0), false) else Finishing(None))
  {
    hide Legal, After, Run;
    Extend(c, s0, before, Build(|s0.pcs|, clock, script));
    steps := before + [Build(|s0.pcs|, clock, script)];
  }

  lemma AppendStep(c: Campaign, s0: Sys, before: seq<Step>, row: Row, log: seq<Logged>, jobs: nat, p: Progress, fault: Fault)
    returns (steps: seq<Step>)
    requires Reached(c, s0, before, row, log, jobs, Looping(p, false))
    requires p.pos < |Trace(p)| && Trace(p)[p.pos].Emitted?
    ensures Reached(c, s0, steps, row, if fault.Applies() then AppendTo(log, Trace(p)[p.pos].event) else log, jobs,
                    Looping(p.(pos := p.pos + 1), false))
  {
    hide Legal, After, AppendTo;
    Extend(c, s0, before, Append(|s0.pcs|, fault));
    steps := before + [Append(|s0.pcs|, fault)];
  }

  /** Nobody cancelled: the benchmark is answered as the platform answers it. */
  lemma BenchmarkSteps(c: Campaign, s0: Sys, before: seq<Step>, row: Row, log: seq<Logged>, jobs: nat,
                       p: Progress, world: P.World)
    returns (steps: seq<Step>)
    requires Reached(c, s0, before, row, log, jobs, Looping(p, false))
    requires p.pos < |Trace(p)| && Trace(p)[p.pos].Benchmarked?
    requires world.campaign.Some? ==> world.campaign.value == row.state
    requires var b := Trace(p)[p.pos].submission; P.Answers(world, b.spec, b.reply)
    ensures Reached(c, s0, steps, row, log,
                    jobs + (if P.Saves(world, Trace(p)[p.pos].submission.spec) then 1 else 0),
                    Looping(p.(pos := p.pos + 1), false))
  {
    hide Legal, After, P.Answers, P.Saves, Run;
    var more := P.BenchmarkTakesSteps(c, After(c, s0, before), |s0.pcs|, world);
    steps := Joined(c, s0, before, more);
  }

  lemma ReturnStep(c: Campaign, s0: Sys, before: seq<Step>, row: Row, log: seq<Logged>, jobs: nat, p: Progress)
    returns (steps: seq<Step>)
    requires Reached(c, s0, before, row, log, jobs, Looping(p, false)) && p.pos == |Trace(p)|
    ensures Reached(c, s0, steps, row, log, jobs, Finishing(Some(p)))
  {
    hide Legal, After;
    Extend(c, s0, before, Return(|s0.pcs|));
    steps := before + [Return(|s0.pcs|)];
  }

  lemma FinishStep(c: Campaign, s0: Sys, before: seq<Step>, row: Row, log: seq<Logged>, jobs: nat,
                   final: Option<Progress>, msg: string, fault: Fault)
    returns (steps: seq<Step>)
    requires Reached(c, s0, before, row, log, jobs, Finishing(final))
    ensures Reached(c, s0, steps, if fault.Applies() then FinishedRow(row, final, msg) else row, log, jobs, Ended(final))
  {
    hide Legal, After;
    Extend(c, s0, before, Finish(|s0.pcs|, msg, fault));
    steps := before + [Finish(|s0.pcs|, msg, fault)];
  }

  // ----- the worker

  function RunErrorText(err: RunError): string {
    match err
    case PlannerFailed => "planner turn failed"
    case PlannerRefused => "planner declined the request"
    case NoRecommendation => "agent: campaign produced no usable measurement"
    case LoopCancelled => CANCELLED_ERROR
  }

  /** The run's benchmarks were answered by the platform in these worlds, none of which has seen
      the campaign in another state than running. */
  ghost predicate AnsweredIn(worlds: seq<P.World>, bs: seq<Submission>) {
    && |bs| <= |worlds|
    && forall k :: 0 <= k < |bs| ==>
         && bs[k].reply == P.Reply(worlds[k], bs[k].spec)
         && (worlds[k].campaign.Some? ==> worlds[k].campaign.value.Running?)
  }

  /** Loads and claims the campaign, runs the agent and records how it ended. `ran` tells
      whether this delivery entered the agent loop; `ok`, whether it asks for no redelivery. */
  method Work(store: CampaignStore, platform: P.Platform, c: Campaign, faults: Faults, clock: Clock,
              script: seq<PlannerReply>, worlds: seq<P.World>, ghost s0: Sys)
    returns (ok: bool, ran: bool, ghost steps: seq<Step>)
    requires s0.row == store.row && s0.log == store.log && Monotone(clock)
    requires AnsweredIn(worlds, Submissions(Run(c, clock, script).state.trace))
    modifies store, platform
    ensures old(platform.saved) <= platform.saved
    ensures Reached(c, s0, steps, store.row, store.log, |platform.saved| - |old(platform.saved)|,
                    Ended(if ran then Some(Whole(Run(c, clock, script))) else None))
    ensures ran <==> faults.load.Loaded? && faults.claim.NoFault? && old(store.row).state.Pending? && c.Valid()
    ensures ok <==>
              if !faults.load.Loaded? then faults.load.Missing?
              else faults.claim.NoFault? && (old(store.row).state.Pending? ==> faults.finish.NoFault?)
    ensures !ran ==> store.log == old(store.log) && platform.saved == old(platform.saved)
    ensures ran && old(store.log) == [] && faults.AppendsApply() ==>
              store.log == Numbered(EventsOf(Run(c, clock, script).state.trace))
    ensures ran && faults.finish.Applies() ==>
              var err := Run(c, clock, script).err;
              store.row.state == if err.None? then Completed else Failed
  {
    hide Reached, Run, AppendTo, Numbered, EventsOf, Submissions, AnsweredIn;
    steps := Delivered(c, s0);
    steps := LoadStep(c, s0, steps, store.row, store.log, faults.load.Loaded?);
    if !faults.load.Loaded? {
      return faults.load.Missing?, false, steps;
    }
    steps := ClaimStep(c, s0, steps, store.row, store.log, faults.claim);
    var claimed, claimOk := store.MarkRunning(faults.claim);
    if !claimOk || !claimed {
      return claimOk, false, steps;
    }
    steps := BuildStep(c, s0, steps, store.row, store.log, clock, script);
    if !c.Valid() {
      steps := FinishStep(c, s0, steps, store.row, store.log, 0, None, BAD_CAMPAIGN, faults.finish);
      ok := store.Fail(BAD_CAMPAIGN, None, faults.finish);
      return ok, false, steps;
    }
    ran := true;
    var agent := new A.Agent(c, clock);
    var report, err := agent.Run(script);
    steps := RecordRun(store, platform, c, faults, agent.trace, worlds, Run(c, clock, script), s0, steps);
    NeverLoopCancelled(c, clock, script);
    ghost var jobs := |platform.saved| - |old(platform.saved)|;
    ok, steps := FinishRun(store, c, faults, report, err, Run(c, clock, script), s0, jobs, steps);
  }

  /** A run with all of its actions behind it. */
  function Whole(run: Outcome): Progress {
    Progress(run, |run.state.trace|)
  }

  /** The loop's actions in their order, as store and platform see them: events are appended one
      by one, and in between every benchmark goes to the platform, which answers it as the run
      was answered. */
  method RecordRun(store: CampaignStore, platform: P.Platform, c: Campaign, faults: Faults, trace: seq<Action>,
                   worlds: seq<P.World>, ghost run: Outcome, ghost s0: Sys, ghost before: seq<Step>)
    returns (ghost steps: seq<Step>)
    requires trace == run.state.trace && store.row.state.Running? && AnsweredIn(worlds, Submissions(trace))
    requires Reached(c, s0, before, store.row, store.log, 0, Looping(Progress(run, 0), false))
    modifies store`log, platform
    ensures old(platform.saved) <= platform.saved
    ensures Reached(c, s0, steps, store.row, store.log, |platform.saved| - |old(platform.saved)|,
                    Finishing(Some(Whole(run))))
    ensures old(store.log) == [] && faults.AppendsApply() ==> store.log == Numbered(EventsOf(trace))
  {
    hide Reached, AppendTo, Numbered, EventsOf, Submissions, AnsweredIn, P.Answers, P.Reply, P.Saves;
    steps := before;
    var asked := 0;
    NothingRecorded();
    for k := 0 to |trace|
      invariant asked == |Submissions(trace[..k])| && old(platform.saved) <= platform.saved
      invariant old(store.log) == [] && faults.AppendsApply() ==> store.log == Numbered(EventsOf(trace[..k]))
      invariant store.row == old(store.row)
      invariant Reached(c, s0, steps, store.row, store.log, |platform.saved| - |old(platform.saved)|,
                        Looping(Progress(run, k), false))
    {
      RecordedOnce(trace, k);
      ghost var jobs := |platform.saved| - |old(platform.saved)|;
      match trace[k]
      case Emitted(e) =>
        steps := AppendStep(c, s0, steps, store.row, store.log, jobs, Progress(run, k), faults.AppendFault(k));
        var recorded := store.AppendEvent(e, faults.AppendFault(k));
      case Benchmarked(b) =>
        SubmittedNext(trace, k);
        AnsweredNext(worlds, Submissions(trace), asked);
        var reply := platform.RunBenchmark(worlds[asked], b.spec);
        assert reply == b.reply;
        steps := BenchmarkSteps(c, s0, steps, store.row, store.log, jobs, Progress(run, k), worlds[asked]);
        asked := asked + 1;
    }
    assert trace[..|trace|] == trace;
    steps := ReturnStep(c, s0, steps, store.row, store.log, |platform.saved| - |old(platform.saved)|, Whole(run));
  }

  lemma NothingRecorded()
    ensures Numbered(EventsOf([])) == [] && Submissions([]) == []
  {
  }

  /** One more action of the run: an event is the next row of the numbered stream. */
  lemma RecordedOnce(trace: seq<Action>, k: nat)
    requires k < |trace|
    ensures Numbered(EventsOf(trace[..k + 1])) ==
            if trace[k].Emitted? then AppendTo(Numbered(EventsOf(trace[..k])), trace[k].event)
            else Numbered(EventsOf(trace[..k]))
    ensures trace[k].Emitted? ==> Submissions(trace[..k + 1]) == Submissions(trace[..k])
  {
    hide AppendTo, EventsOf, Submissions;
    assert trace[..k + 1] == trace[..k] + [trace[k]];
    EventsOfAppend(trace[..k], trace[k]);
    SubmissionsAppend(trace[..k], trace[k]);
    if trace[k].Emitted? {
      AppendKeepsNumbering(Numbered(EventsOf(trace[..k])), trace[k].event);
    }
  }

  lemma SubmittedNext(trace: seq<Action>, k: nat)
    requires k < |trace| && trace[k].Benchmarked?
    ensures var n := |Submissions(trace[..k])|;
            && n < |Submissions(trace)| && Submissions(trace)[n] == trace[k].submission
            && |Submissions(trace[..k + 1])| == n + 1
  {
    hide Submissions;
    assert trace[..k + 1] == trace[..k] + [trace[k]];
    SubmissionsAppend(trace[..k], trace[k]);
    CampaignTheorems.SubmissionsOfPrefix(trace, k + 1);
  }

  lemma AnsweredNext(worlds: seq<P.World>, bs: seq<Submission>, k: nat)
    requires AnsweredIn(worlds, bs) && k < |bs|
    ensures k < |worlds| && bs[k].reply == P.Reply(worlds[k], bs[k].spec)
    ensures worlds[k].campaign.Some? ==> worlds[k].campaign.value.Running?
  {
  }

  lemma NeverLoopCancelled(c: Campaign, clock: Clock, script: seq<PlannerReply>)
    requires c.Valid()
    ensures Run(c, clock, script).err != Some(LoopCancelled)
  {
    AgentTheorems.EveryRunEnds(c, clock, script);
  }

  /** Completes the campaign unless the run failed for another reason than a cancellation. */
  method FinishRun(store: CampaignStore, c: Campaign, faults: Faults, report: Report, err: Option<RunError>,
                   ghost run: Outcome, ghost s0: Sys, ghost jobs: nat, ghost before: seq<Step>)
    returns (ok: bool, ghost steps: seq<Step>)
    requires err == run.err && report == run.state.Report()
    requires Reached(c, s0, before, store.row, store.log, jobs, Finishing(Some(Whole(run))))
    modifies store`row
    ensures Reached(c, s0, steps, store.row, store.log, jobs, Ended(Some(Whole(run))))
    ensures ok == faults.finish.NoFault?
    ensures faults.finish.Applies() && !old(store.row).state.Cancelled? ==>
              store.row.state == if err.None? || err == Some(LoopCancelled) then Completed else Failed
  {
    hide Reached;
    if err.None? || err == Some(LoopCancelled) {
      steps := FinishStep(c, s0, before, store.row, store.log, jobs, Some(Whole(run)), "", faults.finish);
      ok := store.Complete(Some(report), faults.finish);
    } else {
      var msg := RunErrorText(err.value);
      steps := FinishStep(c, s0, before, store.row, store.log, jobs, Some(Whole(run)), msg, faults.finish);
      ok := store.Fail(msg, Some(report), faults.finish);
    }
  }
}
