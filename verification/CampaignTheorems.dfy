/** What holds of a durable campaign in every interleaving, end to end. */
module CampaignTheorems {
  import opened Domain
  import opened AgentSpec
  import opened AgentInvariants
  import AgentTheorems
  import opened Recommendations
  import opened FeedSpec
  import opened Store
  import opened Protocol
  import opened ProtocolInvariants

  lemma ReachableInv(c: Campaign, tenant: string, steps: seq<Step>)
    requires Legal(c, Start(tenant), steps)
    ensures SysInv(c, After(c, Start(tenant), steps))
  {
    hide SysInv, Legal, After, Start;
    StartInv(c, tenant);
    RunKeepsInv(c, Start(tenant), steps);
  }

  // ----- one loop, one direction

  /** However deliveries, cancellations, crashes and failing store calls interleave, at most one
      delivery ever enters the agent loop, so the event table has a single writer. */
  lemma AtMostOneLoop(c: Campaign, tenant: string, steps: seq<Step>, i: nat, j: nat)
    requires Legal(c, Start(tenant), steps)
    requires var s := After(c, Start(tenant), steps);
             i < |s.pcs| && j < |s.pcs| && s.pcs[i].EnteredLoop() && (s.pcs[j].EnteredLoop() || s.pcs[j].Active())
    ensures i == j
  {
    hide After, Legal, Start, LogInv, CancelInv, RowTells, FollowInv;
    ReachableInv(c, tenant, steps);
  }

  /** The row moves pending -> running -> terminal or pending -> cancelled, one edge a step. */
  lemma RowFollowsEdges(c: Campaign, tenant: string, steps: seq<Step>, step: Step)
    requires Legal(c, Start(tenant), steps)
    requires Enabled(c, After(c, Start(tenant), steps), step)
    ensures var s := After(c, Start(tenant), steps);
            Edge(s.row.state, Next(c, s, step).row.state)
  {
    hide After, Legal, Start, LogInv, Claims, CancelInv, RowTells, FollowInv, Next, Enabled;
    ReachableInv(c, tenant, steps);
    StepFollowsEdge(c, After(c, Start(tenant), steps), step);
  }

  lemma {:induction false} TerminalStays(c: Campaign, s: Sys, more: seq<Step>)
    requires SysInv(c, s) && Legal(c, s, more) && !s.row.state.Pending? && !s.row.state.Running?
    ensures After(c, s, more).row.state == s.row.state
    decreases |more|
  {
    hide LogInv, Claims, CancelInv, RowTells, FollowInv, Next, Enabled;
    if more != [] {
      StepFollowsEdge(c, s, more[0]);
      StepKeeps(c, s, more[0]);
      TerminalStays(c, Next(c, s, more[0]), more[1..]);
    }
  }

  /** No terminal state is ever left, although completing or failing a row is refused only when
      it is cancelled: a cancelled campaign ends cancelled whatever its loop returns. */
  lemma TerminalIsForGood(c: Campaign, tenant: string, steps: seq<Step>, more: seq<Step>)
    requires Legal(c, Start(tenant), steps)
    requires Legal(c, After(c, Start(tenant), steps), more)
    requires !After(c, Start(tenant), steps).row.state.Pending? && !After(c, Start(tenant), steps).row.state.Running?
    ensures After(c, After(c, Start(tenant), steps), more).row.state == After(c, Start(tenant), steps).row.state
  {
    hide After, Legal, Start, SysInv;
    ReachableInv(c, tenant, steps);
    TerminalStays(c, After(c, Start(tenant), steps), more);
  }

  /** A running row that nobody holds: the claim's answer was lost, or its delivery crashed. */
  ghost predicate Stranded(s: Sys) {
    (s.row.state.Running? || s.row.state.Cancelled?) && NobodyActive(s.pcs)
  }

  lemma StrandedStep(c: Campaign, s: Sys, step: Step)
    requires Stranded(s) && Enabled(c, s, step)
    ensures Stranded(Next(c, s, step))
    ensures Next(c, s, step).log == s.log && Next(c, s, step).jobs == s.jobs
  {
    hide Run, EventsAfter, AppendTo, Quiet;
    var s1 := Next(c, s, step);
    forall i | 0 <= i < |s1.pcs| ensures !s1.pcs[i].Active() {
      if i < |s.pcs| {
        assert !s.pcs[i].Active();
      }
    }
  }

  /** The other side of running at most once: a stranded campaign is never picked up again. No
      later delivery enters the loop, nothing is recorded, and only a cancellation can end it. */
  lemma {:induction false} StrandedForever(c: Campaign, s: Sys, more: seq<Step>)
    requires Stranded(s) && Legal(c, s, more)
    ensures Stranded(After(c, s, more))
    ensures After(c, s, more).log == s.log && After(c, s, more).jobs == s.jobs
    decreases |more|
  {
    hide Stranded, Next, Enabled;
    if more != [] {
      StrandedStep(c, s, more[0]);
      StrandedForever(c, Next(c, s, more[0]), more[1..]);
    }
  }

  // ----- jobs

  lemma {:induction false} SubmissionsOfPrefix(trace: seq<Action>, n: nat)
    requires n <= |trace|
    ensures Submissions(trace[..n]) <= Submissions(trace)
    decreases |trace|
  {
    if n == |trace| {
      assert trace[..n] == trace;
    } else {
      var init := trace[..|trace| - 1];
      assert init[..n] == trace[..n];
      SubmissionsOfPrefix(init, n);
    }
  }

  lemma {:induction false} EventsOfPrefix(trace: seq<Action>, n: nat)
    requires n <= |trace|
    ensures EventsOf(trace[..n]) <= EventsOf(trace)
    decreases |trace|
  {
    if n == |trace| {
      assert trace[..n] == trace;
    } else {
      var init := trace[..|trace| - 1];
      assert init[..n] == trace[..n];
      EventsOfPrefix(init, n);
    }
  }

  lemma RunFacts(c: Campaign, o: Outcome)
    requires c.Valid() && IsRun(c, o)
    ensures Inv(c, o.state) && AgentTheorems.Ended(o)
  {
    hide Inv, AgentTheorems.Ended, Run, Monotone;
    var clock: Clock, script :| RunsTo(c, clock, script, o);
    RunKeeps(c, clock, script);
    AgentTheorems.EveryRunEnds(c, clock, script);
  }

  /** Over its whole life a campaign saves at most MaxTrials jobs. After a cancellation it saves
      at most the one whose check had already passed, plus one per check that could not read the
      state; with successful reads, at most one. */
  lemma JobsAreBounded(c: Campaign, tenant: string, steps: seq<Step>)
    requires Legal(c, Start(tenant), steps)
    ensures var s := After(c, Start(tenant), steps);
            && (s.jobs == 0 || s.jobs <= c.budget.maxTrials)
            && s.cancelledJobs <= 1 + s.blindChecks
            && (s.blindChecks == 0 ==> s.cancelledJobs <= 1)
            && (!s.row.state.Cancelled? ==> s.cancelledJobs == 0)
  {
    hide After, Legal, Start, Claims, RowTells, FollowInv, Tracked, FreshHistory, IsRun, Streams;
    ReachableInv(c, tenant, steps);
    var s := After(c, Start(tenant), steps);
    if s.history.Some? {
      var p := s.history.value;
      RunFacts(c, p.run);
      SubmissionsOfPrefix(Trace(p), p.pos);
    }
  }

  // ----- the log and who reads it

  /** The log is numbered 1, 2, 3, ... and is exactly what the one run has emitted so far, without
      the events whose append was lost. */
  lemma LogIsTheRunsStream(c: Campaign, tenant: string, steps: seq<Step>)
    requires Legal(c, Start(tenant), steps)
    ensures var s := After(c, Start(tenant), steps);
            && GapFree(s.log)
            && (s.history.None? ==> s.log == [])
            && (s.history.Some? ==>
                  var p := s.history.value;
                  && c.Valid() && IsRun(c, p.run) && p.pos <= |Trace(p)|
                  && |s.kept| == |EventsOf(Trace(p)[..p.pos])|
                  && s.log == Numbered(Kept(EventsOf(Trace(p)[..p.pos]), s.kept)))
  {
    hide After, Legal, Start, Claims, CancelInv, RowTells, FollowInv, Tracked, FreshHistory, GapFree, IsRun, Kept;
    ReachableInv(c, tenant, steps);
  }

  /** At every moment a follower has rendered the log up to its cursor: nothing twice, nothing
      skipped, whatever appends and failed polls came in between. */
  lemma FollowerRendersPrefix(c: Campaign, tenant: string, steps: seq<Step>, j: nat)
    requires Legal(c, Start(tenant), steps) && j < |After(c, Start(tenant), steps).followers|
    ensures var s := After(c, Start(tenant), steps);
            s.followers[j].cursor <= |s.log| && s.followers[j].rendered == s.log[..s.followers[j].cursor]
  {
    hide After, Legal, Start, Claims, CancelInv, RowTells, LogInv, PollHolds;
    ReachableInv(c, tenant, steps);
    var s := After(c, Start(tenant), steps);
    assert Follows(s.followers[j], s);
  }

  /** A follower that stopped with a short last page has seen everything there will ever be,
      if the runner was finished when it asked - which completed and failed guarantee. */
  lemma StoppedFollowerSawEverything(c: Campaign, tenant: string, steps: seq<Step>, j: nat)
    requires Legal(c, Start(tenant), steps) && j < |After(c, Start(tenant), steps).followers|
    requires var f := After(c, Start(tenant), steps).followers[j];
             f.phase.Stopped? && f.phase.short
             && (f.phase.poll.quiet || f.phase.poll.state.Completed? || f.phase.poll.state.Failed?)
    ensures After(c, Start(tenant), steps).followers[j].rendered == After(c, Start(tenant), steps).log
  {
    hide After, Legal, Start, Claims, CancelInv, RowTells, LogInv, Quiet;
    ReachableInv(c, tenant, steps);
    var s := After(c, Start(tenant), steps);
    assert Follows(s.followers[j], s);
  }

  // ----- what a completed campaign reports

  /** A completed row carries a recommendation and the accounts of one run within budget. A
      measurement cited by the recommendation is the platform's answer to a benchmark of that
      configuration, and a mechanical one cites the first cheapest trial in the row. */
  lemma CompletedRowIsAccounted(c: Campaign, tenant: string, steps: seq<Step>)
    requires Legal(c, Start(tenant), steps) && After(c, Start(tenant), steps).row.state.Completed?
    ensures var s := After(c, Start(tenant), steps);
            && s.row.recommendation.Some? && s.row.trials.Some? && s.history.Some?
            && |Measurements(s.row.trials.value)| <= c.budget.maxTrials
            && DistinctSpecs(Measurements(s.row.trials.value))
            && ReusesCopy(s.row.trials.value)
            && EachAnswered(Measurements(s.row.trials.value), Submissions(Trace(s.history.value)))
            && (s.row.recommendation.value.measured.Some? ==>
                  exists k :: 0 <= k < |Submissions(Trace(s.history.value))|
                    && Answered(c, Submissions(Trace(s.history.value))[k], s.row.recommendation.value))
            && (s.row.recommendation.value.fallback ==>
                  exists i: nat :: FirstCheapest(s.row.trials.value, i) && !s.row.trials.value[i].reused
                    && s.row.recommendation.value.measured == Some(s.row.trials.value[i].result))
  {
    hide After, Legal, Start, Claims, CancelInv, FollowInv, Tracked, FreshHistory, GapFree, Run, Monotone,
         Streams, FirstCheapest, DistinctSpecs, ReusesCopy, EachAnswered, Answered;
    ReachableInv(c, tenant, steps);
    var p := After(c, Start(tenant), steps).history.value;
    RunFacts(c, p.run);
    var clock: Clock, script :| RunsTo(c, clock, script, p.run);
    EveryFigureWasMeasured(c, clock, script);
  }
}
