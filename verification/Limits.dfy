/** What the guarantees of a campaign rest on, and what a cancellation does and does not do. */
module Limits {
  import opened Domain
  import opened AgentSpec
  import opened AgentInvariants
  import opened ErrorTexts
  import opened FeedSpec
  import FeedLoss
  import opened Scripts
  import opened Store
  import opened Protocol
  import opened ProtocolInvariants
  import opened CampaignTheorems
  import opened Continuations

  // ----- the row

  /** The statements alone do not protect a terminal row: completing and failing overwrite each
      other's state, and only the claim keeps a second finisher away. */
  lemma GuardsProtectOnlyCancelled(r: Row, report: Option<Report>, msg: string, partial: Option<Report>)
    requires r.state.Completed? || r.state.Failed? || r.state.Cancelled?
    ensures CompleteRow(r, report).state == r.state <==> !r.state.Failed?
    ensures FailRow(r, msg, partial).state == r.state <==> !r.state.Completed?
    ensures CompleteRow(FailRow(r, msg, partial), report).state == FailRow(r, msg, partial).state
            <==> r.state.Cancelled?
  {
  }

  // ----- a cancellation, as the agent sees it

  /** Every cancellation replaced by some other error. */
  function Disguised(other: string): Rewording {
    text => if text == CANCELLED_ERROR then other else text
  }

  /**
   The documentation says the cancellation ends the run. To the agent it is an error like any
   other: if the platform answered every cancelled benchmark with an arbitrary error instead, the
   run would make the same planner calls, spend the same budget, record as many trials and end
   with the same error and the same recommendation.
   */
  lemma CancellationIsAnyError(c: Campaign, clock: Clock, script: seq<PlannerReply>, other: string)
    requires other != ""
    ensures var o, d := Run(c, clock, script), Run(c, clock, InScript(Disguised(other), script));
            && d.err == o.err && d.state.recommendation == o.state.recommendation
            && d.state.turns == o.state.turns && d.state.usage == o.state.usage && d.state.spent == o.state.spent
            && |d.state.trials| == |o.state.trials| && |d.state.trace| == |o.state.trace|
  {
    hide Run, InScript;
    RunIsBlindToErrorTexts(Disguised(other), c, clock, script);
  }

  // ----- a cancelled campaign goes on

  /** From here on every benchmark of the run is answered with the cancellation. */
  ghost predicate AllCancelled(p: Progress) {
    forall k :: p.pos <= k < |Trace(p)| && Trace(p)[k].Benchmarked? ==>
      Trace(p)[k].submission.reply.err == Some(CANCELLED_ERROR)
  }

  /** The whole rest of a loop in a cancelled campaign, with every check reading the state: the
      checks stop all benchmarks, and the loop plays on to its end. */
  lemma {:induction false} PlayCancelled(c: Campaign, s: Sys, i: nat) returns (steps: seq<Step>)
    requires InLoop(s, i) && s.row.state.Cancelled? && !s.pcs[i].checked && AllCancelled(s.pcs[i].progress)
    ensures Legal(c, s, steps) && PlayedOut(s, After(c, s, steps), i)
    ensures After(c, s, steps).jobs == s.jobs && After(c, s, steps).blindChecks == s.blindChecks
    decreases |Trace(s.pcs[i].progress)| - s.pcs[i].progress.pos
  {
    hide Legal, After, Run, EventsAfter, Quiet, MaxSeq;
    var p := s.pcs[i].progress;
    Nothing(c, s);
    if p.pos == |Trace(p)| {
      steps := Take(c, s, [], Return(i));
    } else {
      steps := Take(c, s, [], if NextAction(s, i).Emitted? then Append(i, NoFault) else Check(i, true));
      var t := After(c, s, steps);
      var rest := PlayCancelled(c, t, i);
      steps := Joined(c, s, steps, rest);
      StillAhead(p);
    }
  }

  function Cancellations(n: nat): seq<BenchReply> {
    seq(n, i => BenchReply(Result("", 0.0, 0.0, 0.0, 0, 0.0, 0.0), Some(CANCELLED_ERROR)))
  }

  /** A benchmark adds two events to the stream. */
  lemma EventsOfAsk(before: seq<Action>, c: Campaign, k: nat, reply: BenchReply)
    requires c.engines != []
    ensures EventsOf(before + ActionsOf(c, k, reply)) == EventsOf(before) + [StartOf(c, k), OutcomeOf(c, k, reply)]
  {
    hide EventsOf;
    var actions := ActionsOf(c, k, reply);
    EventsOfAppend(before, actions[0]);
    EventsOfAppend(before + [actions[0]], actions[1]);
    EventsOfAppend(before + [actions[0]] + [actions[1]], actions[2]);
    assert before + actions == before + [actions[0]] + [actions[1]] + [actions[2]];
  }

  lemma {:induction false} TraceIsCancelled(c: Campaign, n: nat, m: nat)
    requires c.engines != [] && m <= n
    ensures var trace := TraceOf(c, Cancellations(n)[..m]);
            && (forall k :: 0 <= k < |trace| && trace[k].Benchmarked? ==>
                  trace[k].submission.reply.err == Some(CANCELLED_ERROR))
            && |EventsOf(trace)| == 2 * m
  {
    hide EventsOf;
    var rs := Cancellations(n);
    if m == 0 {
      assert TraceOf(c, rs[..0]) == [];
      assert EventsOf([]) == [] by { NoEvents(); }
    } else {
      TraceIsCancelled(c, n, m - 1);
      assert rs[..m][..m - 1] == rs[..m - 1];
      var before, actions := TraceOf(c, rs[..m - 1]), ActionsOf(c, m - 1, rs[m - 1]);
      EventsOfAsk(before, c, m - 1, rs[m - 1]);
      assert forall k :: 0 <= k < |actions| && actions[k].Benchmarked? ==>
               actions[k].submission.reply.err == Some(CANCELLED_ERROR);
    }
  }

  lemma NoEvents()
    ensures EventsOf([]) == []
  {
  }

  /** The run of a planner that asks for one configuration a turn and is told it is cancelled. */
  lemma CancelledRun(c: Campaign, n: nat)
    requires c.Valid() && 0 < n <= c.budget.maxTrials && n <= c.budget.maxTurns
    ensures var o := Run(c, STILL, Turns(c, Cancellations(n)));
            && o.err == Some(NoRecommendation) && o.state.turns == n && |o.state.trials| == n
            && (forall k :: 0 <= k < n ==> o.state.trials[k].err == CANCELLED_ERROR && !o.state.trials[k].reused)
            && AllCancelled(Progress(o, 0)) && |EventsOf(o.state.trace)| == 2 * n
  {
    hide Run, TraceOf, EventsOf;
    var rs := Cancellations(n);
    AllFail(c, rs);
    TraceIsCancelled(c, n, n);
  }

  /**
   Cancelled before its first benchmark, and with every check reading the state, a campaign can
   still go through as many planner turns as its budget has trials: each turn's benchmark is
   stopped, recorded as a failed trial and written to the table. The row stays cancelled and ends
   up holding all of those trials; no job is saved.
   */
  lemma CancelledCampaignGoesOn(c: Campaign, tenant: string, n: nat) returns (before: seq<Step>, after: seq<Step>)
    requires c.Valid() && 0 < n <= c.budget.maxTrials && n <= c.budget.maxTurns
    ensures Legal(c, Start(tenant), before) && Legal(c, After(c, Start(tenant), before), after)
    ensures var s := After(c, Start(tenant), before);
            var t := After(c, s, after);
            && s.row.state.Cancelled? && s.log == []
            && t.row.state.Cancelled? && t.jobs == 0 && t.blindChecks == 0 && |t.log| == 2 * n
            && t.history.Some? && t.history.value.run.state.turns == n
            && t.row.trials == Some(t.history.value.run.state.trials)
            && |t.history.value.run.state.trials| == n
            && (forall k :: 0 <= k < n ==>
                  var trial := t.history.value.run.state.trials[k]; trial.err == CANCELLED_ERROR && !trial.reused)
  {
    hide Legal, After, Run, EventsAfter, Quiet, AllCancelled, Kept, EventsOf, Numbered, IsRun, GapFree;
    var script := Turns(c, Cancellations(n));
    var run := Run(c, STILL, script);
    CancelledRun(c, n);
    before := Claimed(c, tenant, script);
    before := Take(c, Start(tenant), before, Step.Cancel(tenant, NoFault));
    var s := After(c, Start(tenant), before);
    var played := PlayCancelled(c, s, 0);
    after := Take(c, s, played, Finish(0, "", NoFault));
    var all := Joined(c, Start(tenant), before, after);
    LogIsTheRunsStream(c, tenant, all);
    var t := After(c, s, after);
    assert run.state.trace[..|run.state.trace|] == run.state.trace;
    FeedLoss.NothingLost(EventsOf(run.state.trace), t.kept);
    FeedLoss.LengthOfNumbered(EventsOf(run.state.trace));
  }
}
