/** What can still become of a campaign, from any state it can reach. */
module Continuations {
  import opened Domain
  import opened AgentSpec
  import opened AgentInvariants
  import opened FeedSpec
  import opened Store
  import opened Protocol
  import opened ProtocolInvariants
  import opened CampaignTheorems
  import opened Scripts

  // ----- putting runs together

  /** A step taken last. */
  lemma Take(c: Campaign, s: Sys, before: seq<Step>, step: Step) returns (steps: seq<Step>)
    requires Legal(c, s, before) && Enabled(c, After(c, s, before), step)
    ensures Legal(c, s, steps) && After(c, s, steps) == Next(c, After(c, s, before), step)
  {
    hide Legal, After, Enabled, Next;
    Extend(c, s, before, step);
    steps := before + [step];
  }

  // ----- a loop can always go on to its end

  /** A delivery in the loop, as every reachable state has it. */
  ghost predicate InLoop(s: Sys, i: nat) {
    && i < |s.pcs| && s.pcs[i].Looping? && s.pcs[i].progress.pos <= |Trace(s.pcs[i].progress)|
    && (s.pcs[i].checked ==> At(s, i, false))
  }

  lemma LoopsAreInLoop(c: Campaign, s: Sys, i: nat)
    requires LogInv(c, s) && i < |s.pcs| && s.pcs[i].Looping?
    ensures InLoop(s, i)
  {
    hide Kept, Numbered, EventsOf, Submissions, IsRun, FreshHistory, GapFree;
    assert PcTracked(s.pcs[i], s.history);
  }

  /** Some event is still ahead. */
  ghost predicate EmitsAgain(p: Progress) {
    exists k :: p.pos <= k < |Trace(p)| && Trace(p)[k].Emitted?
  }

  /** The loop of delivery `i` has come to its end and nothing else has happened. */
  ghost predicate PlayedOut(s: Sys, t: Sys, i: nat)
    requires InLoop(s, i)
  {
    var p := s.pcs[i].progress;
    && t.row == s.row && t.followers == s.followers && |t.pcs| == |s.pcs| && s.log <= t.log
    && t.pcs[i] == Finishing(Some(p.(pos := |Trace(p)|)))
    && t.history == Some(p.(pos := |Trace(p)|))
    && (EmitsAgain(p) ==> |t.log| > |s.log|)
    && s.kept <= t.kept && (forall k :: |s.kept| <= k < |t.kept| ==> t.kept[k])
  }

  /** One action played: the events' appends take effect. */
  lemma PlayOne(c: Campaign, s: Sys, i: nat) returns (steps: seq<Step>)
    requires InLoop(s, i) && s.pcs[i].progress.pos < |Trace(s.pcs[i].progress)|
    ensures Legal(c, s, steps)
    ensures var p, t := s.pcs[i].progress, After(c, s, steps);
            && t.row == s.row && t.followers == s.followers
            && t.pcs == s.pcs[i := Looping(p.(pos := p.pos + 1), false)]
            && (if Trace(p)[p.pos].Emitted? then |t.log| == |s.log| + 1 && s.log <= t.log && t.kept == s.kept + [true]
                else t.log == s.log && t.kept == s.kept)
  {
    hide Legal, After, Run, EventsAfter, Quiet, MaxSeq;
    Nothing(c, s);
    steps := [];
    if NextAction(s, i).Emitted? {
      steps := Take(c, s, steps, Append(i, NoFault));
    } else {
      if !s.pcs[i].checked {
        steps := Take(c, s, steps, Check(i, false));
      }
      steps := Take(c, s, steps, Save(i, NoFault));
    }
  }

  lemma {:induction false} PlayOut(c: Campaign, s: Sys, i: nat) returns (steps: seq<Step>)
    requires InLoop(s, i)
    ensures Legal(c, s, steps) && PlayedOut(s, After(c, s, steps), i)
    decreases |Trace(s.pcs[i].progress)| - s.pcs[i].progress.pos
  {
    hide Legal, After, Run, EventsAfter, Quiet;
    var p := s.pcs[i].progress;
    if p.pos == |Trace(p)| {
      Nothing(c, s);
      steps := Take(c, s, [], Return(i));
    } else {
      var first := PlayOne(c, s, i);
      var t := After(c, s, first);
      var rest := PlayOut(c, t, i);
      steps := Joined(c, s, first, rest);
      StillAhead(p);
    }
  }

  lemma StillAhead(p: Progress)
    requires p.pos < |Trace(p)|
    ensures EmitsAgain(p) <==> Trace(p)[p.pos].Emitted? || EmitsAgain(p.(pos := p.pos + 1))
  {
    var q := p.(pos := p.pos + 1);
    assert Trace(q) == Trace(p);
    if EmitsAgain(p) {
      var k :| p.pos <= k < |Trace(p)| && Trace(p)[k].Emitted?;
      assert k > p.pos ==> Trace(q)[k].Emitted?;
    }
    if EmitsAgain(q) {
      var k :| q.pos <= k < |Trace(q)| && Trace(q)[k].Emitted?;
      assert Trace(p)[k].Emitted?;
    }
  }

  /** Delivered, claimed and built without interference, a campaign stands at the start of its run. */
  lemma Claimed(c: Campaign, tenant: string, script: seq<PlannerReply>) returns (steps: seq<Step>)
    requires c.Valid()
    ensures Legal(c, Start(tenant), steps)
    ensures var s := After(c, Start(tenant), steps);
            && s.row == MarkRunningRow(NewRow(tenant)) && s.log == [] && s.jobs == 0 && s.blindChecks == 0 && s.kept == []
            && s.followers == [] && s.cancelledJobs == 0
            && s.pcs == [Looping(Progress(Run(c, STILL, script), 0), false)]
  {
    hide Legal, After, Run, EventsAfter, Quiet;
    var s := Start(tenant);
    Nothing(c, s);
    steps := Take(c, s, [], Deliver);
    steps := Take(c, s, steps, Load(0, true));
    steps := Take(c, s, steps, Claim(0, NoFault));
    steps := Take(c, s, steps, Build(0, STILL, script));
  }

  // ----- a running campaign ends exactly when somebody holds it

  /** Ends the campaign: the row is completed or failed. */
  ghost predicate Ends(c: Campaign, s: Sys, more: seq<Step>) {
    Legal(c, s, more) && (After(c, s, more).row.state.Completed? || After(c, s, more).row.state.Failed?)
  }

  lemma FinishEnds(c: Campaign, s: Sys, i: nat) returns (more: seq<Step>)
    requires i < |s.pcs| && s.pcs[i].Finishing? && s.row.state.Running?
    ensures Ends(c, s, more)
  {
    hide Legal, After, Run, EventsAfter, Quiet;
    Nothing(c, s);
    more := Take(c, s, [], Finish(i, "", NoFault));
  }

  lemma LoopEnds(c: Campaign, s: Sys, i: nat) returns (more: seq<Step>)
    requires InLoop(s, i) && s.row.state.Running?
    ensures Ends(c, s, more)
  {
    hide Legal, After, EmitsAgain;
    var played := PlayOut(c, s, i);
    var last := FinishEnds(c, After(c, s, played), i);
    more := Joined(c, s, played, last);
  }

  lemma BuildEnds(c: Campaign, s: Sys, i: nat) returns (more: seq<Step>)
    requires i < |s.pcs| && s.pcs[i].Building? && s.row.state.Running?
    ensures Ends(c, s, more)
  {
    hide Legal, After, Run, EventsAfter, Quiet;
    var step := Build(i, STILL, []);
    var s1 := Next(c, s, step);
    var rest: seq<Step>;
    if c.Valid() {
      rest := LoopEnds(c, s1, i);
    } else {
      rest := FinishEnds(c, s1, i);
    }
    more := First(c, s, step, rest);
  }

  /** A reachable running campaign can still end by itself exactly when some delivery holds it. */
  lemma RunningEndsIffHeld(c: Campaign, tenant: string, steps: seq<Step>)
    requires Legal(c, Start(tenant), steps) && After(c, Start(tenant), steps).row.state.Running?
    ensures var s := After(c, Start(tenant), steps);
            (exists more :: Ends(c, s, more)) <==> exists i :: 0 <= i < |s.pcs| && s.pcs[i].Active()
  {
    hide Legal, After, Start, Claims, CancelInv, RowTells, FollowInv, LogInv;
    ReachableInv(c, tenant, steps);
    var s := After(c, Start(tenant), steps);
    if exists i :: 0 <= i < |s.pcs| && s.pcs[i].Active() {
      var i :| 0 <= i < |s.pcs| && s.pcs[i].Active();
      var more: seq<Step>;
      match s.pcs[i] {
        case Building => more := BuildEnds(c, s, i);
        case Looping(_, _) =>
          LoopsAreInLoop(c, s, i);
          more := LoopEnds(c, s, i);
        case Finishing(_) => more := FinishEnds(c, s, i);
      }
      assert Ends(c, s, more);
    } else {
      forall more | Legal(c, s, more) ensures !Ends(c, s, more) {
        StrandedForever(c, s, more);
      }
    }
  }

  /** The claim took effect and its answer was lost: the campaign is running and nobody holds it. */
  lemma LostClaimStrands(c: Campaign, tenant: string) returns (steps: seq<Step>)
    ensures Legal(c, Start(tenant), steps)
    ensures After(c, Start(tenant), steps).row.state.Running? && Stranded(After(c, Start(tenant), steps))
  {
    hide Legal, After, Run, EventsAfter, Quiet;
    var s := Start(tenant);
    Nothing(c, s);
    steps := Take(c, s, [], Deliver);
    steps := Take(c, s, steps, Load(0, true));
    steps := Take(c, s, steps, Claim(0, FailsAfter));
  }

  /** A crash does the same to any running campaign that is held. */
  lemma CrashStrands(c: Campaign, tenant: string, steps: seq<Step>, i: nat)
    requires Legal(c, Start(tenant), steps)
    requires var s := After(c, Start(tenant), steps); s.row.state.Running? && i < |s.pcs| && s.pcs[i].Active()
    ensures Enabled(c, After(c, Start(tenant), steps), Crash(i))
    ensures Stranded(Next(c, After(c, Start(tenant), steps), Crash(i)))
  {
    hide Legal, After, Start, LogInv, CancelInv, RowTells, FollowInv, Exclusive, Run, EventsAfter, Quiet;
    ReachableInv(c, tenant, steps);
    var s := After(c, Start(tenant), steps);
    LastActive(s.pcs, i, Next(c, s, Crash(i)).pcs[i]);
  }

  // ----- when what a follower has seen stays the whole picture

  /** Some delivery may still record an event. */
  ghost predicate EventsLeft(c: Campaign, s: Sys) {
    exists i :: 0 <= i < |s.pcs| && MayEmit(c, s.pcs[i])
  }

  ghost predicate MayEmit(c: Campaign, pc: Pc) {
    (pc.Building? && c.Valid()) || (pc.Looping? && EmitsAgain(pc.progress))
  }

  /** No continuation adds to the table. */
  ghost predicate LogIsFinal(c: Campaign, s: Sys) {
    forall more :: Legal(c, s, more) ==> After(c, s, more).log == s.log
  }

  /** The row is over or held, so nobody can claim it, and nobody who holds it has an event left. */
  ghost predicate Silent(c: Campaign, s: Sys) {
    !s.row.state.Pending? && !EventsLeft(c, s)
  }

  lemma SilentUpdate(c: Campaign, pcs: seq<Pc>, i: nat, pc: Pc, after: seq<Pc>)
    requires i < |pcs| && !MayEmit(c, pc) && after == pcs[i := pc]
    requires forall j :: 0 <= j < |pcs| ==> !MayEmit(c, pcs[j])
    ensures forall j :: 0 <= j < |after| ==> !MayEmit(c, after[j])
  {
  }

  lemma SilentStep(c: Campaign, s: Sys, step: Step)
    requires SysInv(c, s) && Enabled(c, s, step) && Silent(c, s)
    ensures Silent(c, Next(c, s, step)) && Next(c, s, step).log == s.log
  {
    hide SysInv, Run, EventsAfter, Quiet, MayEmit, EmitsAgain;
    var s1 := Next(c, s, step);
    StepFollows(c, s, step);
    if step.Deliver? {
      assert !MayEmit(c, Loading) by { Idles(c, Loading); }
      assert forall j :: 0 <= j < |s.pcs| ==> s1.pcs[j] == s.pcs[j];
    } else if step.Cancel? || step.Attach? || step.ReadRow? || step.ReadPage? || step.PollFails? {
      assert s1.pcs == s.pcs;
    } else {
      assert !MayEmit(c, s.pcs[step.i]);
      SilentActs(c, s, step);
      assert s1.pcs == s.pcs[step.i := s1.pcs[step.i]];
      SilentUpdate(c, s.pcs, step.i, s1.pcs[step.i], s1.pcs);
    }
  }

  lemma StepFollows(c: Campaign, s: Sys, step: Step)
    requires SysInv(c, s) && Enabled(c, s, step) && !s.row.state.Pending?
    ensures !Next(c, s, step).row.state.Pending?
  {
    hide LogInv, CancelInv, RowTells, FollowInv, Claims, Next, Enabled;
    StepFollowsEdge(c, s, step);
  }

  lemma Idles(c: Campaign, pc: Pc)
    requires pc.Loading? || pc.Claiming? || pc.Finishing? || pc.Ended?
    ensures !MayEmit(c, pc)
  {
  }

  lemma SilentActs(c: Campaign, s: Sys, step: Step)
    requires Enabled(c, s, step) && !s.row.state.Pending?
    requires step.Load? || step.Claim? || step.Build? || step.Append? || step.Check? || step.Reject? || step.Save?
             || step.Return? || step.Finish? || step.Crash?
    requires !MayEmit(c, s.pcs[step.i])
    ensures !MayEmit(c, Next(c, s, step).pcs[step.i]) && Next(c, s, step).log == s.log
  {
    hide Run, EventsAfter, Quiet;
    if step.Append? || step.Check? || step.Reject? || step.Save? {
      StillAhead(s.pcs[step.i].progress);
    }
  }

  lemma {:induction false} SilenceStays(c: Campaign, s: Sys, more: seq<Step>)
    requires SysInv(c, s) && Silent(c, s) && Legal(c, s, more)
    ensures After(c, s, more).log == s.log
    decreases |more|
  {
    hide SysInv, Silent, Next, Enabled;
    if more != [] {
      SilentStep(c, s, more[0]);
      StepKeeps(c, s, more[0]);
      SilenceStays(c, Next(c, s, more[0]), more[1..]);
    }
  }

  lemma LoopSpeaks(c: Campaign, s: Sys, i: nat) returns (more: seq<Step>)
    requires InLoop(s, i) && EmitsAgain(s.pcs[i].progress)
    ensures Legal(c, s, more) && |After(c, s, more).log| > |s.log|
  {
    hide Legal, After, EmitsAgain;
    more := PlayOut(c, s, i);
  }

  lemma BuildSpeaks(c: Campaign, s: Sys, i: nat) returns (more: seq<Step>)
    requires c.Valid() && i < |s.pcs| && s.pcs[i].Building?
    ensures Legal(c, s, more) && |After(c, s, more).log| > |s.log|
  {
    hide Legal, After, Run, EventsAfter, Quiet, TraceOf;
    var replies := [BenchReply(Result("", 0.0, 0.0, 0.0, 0, 0.0, 0.0), Some("failed"))];
    AllFail(c, replies);
    var script := Turns(c, replies);
    var trace := Run(c, STILL, script).state.trace;
    assert trace != [] && trace[0].Emitted? by { FirstSpeaks(c, replies); }
    var step := Build(i, STILL, script);
    var s1 := Next(c, s, step);
    assert Trace(s1.pcs[i].progress)[0].Emitted?;
    var rest := LoopSpeaks(c, s1, i);
    more := First(c, s, step, rest);
  }

  lemma FirstSpeaks(c: Campaign, replies: seq<BenchReply>)
    requires c.engines != [] && |replies| == 1
    ensures TraceOf(c, replies[..1]) != [] && TraceOf(c, replies[..1])[0].Emitted?
  {
    assert replies[..1] == replies && TraceOf(c, replies[..0]) == [];
  }

  /** In a campaign that is over or running, the table is final exactly when no delivery has an
      event left to emit. */
  lemma LogIsFinalIffSilent(c: Campaign, tenant: string, steps: seq<Step>)
    requires Legal(c, Start(tenant), steps) && !After(c, Start(tenant), steps).row.state.Pending?
    ensures var s := After(c, Start(tenant), steps);
            LogIsFinal(c, s) <==> !EventsLeft(c, s)
  {
    hide Legal, After, Start, Claims, CancelInv, RowTells, FollowInv, LogInv, EmitsAgain;
    ReachableInv(c, tenant, steps);
    var s := After(c, Start(tenant), steps);
    if EventsLeft(c, s) {
      var i :| 0 <= i < |s.pcs| && MayEmit(c, s.pcs[i]);
      var more: seq<Step>;
      if s.pcs[i].Building? {
        more := BuildSpeaks(c, s, i);
      } else {
        LoopsAreInLoop(c, s, i);
        more := LoopSpeaks(c, s, i);
      }
      assert Legal(c, s, more) && After(c, s, more).log != s.log;
    } else {
      forall more | Legal(c, s, more) ensures After(c, s, more).log == s.log {
        SilenceStays(c, s, more);
      }
    }
  }

  // ----- stopping on a short page

  /** In this run follower `j` stopped on a short page, having been told `st`. */
  ghost predicate StopsShort(c: Campaign, tenant: string, steps: seq<Step>, j: nat, st: RowState) {
    && Legal(c, Start(tenant), steps)
    && var s := After(c, Start(tenant), steps);
       && j < |s.followers| && s.followers[j].phase.Stopped? && s.followers[j].phase.short
       && s.followers[j].phase.poll.state == st
  }

  /** Whenever a follower stops on a short page having been told `st`, it has seen everything. */
  ghost predicate ShortStopIsFinal(c: Campaign, st: RowState) {
    forall tenant, steps, j: nat :: StopsShort(c, tenant, steps, j, st) ==>
      After(c, Start(tenant), steps).followers[j].rendered == After(c, Start(tenant), steps).log
  }

  /** From any state with a follower that has caught up within a page, and a loop with an event to
      emit: if the campaign is cancelled now, the follower stops short and the event comes after. */
  lemma CancelledFollowerMissesAnEvent(c: Campaign, s: Sys, i: nat, j: nat) returns (steps: seq<Step>)
    requires At(s, i, true) && s.row.state.Running? && GapFree(s.log)
    requires j < |s.followers| && s.followers[j].phase.Idle? && Follows(s.followers[j], s)
    requires |s.log| - s.followers[j].cursor < 200
    ensures Legal(c, s, steps)
    ensures var t := After(c, s, steps);
            && |t.followers| == |s.followers|
            && t.row.state.Cancelled? && t.followers[j].phase.Stopped? && t.followers[j].phase.short
            && t.followers[j].phase.poll.state.Cancelled?
            && t.followers[j].rendered == s.log && |t.log| == |s.log| + 1 && t.kept == s.kept + [true]
  {
    hide Legal, After, EventsAfter, Quiet, Run, Follows, AppendTo;
    var f := s.followers[j];
    Nothing(c, s);
    steps := [];
    steps := Take(c, s, steps, Step.Cancel(s.row.tenant, NoFault));
    steps := Take(c, s, steps, ReadRow(j));
    var asked := After(c, s, steps).followers[j];
    steps := Take(c, s, steps, ReadPage(j));
    CaughtUp(f, asked, s);
    steps := Take(c, s, steps, Append(i, NoFault));
    AppendKeepsNumbering(s.log, NextAction(s, i).event);
  }

  lemma CaughtUp(f: Follower, asked: Follower, s: Sys)
    requires GapFree(s.log) && Follows(f, s) && |s.log| - f.cursor < 200
    requires asked.phase.Asked? && asked.phase.poll.state.Cancelled? && asked == f.(phase := asked.phase)
    ensures AfterPage(asked, s.log).rendered == s.log && AfterPage(asked, s.log).phase == Stopped(asked.phase.poll, true)
  {
    hide AfterPage, PollHolds;
    OnePage(0, asked, s.log);
    assert s.log[0..|s.log|] == s.log;
  }

  /** Every campaign that an agent can be built for has such a run, with no append lost. */
  lemma StoppedIsNotComplete(c: Campaign, tenant: string) returns (steps: seq<Step>)
    requires c.Valid()
    ensures StopsShort(c, tenant, steps, 0, RowState.Cancelled)
    ensures var t := After(c, Start(tenant), steps);
            t.kept == [true] && t.followers[0].rendered == [] && |t.log| == 1
  {
    hide Legal, After, Run, EventsAfter, Quiet, AppendTo, Follows, TraceOf;
    var s := Start(tenant);
    var replies := [BenchReply(Result("", 0.0, 0.0, 0.0, 0, 0.0, 0.0), Some("failed"))];
    AllFail(c, replies);
    FirstSpeaks(c, replies);
    Nothing(c, s);
    steps := [];
    steps := Take(c, s, steps, Deliver);
    steps := Take(c, s, steps, Load(0, true));
    steps := Take(c, s, steps, Claim(0, NoFault));
    steps := Take(c, s, steps, Build(0, STILL, Turns(c, replies)));
    steps := Take(c, s, steps, Attach);
    var ready := After(c, s, steps);
    assert Follows(ready.followers[0], ready) by { AttachFollows(ready); }
    var more := CancelledFollowerMissesAnEvent(c, ready, 0, 0);
    steps := Joined(c, s, steps, more);
  }

  /** Stopping on a short page means having seen everything exactly when the campaign was not
      cancelled - or is one that no agent can be built for, which records nothing at all. */
  lemma ShortStopIsFinalIff(c: Campaign, st: RowState)
    requires st.Completed? || st.Failed? || st.Cancelled?
    ensures ShortStopIsFinal(c, st) <==> !(st.Cancelled? && c.Valid())
  {
    hide Legal, After, Start;
    if st.Cancelled? && c.Valid() {
      var steps := StoppedIsNotComplete(c, "");
      assert StopsShort(c, "", steps, 0, st);
    } else {
      forall tenant, steps, j: nat | StopsShort(c, tenant, steps, j, st)
        ensures After(c, Start(tenant), steps).followers[j].rendered == After(c, Start(tenant), steps).log
      {
        if st.Cancelled? {
          LogIsTheRunsStream(c, tenant, steps);
          FollowerRendersPrefix(c, tenant, steps, j);
        } else {
          StoppedFollowerSawEverything(c, tenant, steps, j);
        }
      }
    }
  }

  lemma {:induction false} StoppedStopped(c: Campaign, s: Sys, j: nat, more: seq<Step>)
    requires Legal(c, s, more) && j < |s.followers| && s.followers[j].phase.Stopped?
    ensures j < |After(c, s, more).followers| && After(c, s, more).followers[j] == s.followers[j]
    decreases |more|
  {
    if more != [] {
      StoppedStep(c, s, j, more[0]);
      hide Next, Enabled;
      StoppedStopped(c, Next(c, s, more[0]), j, more[1..]);
    }
  }

  lemma StoppedStep(c: Campaign, s: Sys, j: nat, step: Step)
    requires Enabled(c, s, step) && j < |s.followers| && s.followers[j].phase.Stopped?
    ensures j < |Next(c, s, step).followers| && Next(c, s, step).followers[j] == s.followers[j]
  {
    hide Run, EventsAfter, Quiet, AppendTo;
  }

  /** Follower `j` has the whole picture now and in every continuation. */
  ghost predicate SeesAllForever(c: Campaign, s: Sys, j: nat)
    requires j < |s.followers|
  {
    forall more :: Legal(c, s, more) ==>
      j < |After(c, s, more).followers| && After(c, s, more).followers[j].rendered == After(c, s, more).log
  }

  /** In the cancelled case too: a follower that stopped with the whole picture keeps it, whatever
      happens, exactly when no delivery has an event left to emit. */
  lemma PictureStaysWholeIff(c: Campaign, tenant: string, steps: seq<Step>, j: nat)
    requires Legal(c, Start(tenant), steps) && j < |After(c, Start(tenant), steps).followers|
    requires var s := After(c, Start(tenant), steps);
             s.followers[j].phase.Stopped? && s.followers[j].rendered == s.log
    ensures var s := After(c, Start(tenant), steps);
            SeesAllForever(c, s, j) <==> !EventsLeft(c, s)
  {
    hide Legal, After, Start, EventsLeft;
    var s := After(c, Start(tenant), steps);
    StoppedMeansOver(c, tenant, steps, j);
    LogIsFinalIffSilent(c, tenant, steps);
    forall more | Legal(c, s, more)
      ensures j < |After(c, s, more).followers| && After(c, s, more).followers[j] == s.followers[j]
    {
      StoppedStopped(c, s, j, more);
    }
  }

  lemma StoppedMeansOver(c: Campaign, tenant: string, steps: seq<Step>, j: nat)
    requires Legal(c, Start(tenant), steps) && j < |After(c, Start(tenant), steps).followers|
    requires After(c, Start(tenant), steps).followers[j].phase.Stopped?
    ensures !After(c, Start(tenant), steps).row.state.Pending? && !After(c, Start(tenant), steps).row.state.Running?
  {
    hide Legal, After, Start, Claims, CancelInv, RowTells, LogInv, Quiet;
    ReachableInv(c, tenant, steps);
    var s := After(c, Start(tenant), steps);
    assert Follows(s.followers[j], s);
  }
}
