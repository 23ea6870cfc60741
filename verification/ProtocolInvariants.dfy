/** What every step of the campaign protocol keeps. */
module ProtocolInvariants {
  import opened Domain
  import opened AgentSpec
  import opened AgentInvariants
  import opened FeedSpec
  import opened Store
  import opened Protocol

  // ----- one delivery at most holds, or has ever held, the loop

  ghost predicate Involved(pc: Pc) {
    pc.Active() || pc.EnteredLoop()
  }

  ghost predicate Exclusive(pcs: seq<Pc>) {
    forall i, j :: 0 <= i < |pcs| && 0 <= j < |pcs| && Involved(pcs[i]) && Involved(pcs[j]) ==> i == j
  }

  ghost predicate NobodyInvolved(pcs: seq<Pc>) {
    forall i :: 0 <= i < |pcs| ==> !Involved(pcs[i])
  }

  ghost predicate NobodyActive(pcs: seq<Pc>) {
    forall i :: 0 <= i < |pcs| ==> !pcs[i].Active()
  }

  /** The row state and the program counters agree; this is what the SQL alone does not say. */
  ghost predicate Claims(s: Sys) {
    && Exclusive(s.pcs)
    && (s.row.state.Pending? ==> NobodyInvolved(s.pcs))
    && (s.row.state.Completed? || s.row.state.Failed? ==> NobodyActive(s.pcs))
  }

  lemma PcUpdate(pcs: seq<Pc>, i: nat, pc: Pc)
    requires Exclusive(pcs) && i < |pcs|
    requires Involved(pc) ==> Involved(pcs[i]) || NobodyInvolved(pcs)
    ensures Exclusive(pcs[i := pc])
    ensures NobodyInvolved(pcs) && (Involved(pc) ==> Involved(pcs[i])) ==> NobodyInvolved(pcs[i := pc])
    ensures NobodyActive(pcs) && !pc.Active() ==> NobodyActive(pcs[i := pc])
  {
  }

  lemma LastActive(pcs: seq<Pc>, i: nat, pc: Pc)
    requires Exclusive(pcs) && i < |pcs| && pcs[i].Active() && !pc.Active()
    ensures NobodyActive(pcs[i := pc])
  {
    assert Involved(pcs[i]);
    assert forall j :: 0 <= j < |pcs| && j != i ==> !Involved(pcs[j]);
  }

  /** What the holder of the claim does. */
  lemma HolderKeepsClaims(c: Campaign, s: Sys, step: Step)
    requires Claims(s) && Enabled(c, s, step)
    requires step.Build? || step.Append? || step.Check? || step.Reject? || step.Save? || step.Return? || step.Finish?
    ensures Claims(Next(c, s, step))
  {
    hide Exclusive, NobodyInvolved, NobodyActive, Run, AppendTo, EventsAfter, Quiet;
    ActiveStep(s, step.i, Next(c, s, step).pcs[step.i]);
  }

  lemma ClaimsKept(c: Campaign, s: Sys, step: Step)
    requires Claims(s) && Enabled(c, s, step)
    ensures Claims(Next(c, s, step))
  {
    hide Exclusive, NobodyInvolved, NobodyActive, Run, AppendTo, EventsAfter, Quiet;
    if step.Deliver? {
      DeliverKeepsClaims(s.pcs);
    } else if step.Load? || step.Claim? || step.Crash? {
      PcUpdate(s.pcs, step.i, Next(c, s, step).pcs[step.i]);
    } else if step.Build? || step.Append? || step.Check? || step.Reject? || step.Save? || step.Return? || step.Finish? {
      HolderKeepsClaims(c, s, step);
    }
  }

  lemma DeliverKeepsClaims(pcs: seq<Pc>)
    requires Exclusive(pcs)
    ensures Exclusive(pcs + [Loading])
    ensures NobodyInvolved(pcs) ==> NobodyInvolved(pcs + [Loading])
    ensures NobodyActive(pcs) ==> NobodyActive(pcs + [Loading])
  {
  }

  lemma ActiveStep(s: Sys, i: nat, pc: Pc)
    requires Claims(s) && i < |s.pcs| && s.pcs[i].Active()
    ensures !s.row.state.Pending? && !s.row.state.Completed? && !s.row.state.Failed?
    ensures Exclusive(s.pcs[i := pc])
    ensures !pc.Active() ==> NobodyActive(s.pcs[i := pc])
  {
    assert Involved(s.pcs[i]);
    PcUpdate(s.pcs, i, pc);
    if !pc.Active() {
      LastActive(s.pcs, i, pc);
    }
  }

  // ----- the row only moves forward

  /** The edges a row's state may follow in one step. */
  predicate Edge(a: RowState, b: RowState) {
    || a == b
    || (a.Pending? && (b.Running? || b.Cancelled?))
    || (a.Running? && (b.Completed? || b.Failed? || b.Cancelled?))
  }

  /** A step follows an edge; in particular it never leaves a terminal state. */
  lemma StepFollowsEdge(c: Campaign, s: Sys, step: Step)
    requires Claims(s) && Enabled(c, s, step)
    ensures Edge(s.row.state, Next(c, s, step).row.state)
  {
    hide Exclusive, NobodyInvolved, Run, AppendTo, EventsAfter, Quiet;
    if step.Finish? {
      ActiveStep(s, step.i, s.pcs[step.i]);
    }
  }

  // ----- the log and the jobs follow the run of the one delivery that entered the loop

  ghost predicate RunsTo(c: Campaign, clock: Clock, script: seq<PlannerReply>, o: Outcome) {
    Monotone(clock) && o == Run(c, clock, script)
  }

  /** Some planner, platform and clock make the agent behave so. */
  ghost predicate IsRun(c: Campaign, o: Outcome) {
    exists clock: Clock, script :: RunsTo(c, clock, script, o)
  }

  function Done(p: Progress): seq<Action>
    requires p.pos <= |Trace(p)|
  {
    Trace(p)[..p.pos]
  }

  ghost predicate PcTracked(pc: Pc, history: Option<Progress>) {
    && (pc.EnteredLoop() ==> history == pc.LoopProgress())
    && (pc.Finishing? && pc.final.Some? ==> pc.final.value.pos == |Trace(pc.final.value)|)
    && (pc.Looping? && pc.checked ==>
          pc.progress.pos < |Trace(pc.progress)| && Trace(pc.progress)[pc.progress.pos].Benchmarked?)
  }

  ghost predicate Tracked(pcs: seq<Pc>, history: Option<Progress>) {
    forall i :: 0 <= i < |pcs| ==> PcTracked(pcs[i], history)
  }

  /** There is a history exactly when some delivery has entered the loop. */
  ghost predicate FreshHistory(pcs: seq<Pc>, history: Option<Progress>) {
    history.None? <==> forall i :: 0 <= i < |pcs| ==> !pcs[i].EnteredLoop()
  }

  /** The table is the numbered stream of the run without the events whose append was lost. */
  ghost predicate Recorded(c: Campaign, log: seq<Logged>, kept: seq<bool>, jobs: nat, history: Option<Progress>) {
    match history
    case None => log == [] && kept == [] && jobs == 0
    case Some(p) =>
      && c.Valid() && IsRun(c, p.run) && p.pos <= |Trace(p)|
      && |kept| == |EventsOf(Done(p))|
      && log == Numbered(Kept(EventsOf(Done(p)), kept))
      && jobs <= |Submissions(Done(p))|
  }

  ghost predicate LogInv(c: Campaign, s: Sys) {
    && Tracked(s.pcs, s.history) && FreshHistory(s.pcs, s.history) && GapFree(s.log)
    && Recorded(c, s.log, s.kept, s.jobs, s.history)
  }

  lemma DoneAdvances(p: Progress)
    requires p.pos < |Trace(p)|
    ensures Done(p.(pos := p.pos + 1)) == Done(p) + [Trace(p)[p.pos]]
  {
  }

  lemma NumberedAppend(events: seq<Event>, e: Event)
    ensures |Numbered(events)| == |events|
    ensures Numbered(events + [e]) == Numbered(events) + [Logged(|events| + 1, e)]
  {
  }

  lemma KeptAppend(events: seq<Event>, kept: seq<bool>, e: Event, applies: bool)
    requires |kept| == |events|
    ensures Kept(events + [e], kept + [applies]) == if applies then Kept(events, kept) + [e] else Kept(events, kept)
  {
    assert (events + [e])[..|events|] == events && (kept + [applies])[..|kept|] == kept;
  }

  lemma AppendRecorded(c: Campaign, s: Sys, i: nat, fault: Fault)
    requires LogInv(c, s) && Enabled(c, s, Append(i, fault))
    ensures var s1 := Next(c, s, Append(i, fault));
            GapFree(s1.log) && Recorded(c, s1.log, s1.kept, s1.jobs, s1.history)
  {
    hide IsRun, EventsOf, Submissions, AppendTo, GapFree, Numbered, Kept;
    var p := s.pcs[i].progress;
    assert PcTracked(s.pcs[i], s.history);
    var a := NextAction(s, i);
    DoneAdvances(p);
    EventsOfAppend(Done(p), a);
    SubmissionsAppend(Done(p), a);
    KeptAppend(EventsOf(Done(p)), s.kept, a.event, fault.Applies());
    NumberedAppend(Kept(EventsOf(Done(p)), s.kept), a.event);
    AppendKeepsNumbering(s.log, a.event);
  }

  /** A benchmark adds no event and at most one job. */
  lemma BenchmarkCounts(c: Campaign, log: seq<Logged>, kept: seq<bool>, jobs: nat, p: Progress, more: nat)
    requires Recorded(c, log, kept, jobs, Some(p)) && more <= 1
    requires p.pos < |Trace(p)| && Trace(p)[p.pos].Benchmarked?
    ensures Recorded(c, log, kept, jobs, Some(p))
    ensures Recorded(c, log, kept, jobs + more, Some(p.(pos := p.pos + 1)))
  {
    hide IsRun, EventsOf, Submissions, Numbered, Kept;
    DoneAdvances(p);
    EventsOfAppend(Done(p), Trace(p)[p.pos]);
    SubmissionsAppend(Done(p), Trace(p)[p.pos]);
  }

  lemma BenchRecorded(c: Campaign, s: Sys, step: Step)
    requires LogInv(c, s) && Enabled(c, s, step) && (step.Check? || step.Reject? || step.Save?)
    ensures var s1 := Next(c, s, step);
            Recorded(c, s1.log, s1.kept, s1.jobs, s1.history)
  {
    hide Recorded, GapFree, Run, EventsAfter, Quiet;
    var p := s.pcs[step.i].progress;
    assert PcTracked(s.pcs[step.i], s.history);
    BenchmarkCounts(c, s.log, s.kept, s.jobs, p, if step.Save? && step.fault.Applies() then 1 else 0);
    BenchmarkCounts(c, s.log, s.kept, s.jobs, p, 0);
  }

  lemma BuildRecorded(c: Campaign, s: Sys, i: nat, clock: Clock, script: seq<PlannerReply>)
    requires Claims(s) && LogInv(c, s) && Enabled(c, s, Build(i, clock, script))
    requires s.history.None?
    ensures var s1 := Next(c, s, Build(i, clock, script));
            Recorded(c, s1.log, s1.kept, s1.jobs, s1.history)
  {
    hide Run;
    if c.Valid() {
      assert RunsTo(c, clock, script, Run(c, clock, script));
      assert Numbered([]) == [];
    }
  }

  /** A step of an involved delivery may overwrite the history: nobody else has progress. */
  lemma TrackedUpdate(s: Sys, i: nat, pc: Pc)
    requires Exclusive(s.pcs) && Tracked(s.pcs, s.history) && FreshHistory(s.pcs, s.history)
    requires i < |s.pcs| && PcTracked(pc, SetPc(s, i, pc).history)
    requires pc.EnteredLoop() ==> Involved(s.pcs[i])
    requires s.pcs[i].EnteredLoop() ==> pc.EnteredLoop()
    ensures Tracked(s.pcs[i := pc], SetPc(s, i, pc).history)
    ensures FreshHistory(s.pcs[i := pc], SetPc(s, i, pc).history)
  {
    hide Involved;
    var pcs := s.pcs[i := pc];
    var history := SetPc(s, i, pc).history;
    forall j | 0 <= j < |pcs| ensures PcTracked(pcs[j], history) {
      if j != i {
        assert PcTracked(s.pcs[j], s.history);
        if pc.EnteredLoop() {
          assert !s.pcs[j].EnteredLoop() by { OthersNotInvolved(s.pcs, i, j); }
        }
      }
    }
    assert pcs[i] == pc;
    if !pc.EnteredLoop() {
      assert forall j :: 0 <= j < |pcs| && j != i ==> pcs[j] == s.pcs[j];
    }
  }

  lemma OthersNotInvolved(pcs: seq<Pc>, i: nat, j: nat)
    requires Exclusive(pcs) && i < |pcs| && j < |pcs| && i != j && Involved(pcs[i])
    ensures !Involved(pcs[j]) && !pcs[j].EnteredLoop()
  {
  }

  /** No loop is entered before the build, so there is no history yet. */
  lemma BuildFindsNoHistory(s: Sys, i: nat)
    requires Claims(s) && FreshHistory(s.pcs, s.history) && i < |s.pcs| && s.pcs[i].Building?
    ensures s.history.None?
  {
    forall j | 0 <= j < |s.pcs| ensures !s.pcs[j].EnteredLoop() {
      if j != i {
        OthersNotInvolved(s.pcs, i, j);
      }
    }
  }

  lemma LoopStepLogKept(c: Campaign, s: Sys, step: Step)
    requires Claims(s) && LogInv(c, s) && Enabled(c, s, step)
    requires step.Append? || step.Check? || step.Reject? || step.Save?
    ensures LogInv(c, Next(c, s, step))
  {
    hide Exclusive, NobodyInvolved, NobodyActive, AppendTo, Recorded, GapFree, FreshHistory;
    if step.Append? {
      AppendRecorded(c, s, step.i, step.fault);
    } else {
      BenchRecorded(c, s, step);
    }
    TrackedUpdate(s, step.i, Next(c, s, step).pcs[step.i]);
  }

  lemma LogKept(c: Campaign, s: Sys, step: Step)
    requires Claims(s) && LogInv(c, s) && Enabled(c, s, step)
    ensures LogInv(c, Next(c, s, step))
  {
    hide Exclusive, NobodyInvolved, NobodyActive, Run, EventsAfter, Quiet, Recorded, GapFree, FreshHistory;
    if step.Append? || step.Check? || step.Reject? || step.Save? {
      LoopStepLogKept(c, s, step);
    } else if step.Deliver? {
      DeliverTracked(s.pcs, s.history);
    } else if step.Build? {
      BuildFindsNoHistory(s, step.i);
      BuildRecorded(c, s, step.i, step.clock, step.script);
      TrackedUpdate(s, step.i, Next(c, s, step).pcs[step.i]);
    } else if step.Load? || step.Claim? || step.Return? || step.Finish? || step.Crash? {
      assert PcTracked(s.pcs[step.i], s.history);
      TrackedUpdate(s, step.i, Next(c, s, step).pcs[step.i]);
    }
  }

  lemma DeliverTracked(pcs: seq<Pc>, history: Option<Progress>)
    requires Tracked(pcs, history) && FreshHistory(pcs, history)
    ensures Tracked(pcs + [Loading], history) && FreshHistory(pcs + [Loading], history)
  {
    var all := pcs + [Loading];
    assert forall i :: 0 <= i < |pcs| ==> all[i] == pcs[i];
  }

  // ----- jobs saved after a cancellation

  predicate HasChecked(pc: Pc) {
    pc.Looping? && pc.checked
  }

  ghost function CheckedNow(pcs: seq<Pc>): nat {
    if exists i :: 0 <= i < |pcs| && HasChecked(pcs[i]) then 1 else 0
  }

  /** One benchmark may already have passed its check; each further job needs a failed read. */
  ghost predicate CancelInv(s: Sys) {
    && (!s.row.state.Cancelled? ==> s.cancelledJobs == 0 && s.blindChecks == 0)
    && s.cancelledJobs + CheckedNow(s.pcs) <= 1 + s.blindChecks
  }

  lemma CheckedUpdate(pcs: seq<Pc>, i: nat, pc: Pc)
    requires Exclusive(pcs) && i < |pcs|
    ensures Involved(pcs[i]) ==> CheckedNow(pcs) == if HasChecked(pcs[i]) then 1 else 0
    ensures Involved(pcs[i]) ==> CheckedNow(pcs[i := pc]) == if HasChecked(pc) then 1 else 0
    ensures !HasChecked(pc) ==> CheckedNow(pcs[i := pc]) <= CheckedNow(pcs)
  {
    var all := pcs[i := pc];
    assert all[i] == pc;
    if Involved(pcs[i]) {
      forall j | 0 <= j < |pcs| && j != i ensures !HasChecked(pcs[j]) && all[j] == pcs[j] {
        OthersNotInvolved(pcs, i, j);
      }
    }
    forall j | 0 <= j < |pcs| && j != i ensures all[j] == pcs[j] {
    }
  }

  lemma CancelKept(c: Campaign, s: Sys, step: Step)
    requires Claims(s) && CancelInv(s) && Enabled(c, s, step)
    ensures CancelInv(Next(c, s, step))
  {
    hide Exclusive, NobodyInvolved, NobodyActive, Run, EventsAfter, AppendTo, Quiet, CheckedNow;
    if step.Deliver? {
      assert CheckedNow(s.pcs + [Loading]) <= CheckedNow(s.pcs) by {
        DeliverChecked(s.pcs);
      }
    } else if step.Cancel? || step.Attach? || step.ReadRow? || step.ReadPage? || step.PollFails? {
    } else {
      CheckedUpdate(s.pcs, step.i, Next(c, s, step).pcs[step.i]);
      if step.Finish? {
        ActiveStep(s, step.i, s.pcs[step.i]);
      }
    }
  }

  lemma DeliverChecked(pcs: seq<Pc>)
    ensures CheckedNow(pcs + [Loading]) <= CheckedNow(pcs)
  {
    var all := pcs + [Loading];
    assert forall i :: 0 <= i < |all| && HasChecked(all[i]) ==> i < |pcs| && all[i] == pcs[i];
  }

  // ----- what a finished row says

  /** A completed row holds the report of the one run that finished; a failed one, its error. */
  ghost predicate RowTells(s: Sys) {
    && (s.row.state.Completed? ==>
          && s.history.Some? && s.history.value.pos == |Trace(s.history.value)|
          && (s.history.value.run.err.None? || s.history.value.run.err == Some(LoopCancelled))
          && s.row.recommendation == s.history.value.run.state.recommendation
          && s.row.trials == Some(s.history.value.run.state.trials)
          && s.row.usage == Some(s.history.value.run.state.usage))
    && (s.row.state.Failed? ==>
          && s.row.errorMsg.Some?
          && (s.history.Some? ==>
                && s.history.value.run.err.Some?
                && s.row.trials == Some(s.history.value.run.state.trials)))
  }

  lemma RowTellsKept(c: Campaign, s: Sys, step: Step)
    requires Claims(s) && LogInv(c, s) && RowTells(s) && Enabled(c, s, step)
    ensures RowTells(Next(c, s, step))
  {
    hide Exclusive, NobodyInvolved, Run, EventsAfter, AppendTo, Quiet, FreshHistory, GapFree, Recorded;
    if step.Finish? {
      var i := step.i;
      assert PcTracked(s.pcs[i], s.history);
      ActiveStep(s, i, s.pcs[i]);
      if s.pcs[i].final.None? {
        BuildFailedHasNoHistory(s, i);
      }
    } else if step.Crash? {
      assert PcTracked(s.pcs[step.i], s.history);
    } else if step.Build? || step.Append? || step.Check? || step.Reject? || step.Save? || step.Return? {
      ActiveStep(s, step.i, s.pcs[step.i]);
    }
  }

  lemma BuildFailedHasNoHistory(s: Sys, i: nat)
    requires Claims(s) && FreshHistory(s.pcs, s.history)
    requires i < |s.pcs| && s.pcs[i] == Finishing(None)
    ensures s.history.None?
  {
    forall j | 0 <= j < |s.pcs| ensures !s.pcs[j].EnteredLoop() {
      if j != i {
        OthersNotInvolved(s.pcs, i, j);
      }
    }
  }

  // ----- followers

  /** What a follower has rendered is the log up to its cursor; once it has asked about a
      campaign that was over and quiet, the log is final, and a short last page reaches its end. */
  ghost predicate Follows(f: Follower, s: Sys) {
    && f.cursor <= |s.log| && f.rendered == s.log[..f.cursor]
    && (match f.phase
        case Idle => true
        case Asked(poll) => PollHolds(poll, s)
        case Stopped(poll, short) =>
          poll.state.Terminal() && PollHolds(poll, s) && (short && poll.quiet ==> f.cursor == |s.log|))
  }

  /** A terminal state once read is still the state; completed or failed means quiet. */
  ghost predicate PollHolds(poll: Poll, s: Sys) {
    && (poll.state.Terminal() ==> s.row.state == poll.state)
    && (poll.quiet ==> Quiet(s))
    && (poll.state.Completed? || poll.state.Failed? ==> poll.quiet)
  }

  ghost predicate FollowInv(s: Sys) {
    forall j :: 0 <= j < |s.followers| ==> Follows(s.followers[j], s)
  }

  lemma QuietStays(c: Campaign, s: Sys, step: Step)
    requires Claims(s) && Enabled(c, s, step) && Quiet(s)
    ensures Quiet(Next(c, s, step)) && Next(c, s, step).log == s.log
  {
    hide Exclusive, NobodyInvolved, NobodyActive, Run, EventsAfter, AppendTo;
    var s1 := Next(c, s, step);
    forall i | 0 <= i < |s1.pcs| ensures !s1.pcs[i].Active() {
      if i < |s.pcs| {
        assert !s.pcs[i].Active();
      }
    }
  }

  lemma LogGrows(c: Campaign, s: Sys, step: Step)
    requires Enabled(c, s, step)
    ensures s.log <= Next(c, s, step).log
  {
    hide MaxSeq, Run, EventsAfter, Quiet;
  }

  /** A follower that takes no part in a step stays right. */
  lemma BystanderFollows(c: Campaign, s: Sys, step: Step, f: Follower)
    requires Claims(s) && Enabled(c, s, step) && Follows(f, s)
    ensures Follows(f, Next(c, s, step))
  {
    hide Claims, Next, Enabled, Quiet;
    var s1 := Next(c, s, step);
    LogGrows(c, s, step);
    assert s1.log[..f.cursor] == s.log[..f.cursor];
    StepFollowsEdge(c, s, step);
    if Quiet(s) {
      QuietStays(c, s, step);
    }
  }

  lemma PageFollows(s: Sys, f: Follower)
    requires GapFree(s.log) && Follows(f, s) && f.phase.Asked?
    ensures Follows(AfterPage(f, s.log), s)
  {
    hide AfterPage, PollHolds;
    OnePage(0, f, s.log);
  }

  lemma FollowKept(c: Campaign, s: Sys, step: Step)
    requires Claims(s) && GapFree(s.log) && FollowInv(s) && Enabled(c, s, step)
    ensures FollowInv(Next(c, s, step))
  {
    hide Exclusive, NobodyInvolved, Run, EventsAfter, AppendTo, GapFree, Follows, AfterPage;
    var s1 := Next(c, s, step);
    forall k | 0 <= k < |s1.followers| ensures Follows(s1.followers[k], s1) {
      if k == |s.followers| {
        AttachFollows(s1);
      } else if (step.ReadRow? || step.ReadPage? || step.PollFails?) && k == step.j {
        AskerFollows(c, s, step);
      } else {
        assert Follows(s.followers[k], s);
        BystanderFollows(c, s, step, s.followers[k]);
      }
    }
  }

  lemma AttachFollows(s: Sys)
    ensures Follows(Follower(0, [], Idle), s)
  {
  }

  lemma AskerFollows(c: Campaign, s: Sys, step: Step)
    requires Claims(s) && GapFree(s.log) && FollowInv(s) && Enabled(c, s, step)
    requires step.ReadRow? || step.ReadPage? || step.PollFails?
    ensures Follows(Next(c, s, step).followers[step.j], Next(c, s, step))
  {
    hide Exclusive, NobodyInvolved, Run, EventsAfter, AppendTo, GapFree, AfterPage;
    var f := s.followers[step.j];
    assert Follows(f, s);
    if step.ReadPage? {
      PageFollows(s, f);
    }
  }

  // ----- all of it, over any run

  ghost predicate SysInv(c: Campaign, s: Sys) {
    Claims(s) && LogInv(c, s) && CancelInv(s) && RowTells(s) && FollowInv(s)
  }

  lemma StartInv(c: Campaign, tenant: string)
    ensures SysInv(c, Start(tenant))
  {
  }

  lemma StepKeeps(c: Campaign, s: Sys, step: Step)
    requires SysInv(c, s) && Enabled(c, s, step)
    ensures SysInv(c, Next(c, s, step))
  {
    hide Claims, CancelInv, RowTells, FollowInv, Next, Enabled, Tracked, FreshHistory, Recorded;
    ClaimsKept(c, s, step);
    LogKept(c, s, step);
    CancelKept(c, s, step);
    RowTellsKept(c, s, step);
    FollowKept(c, s, step);
  }

  lemma {:induction false} RunKeepsInv(c: Campaign, s: Sys, steps: seq<Step>)
    requires SysInv(c, s) && Legal(c, s, steps)
    ensures SysInv(c, After(c, s, steps))
    decreases |steps|
  {
    hide SysInv, Next, Enabled;
    if steps != [] {
      StepKeeps(c, s, steps[0]);
      RunKeepsInv(c, Next(c, s, steps[0]), steps[1..]);
    }
  }
}
