/**
 One campaign's whole life as a transition system: any number of queue deliveries, each with
 its own program counter, cancellations, crashes, followers, and store calls that fail before
 or after they take effect. Each step is one atomic store statement or one local action.
 */
module Protocol {
  import opened Domain
  import opened AgentSpec
  import opened AgentInvariants
  import opened FeedSpec
  import opened Store

  /** How far the agent loop of a delivery has got through the actions of its run. */
  datatype Progress = Progress(run: Outcome, pos: nat)

  datatype Pc =
    | Loading
    | Claiming
    | Building
    | Looping(progress: Progress, checked: bool)  // checked: a benchmark has passed its cancellation check
    | Finishing(final: Option<Progress>)          // None: no agent could be built
    | Ended(last: Option<Progress>)
  {
    function LoopProgress(): Option<Progress> {
      match this
      case Looping(p, _) => Some(p)
      case Finishing(p) => p
      case Ended(p) => p
      case _ => None
    }

    predicate EnteredLoop() {
      LoopProgress().Some?
    }

    /** The delivery holds the claim and has not finished. */
    predicate Active() {
      Building? || Looping? || Finishing?
    }
  }

  /** What the server said the state was when the poll began, and whether by then the campaign
      was over with nobody left to write to it. */
  datatype Poll = Poll(state: RowState, quiet: bool)

  datatype Phase =
    | Idle
    | Asked(poll: Poll)
    | Stopped(poll: Poll, short: bool)  // short: the last page was below the page limit

  datatype Follower = Follower(cursor: nat, rendered: seq<Logged>, phase: Phase)

  /** `history`, `kept`, `cancelledJobs` and `blindChecks` only record; no step looks at them. */
  datatype Sys = Sys(
    row: Row,
    log: seq<Logged>,
    jobs: nat,
    pcs: seq<Pc>,
    followers: seq<Follower>,
    history: Option<Progress>,  // of the delivery that last made progress in its loop
    kept: seq<bool>,            // of every event emitted so far, whether its append took effect
    cancelledJobs: nat,         // jobs saved after the row was cancelled
    blindChecks: nat)           // cancellation checks passed after that because the read failed

  datatype Step =
    | Deliver
    | Load(i: nat, ok: bool)
    | Claim(i: nat, fault: Fault)
    | Build(i: nat, clock: Clock, script: seq<PlannerReply>)
    | Append(i: nat, fault: Fault)
    | Check(i: nat, readOk: bool)
    | Reject(i: nat)
    | Save(i: nat, fault: Fault)
    | Return(i: nat)
    | Finish(i: nat, msg: string, fault: Fault)
    | Crash(i: nat)
    | Cancel(tenant: string, fault: Fault)
    | Attach
    | ReadRow(j: nat)
    | ReadPage(j: nat)
    | PollFails(j: nat)

  /** The page size of a follower that asks for none in particular. */
  const PAGE: nat := 200

  /** The text of the error a cancelled campaign's benchmark ends with. */
  const CANCELLED_ERROR := "campaign cancelled"

  function Start(tenant: string): Sys {
    Sys(NewRow(tenant), [], 0, [], [], None, [], 0, 0)
  }

  function Trace(p: Progress): seq<Action> {
    p.run.state.trace
  }

  predicate At(s: Sys, i: nat, emitted: bool) {
    && i < |s.pcs| && s.pcs[i].Looping? && s.pcs[i].progress.pos < |Trace(s.pcs[i].progress)|
    && Trace(s.pcs[i].progress)[s.pcs[i].progress.pos].Emitted? == emitted
  }

  function NextAction(s: Sys, i: nat): Action
    requires i < |s.pcs| && s.pcs[i].Looping? && s.pcs[i].progress.pos < |Trace(s.pcs[i].progress)|
  {
    Trace(s.pcs[i].progress)[s.pcs[i].progress.pos]
  }

  /** The check stops the benchmark only when the read succeeds and says cancelled. */
  predicate Stops(s: Sys, readOk: bool) {
    readOk && s.row.state.Cancelled?
  }

  ghost predicate Enabled(c: Campaign, s: Sys, step: Step) {
    match step
    case Deliver => true
    case Load(i, _) => i < |s.pcs| && s.pcs[i].Loading?
    case Claim(i, _) => i < |s.pcs| && s.pcs[i].Claiming?
    case Build(i, clock, _) => i < |s.pcs| && s.pcs[i].Building? && Monotone(clock)
    case Append(i, _) => At(s, i, true)
    case Check(i, readOk) =>
      && At(s, i, false) && !s.pcs[i].checked
      && (Stops(s, readOk) ==> NextAction(s, i).submission.reply.err == Some(CANCELLED_ERROR))
    case Reject(i) => At(s, i, false) && s.pcs[i].checked && NextAction(s, i).submission.reply.err.Some?
    case Save(i, fault) =>
      && At(s, i, false) && s.pcs[i].checked
      && (!fault.NoFault? ==> NextAction(s, i).submission.reply.err.Some?)
    case Return(i) =>
      i < |s.pcs| && s.pcs[i].Looping? && s.pcs[i].progress.pos == |Trace(s.pcs[i].progress)|
    case Finish(i, _, _) => i < |s.pcs| && s.pcs[i].Finishing?
    case Crash(i) => i < |s.pcs|
    case Cancel(_, _) => true
    case Attach => true
    case ReadRow(j) => j < |s.followers| && s.followers[j].phase.Idle?
    case ReadPage(j) => j < |s.followers| && s.followers[j].phase.Asked?
    case PollFails(j) => j < |s.followers| && !s.followers[j].phase.Stopped?
  }

  function SetPc(s: Sys, i: nat, pc: Pc): Sys
    requires i < |s.pcs|
  {
    s.(pcs := s.pcs[i := pc], history := if pc.EnteredLoop() then pc.LoopProgress() else s.history)
  }

  function Advance(s: Sys, i: nat): Sys
    requires i < |s.pcs| && s.pcs[i].Looping?
  {
    var p := s.pcs[i].progress;
    SetPc(s, i, Looping(p.(pos := p.pos + 1), false))
  }

  /** What a finished delivery writes: a failure for an error, unless the error is the
      cancellation itself; the report otherwise. */
  function FinishedRow(row: Row, final: Option<Progress>, msg: string): Row {
    match final
    case None => FailRow(row, msg, None)
    case Some(p) =>
      if p.run.err.None? || p.run.err == Some(LoopCancelled) then CompleteRow(row, Some(p.run.state.Report()))
      else FailRow(row, msg, Some(p.run.state.Report()))
  }

  /** Terminal, and no delivery can write any more. */
  ghost predicate Quiet(s: Sys) {
    s.row.state.Terminal() && forall i :: 0 <= i < |s.pcs| ==> !s.pcs[i].Active()
  }

  ghost function Next(c: Campaign, s: Sys, step: Step): Sys
    requires Enabled(c, s, step)
  {
    match step
    case Deliver => s.(pcs := s.pcs + [Loading])
    case Load(i, ok) => SetPc(s, i, if ok then Claiming else Ended(None))
    case Claim(i, fault) =>
      var won := fault.NoFault? && s.row.state.Pending?;
      var s1 := s.(row := if fault.Applies() then MarkRunningRow(s.row) else s.row);
      SetPc(s1, i, if won then Building else Ended(None))
    case Build(i, clock, script) =>
      SetPc(s, i, if c.Valid() then Looping(Progress(Run(c, clock, script), 0), false) else Finishing(None))
    case Append(i, fault) =>
      var e := NextAction(s, i).event;
      var s1 := if fault.Applies() then s.(log := AppendTo(s.log, e)) else s;
      Advance(s1.(kept := s.kept + [fault.Applies()]), i)
    case Check(i, readOk) =>
      if Stops(s, readOk) then Advance(s, i)
      else
        var s1 := s.(blindChecks := s.blindChecks + if s.row.state.Cancelled? then 1 else 0);
        SetPc(s1, i, s.pcs[i].(checked := true))
    case Reject(i) => Advance(s, i)
    case Save(i, fault) =>
      var n := if fault.Applies() then 1 else 0;
      var late := if s.row.state.Cancelled? then n else 0;
      Advance(s.(jobs := s.jobs + n, cancelledJobs := s.cancelledJobs + late), i)
    case Return(i) => SetPc(s, i, Finishing(Some(s.pcs[i].progress)))
    case Finish(i, msg, fault) =>
      var s1 := if fault.Applies() then s.(row := FinishedRow(s.row, s.pcs[i].final, msg)) else s;
      SetPc(s1, i, Ended(s.pcs[i].final))
    case Crash(i) => SetPc(s, i, Ended(s.pcs[i].LoopProgress()))
    case Cancel(tenant, fault) => if fault.Applies() then s.(row := CancelRow(s.row, tenant)) else s
    case Attach => s.(followers := s.followers + [Follower(0, [], Idle)])
    case ReadRow(j) =>
      s.(followers := s.followers[j := s.followers[j].(phase := Asked(Poll(s.row.state, Quiet(s))))])
    case ReadPage(j) => s.(followers := s.followers[j := AfterPage(s.followers[j], s.log)])
    case PollFails(j) => s.(followers := s.followers[j := s.followers[j].(phase := Idle)])
  }

  /** One successful poll: render the page, move the cursor, stop when the state was terminal. */
  function AfterPage(f: Follower, log: seq<Logged>): Follower
    requires f.phase.Asked?
  {
    var page := EventsAfter(log, f.cursor, PAGE);
    Follower(if page == [] then f.cursor else page[|page| - 1].seqNo,
             f.rendered + page,
             if f.phase.poll.state.Terminal() then Stopped(f.phase.poll, |page| < PAGE) else Idle)
  }

  // ----- one page, as a follower reads it

  /** The cursor moves on by up to 200 events, and so does what is shown; a state that is neither
      pending nor running stops the follower. */
  lemma OnePage(start: nat, f: Follower, log: seq<Logged>)
    requires GapFree(log) && start <= f.cursor <= |log| && f.rendered == log[start..f.cursor] && f.phase.Asked?
    ensures var g := AfterPage(f, log);
            && g.cursor == Min(f.cursor + 200, |log|) && g.rendered == log[start..g.cursor]
            && g.phase == match f.phase.poll.state
               case Pending | Running => Idle
               case Completed | Failed | Cancelled => Stopped(f.phase.poll, |log| - f.cursor < 200)
  {
    hide EventsAfter;
    PageIsSlice(log, f.cursor, PAGE);
    var end := Min(f.cursor + PAGE, |log|);
    assert log[start..f.cursor] + log[f.cursor..end] == log[start..end];
    assert f.cursor < end ==> log[f.cursor..end][end - f.cursor - 1] == log[end - 1];
  }

  /** What a page leaves out depends on the page limit alone: it completes a follower's picture of
      the table, from where it started, exactly when no more than a page was missing. */
  lemma PageCompletesIff(start: nat, f: Follower, log: seq<Logged>)
    requires GapFree(log) && start <= f.cursor <= |log| && f.rendered == log[start..f.cursor] && f.phase.Asked?
    ensures AfterPage(f, log).rendered == log[start..] <==> |log| - f.cursor <= 200
  {
    hide AfterPage, GapFree;
    OnePage(start, f, log);
    var g := AfterPage(f, log);
    assert |log[start..]| == |log| - start && |log[start..g.cursor]| == g.cursor - start;
  }

  // ----- runs

  ghost predicate Legal(c: Campaign, s: Sys, steps: seq<Step>)
    decreases |steps|
  {
    steps == [] || (Enabled(c, s, steps[0]) && Legal(c, Next(c, s, steps[0]), steps[1..]))
  }

  ghost function After(c: Campaign, s: Sys, steps: seq<Step>): Sys
    requires Legal(c, s, steps)
    decreases |steps|
  {
    if steps == [] then s else After(c, Next(c, s, steps[0]), steps[1..])
  }

  lemma Nothing(c: Campaign, s: Sys)
    ensures Legal(c, s, []) && After(c, s, []) == s
  {
  }

  /** One more legal step at the end of a run. */
  lemma {:induction false} Extend(c: Campaign, s: Sys, steps: seq<Step>, step: Step)
    requires Legal(c, s, steps) && Enabled(c, After(c, s, steps), step)
    ensures Legal(c, s, steps + [step])
    ensures After(c, s, steps + [step]) == Next(c, After(c, s, steps), step)
    decreases |steps|
  {
    hide Enabled, Next;
    if steps == [] {
      assert steps + [step] == [step];
      assert [step][1..] == [];
    } else {
      assert (steps + [step])[1..] == steps[1..] + [step];
      Extend(c, Next(c, s, steps[0]), steps[1..], step);
    }
  }

  /** A step taken first. */
  lemma First(c: Campaign, s: Sys, step: Step, rest: seq<Step>) returns (steps: seq<Step>)
    requires Enabled(c, s, step) && Legal(c, Next(c, s, step), rest)
    ensures Legal(c, s, steps) && After(c, s, steps) == After(c, Next(c, s, step), rest)
  {
    hide Enabled, Next;
    steps := [step] + rest;
    assert steps[1..] == rest;
  }

  /** One run after another. */
  lemma {:induction false} Joined(c: Campaign, s: Sys, first: seq<Step>, more: seq<Step>) returns (all: seq<Step>)
    requires Legal(c, s, first) && Legal(c, After(c, s, first), more)
    ensures Legal(c, s, all) && After(c, s, all) == After(c, After(c, s, first), more)
    decreases |first|
  {
    hide Enabled, Next;
    if first == [] {
      all := more;
    } else {
      var rest := Joined(c, Next(c, s, first[0]), first[1..], more);
      all := First(c, s, first[0], rest);
    }
  }
}
