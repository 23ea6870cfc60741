/** The feed of the stored table, in every interleaving and under every loss of appends. */
module StoredFeed {
  import opened Domain
  import opened AgentSpec
  import opened AgentInvariants
  import AgentTheorems
  import opened FeedSpec
  import opened FeedLoss
  import opened Scripts
  import opened Store
  import opened Protocol
  import opened ProtocolInvariants
  import opened CampaignTheorems
  import opened Continuations

  /** What the one run has emitted so far. */
  function StreamSoFar(p: Progress): seq<Event>
    requires p.pos <= |Trace(p)|
  {
    EventsOf(Trace(p)[..p.pos])
  }

  lemma StreamFacts(c: Campaign, p: Progress)
    requires c.Valid() && IsRun(c, p.run) && p.pos <= |Trace(p)|
    ensures NoStrays(StreamSoFar(p))
    ensures var run := p.run.state;
            && PrefixShows(StreamSoFar(p), Measurements(run.trials), Submissions(run.trace))
            && (p.pos == |Trace(p)| ==> FeedComplete(StreamSoFar(p), Measurements(run.trials)))
  {
    hide IsRun, Accounts, NoStrays, PrefixShows, FeedComplete, AgentTheorems.Ended;
    RunFacts(c, p.run);
    var run := p.run.state;
    var all := EventsOf(Trace(p));
    EventsOfPrefix(Trace(p), p.pos);
    assert all[..|StreamSoFar(p)|] == StreamSoFar(p);
    StreamHasNoStrays(all, Measurements(run.trials), Submissions(run.trace), |StreamSoFar(p)|);
    assert PrefixShows(all[..|StreamSoFar(p)|], Measurements(run.trials), Submissions(run.trace));
    if p.pos == |Trace(p)| {
      assert Trace(p)[..p.pos] == Trace(p);
    }
  }

  lemma DecksAgree(events: seq<Event>, kept: seq<bool>)
    requires |kept| == |events| && OnlyNarrationLost(events, kept)
    ensures var f, g := Feed(Numbered(Kept(events, kept))), Feed(Numbered(events));
            Cards(f.items) == Cards(g.items) && (f.open.Some? <==> g.open.Some?)
  {
    hide Feed, Cards, Numbered, Kept, DeckOf, OnlyNarrationLost;
    NarrationIsHarmless(events, kept);
    FeedShowsDeck(events);
    FeedShowsDeck(Kept(events, kept));
  }

  /**
   Losing appends of narration is harmless, and nothing else is: at any moment of any campaign the
   cards of the stored table are those of everything emitted so far exactly when every start and
   every outcome of a trial was recorded.
   */
  lemma CardsAreRightIff(c: Campaign, tenant: string, steps: seq<Step>)
    requires Legal(c, Start(tenant), steps) && After(c, Start(tenant), steps).history.Some?
    ensures var s := After(c, Start(tenant), steps);
            var p := s.history.value;
            && p.pos <= |Trace(p)| && |s.kept| == |StreamSoFar(p)|
            && (Cards(Feed(s.log).items) == Cards(Feed(Numbered(StreamSoFar(p))).items)
                <==> OnlyNarrationLost(StreamSoFar(p), s.kept))
  {
    hide After, Legal, Start, IsRun, GapFree, Feed, Cards, Numbered, Kept, DeckOf, EventsOf, OnlyNarrationLost,
         NoStrays, PrefixShows, FeedComplete;
    LogIsTheRunsStream(c, tenant, steps);
    var s := After(c, Start(tenant), steps);
    var p := s.history.value;
    StreamFacts(c, p);
    CardsSurviveIff(StreamSoFar(p), s.kept);
    FeedShowsDeck(StreamSoFar(p));
    FeedShowsDeck(Kept(StreamSoFar(p), s.kept));
  }

  /** Then the feed shows the measured trials in order, each closed with its own outcome, at most
      the last one still running, and of the rest every recorded event once as narration. When the
      run has been played out - however the row ended - there is one closed card for each. */
  lemma FeedShowsTheTrials(c: Campaign, tenant: string, steps: seq<Step>)
    requires Legal(c, Start(tenant), steps)
    ensures var s := After(c, Start(tenant), steps);
            && (s.history.None? ==> Feed(s.log).items == [])
            && (s.history.Some? ==>
                  var p := s.history.value;
                  var run := p.run.state;
                  && p.pos <= |Trace(p)| && |s.kept| == |StreamSoFar(p)|
                  && (OnlyNarrationLost(StreamSoFar(p), s.kept) ==>
                        && CardsShow(Cards(Feed(s.log).items), Feed(s.log).open.Some?,
                                     Measurements(run.trials), Submissions(run.trace))
                        && Narrated(Feed(s.log).items) == NarrationOf(Kept(StreamSoFar(p), s.kept))
                        && (p.pos == |Trace(p)| ==>
                              Feed(s.log).open.None? && |Cards(Feed(s.log).items)| == |Measurements(run.trials)|)))
  {
    hide After, Legal, Start, IsRun, GapFree, Cards, Numbered, Kept, DeckOf, EventsOf, OnlyNarrationLost,
         NoStrays, CardsShow, Narrated, NarrationOf;
    LogIsTheRunsStream(c, tenant, steps);
    var s := After(c, Start(tenant), steps);
    if s.history.Some? {
      var p := s.history.value;
      StreamFacts(c, p);
      if OnlyNarrationLost(StreamSoFar(p), s.kept) {
        DecksAgree(StreamSoFar(p), s.kept);
        KeptHasNoStrays(StreamSoFar(p), s.kept);
        NarratesTheRest(Kept(StreamSoFar(p), s.kept));
      }
    }
  }

  // ----- what a follower has seen of it

  /** A prefix of what was kept is what was kept of a prefix. */
  lemma {:induction false} KeptOfPrefix(events: seq<Event>, kept: seq<bool>, m: nat) returns (n: nat)
    requires |kept| == |events| && m <= |Kept(events, kept)|
    ensures n <= |events| && Kept(events[..n], kept[..n]) == Kept(events, kept)[..m]
  {
    if m == |Kept(events, kept)| {
      n := |events|;
      assert events[..n] == events && kept[..n] == kept && Kept(events, kept)[..m] == Kept(events, kept);
    } else {
      var last := |events| - 1;
      KeptStep(events, kept);
      n := KeptOfPrefix(events[..last], kept[..last], m);
      assert events[..last][..n] == events[..n] && kept[..last][..n] == kept[..n];
      assert Kept(events, kept)[..m] == Kept(events[..last], kept[..last])[..m];
    }
  }

  lemma NumberedPrefix(events: seq<Event>, m: nat)
    requires m <= |Numbered(events)|
    ensures m <= |events| && Numbered(events)[..m] == Numbered(events[..m])
  {
  }

  lemma OnlyNarrationOfPrefix(events: seq<Event>, kept: seq<bool>, n: nat)
    requires |kept| == |events| && OnlyNarrationLost(events, kept) && n <= |events|
    ensures OnlyNarrationLost(events[..n], kept[..n])
  {
  }

  /** The cards of any part of the stream, with nothing but narration lost, show its trials. */
  lemma PartShows(c: Campaign, p: Progress, n: nat, kept: seq<bool>)
    requires c.Valid() && IsRun(c, p.run) && p.pos <= |Trace(p)| && n <= |StreamSoFar(p)|
    requires |kept| == n && OnlyNarrationLost(StreamSoFar(p)[..n], kept)
    ensures var f := Feed(Numbered(Kept(StreamSoFar(p)[..n], kept)));
            CardsShow(Cards(f.items), f.open.Some?, Measurements(p.run.state.trials), Submissions(p.run.state.trace))
  {
    hide IsRun, Accounts, Feed, Cards, CardsShow, Numbered, Kept, OnlyNarrationLost, EventsOf, AgentTheorems.Ended;
    RunFacts(c, p.run);
    var run := p.run.state;
    var all := EventsOf(Trace(p));
    EventsOfPrefix(Trace(p), p.pos);
    assert all[..n] == StreamSoFar(p)[..n];
    assert PrefixShows(all[..n], Measurements(run.trials), Submissions(run.trace));
    DecksAgree(all[..n], kept);
  }

  /**
   From the agent to the screen: at any moment of any campaign, if only narration was lost, the
   feed of what a follower has rendered shows the measured trials in order, each closed with its
   own outcome, at most the last one still running.
   */
  lemma FollowerSeesTheTrials(c: Campaign, tenant: string, steps: seq<Step>, j: nat)
    requires Legal(c, Start(tenant), steps) && j < |After(c, Start(tenant), steps).followers|
    ensures var s := After(c, Start(tenant), steps);
            && (s.history.None? ==> s.followers[j].rendered == [])
            && (s.history.Some? ==>
                  var p := s.history.value;
                  var f := Feed(s.followers[j].rendered);
                  && p.pos <= |Trace(p)| && |s.kept| == |StreamSoFar(p)|
                  && (OnlyNarrationLost(StreamSoFar(p), s.kept) ==>
                        CardsShow(Cards(f.items), f.open.Some?,
                                  Measurements(p.run.state.trials), Submissions(p.run.state.trace))))
  {
    hide After, Legal, Start, IsRun, GapFree, Feed, Cards, Numbered, Kept, EventsOf, OnlyNarrationLost, CardsShow;
    LogIsTheRunsStream(c, tenant, steps);
    FollowerRendersPrefix(c, tenant, steps, j);
    var s := After(c, Start(tenant), steps);
    if s.history.Some? && OnlyNarrationLost(StreamSoFar(s.history.value), s.kept) {
      var events, m := StreamSoFar(s.history.value), s.followers[j].cursor;
      NumberedPrefix(Kept(events, s.kept), m);
      var n := KeptOfPrefix(events, s.kept, m);
      OnlyNarrationOfPrefix(events, s.kept, n);
      PartShows(c, s.history.value, n, s.kept[..n]);
    }
  }

  // ----- what a loss can make of it

  /** A planner that asks for two configurations in one reply. */
  function TwoAsks(c: Campaign, first: BenchReply, second: BenchReply): seq<PlannerReply>
    requires c.engines != []
  {
    [Response(StopOther, NO_USAGE, Asks(c, [first, second]))]
  }

  lemma TraceOfTwo(c: Campaign, first: BenchReply, second: BenchReply)
    requires c.engines != []
    ensures TraceOf(c, [first, second]) == ActionsOf(c, 0, first) + ActionsOf(c, 1, second)
  {
    assert [first, second][..1] == [first] && [first][..0] == [];
    assert TraceOf(c, [first]) == TraceOf(c, []) + ActionsOf(c, 0, first);
  }

  lemma RunOfTwo(c: Campaign, first: BenchReply, second: BenchReply)
    requires c.Valid() && c.budget.maxTrials >= 2
    ensures var run := Run(c, STILL, TwoAsks(c, first, second)).state;
            && run.trials == [TrialOf(c, 0, first), TrialOf(c, 1, second)]
            && ActionsOf(c, 0, first) + ActionsOf(c, 1, second) <= run.trace
  {
    hide AfterBlocks, TraceOf, BestTrial;
    var replies := [first, second];
    var s0 := Received(Initial(STILL), NO_USAGE);
    NothingAsked(c, s0, replies);
    AskedAll(c, s0, replies, 0, []);
    assert Asks(c, replies)[0..] + [] == Asks(c, replies);
    var s :| HasAsked(c, s, replies, 2) && s.turns == s0.turns && s.usage == s0.usage
             && AfterBlocks(c, STILL, s0, Asks(c, replies)) == AfterBlocks(c, STILL, s, []);
    assert AfterBlocks(c, STILL, s, []) == s by { NoBlocks(c, s); }
    assert replies[..2] == replies;
    TraceOfTwo(c, first, second);
  }

  lemma NoBlocks(c: Campaign, s: AgentState)
    ensures AfterBlocks(c, STILL, s, []) == s
  {
  }

  /**
   Two appends lost - the outcome of one trial and the start of the next - and the one card there
   is shows the configuration of the first trial with the result of the second.
   */
  lemma LostAppendsMisattribute(c: Campaign, tenant: string, r0: Result, r1: Result) returns (steps: seq<Step>)
    requires c.Valid() && c.budget.maxTrials >= 2
    ensures Legal(c, Start(tenant), steps) && After(c, Start(tenant), steps).history.Some?
    ensures var s := After(c, Start(tenant), steps);
            var trials := s.history.value.run.state.trials;
            var cards := Cards(Feed(s.log).items);
            && s.kept == [true, false, false, true]
            && |trials| == 2 && !trials[0].reused && !trials[1].reused && trials[0].spec != trials[1].spec
            && trials[0].result == r0 && trials[1].result == r1
            && |cards| == 1 && !cards[0].running
            && cards[0].config == Some(trials[0].spec.engineConfig) && cards[0].result == Some(r1)
  {
    hide Legal, After, Run, EventsAfter, Quiet, AppendTo, Asks, Feed, Cards;
    var first, second := BenchReply(r0, None), BenchReply(r1, None);
    RunOfTwo(c, first, second);
    steps := Claimed(c, tenant, TwoAsks(c, first, second));
    var s := Start(tenant);
    steps := Take(c, s, steps, Append(0, NoFault));
    steps := Benchmarks(c, s, steps);
    steps := Take(c, s, steps, Append(0, FailsBefore));
    steps := Take(c, s, steps, Append(0, FailsBefore));
    steps := Benchmarks(c, s, steps);
    steps := Take(c, s, steps, Append(0, NoFault));
    TwoRows(StartOf(c, 0), OutcomeOf(c, 1, second));
  }

  /** The next action of the only delivery is a benchmark, and its job is saved. */
  lemma Benchmarks(c: Campaign, s: Sys, before: seq<Step>) returns (steps: seq<Step>)
    requires Legal(c, s, before) && At(After(c, s, before), 0, false) && !After(c, s, before).pcs[0].checked
    requires !After(c, s, before).row.state.Cancelled?
    ensures Legal(c, s, steps)
    ensures var t, u := After(c, s, before), After(c, s, steps);
            && u.row == t.row && u.log == t.log && u.kept == t.kept
            && u.pcs == t.pcs[0 := Looping(t.pcs[0].progress.(pos := t.pcs[0].progress.pos + 1), false)]
            && u.history == Some(t.pcs[0].progress.(pos := t.pcs[0].progress.pos + 1))
  {
    hide Legal, After, Run, EventsAfter, Quiet;
    steps := Take(c, s, before, Check(0, true));
    steps := Take(c, s, steps, Save(0, NoFault));
  }

  /** The table of a start and a foreign outcome, and its feed. */
  lemma TwoRows(start: Event, outcome: Event)
    requires start.kind.TrialStart? && outcome.kind.TrialDone?
    ensures var log := AppendTo(AppendTo([], start), outcome);
            Cards(Feed(log).items) == [OpenedCard(start).(running := false, elapsed := outcome.elapsed, result := outcome.result)]
  {
    var log1 := AppendTo([], start);
    var log := AppendTo(log1, outcome);
    assert log1 == [Logged(1, start)] && log1[..0] == [];
    AppendKeepsNumbering(log1, outcome);
    assert log[..1] == log1;
    var f1 := AfterEvent(FeedState([], None), Logged(1, start));
    assert Feed(log1) == f1;
    var f2 := AfterEvent(f1, Logged(2, outcome));
    assert Feed(log) == f2;
    assert f2.items[..0] == [] && Cards([]) == [];
  }
}
