/**
 What every run of the campaign loop keeps, whatever the planner, the platform and the clock
 do: the trial accounts, and the way the event stream folds into cards.
 */
module AgentInvariants {
  import opened Domain
  import opened AgentSpec
  import opened FeedSpec

  // ----- projections

  function EventsOf(trace: seq<Action>): seq<Event> {
    if trace == [] then []
    else
      var last := trace[|trace| - 1];
      EventsOf(trace[..|trace| - 1]) + (if last.Emitted? then [last.event] else [])
  }

  /** The benchmarks submitted to the platform, in order. */
  function Submissions(trace: seq<Action>): seq<Submission> {
    if trace == [] then []
    else
      var last := trace[|trace| - 1];
      Submissions(trace[..|trace| - 1]) + (if last.Benchmarked? then [last.submission] else [])
  }

  /** The trials that were measured, as opposed to reused. */
  function Measurements(trials: seq<Trial>): seq<Trial> {
    if trials == [] then []
    else
      var last := trials[|trials| - 1];
      Measurements(trials[..|trials| - 1]) + (if last.reused then [] else [last])
  }

  lemma EventsOfAppend(trace: seq<Action>, a: Action)
    ensures EventsOf(trace + [a]) == if a.Emitted? then EventsOf(trace) + [a.event] else EventsOf(trace)
  {
    assert (trace + [a])[..|trace|] == trace;
  }

  lemma SubmissionsAppend(trace: seq<Action>, a: Action)
    ensures Submissions(trace + [a]) ==
            if a.Benchmarked? then Submissions(trace) + [a.submission] else Submissions(trace)
  {
    assert (trace + [a])[..|trace|] == trace;
  }

  lemma MeasurementsAppend(trials: seq<Trial>, t: Trial)
    ensures Measurements(trials + [t]) == if t.reused then Measurements(trials) else Measurements(trials) + [t]
  {
    assert (trials + [t])[..|trials|] == trials;
  }

  lemma {:induction false} MeasurementIsTrial(trials: seq<Trial>, k: nat) returns (i: nat)
    requires k < |Measurements(trials)|
    ensures i < |trials| && trials[i] == Measurements(trials)[k] && !trials[i].reused
  {
    var n := |trials| - 1;
    if k < |Measurements(trials[..n])| {
      i := MeasurementIsTrial(trials[..n], k);
    } else {
      i := n;
    }
  }

  lemma {:induction false} TrialIsMeasurement(trials: seq<Trial>, i: nat) returns (k: nat)
    requires i < |trials| && !trials[i].reused
    ensures k < |Measurements(trials)| && Measurements(trials)[k] == trials[i]
  {
    var n := |trials| - 1;
    if i == n {
      k := |Measurements(trials[..n])|;
    } else {
      k := TrialIsMeasurement(trials[..n], i);
    }
  }

  // ----- the accounts

  /** A trial reports exactly what the platform answered to a submission. */
  ghost predicate Answers(t: Trial, b: Submission) {
    && t.spec == b.spec && t.result == b.reply.result
    && t.err == if b.reply.err.Some? then b.reply.err.value else ""
  }

  /** Ended without an error, with throughput, no failed request and a price. */
  predicate Pickable(t: Trial) {
    t.err == "" && t.result.tokPerSec > 0.0 && t.result.errorRate <= 0.0 && t.result.costPerMTok > 0.0
  }

  /** Only engine and knobs vary, and the engine is one the campaign allows. */
  ghost predicate InCampaign(c: Campaign, spec: TrialSpec) {
    && spec.engine in c.engines
    && spec.model == c.model && spec.gpuProfile == c.gpuProfile && spec.workload == c.workload
  }

  ghost predicate EachAnswered(ms: seq<Trial>, bs: seq<Submission>) {
    |ms| == |bs| && forall k :: 0 <= k < |ms| ==> Answers(ms[k], bs[k])
  }

  ghost predicate DistinctSpecs(ms: seq<Trial>) {
    forall i, j :: 0 <= i < j < |ms| ==> ms[i].spec != ms[j].spec
  }

  /** Same specification and same outcome, however it was obtained. */
  predicate SameMeasurement(t: Trial, u: Trial) {
    t.spec == u.spec && t.result == u.result && t.err == u.err
  }

  ghost predicate MeasuredBefore(trials: seq<Trial>, j: nat)
    requires j < |trials|
  {
    exists i :: 0 <= i < j && !trials[i].reused && SameMeasurement(trials[i], trials[j])
  }

  ghost predicate ReusesCopy(trials: seq<Trial>) {
    forall j :: 0 <= j < |trials| && trials[j].reused ==> MeasuredBefore(trials, j)
  }

  ghost predicate AllInCampaign(c: Campaign, trials: seq<Trial>) {
    forall i :: 0 <= i < |trials| ==> InCampaign(c, trials[i].spec)
  }

  ghost predicate StartedInTime(c: Campaign, bs: seq<Submission>) {
    forall k :: 0 <= k < |bs| ==> bs[k].elapsedAtCheck < c.budget.maxDuration
  }

  /** One submission per measured trial, within the trial cap, no configuration twice. */
  ghost predicate Booked(c: Campaign, ms: seq<Trial>, spent: nat, bs: seq<Submission>) {
    && spent == |ms| <= c.budget.maxTrials
    && EachAnswered(ms, bs)
    && DistinctSpecs(ms)
  }

  ghost predicate Accounts(c: Campaign, trials: seq<Trial>, spent: nat, bs: seq<Submission>) {
    && Booked(c, Measurements(trials), spent, bs)
    && ReusesCopy(trials)
    && AllInCampaign(c, trials)
    && StartedInTime(c, bs)
  }

  // ----- the feed

  /** A closed card shows its own trial: what was run, why, and what came back. */
  ghost predicate Shows(card: Card, t: Trial, b: Submission) {
    && card == Card(t.spec.engine, t.spec.gpuProfile, Some(t.spec.engineConfig), t.hypothesis,
                    if b.reply.err.Some? then None else Some(b.reply.result),
                    b.reply.err, card.elapsed, false)
  }

  ghost predicate Awaits(card: Card, t: Trial) {
    && card == Card(t.spec.engine, t.spec.gpuProfile, Some(t.spec.engineConfig), t.hypothesis,
                    None, None, card.elapsed, true)
  }

  /** Cards of the first trials: all closed, except possibly the last. */
  ghost predicate CardsShow(cards: seq<Card>, open: bool, ms: seq<Trial>, bs: seq<Submission>) {
    && |cards| <= |ms| == |bs|
    && (forall k :: 0 <= k < |cards| - 1 ==> Shows(cards[k], ms[k], bs[k]))
    && (if !open then cards == [] || Shows(cards[|cards| - 1], ms[|cards| - 1], bs[|cards| - 1])
        else cards != [] && Awaits(cards[|cards| - 1], ms[|cards| - 1]))
  }

  ghost predicate FeedShows(f: FeedState, ms: seq<Trial>, bs: seq<Submission>) {
    && CardsShow(Cards(f.items), f.open.Some?, ms, bs)
    && (f.open.Some? ==> f.open.value == |f.items| - 1)
  }

  /** However much of the stream has arrived, its feed is right. */
  ghost predicate PrefixesShow(events: seq<Event>, ms: seq<Trial>, bs: seq<Submission>) {
    forall n :: 0 <= n <= |events| ==> PrefixShows(events[..n], ms, bs)
  }

  ghost predicate PrefixShows(events: seq<Event>, ms: seq<Trial>, bs: seq<Submission>) {
    && FeedShows(Feed(Numbered(events)), ms, bs)
    && Narrated(Feed(Numbered(events)).items) == NarrationOf(events)
  }

  ghost predicate FeedComplete(events: seq<Event>, ms: seq<Trial>) {
    Feed(Numbered(events)).open.None? && |Cards(Feed(Numbered(events)).items)| == |ms|
  }

  ghost predicate Streams(events: seq<Event>, ms: seq<Trial>, bs: seq<Submission>) {
    PrefixesShow(events, ms, bs) && FeedComplete(events, ms)
  }

  lemma FeedAppend(events: seq<Event>, e: Event)
    ensures Feed(Numbered(events + [e])) == AfterEvent(Feed(Numbered(events)), Logged(|events| + 1, e))
  {
    var log := Numbered(events + [e]);
    assert log[..|log| - 1] == Numbered(events);
  }

  lemma ItemsAppend(items: seq<Item>, x: Item)
    ensures Cards(items + [x]) == if x.TrialItem? then Cards(items) + [x.card] else Cards(items)
    ensures Narrated(items + [x]) == if x.Narration? then Narrated(items) + [x.event] else Narrated(items)
  {
    assert (items + [x])[..|items|] == items;
  }

  lemma NarrationAppend(events: seq<Event>, e: Event)
    ensures NarrationOf(events + [e]) == if e.IsNarration() then NarrationOf(events) + [e] else NarrationOf(events)
  {
    assert (events + [e])[..|events|] == events;
  }

  lemma PrefixesExtend(events: seq<Event>, e: Event, ms: seq<Trial>, bs: seq<Submission>)
    requires PrefixesShow(events, ms, bs) && PrefixShows(events + [e], ms, bs)
    ensures PrefixesShow(events + [e], ms, bs)
  {
    var all := events + [e];
    forall n | 0 <= n <= |all| ensures PrefixShows(all[..n], ms, bs) {
      if n <= |events| {
        assert all[..n] == events[..n];
      } else {
        assert all[..n] == all;
      }
    }
  }

  lemma NarrationStreams(events: seq<Event>, e: Event, ms: seq<Trial>, bs: seq<Submission>)
    requires Streams(events, ms, bs) && e.IsNarration()
    ensures Streams(events + [e], ms, bs)
  {
    hide Feed, Cards, Narrated, NarrationOf, Numbered;
    assert events[..|events|] == events;
    assert PrefixShows(events, ms, bs);
    FeedAppend(events, e);
    ItemsAppend(Feed(Numbered(events)).items, Narration(|events| + 1, e));
    NarrationAppend(events, e);
    PrefixesExtend(events, e, ms, bs);
  }

  lemma PrefixesOfMore(events: seq<Event>, ms: seq<Trial>, bs: seq<Submission>, t: Trial, b: Submission)
    requires PrefixesShow(events, ms, bs)
    ensures PrefixesShow(events, ms + [t], bs + [b])
  {
    forall n | 0 <= n <= |events| ensures PrefixShows(events[..n], ms + [t], bs + [b]) {
      assert PrefixShows(events[..n], ms, bs);
    }
  }

  lemma OpeningShows(events: seq<Event>, e: Event, ms: seq<Trial>, bs: seq<Submission>, t: Trial, b: Submission)
    requires PrefixShows(events, ms, bs) && FeedComplete(events, ms)
    requires e.kind.TrialStart? && e.text == t.hypothesis && e.trial == Some(t.spec)
    ensures PrefixShows(events + [e], ms + [t], bs + [b])
    ensures Feed(Numbered(events + [e])) ==
            FeedState(Feed(Numbered(events)).items + [TrialItem(|events| + 1, OpenedCard(e))],
                      Some(|Feed(Numbered(events)).items|))
  {
    hide Feed, Cards, Narrated, NarrationOf, Numbered;
    FeedAppend(events, e);
    ItemsAppend(Feed(Numbered(events)).items, TrialItem(|events| + 1, OpenedCard(e)));
    NarrationAppend(events, e);
  }

  /** The two events around a benchmark open a card and close that same card. */
  lemma ClosingShows(events: seq<Event>, e1: Event, e2: Event,
                     ms: seq<Trial>, bs: seq<Submission>, t: Trial, b: Submission)
    requires PrefixShows(events, ms, bs) && FeedComplete(events, ms)
    requires e1.kind.TrialStart? && e1.text == t.hypothesis && e1.trial == Some(t.spec)
    requires b.reply.err.Some? ==> e2.kind.TrialFailed? && e2.text == b.reply.err.value
    requires b.reply.err.None? ==> e2.kind.TrialDone? && e2.result == Some(b.reply.result)
    ensures PrefixShows(events + [e1] + [e2], ms + [t], bs + [b])
    ensures FeedComplete(events + [e1] + [e2], ms + [t])
  {
    hide Feed, Cards, Narrated, NarrationOf, Numbered;
    OpeningShows(events, e1, ms, bs, t, b);
    var f := Feed(Numbered(events));
    FeedAppend(events + [e1], e2);
    NarrationAppend(events, e1);
    NarrationAppend(events + [e1], e2);
    var closed := TrialItem(|events| + 1, ClosedCard(OpenedCard(e1), e2));
    var g := Feed(Numbered(events + [e1] + [e2]));
    ItemsAppend(f.items, closed);
    assert g == FeedState(f.items + [closed], None);
    var cards := Cards(f.items);
    assert Cards(g.items) == cards + [closed.card];
    assert Shows(closed.card, t, b);
    assert NarrationOf(events + [e1] + [e2]) == NarrationOf(events);
  }

  lemma MeasurementStreams(events: seq<Event>, e1: Event, e2: Event,
                           ms: seq<Trial>, bs: seq<Submission>, t: Trial, b: Submission)
    requires Streams(events, ms, bs)
    requires e1.kind.TrialStart? && e1.text == t.hypothesis && e1.trial == Some(t.spec)
    requires b.reply.err.Some? ==> e2.kind.TrialFailed? && e2.text == b.reply.err.value
    requires b.reply.err.None? ==> e2.kind.TrialDone? && e2.result == Some(b.reply.result)
    ensures Streams(events + [e1] + [e2], ms + [t], bs + [b])
  {
    hide Feed, Cards, Narrated, NarrationOf, Numbered, FeedShows;
    assert events[..|events|] == events;
    assert PrefixShows(events, ms, bs);
    OpeningShows(events, e1, ms, bs, t, b);
    ClosingShows(events, e1, e2, ms, bs, t, b);
    PrefixesOfMore(events, ms, bs, t, b);
    PrefixesExtend(events, e1, ms + [t], bs + [b]);
    PrefixesExtend(events + [e1], e2, ms + [t], bs + [b]);
  }

  // ----- what each step keeps

  ghost predicate Inv(c: Campaign, s: AgentState) {
    && Accounts(c, s.trials, s.spent, Submissions(s.trace))
    && Streams(EventsOf(s.trace), Measurements(s.trials), Submissions(s.trace))
  }

  /** The accounts and the feed do not look at the rest of the state. */
  lemma InvIgnoresRest(c: Campaign, s: AgentState, s1: AgentState)
    requires Inv(c, s) && s1.trials == s.trials && s1.spent == s.spent && s1.trace == s.trace
    ensures Inv(c, s1)
  {
  }

  lemma InitialInv(c: Campaign, clock: Clock)
    requires c.Valid()
    ensures Inv(c, Initial(clock))
  {
    assert Numbered([]) == [];
  }

  lemma EmitKeeps(c: Campaign, clock: Clock, s: AgentState, kind: EventKind, text: string)
    requires Inv(c, s) && !kind.TrialStart? && !kind.TrialDone? && !kind.TrialFailed?
    ensures Inv(c, Emit(clock, s, kind, text, None, None))
  {
    hide Accounts, Streams, EventsOf, Submissions, Measurements;
    var e := Event(kind, text, None, None, clock(s.ticks) - s.started);
    EventsOfAppend(s.trace, Emitted(e));
    SubmissionsAppend(s.trace, Emitted(e));
    NarrationStreams(EventsOf(s.trace), e, Measurements(s.trials), Submissions(s.trace));
  }

  lemma {:induction false} FoundTrial(trials: seq<Trial>, spec: TrialSpec)
    ensures FindTrial(trials, spec).None? ==> forall i :: 0 <= i < |trials| ==> trials[i].spec != spec
    ensures FindTrial(trials, spec).Some? ==>
              exists i :: 0 <= i < |trials| && trials[i] == FindTrial(trials, spec).value && trials[i].spec == spec
                       && forall j :: 0 <= j < i ==> trials[j].spec != spec
  {
    if trials != [] && trials[0].spec != spec {
      FoundTrial(trials[1..], spec);
      if FindTrial(trials[1..], spec).Some? {
        var i :| 0 <= i < |trials[1..]| && trials[1..][i] == FindTrial(trials[1..], spec).value
                 && trials[1..][i].spec == spec && forall j :: 0 <= j < i ==> trials[1..][j].spec != spec;
        forall j | 0 <= j < i + 1 ensures trials[j].spec != spec {
          if j > 0 { assert trials[1..][j - 1] == trials[j]; }
        }
        assert trials[i + 1] == trials[1..][i];
      } else {
        forall i | 0 <= i < |trials| ensures trials[i].spec != spec {
          if i > 0 { assert trials[1..][i - 1] == trials[i]; }
        }
      }
    }
  }

  lemma ReusesStillCopy(trials: seq<Trial>, t: Trial)
    requires ReusesCopy(trials)
    requires t.reused ==> MeasuredBefore(trials + [t], |trials|)
    ensures ReusesCopy(trials + [t])
  {
    var all := trials + [t];
    forall j | 0 <= j < |all| && all[j].reused ensures MeasuredBefore(all, j) {
      if j < |trials| {
        assert MeasuredBefore(trials, j);
        var k :| 0 <= k < j && !trials[k].reused && SameMeasurement(trials[k], trials[j]);
        assert all[k] == trials[k] && all[j] == trials[j];
      }
    }
  }

  /** What the search finds is never a reused trial: the trial it copies comes first. */
  lemma FirstMatchWasMeasured(trials: seq<Trial>, spec: TrialSpec) returns (i: nat)
    requires ReusesCopy(trials) && FindTrial(trials, spec).Some?
    ensures i < |trials| && trials[i] == FindTrial(trials, spec).value
    ensures trials[i].spec == spec && !trials[i].reused
  {
    hide FindTrial;
    FoundTrial(trials, spec);
    i :| 0 <= i < |trials| && trials[i] == FindTrial(trials, spec).value && trials[i].spec == spec
         && forall j :: 0 <= j < i ==> trials[j].spec != spec;
    assert !trials[i].reused by {
      assert forall j :: 0 <= j < i ==> trials[j].spec != trials[i].spec;
    }
  }

  lemma ReuseAccounts(c: Campaign, trials: seq<Trial>, spent: nat, bs: seq<Submission>, again: Trial)
    requires Accounts(c, trials, spent, bs) && again.reused
    requires FindTrial(trials, again.spec).Some? && SameMeasurement(FindTrial(trials, again.spec).value, again)
    ensures Accounts(c, trials + [again], spent, bs)
  {
    hide Measurements, FindTrial;
    MeasurementsAppend(trials, again);
    var i := FirstMatchWasMeasured(trials, again.spec);
    var all := trials + [again];
    assert all[i] == trials[i] && InCampaign(c, trials[i].spec);
    assert MeasuredBefore(all, |trials|);
    ReusesStillCopy(trials, again);
  }

  lemma ReuseKeeps(c: Campaign, s: AgentState, s1: AgentState, again: Trial)
    requires Inv(c, s) && again.reused
    requires FindTrial(s.trials, again.spec).Some? && SameMeasurement(FindTrial(s.trials, again.spec).value, again)
    requires s1.trials == s.trials + [again] && s1.trace == s.trace && s1.spent == s.spent
    ensures Inv(c, s1)
  {
    hide Measurements, FindTrial, Accounts, Streams;
    MeasurementsAppend(s.trials, again);
    ReuseAccounts(c, s.trials, s.spent, Submissions(s.trace), again);
  }

  lemma BookedMore(c: Campaign, ms: seq<Trial>, spent: nat, bs: seq<Submission>, t: Trial, b: Submission)
    requires Booked(c, ms, spent, bs) && spent < c.budget.maxTrials && Answers(t, b)
    requires forall k :: 0 <= k < |ms| ==> ms[k].spec != t.spec
    ensures Booked(c, ms + [t], spent + 1, bs + [b])
  {
  }

  lemma InTimeMore(c: Campaign, trials: seq<Trial>, bs: seq<Submission>, t: Trial, b: Submission)
    requires AllInCampaign(c, trials) && InCampaign(c, t.spec)
    requires StartedInTime(c, bs) && b.elapsedAtCheck < c.budget.maxDuration
    ensures AllInCampaign(c, trials + [t]) && StartedInTime(c, bs + [b])
  {
  }

  lemma MeasureAccounts(c: Campaign, trials: seq<Trial>, spent: nat, bs: seq<Submission>, t: Trial, b: Submission)
    requires Accounts(c, trials, spent, bs) && spent < c.budget.maxTrials
    requires FindTrial(trials, t.spec).None? && InCampaign(c, t.spec)
    requires !t.reused && Answers(t, b) && b.elapsedAtCheck < c.budget.maxDuration
    ensures Accounts(c, trials + [t], spent + 1, bs + [b])
  {
    hide Measurements, FindTrial, Booked, ReusesCopy, AllInCampaign, StartedInTime, InCampaign, Answers;
    MeasurementsAppend(trials, t);
    FoundTrial(trials, t.spec);
    var ms := Measurements(trials);
    forall k | 0 <= k < |ms| ensures ms[k].spec != t.spec {
      var i := MeasurementIsTrial(trials, k);
    }
    BookedMore(c, ms, spent, bs, t, b);
    InTimeMore(c, trials, bs, t, b);
    ReusesStillCopy(trials, t);
  }

  /** The submission and the trial that a measurement adds. */
  lemma MeasureAdds(c: Campaign, clock: Clock, s: AgentState, spec: TrialSpec,
                    hypothesis: string, checked: int, reply: BenchReply)
    returns (e1: Event, e2: Event, t: Trial, b: Submission)
    ensures var s1 := Measure(c, clock, s, spec, hypothesis, checked, reply).0;
            && s1.trials == s.trials + [t] && s1.spent == s.spent + 1
            && EventsOf(s1.trace) == EventsOf(s.trace) + [e1] + [e2]
            && Submissions(s1.trace) == Submissions(s.trace) + [b]
    ensures b == Submission(spec, checked, reply) && !t.reused && t.hypothesis == hypothesis && Answers(t, b)
    ensures e1.kind.TrialStart? && e1.text == hypothesis && e1.trial == Some(spec)
    ensures reply.err.Some? ==> e2.kind.TrialFailed? && e2.text == reply.err.value
    ensures reply.err.None? ==> e2.kind.TrialDone? && e2.result == Some(reply.result)
  {
    var s1 := Measure(c, clock, s, spec, hypothesis, checked, reply).0;
    var n := |s.trace|;
    t := s1.trials[|s.trials|];
    b := Submission(spec, checked, reply);
    e1 := s1.trace[n].event;
    e2 := s1.trace[n + 2].event;
    assert s1.trace == s.trace + [Emitted(e1)] + [Benchmarked(b)] + [Emitted(e2)];
    EventsOfAppend(s.trace, Emitted(e1));
    EventsOfAppend(s.trace + [Emitted(e1)], Benchmarked(b));
    EventsOfAppend(s.trace + [Emitted(e1)] + [Benchmarked(b)], Emitted(e2));
    SubmissionsAppend(s.trace, Emitted(e1));
    SubmissionsAppend(s.trace + [Emitted(e1)], Benchmarked(b));
    SubmissionsAppend(s.trace + [Emitted(e1)] + [Benchmarked(b)], Emitted(e2));
  }

  lemma MeasureKeeps(c: Campaign, clock: Clock, s: AgentState, spec: TrialSpec,
                     hypothesis: string, checked: int, reply: BenchReply)
    requires Inv(c, s) && s.spent < c.budget.maxTrials && checked < c.budget.maxDuration
    requires FindTrial(s.trials, spec).None? && InCampaign(c, spec)
    ensures Inv(c, Measure(c, clock, s, spec, hypothesis, checked, reply).0)
  {
    hide Accounts, Streams, Measurements, Submissions, EventsOf, FindTrial;
    var e1, e2, t, b := MeasureAdds(c, clock, s, spec, hypothesis, checked, reply);
    MeasureAccounts(c, s.trials, s.spent, Submissions(s.trace), t, b);
    MeasurementsAppend(s.trials, t);
    MeasurementStreams(EventsOf(s.trace), e1, e2, Measurements(s.trials), Submissions(s.trace), t, b);
  }

  lemma RunBenchmarkKeeps(c: Campaign, clock: Clock, s: AgentState, args: Option<BenchArgs>, reply: BenchReply)
    requires Inv(c, s)
    ensures Inv(c, CallRunBenchmark(c, clock, s, args, reply).0)
  {
    hide Accounts, Streams, Measure;
    if args.Some? && args.value.engine in c.engines {
      var spec := c.SpecFor(args.value.engine, args.value.config);
      var s1 := AfterCheck(c, clock, s);
      InvIgnoresRest(c, s, s1);
      if Exhausted(c, clock, s).Some? {
        EmitKeeps(c, clock, s1, Warn, ExhaustionText(Exhausted(c, clock, s).value));
      } else if FindTrial(s.trials, spec).Some? {
        var prior := FindTrial(s.trials, spec).value;
        FoundTrial(s.trials, spec);
        ReuseKeeps(c, s, CallRunBenchmark(c, clock, s, args, reply).0,
                   Trial(spec, prior.result, prior.err, 0, args.value.hypothesis, true));
      } else {
        MeasureKeeps(c, clock, s1, spec, args.value.hypothesis, clock(s.ticks) - s.started, reply);
      }
    }
  }

  lemma RecommendKeeps(c: Campaign, clock: Clock, s: AgentState, args: Option<RecArgs>)
    requires Inv(c, s)
    ensures Inv(c, CallRecommend(c, clock, s, args).0)
  {
    hide Accounts, Streams, FindTrial, EventsOf, Submissions, Measurements;
    if args.Some? {
      var s1 := CallRecommend(c, clock, s, args).0;
      InvIgnoresRest(c, s, s.(recommendation := s1.recommendation));
      EmitKeeps(c, clock, s.(recommendation := s1.recommendation), Done, args.value.reasoning);
    }
  }

  lemma BlockKeeps(c: Campaign, clock: Clock, s: AgentState, block: Block)
    requires Inv(c, s)
    ensures Inv(c, AfterBlock(c, clock, s, block))
  {
    hide Inv, CallRunBenchmark, CallRecommend;
    match block
    case TextBlock(text) => EmitKeeps(c, clock, s, Plan, text);
    case ThinkingBlock(text) => EmitKeeps(c, clock, s, Thinking, text);
    case OtherBlock =>
    case ToolUse(_, call) =>
      match call
      case ListWorkers(_) => EmitKeeps(c, clock, s, Lookup, "checking registered workers");
      case Classify(_, _) => EmitKeeps(c, clock, s, Lookup, "classifying workload shape");
      case Historical(engine, _) =>
        if engine.Some? {
          var s1 := Emit(clock, s, Lookup, "looking up past " + engine.value + " results", None, None);
          EmitKeeps(c, clock, s, Lookup, "looking up past " + engine.value + " results");
          InvIgnoresRest(c, s1, s1.(ticks := s1.ticks + 1));
        }
      case RunBenchmark(args, reply) => RunBenchmarkKeeps(c, clock, s, args, reply);
      case Recommend(args) => RecommendKeeps(c, clock, s, args);
      case UnknownTool =>
  }

  lemma {:induction false} BlocksKeep(c: Campaign, clock: Clock, s: AgentState, blocks: seq<Block>)
    requires Inv(c, s)
    ensures Inv(c, AfterBlocks(c, clock, s, blocks))
    decreases blocks
  {
    hide Inv, AfterBlock;
    if blocks != [] {
      BlockKeeps(c, clock, s, blocks[0]);
      BlocksKeep(c, clock, AfterBlock(c, clock, s, blocks[0]), blocks[1..]);
    }
  }

  lemma ConcludeKeeps(c: Campaign, clock: Clock, s: AgentState)
    requires Inv(c, s)
    ensures Inv(c, Conclude(clock, s).state)
  {
    hide Accounts, Streams, BestTrial;
    if BestTrial(s.trials).Some? {
      EmitKeeps(c, clock, s, Warn, "planner ended without a recommendation");
      var s1 := Emit(clock, s, Warn, "planner ended without a recommendation", None, None);
      InvIgnoresRest(c, s1, Conclude(clock, s).state);
    }
  }

  lemma {:induction false} RunFromKeeps(c: Campaign, clock: Clock, s: AgentState, script: seq<PlannerReply>)
    requires Inv(c, s)
    ensures Inv(c, RunFrom(c, clock, s, script).state)
    decreases script
  {
    hide Inv, AfterBlocks, Conclude;
    if s.turns >= c.budget.maxTurns {
      ConcludeKeeps(c, clock, s);
    } else if script == [] || script[0].PlannerError? {
      InvIgnoresRest(c, s, s.(turns := s.turns + 1));
    } else {
      var s1 := Received(s, script[0].usage);
      InvIgnoresRest(c, s, s1);
      BlocksKeep(c, clock, s1, script[0].content);
      var s2 := AfterBlocks(c, clock, s1, script[0].content);
      ConcludeKeeps(c, clock, s2);
      RunFromKeeps(c, clock, s2, script[1..]);
    }
  }

  /** Every run keeps its accounts and streams a faithful feed. */
  lemma RunKeeps(c: Campaign, clock: Clock, script: seq<PlannerReply>)
    requires c.Valid()
    ensures Inv(c, Run(c, clock, script).state)
  {
    hide Inv, RunFrom;
    InitialInv(c, clock);
    RunFromKeeps(c, clock, Initial(clock), script);
  }
}
