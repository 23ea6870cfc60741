/**
 Concrete planners, for showing what the campaign loop can be made to do: a clock that stands
 still and a planner that asks for one configuration after the other.
 */
module Scripts {
  import opened Domain
  import opened AgentSpec
  import opened AgentInvariants
  import AgentTheorems

  const STILL: Clock := n => 0

  const WHY := "try this one"

  /** Configuration number `k`, different for every `k`. */
  function SpecOf(c: Campaign, k: nat): TrialSpec
    requires c.engines != []
  {
    c.SpecFor(c.engines[0], EngineConfig("", 0, 0, k, 0.0))
  }

  function ArgsFor(c: Campaign, k: nat): BenchArgs
    requires c.engines != []
  {
    BenchArgs(c.engines[0], WHY, SpecOf(c, k).engineConfig)
  }

  function Ask(c: Campaign, k: nat, reply: BenchReply): Block
    requires c.engines != []
  {
    ToolUse("call", RunBenchmark(Some(ArgsFor(c, k)), reply))
  }

  function TrialOf(c: Campaign, k: nat, reply: BenchReply): Trial
    requires c.engines != []
  {
    Trial(SpecOf(c, k), reply.result, ErrorText(reply), 0, WHY, false)
  }

  function StartOf(c: Campaign, k: nat): Event
    requires c.engines != []
  {
    Event(TrialStart, WHY, Some(SpecOf(c, k)), None, 0)
  }

  function OutcomeOf(c: Campaign, k: nat, reply: BenchReply): Event
    requires c.engines != []
  {
    if reply.err.Some? then Event(TrialFailed, ErrorText(reply), Some(SpecOf(c, k)), None, 0)
    else Event(TrialDone, "", Some(SpecOf(c, k)), Some(reply.result), 0)
  }

  /** What a benchmark of configuration `k` does to the world. */
  function ActionsOf(c: Campaign, k: nat, reply: BenchReply): seq<Action>
    requires c.engines != []
  {
    [Emitted(StartOf(c, k)), Benchmarked(Submission(SpecOf(c, k), 0, reply)), Emitted(OutcomeOf(c, k, reply))]
  }

  function TraceOf(c: Campaign, replies: seq<BenchReply>): seq<Action>
    requires c.engines != []
  {
    if replies == [] then []
    else
      var n := |replies| - 1;
      TraceOf(c, replies[..n]) + ActionsOf(c, n, replies[n])
  }

  /** The state after asking for the first `n` configurations and nothing else. */
  ghost predicate HasAsked(c: Campaign, s: AgentState, replies: seq<BenchReply>, n: nat)
    requires c.engines != [] && n <= |replies|
  {
    && s.started == 0 && s.recommendation.None? && s.spent == n == |s.trials|
    && (forall i :: 0 <= i < n ==> s.trials[i] == TrialOf(c, i, replies[i]))
    && s.trace == TraceOf(c, replies[..n])
  }

  lemma AskSubmits(c: Campaign, s: AgentState, k: nat, reply: BenchReply)
    requires c.Valid() && s.started == 0 && s.spent < c.budget.maxTrials
    requires forall i :: 0 <= i < |s.trials| ==> s.trials[i].spec != SpecOf(c, k)
    ensures var s1 := AfterBlock(c, STILL, s, Ask(c, k, reply));
            && s1.trials == s.trials + [TrialOf(c, k, reply)] && s1.spent == s.spent + 1
            && s1.started == s.started && s1.recommendation == s.recommendation
            && s1.turns == s.turns && s1.usage == s.usage
            && s1.trace == s.trace + ActionsOf(c, k, reply)
  {
    hide FindTrial;
    FoundTrial(s.trials, SpecOf(c, k));
    assert STILL(s.ticks) == 0;
  }

  lemma AskedOneMore(c: Campaign, s: AgentState, replies: seq<BenchReply>, n: nat)
    requires c.Valid() && n < |replies| && n < c.budget.maxTrials && HasAsked(c, s, replies, n)
    ensures var s1 := AfterBlock(c, STILL, s, Ask(c, n, replies[n]));
            HasAsked(c, s1, replies, n + 1) && s1.turns == s.turns && s1.usage == s.usage
  {
    hide AfterBlock;
    AskSubmits(c, s, n, replies[n]);
    assert replies[..n + 1][..n] == replies[..n];
    assert TraceOf(c, replies[..n + 1]) == TraceOf(c, replies[..n]) + ActionsOf(c, n, replies[n]);
  }

  // ----- all in one reply

  function Asks(c: Campaign, replies: seq<BenchReply>): seq<Block>
    requires c.engines != []
  {
    seq(|replies|, i requires 0 <= i < |replies| => Ask(c, i, replies[i]))
  }

  lemma {:induction false} AskedAll(c: Campaign, s: AgentState, replies: seq<BenchReply>, n: nat, more: seq<Block>)
    requires c.Valid() && n <= |replies| <= c.budget.maxTrials && HasAsked(c, s, replies, n)
    ensures exists s1 ::
              && HasAsked(c, s1, replies, |replies|) && s1.turns == s.turns && s1.usage == s.usage
              && AfterBlocks(c, STILL, s, Asks(c, replies)[n..] + more) == AfterBlocks(c, STILL, s1, more)
    decreases |replies| - n
  {
    hide HasAsked, AfterBlock;
    var blocks := Asks(c, replies)[n..] + more;
    if n == |replies| {
      assert blocks == more;
    } else {
      assert blocks[0] == Ask(c, n, replies[n]) && blocks[1..] == Asks(c, replies)[n + 1..] + more;
      AskedOneMore(c, s, replies, n);
      AskedAll(c, AfterBlock(c, STILL, s, blocks[0]), replies, n + 1, more);
    }
  }

  // ----- one a turn

  /** The planner asks for one configuration a turn and stops after the last. */
  function Turns(c: Campaign, replies: seq<BenchReply>): seq<PlannerReply>
    requires c.engines != []
  {
    seq(|replies|, i requires 0 <= i < |replies| =>
      Response(if i == |replies| - 1 then StopOther else StopToolUse, NO_USAGE, [Ask(c, i, replies[i])]))
  }

  lemma {:induction false} TurnsAsk(c: Campaign, s: AgentState, replies: seq<BenchReply>, n: nat) returns (s1: AgentState)
    requires c.Valid() && n < |replies| <= c.budget.maxTrials && |replies| <= c.budget.maxTurns
    requires HasAsked(c, s, replies, n) && s.turns == n
    ensures HasAsked(c, s1, replies, |replies|) && s1.turns == |replies|
    ensures RunFrom(c, STILL, s, Turns(c, replies)[n..]) == Conclude(STILL, s1)
    decreases |replies| - n
  {
    hide Conclude, AfterBlock, TraceOf;
    var script := Turns(c, replies)[n..];
    var next := Received(s, NO_USAGE);
    assert script[0].content == [Ask(c, n, replies[n])] && script[0].usage == NO_USAGE;
    assert script[1..] == Turns(c, replies)[n + 1..];
    AskedOneMore(c, next, replies, n);
    s1 := AfterBlock(c, STILL, next, Ask(c, n, replies[n]));
    OneBlock(c, next, Ask(c, n, replies[n]));
    if n + 1 < |replies| {
      s1 := TurnsAsk(c, s1, replies, n + 1);
    }
  }

  lemma OneBlock(c: Campaign, s: AgentState, block: Block)
    ensures AfterBlocks(c, STILL, s, [block]) == AfterBlock(c, STILL, s, block)
  {
    hide AfterBlock;
    assert [block][1..] == [];
    assert AfterBlocks(c, STILL, AfterBlock(c, STILL, s, block), []) == AfterBlock(c, STILL, s, block);
  }

  lemma NothingAsked(c: Campaign, s: AgentState, replies: seq<BenchReply>)
    requires c.engines != [] && s.started == 0 && s.recommendation.None? && s.spent == 0
    requires s.trials == [] && s.trace == []
    ensures HasAsked(c, s, replies, 0)
  {
    assert replies[..0] == [];
  }

  /** All benchmarks fail, so the run gives up after the last turn. */
  lemma AllFail(c: Campaign, replies: seq<BenchReply>)
    requires c.Valid() && 0 < |replies| <= c.budget.maxTrials && |replies| <= c.budget.maxTurns
    requires forall i :: 0 <= i < |replies| ==> ErrorText(replies[i]) != ""
    ensures var o := Run(c, STILL, Turns(c, replies));
            && HasAsked(c, o.state, replies, |replies|) && o.state.turns == |replies|
            && o.err == Some(NoRecommendation)
  {
    hide RunFrom, TraceOf, BestTrial;
    NothingAsked(c, Initial(STILL), replies);
    assert Turns(c, replies)[0..] == Turns(c, replies);
    var s1 := TurnsAsk(c, Initial(STILL), replies, 0);
    AgentTheorems.NoBest(s1.trials);
  }

  // ----- what a repeat is answered

  /** All trials spent in one reply. */
  lemma AllSpent(c: Campaign, replies: seq<BenchReply>, more: seq<Block>) returns (s: AgentState)
    requires c.Valid() && |replies| <= c.budget.maxTrials
    ensures HasAsked(c, s, replies, |replies|)
    ensures AfterBlocks(c, STILL, Received(Initial(STILL), NO_USAGE), Asks(c, replies) + more)
            == AfterBlocks(c, STILL, s, more)
  {
    hide AfterBlocks, HasAsked, Asks;
    var s0 := Received(Initial(STILL), NO_USAGE);
    NothingAsked(c, s0, replies);
    AskedAll(c, s0, replies, 0, more);
    s :| HasAsked(c, s, replies, |replies|) && s.turns == s0.turns && s.usage == s0.usage
         && AfterBlocks(c, STILL, s0, Asks(c, replies)[0..] + more) == AfterBlocks(c, STILL, s, more);
    assert Asks(c, replies)[0..] == Asks(c, replies);
  }

  lemma ExhaustedRefuses(c: Campaign, s: AgentState, args: BenchArgs, reply: BenchReply)
    requires s.started == 0 && s.spent >= c.budget.maxTrials && args.engine in c.engines
    ensures var after := CallRunBenchmark(c, STILL, s, Some(args), reply);
            && after.1 == Refused(TrialBudget) && after.0.recommendation == s.recommendation
            && after.0.trace == s.trace + [Emitted(Event(Warn, ExhaustionText(TrialBudget), None, None, 0))]
  {
    hide FindTrial, Measure;
    assert STILL(s.ticks) == 0;
  }

  lemma ConcludeExtends(s: AgentState)
    ensures s.trace <= Conclude(STILL, s).state.trace
  {
    hide BestTrial;
  }

  /** A planner that stops without a recommendation after one reply. */
  lemma OneReply(c: Campaign, blocks: seq<Block>)
    requires c.Valid()
    ensures var s := AfterBlocks(c, STILL, Received(Initial(STILL), NO_USAGE), blocks);
            s.recommendation.None? ==> Run(c, STILL, [Response(StopOther, NO_USAGE, blocks)]) == Conclude(STILL, s)
  {
    hide AfterBlocks, Conclude;
    var script := [Response(StopOther, NO_USAGE, blocks)];
    assert script[0].usage == NO_USAGE && script[0].content == blocks;
  }

  lemma LastReply(c: Campaign, blocks: seq<Block>)
    requires c.Valid()
    ensures var s := AfterBlocks(c, STILL, Received(Initial(STILL), NO_USAGE), blocks);
            s.recommendation.None? ==>
              s.trace <= Run(c, STILL, [Response(StopOther, NO_USAGE, blocks)]).state.trace
  {
    hide *;
    OneReply(c, blocks);
    ConcludeExtends(AfterBlocks(c, STILL, Received(Initial(STILL), NO_USAGE), blocks));
  }

  /**
   Every campaign has a run in which a measured configuration is asked for again and refused:
   the planner spends all trials in one reply and then repeats the first one. The answer is a
   refusal, and what the run shows for it is a warning.
   */
  lemma ARepeatIsRefused(c: Campaign, replies: seq<BenchReply>, again: BenchReply) returns (s: AgentState)
    requires c.Valid() && |replies| == c.budget.maxTrials
    ensures s.trials != [] && s.trials[0] == TrialOf(c, 0, replies[0]) && !s.trials[0].reused
    ensures CallRunBenchmark(c, STILL, s, Some(ArgsFor(c, 0)), again).1 == Refused(TrialBudget)
    ensures AfterBlocks(c, STILL, Received(Initial(STILL), NO_USAGE), Asks(c, replies) + [Ask(c, 0, again)])
            == CallRunBenchmark(c, STILL, s, Some(ArgsFor(c, 0)), again).0
    ensures TraceOf(c, replies) + [Emitted(Event(Warn, ExhaustionText(TrialBudget), None, None, 0))]
            <= Run(c, STILL, [Response(StopOther, NO_USAGE, Asks(c, replies) + [Ask(c, 0, again)])]).state.trace
  {
    hide AfterBlocks, CallRunBenchmark, TraceOf, Run, Asks;
    s := AllSpent(c, replies, [Ask(c, 0, again)]);
    OneBlock(c, s, Ask(c, 0, again));
    ExhaustedRefuses(c, s, ArgsFor(c, 0), again);
    LastReply(c, Asks(c, replies) + [Ask(c, 0, again)]);
    assert replies[..|replies|] == replies;
  }

  /** And one in which the repeat of a configuration that failed is answered like a success. */
  lemma AFailureIsRepeatedAsSuccess(c: Campaign, failed: BenchReply, again: BenchReply) returns (s: AgentState)
    requires c.Valid() && c.budget.maxTrials >= 2 && ErrorText(failed) != ""
    ensures AfterBlocks(c, STILL, Received(Initial(STILL), NO_USAGE), [Ask(c, 0, failed)]) == s
    ensures var after := CallRunBenchmark(c, STILL, s, Some(ArgsFor(c, 0)), again);
            && after.1 == ReusedResult(failed.result) && !after.1.IsError()
            && |after.0.trials| == 2 && after.0.trials[1].err == ErrorText(failed)
  {
    hide TraceOf;
    var s0 := Received(Initial(STILL), NO_USAGE);
    NothingAsked(c, s0, [failed]);
    AskedOneMore(c, s0, [failed], 0);
    OneBlock(c, s0, Ask(c, 0, failed));
    s := AfterBlock(c, STILL, s0, Ask(c, 0, failed));
    assert s.trials[0].spec == SpecOf(c, 0);
    assert FindTrial(s.trials, SpecOf(c, 0)) == Some(s.trials[0]);
    assert STILL(s.ticks) == 0;
  }

  /** And one, with two turns to spend, that measures an eligible trial and recommends nothing:
      the second planner call fails. */
  lemma AFallbackIsMissed(c: Campaign, reply: BenchReply)
    requires c.Valid() && c.budget.maxTurns >= 2
    requires reply.err.None? && reply.result.tokPerSec > 0.0
    requires reply.result.errorRate <= 0.0 && reply.result.costPerMTok > 0.0
    ensures var o := Run(c, STILL, [Response(StopToolUse, NO_USAGE, [Ask(c, 0, reply)])]);
            && o.err == Some(PlannerFailed) && o.state.recommendation.None?
            && |o.state.trials| == 1 && Pickable(o.state.trials[0])
  {
    hide TraceOf, AfterBlock, AfterBlocks, Conclude;
    var script := [Response(StopToolUse, NO_USAGE, [Ask(c, 0, reply)])];
    var s0 := Received(Initial(STILL), NO_USAGE);
    NothingAsked(c, s0, [reply]);
    AskedOneMore(c, s0, [reply], 0);
    OneBlock(c, s0, Ask(c, 0, reply));
    var s1 := AfterBlock(c, STILL, s0, Ask(c, 0, reply));
    assert script[1..] == [];
    assert RunFrom(c, STILL, s1, []) == Outcome(s1.(turns := s1.turns + 1), Some(PlannerFailed));
  }
}
