# A verified model of InferBolt's optimization campaigns

InferBolt benchmarks inference engines. Its most intricate part is the *campaign*: a planner
(a language model) proposes engine configurations, an agent loop measures them within a hard
budget, a queue worker makes the loop durable, an event log records every step, and a client
follows the log and folds it into a feed. This project models that system end to end in Dafny,
together with the statistics that watch for drift, the Pareto search, the rate limiter and the
command line's line breaker, and proves what the documentation promises about them. Where code
and documentation disagree, the model follows the code, and the exact condition under which the
promise holds is proved.

`dafny verify dfyconfig.toml` checks the whole project.

## How it is built

| file | what it models |
|---|---|
| `Domain` | trials, budgets, campaigns, reports, events |
| `AgentSpec`, `Agent` | the agent loop: as a function of the planner's script, the platform's answers and the clock; and as the class whose methods update its fields |
| `AgentInvariants`, `AgentTheorems`, `Recommendations`, `Citations` | what every run keeps; the budget, the accounts, the verdict; where every recommended figure comes from, and when there is one |
| `AgentClock`, `AgentReadings`, `AgentWords` | how time is spent; which readings of the clock a report shows; what a run passes on and in which order it acts |
| `ErrorTexts`, `Scripts` | that the agent does not look at the text of an error; concrete planners that show what it can be made to do |
| `FeedSpec`, `Feed`, `FeedLaw`, `FeedTheorems`, `FeedLoss` | the feed as a function of the log, as a loop over shared mutable cards, what it makes of any log, and of one with losses |
| `Store`, `Platform`, `Worker`, `Follow` | the row and the event table, a benchmark's path to a job, one queue delivery, the page handler and the following client - as classes and methods |
| `Protocol`, `ProtocolInvariants`, `CampaignTheorems`, `RowTheorems`, `StoredFeed` | one campaign as a transition system, what holds in every interleaving, of the row up to the feed of the stored table |
| `Continuations`, `Limits` | what can still become of a campaign from any reachable state; what the guarantees rest on and what a cancellation does |
| `DriftStats`, `DriftSpec`, `Drift` | order statistics, baselines and severities; the detector over arrays and a map |
| `Measurement`, `Pareto`, `Fallback` | throughput, error rate and cost; the frontier; the fallback under the cost law |
| `RateLimit`, `IndentWrap`, `WrapLines` | the per-tenant limiter; the greedy line breaker and the lines it writes |

**The agent loop** is driven by arbitrary scripts: any sequence of planner replies, any number
of tool calls in a reply, any outcome of every benchmark, any clock that does not run backwards.
A script that ends early stands for a planner call that fails. The actions of a run - events
emitted and benchmarks submitted - are recorded in order.

**The protocol** has one row, one event table, any number of deliveries with a program counter
each, any number of followers, cancellations by any tenant, crashes, and store calls that fail
before or after they take effect. A step is one SQL statement or one local action. A delivery
that wins the claim commits to an arbitrary run of the agent and then plays its actions one by
one; that covers every behaviour because the run depends on nothing but its script, its clock
and the answers of the platform, and a step that stops a benchmark must agree with the answer
the run was given.

**Between the two**, each imperative method is proved against a function of the specification,
and lemmas about those functions state the properties. `Worker` and `Platform` show that the
programs take exactly steps of the protocol, benchmarks included.

## Where code and documentation differ

* *"Re-requesting a configuration already measured returns the earlier result"* (`README.md`,
  line 225). The budget is asked first, so this holds exactly when the budget is not exhausted
  (`RepeatIsServedIffBudgetLeft`); every campaign has a run in which a repeat is refused
  (`ARepeatIsRefused`).
* *"If the planner ends without concluding, the campaign still reports the cheapest error-free
  trial"* (`README.md`, line 225). With an eligible trial there is no recommendation exactly when the
  planner is cut short: a call fails - the run's own deadline included - or is declined, with turns
  left, before the planner submits something or stops by itself (`FallbackIsMissedIff`,
  `AFallbackIsMissed`).
* *"A failed trial is handed back to the planner as an error"* (`README.md`, line 229). With
  budget left, a request that comes to a failed trial is answered with an error exactly when the
  campaign has no trial of that configuration yet; asking again is answered like a success
  (`FailureIsHandedBackIffFresh`, `AFailureIsRepeatedAsSuccess`).
* *A cancellation stops the run* (`internal/campaigns/platform.go`, lines 16-19). To the agent it
  is an error like any other: the run would be the same had the platform answered with an
  arbitrary error instead (`CancellationIsAnyError`). A cancelled campaign can go through as many
  planner turns as it has trials, recording a failed trial each (`CancelledCampaignGoesOn`). No
  path of the agent returns the cancellation, so the worker's branch for it is never taken.
* *A follower returns once the campaign reaches a terminal state* having shown it. The state is
  read before the page and the page is limited. The page that stops a follower completes its
  picture exactly when at most one page was missing (`StopsCompleteIff`). Having stopped on a
  short page means having seen everything exactly when the campaign was not cancelled
  (`ShortStopIsFinalIff`); a follower of a cancelled one keeps the whole picture exactly when no
  delivery has an event left to emit (`PictureStaysWholeIff`). "Left to emit" is about the run that
  the delivery has committed to, and the continuations include those in which a check cannot read
  the state.
* *"A failure to record an event must not take down a run"* (`internal/campaigns/worker.go`, lines
  100-102), but it can make the feed wrong: its cards are right exactly when no start and no
  outcome of a trial was lost (`CardsAreRightIff`). With two appends lost a card shows one trial's
  configuration with another one's result (`LostAppendsMisattribute`).
* *Terminal states.* The statements that complete and fail a row guard only against `cancelled`, so
  each would overwrite the other's state (`GuardsProtectOnlyCancelled` spells the cases out); that
  no terminal state is ever left rests on the claim
  (`TerminalIsForGood`). Its other side: a running campaign can still end by itself exactly when
  some delivery holds it (`RunningEndsIffHeld`), and a lost answer to the claim or a crash leaves
  one that nobody holds (`LostClaimStrands`, `CrashStrands`).
* *"A flat 100 requests/minute"* (`README.md`, line 299) holds for a sixty-second window exactly
  when the window is a clock minute; any window admits at most 200
  (`LimitHoldsExactlyForClockMinutes`, `WindowIsLimited`).
* *Tool calls after a recommendation* in the same reply still run, so a report can hold a usable
  trial that its recommendation does not cite (`LateMeasurementIsNotCited`). A submitted
  recommendation carries figures exactly when a usable benchmark of its configuration comes before
  the last submission (`CitedIffMeasuredBeforeSubmission`).

Two statements are about inputs that the code does not receive today. Severity follows the metric
exactly when the baseline is not negative (`SeverityMonotoneIff`); the detector does not check
this, but the metrics it is fed are not negative. A percentile asked for slightly below zero
extrapolates instead of returning the minimum (`PercentileInRange` says exactly when); the only
call passes 0.95.

## Model

| member | source | states |
|---|---|---|
| Agent.Agent.Exhausted | internal/agent/budget.go:110-119 | the trial cap is asked before the clock, the clock is read only when trials are left and once more to word that time is up, and the reason is the one of the specification |
| Agent.Agent.FindTrial | internal/agent/tools.go:380-387 | the search loop returns the first trial of the specification, if any |
| Agent.Agent.CallRunBenchmark | internal/agent/tools.go:275-340 | the tool call, branch by branch, changes trials, spend and trace exactly as specified: parse, engine, budget, reuse, measure |
| Agent.Agent.Measure | internal/agent/tools.go:318-339 | a submitted benchmark is one start event, one platform call, one unit of budget, one trial and one outcome event, in that order |
| Agent.Agent.CallRecommend | internal/agent/tools.go:342-377 | a submission replaces the recommendation and attaches the figures of a usable earlier trial |
| Agent.Agent.BestTrial | internal/agent/agent.go:313-325 | the loop over `best` and `found` returns the first cheapest eligible trial's specification |
| Agent.Agent.ConcludeFromTrials | internal/agent/agent.go:285-308 | the fallback recommendation or the error, and the warning event |
| Agent.Agent.Run | internal/agent/agent.go:175-263 | the loop over turns ends in the state and error of the specified run |
| AgentInvariants.RunKeeps | internal/agent/tools.go:275-387 | the accounts and the event stream are right after every run, for every planner |
| AgentInvariants.MeasurementStreams | internal/agent/tools.go:318-335 | a start and its outcome extend every prefix of the stream to a right feed |
| AgentTheorems.EveryRunIsAccounted | internal/agent/tools.go:290-334 | spend = platform calls = measured trials, at most MaxTrials; each started in time, within the campaign's fixed dimensions, and reported as answered; no configuration measured twice; reuses copy an earlier measurement |
| AgentTheorems.ExhaustionIsPermanent | internal/agent/budget.go:107-119 | once the budget is exhausted nothing is submitted any more, whatever the planner asks |
| AgentClock.BenchmarkTimeIsBounded | internal/agent/budget.go:107-119 | event times never go back; all benchmarks but the last together take less than MaxDuration, and all of them at most MaxDuration if the last one returned within the limit |
| AgentReadings.EveryTimeIsRead | internal/agent/tools.go:318-335 | for every run and clock there are increasing reading positions such that each event shows its own reading and each trial's duration is the difference of the two readings around its platform call, the budget check, the start and the outcome taking the readings around them |
| AgentWords.EveryWordIsPassedOn | internal/agent/agent.go:201-257 | the planner is called until a call fails, is declined, stops by itself or submits, and at most MaxTurns times; every plan, thought, lookup and conclusion of the replies read is passed on once, in order |
| AgentWords.EveryBenchmarkIsAnnounced | internal/agent/tools.go:318-335 | in every run each benchmark stands right between an event that announces its specification and one that tells its result or its error, and there are no other such events |
| AgentTheorems.SubmittedIffFresh | internal/agent/tools.go:285-334 | a request reaches the platform exactly when its engine is allowed, budget is left and no trial has that configuration, with the planner's engine and knobs and its hypothesis on the trial |
| AgentTheorems.UnmeasuredRequestLeaves | internal/agent/tools.go:285-316 | any other request leaves a warning when the budget is exhausted, a reused trial that took no time when the configuration was tried, and nothing at all when the engine is not allowed |
| AgentTheorems.PlannerIsToldWhatIsLeft | internal/agent/tools.go:327-339 | after a benchmark the planner is told the cap minus the benchmarks submitted and, after a success, the time left at the last reading |
| AgentTheorems.TheLastWordStands | internal/agent/tools.go:355-376 | a run recommends what the planner submitted last in the first reply that submits anything, field by field; any other recommendation is mechanical |
| AgentTheorems.RepeatIsServedIffBudgetLeft | README.md:225 | a repeated configuration is answered with an earlier trial's result exactly when the budget is not exhausted, refused for the budget that is otherwise, and never spends a trial |
| AgentTheorems.EveryRunEnds | internal/agent/agent.go:201-263 | at most MaxTurns planner calls; no error exactly with a recommendation; giving up only without an eligible trial; mechanical exactly when the planner submitted nothing; each of the four token counts is the integer sum over the replies received |
| AgentTheorems.FallbackIsMissedIff | internal/agent/agent.go:201-262 | with an eligible trial in the report, there is no recommendation exactly when the planner's replies are cut short: a failed or declined call with turns left, before any reply that submits or stops |
| AgentTheorems.RunFromCutShort | internal/agent/agent.go:201-257 | from any point of a run without a recommendation, it ends with a failed planner call, or with a declined one, exactly when the rest of the script is cut short that way within the turns left |
| AgentTheorems.FailureIsHandedBackIffFresh | internal/agent/tools.go:307-332 | with budget left, a request that comes to a failed trial, now or from before, is answered with an error exactly when the campaign has no trial of that configuration yet |
| Scripts.ARepeatIsRefused | internal/agent/tools.go:290-297 | every campaign has a run that spends its trials, asks for the first configuration again and is refused |
| Scripts.AFailureIsRepeatedAsSuccess | internal/agent/tools.go:307-316 | every campaign with two trials has a run in which the repeat of a failed configuration is answered like a success |
| Scripts.AFallbackIsMissed | internal/agent/agent.go:212-214 | every campaign with two turns has a run that measures an eligible trial and recommends nothing |
| ErrorTexts.RunIsBlindToErrorTexts | internal/agent/tools.go:321-332 | a run with reworded errors is the run, reworded: no decision depends on the text of an error |
| Recommendations.BestIsFirstCheapest | internal/agent/agent.go:310-325 | the pick is eligible, no eligible trial is cheaper, and every earlier one is dearer |
| Recommendations.PickIsMeasured | internal/agent/agent.go:313-325 | the pick is never a reused trial, because reuses copy an earlier one |
| Recommendations.PickIsFastest | internal/agent/agent.go:310-312 | at one price the cheapest pick is the fastest usable error-free trial, and exists as soon as there is one |
| Recommendations.SameSpecSameMeasurement | internal/agent/tools.go:307-316 | all trials of one configuration agree on the outcome |
| Recommendations.MeasuredIffUsableTrialNow | internal/agent/tools.go:364-372 | a recommendation carries figures exactly when a usable trial of that configuration exists at that moment |
| Recommendations.EveryFigureWasMeasured | README.md:229 | every recommended figure is the platform's answer to a benchmark of exactly that configuration in this campaign; a mechanical one is the first cheapest trial's |
| Recommendations.LateMeasurementIsNotCited | internal/agent/agent.go:230-251 | a benchmark after the submission in the same reply still runs and is not cited |
| Citations.CitedIffMeasuredBeforeSubmission | internal/agent/tools.go:364-375 | over a whole run, a submitted recommendation carries figures exactly when a usable benchmark of its configuration comes before the last submission |
| Fallback.FallbackIsFastest | internal/agent/agent.go:310-312 | with figures computed by the workers, the mechanical recommendation of a whole run is its fastest usable error-free trial |
| Feed.BuildFeed | ui/src/components/campaign.tsx:69-113 | the loop over shared mutable cards yields the feed of the specification, with the open card aliased into the list |
| Feed.CloseCard | ui/src/components/campaign.tsx:92-99 | closing through the reference changes that one item and no other |
| FeedLaw.FeedShowsTheLog | ui/src/components/campaign.tsx:69-113 | of any log, the items show in order every event that is not the outcome a trial was waiting for; a trial's card shows its start, and the outcome that is the next mark after it or that it still runs; a stray outcome is narration |
| FeedTheorems.EveryEventIsUsedOnce | ui/src/components/campaign.tsx:73-110 | for any log, every event makes one item or closes one running card |
| FeedTheorems.ItemsShowEvents | ui/src/components/campaign.tsx:75-109 | every item shows an event of the log under that event's number |
| FeedTheorems.KeysAreDistinct | ui/src/components/campaign.tsx:77-108 | on a numbered log the items' keys are distinct and in order |
| FeedLoss.FeedShowsDeck | ui/src/components/campaign.tsx:70-110 | the cards alone are a fold of their own, in which the open card is always the last |
| FeedLoss.CardsSurviveIff | ui/src/components/campaign.tsx:73-110 | for any stream without stray outcomes and any loss, the cards are unchanged exactly when only narration was lost |
| FeedLoss.NarratesTheRest | ui/src/components/campaign.tsx:92-109 | without stray outcomes, exactly the events of no trial become narration |
| Store.CampaignStore.MarkRunning | internal/campaigns/store.go:136-146 | only a pending row is claimed; the claim is reported only when the call came back |
| Store.CampaignStore.Complete | internal/campaigns/store.go:148-176 | the report is stored, or nothing when there is none; the state becomes completed unless it is cancelled |
| Store.CampaignStore.Fail | internal/campaigns/store.go:178-196 | the error is stored, partial work kept; the state becomes failed unless it is cancelled |
| Store.CampaignStore.Cancel | internal/campaigns/store.go:198-213 | cancelling is reported done exactly for a tenant's own pending or running campaign, and anyone else's call leaves the row alone |
| Store.CampaignStore.AppendEvent | internal/campaigns/store.go:225-251 | the event gets one more than the largest number so far |
| Store.CampaignStore.Events | internal/campaigns/store.go:253-286 | the rows past the cursor, oldest first, up to the limit |
| Store.AppendKeepsNumbering | internal/campaigns/store.go:225-245 | appending keeps the numbers 1, 2, 3, ... without gaps |
| Store.PageIsSlice | internal/campaigns/store.go:253-260 | on a gap-free table a page is the slice that starts where the cursor stands |
| Platform.Platform.RunBenchmark | internal/campaigns/platform.go:115-187 | the answer is the specified one; at most one job is saved and at most that one queued, exactly under the stated conditions; the answer is an error-free result exactly when check, validation, save, queue, completion and result all succeed |
| Platform.Platform.Collect | internal/campaigns/platform.go:165-186 | a result only from a job seen completed, and the first one of the engine asked for |
| Platform.WaitForJob | internal/campaigns/platform.go:189-211 | the polling loop ends at the first decisive tick; failed reads and jobs in progress are passed over |
| Platform.FindResult | internal/campaigns/platform.go:181-186 | the first result of the engine, or none exactly when there is none |
| Platform.ResultIffSeenCompleted | internal/campaigns/platform.go:165-211 | the answer carries a result exactly when the job was queued, seen completed after nothing but failed reads and unfinished states, and its results hold one of the engine |
| Platform.EndedJobAnswersItsText | internal/campaigns/platform.go:169-175 | a job first decided as failed or cancelled is answered with its own error text |
| Platform.TimesOutIffUndecided | internal/campaigns/platform.go:195-211 | the timeout is answered exactly when the deadline comes with the job still undecided |
| Platform.JobIffWithinBounds | README.md:301 | a benchmark becomes a job, and is queued, exactly within the documented bounds, with the campaign not known to be cancelled and the store working |
| Platform.BenchmarkTakesSteps | internal/campaigns/platform.go:119-163 | whatever the platform answers is the check and a rejection or save of the protocol, counting exactly the jobs it saves |
| Worker.Work | internal/campaigns/worker.go:73-133 | a delivery takes exactly steps of the protocol, with as many jobs as the platform saved; it enters the loop exactly when it loads, claims and builds; it asks for redelivery exactly when loading, claiming or finishing failed; with appends that take effect the table is the run's stream; the row is completed exactly when the run returns no error |
| Worker.RecordRun | internal/campaigns/worker.go:98-107 | the observer's appends, failing or not, and the platform's answers to the benchmarks are the steps of the protocol, in order |
| Worker.FinishRun | internal/campaigns/worker.go:114-146 | the row is completed or failed as the run's error says |
| ProtocolInvariants.ClaimsKept | internal/campaigns/store.go:133-146 | every step keeps: at most one delivery holds or has entered the loop, none while the row is pending, and none can still write once it is completed or failed |
| ProtocolInvariants.LogKept | internal/campaigns/store.go:225-227 | every step keeps: the table is the numbered stream of the one run, up to lost appends |
| ProtocolInvariants.CancelKept | internal/campaigns/platform.go:213-223 | every step keeps the bound on jobs saved after a cancellation |
| ProtocolInvariants.FollowKept | cmd/inferbolt/campaigns.go:139-168 | every step keeps every follower's rendering equal to the table up to its cursor |
| ProtocolInvariants.RunKeepsInv | internal/campaigns/worker.go:73-146 | all of this holds after any sequence of steps |
| CampaignTheorems.AtMostOneLoop | internal/campaigns/worker.go:85-96 | in every interleaving at most one delivery ever enters the agent loop |
| CampaignTheorems.RowFollowsEdges | internal/campaigns/store.go:133-213 | the row moves pending, running, terminal or pending, cancelled, one edge a step |
| RowTheorems.CancelledIffByItsTenant | internal/campaigns/store.go:198-213 | in every interleaving a campaign is cancelled exactly when its own tenant's cancellation took effect while it was pending or running, and its tenant never changes |
| RowTheorems.StrangersCancelNothing | internal/campaigns/store.go:198-213 | a cancellation by another tenant leaves the whole system as it is |
| RowTheorems.FinishedWorkIsKept | internal/campaigns/store.go:148-196 | once a finish took effect, the run's trials, usage, recommendation or error stay on the row in every continuation, also of a cancelled campaign |
| CampaignTheorems.TerminalIsForGood | internal/campaigns/store.go:148-196 | no terminal state is ever left |
| CampaignTheorems.StrandedForever | internal/campaigns/worker.go:87-96 | a running row that no delivery holds is never picked up again, and only a cancellation ends it |
| Continuations.RunningEndsIffHeld | internal/campaigns/worker.go:85-133 | from any reachable running state, some continuation completes or fails the campaign exactly when some delivery holds it |
| Continuations.LostClaimStrands | internal/campaigns/worker.go:87-90 | a claim that takes effect and whose answer is lost leaves a running campaign that nobody holds |
| Continuations.CrashStrands | internal/campaigns/worker.go:73-133 | so does a crash of whoever holds it |
| Continuations.PlayOut | internal/campaigns/worker.go:98-133 | a loop can always go on to its end, whatever its benchmarks were answered |
| CampaignTheorems.JobsAreBounded | internal/campaigns/platform.go:119-146 | at most MaxTrials jobs in a campaign's life; after a cancellation at most one, plus one per check that could not read the state |
| CampaignTheorems.LogIsTheRunsStream | internal/campaigns/store.go:225-227 | the table is gap-free and exactly what the one run has emitted so far, without the events whose append was lost |
| CampaignTheorems.FollowerRendersPrefix | cmd/inferbolt/campaigns.go:136-160 | a follower has rendered the table up to its cursor, nothing twice and nothing skipped |
| CampaignTheorems.StoppedFollowerSawEverything | internal/gateway/campaigns.go:206-220 | a short last page of a campaign whose runner is finished completes the picture |
| Protocol.PageCompletesIff | internal/gateway/campaigns.go:201-220 | a page completes a follower's picture of the table exactly when no more than a page was missing |
| StoredFeed.CardsAreRightIff | internal/campaigns/worker.go:100-107 | at any moment of any campaign, the cards of the table are those of everything emitted exactly when every start and every outcome of a trial was recorded |
| StoredFeed.FeedShowsTheTrials | ui/src/components/campaign.tsx:60-113 | then the feed shows the measured trials in order, each closed with its own outcome, at most the last still running, and every other recorded event once; with the run played out, one closed card for each, however the row ended |
| StoredFeed.FollowerSeesTheTrials | cmd/inferbolt/campaigns.go:152-155 | so does the feed of what any follower has rendered at any moment: the agent's trials, through the table and its reader, on the screen |
| StoredFeed.LostAppendsMisattribute | internal/campaigns/worker.go:100-107 | every campaign with two trials has a run in which two lost appends leave one card, with the first trial's configuration and the second one's result |
| CampaignTheorems.CompletedRowIsAccounted | README.md:225-229 | a completed row holds one run's accounts, within budget, and a recommendation backed by them |
| Limits.CancellationIsAnyError | internal/campaigns/platform.go:16-19 | with every cancellation replaced by an arbitrary error, a run makes the same planner calls, spends the same and ends with the same error and recommendation |
| Limits.CancelledCampaignGoesOn | internal/campaigns/platform.go:119-122 | cancelled before its first benchmark, with every check reading the state, a campaign can still take as many planner turns as it has trials, each recording a failed trial; the row stays cancelled, no job is saved |
| Continuations.CancelledFollowerMissesAnEvent | internal/gateway/campaigns.go:215-220 | from any state with an event left to emit, a cancellation lets a caught-up follower stop before the event |
| Continuations.StoppedIsNotComplete | cmd/inferbolt/campaigns.go:136-159 | every campaign has a run in which a follower is told it is cancelled, stops on a short page, and an event is recorded later |
| Continuations.ShortStopIsFinalIff | cmd/inferbolt/campaigns.go:136-159 | stopping on a short page means having seen everything, in every run, exactly when the state told was not cancelled (or no agent can be built) |
| Continuations.LogIsFinalIffSilent | internal/campaigns/worker.go:98-107 | in a campaign that is over or running, no continuation adds to the table exactly when no delivery has an event left to emit |
| Continuations.PictureStaysWholeIff | cmd/inferbolt/campaigns.go:136-159 | a stopped follower with the whole picture keeps it in every continuation exactly when no delivery has an event left to emit |
| Follow.QueryIsClamped | internal/gateway/handlers.go:459-472 | the number in effect never exceeds the ceiling and is the caller's own exactly when it is within it |
| Follow.GetCampaignEvents | internal/gateway/campaigns.go:189-221 | not found, server error or the page past the cursor, with its last number, the state and whether that is terminal |
| Follow.FollowCampaign | cmd/inferbolt/campaigns.go:139-168 | the loop renders and stops exactly as the protocol's follower does |
| Follow.ShowsEveryEventOnce | cmd/inferbolt/campaigns.go:136-156 | whatever requests fail and however the table grows, what is shown is the table between the start and the cursor |
| Follow.StopsCompleteIff | cmd/inferbolt/campaigns.go:156-159 | over a whole follow, what the command has shown in the end is the whole table of its stopping request exactly when at most a page was missing then |
| Follow.LateFollowerShowsOnePage | cmd/inferbolt/campaigns.go:101-117 | a follower of a finished campaign shows its first page only |
| DriftStats.OrderedIsUnique | internal/drift/baseline.go:130-130 | two ordered lists of the same elements are equal |
| DriftStats.SortDominates | internal/drift/baseline.go:142-142 | sorting keeps a pointwise order between two lists |
| DriftStats.MedianIsHalf | internal/drift/baseline.go:127-158 | the percentile at 0.5 is the median, for either parity |
| DriftStats.PercentileMonotone | internal/drift/baseline.go:139-158 | a percentile does not fall as p grows from zero |
| DriftStats.PercentileEnds | internal/drift/baseline.go:139-158 | it is the minimum at 0 and the maximum at 1 |
| DriftStats.PercentileInRange | internal/drift/baseline.go:139-158 | it never exceeds the largest sample, and falls below the smallest exactly when p is negative, the index truncates to zero and the two smallest samples differ |
| DriftStats.PercentileForgetsOrder | internal/drift/baseline.go:139-142 | it does not depend on the order of the samples |
| DriftStats.PercentileDominates | internal/drift/baseline.go:139-158 | pointwise larger samples have no smaller percentile |
| DriftStats.MeanForgetsOrder | internal/drift/baseline.go:160-170 | the mean does not depend on the order of the samples |
| DriftStats.MeanInRange | internal/drift/baseline.go:160-170 | the mean lies between any bounds of the samples |
| DriftStats.MeanDominates | internal/drift/baseline.go:160-170 | pointwise larger samples have no smaller mean |
| DriftStats.MaxIsLargest | internal/drift/baseline.go:172-184 | the maximum is a sample that none exceeds |
| DriftStats.PercentileRank | internal/drift/baseline.go:139-158 | of n samples fewer than p(n-1)+1 lie below the percentile and fewer than (1-p)(n-1)+1 above it |
| DriftSpec.BaselineMeans | internal/drift/baseline.go:91-125 | a baseline needs five results; half of the p50 samples lie on either side of its first figure, 95% of the p99 samples below its second, the third is the mean throughput and the fourth the largest memory figure |
| DriftSpec.SummaryNoBetter | internal/drift/baseline.go:91-125 | a window no better sample by sample has a summary no better metric by metric |
| DriftSpec.SeverityIsShareOfBaseline | internal/drift/detector.go:204-248 | against a positive baseline, critical and warning mean exactly that the loss in the metric's direction reaches that share of the baseline |
| DriftSpec.SeverityMonotoneIff | internal/drift/detector.go:203-260 | severity follows the metric exactly when the baseline is not negative |
| DriftSpec.WorseWindowIsJudgedNoLower | internal/drift/detector.go:169-177 | such a window is classified no lower on any metric |
| DriftSpec.SummaryForgetsOrder | internal/drift/baseline.go:91-125 | a rearranged window has the same summary |
| DriftSpec.RearrangedWindowIsQuiet | internal/drift/detector.go:169-177 | against its own baseline a rearranged window raises no alert, whatever the thresholds |
| Drift.SortFloats | internal/drift/baseline.go:128-130 | the copy is sorted in place |
| Drift.ComputeMedian | internal/drift/baseline.go:127-137 | the median of a non-empty list, by parity |
| Drift.ComputePercentile | internal/drift/baseline.go:139-158 | the interpolated percentile, with its two clamps |
| Drift.ComputeMean | internal/drift/baseline.go:160-170 | the accumulating loop; zero for nothing |
| Drift.ComputeMax | internal/drift/baseline.go:172-184 | the scanning loop; zero for nothing |
| Drift.ComputeBaseline | internal/drift/baseline.go:91-125 | no baseline below five results, otherwise the four statistics |
| Drift.Detector.CheckMetric | internal/drift/detector.go:203-260 | the alert of a judgement, branch by branch |
| Drift.Detector.CheckEngineModel | internal/drift/detector.go:132-201 | the first sufficient window becomes the baseline unjudged, later ones are judged against it; with room throughout exactly the drifted metrics are sent; failing queries, reads and writes of the baseline are reported; other keys are untouched |
| Drift.Detector.SendAll | internal/drift/detector.go:179-197 | exactly the alerts that find room in the channel are sent, in order |
| Drift.CheckTellsWhatDrifted | internal/drift/detector.go:169-177 | against a stored baseline, one alert for every metric whose loss reaches a share of a non-zero baseline and for no other, in the order p50, p99, throughput, memory, with both figures, the loss in percent and the severity |
| Drift.DriftedIffJudged | internal/drift/detector.go:204-248 | a metric drifted exactly when it is judged warning or critical, whatever the sign of the baseline |
| Drift.SentIsWhatFits | internal/drift/detector.go:179-197 | what is sent are exactly the alerts that find room, each once and in order |
| Drift.RecheckIsQuiet | internal/drift/detector.go:155-177 | seeing the window that set the baseline again, in any order, raises nothing |
| Measurement.ThroughputIsBetweenRates | worker/engines/base.py:80-91 | the throughput lies between the slowest and the fastest successful request's own rate |
| Measurement.FailuresOnlyAffectErrorRate | worker/engines/base.py:80-97 | a failed request, wherever inserted, changes only the error rate, which does not fall |
| Measurement.ErrorRateInUnit | worker/engines/base.py:95-95 | the error rate lies in [0, 1] |
| Measurement.ErrorRateIsShare | worker/engines/base.py:95 | the error rate times the number of requests is the number of failed ones |
| Measurement.ThroughputIsTotal | worker/engines/base.py:80-91 | the throughput times the time the successful requests took together is their tokens; zero when they took none |
| Measurement.CostLaw | worker/engines/base.py:96-97 | for one GPU profile cost times throughput is one positive constant; without throughput the cost is zero |
| Pareto.ParetoFrontier | worker/search/config_search.py:108-127 | the nested loops keep the undominated results, in order |
| Pareto.FrontierIsTheUndominated | worker/search/config_search.py:108-127 | a result is kept, as often as it occurs, exactly when no result dominates it |
| Pareto.FrontierKeepsOrder | worker/search/config_search.py:109-127 | the list follows the order of the results |
| Pareto.DominatedByMember | worker/search/config_search.py:112-118 | every result left out is dominated by a member |
| Pareto.FrontierReachesBest | worker/search/config_search.py:91-97 | the list of a non-empty sweep is non-empty and its largest throughput is the best one |
| Pareto.BestIsFirstLargest | worker/search/config_search.py:92-93 | the best trial is the first of the largest throughput |
| Pareto.PricedFrontier | worker/search/config_search.py:108-127 | at one price: the fastest results together with those of zero throughput |
| Pareto.CollectedIsWhatSucceeded | worker/search/config_search.py:62-88 | the results of a sweep are the figures of exactly the attempts that did not fail, in order, wherever the failing ones occur |
| Pareto.Search | worker/search/config_search.py:42-105 | failed trials are skipped; best, frontier and count are those of the collected results |
| Pareto.SweepFrontier | worker/search/config_search.py:62-97 | that description of the frontier holds for every sweep, since it has one GPU profile |
| RateLimit.RateLimiter.Handle | internal/auth/middleware.go:98-143 | one request in its bucket's lock: refused, or counted and told what remains |
| RateLimit.KeyInjective | internal/auth/middleware.go:106-107 | different tenants or minutes never share a bucket, whatever the names contain |
| RateLimit.BucketCountsAdmissions | internal/auth/middleware.go:120-137 | over any run a bucket's count is the number of admissions of its tenant and minute |
| RateLimit.DecisionFollowsCount | internal/auth/middleware.go:98-140 | a tenant's request is refused exactly when its minute has admitted 100, and otherwise told 99, 98, ... in order; a request without a tenant passes through |
| RateLimit.MinuteIsLimited | internal/auth/middleware.go:87-137 | a clock minute admits at most 100 |
| RateLimit.WindowIsLimited | internal/auth/middleware.go:106-137 | any sixty seconds admit at most 200 |
| RateLimit.LimitHoldsExactlyForClockMinutes | README.md:299 | the documented limit holds for a sixty-second window exactly when it is a clock minute |
| IndentWrap.Wrapped | cmd/inferbolt/agent.go:274-294 | the loop over `col` writes the text of the greedy rows; widths are counted in bytes of UTF-8, words are separated by Unicode whitespace |
| WrapLines.WrappedLines | cmd/inferbolt/agent.go:274-294 | the lines of the written text show the words in order, one space between two words and nine before every line but the first; no line of two words or more is wider than 76, and none is begun while the one before had room |
| IndentWrap.GreedyBreaks | cmd/inferbolt/agent.go:280-292 | the rows hold the words in order, each within 76 bytes unless it is one word |
| IndentWrap.GreedyIsOptimal | cmd/inferbolt/agent.go:273-294 | no other way of breaking the words under that rule uses fewer rows |
| IndentWrap.WrapKeepsWords | cmd/inferbolt/agent.go:280-293 | the words read back from the wrapped text are the words of the text |
| IndentWrap.WrapIsIdempotent | cmd/inferbolt/agent.go:274-294 | wrapping twice is wrapping once |

## Left out

- Agent.Agent.Run: prompts, message history and what tool results say beyond their kind are not modelled; nor are the logger, the elapsed time in the report and the turn count inside its usage. The run's own deadline shows as a planner call or a benchmark that fails at some point, which covers more behaviours than the deadline allows.
- AgentClock.BenchmarkTimeIsBounded: bounds the time of benchmarks and not of planner calls, between which the clock is not read.
- AgentTheorems.RepeatIsServedIffBudgetLeft: covers requests with arguments that parse; the parsing of JSON arguments is a given outcome.
- Worker.Work: the method executes a delivery without interference; what others do in between is the protocol's part. Context timeouts appear as planner or benchmark errors.
- Worker.RecordRun: the run's actions reach store and platform in their order, but after the agent has computed them instead of one by one as it goes, which neither can tell apart.
- Platform.Platform.RunBenchmark: job identifiers, timestamps and the full wording of errors; the save and the queue are separate calls, as in the source, and no one cleans up a job that was saved but not queued.
- Store.CampaignStore.Complete: the timestamps of the row.
- Store.CampaignStore.Fail: the timestamps of the row.
- Follow.FollowCampaign: the pauses between requests and the summary printed at the end.
- Follow.GetCampaignEvents: event texts and the JSON form of a page; integers are unbounded.
- Feed.BuildFeed: the prefix that keys carry besides the event's number, and rendering.
- Drift.SortFloats: the library's sort is replaced by an insertion sort; what matters, the ordered permutation, is unique (`OrderedIsUnique`).
- Drift.Detector.CheckEngineModel: the loop over engine and model pairs, and alert texts and times.
- Measurement.CostLaw: latency percentiles, memory and cache figures of a result are not computed.
- RateLimit.RateLimiter.Handle: response headers; a run is the requests in the order they take their locks, with arbitrary time stamps.
- IndentWrap.Wrapped: texts that are not valid UTF-8.
- Floating-point rounding, NaN and infinities: all figures are reals.
- Creation, listing and reading of campaigns, authentication, SQL text, the queue library, the planner's client and the processes of the command line.
- The job state table, the worker registry, the engine selector's cache, the Kubernetes reconciler, the classifier and the mock engine: what they promise is either not kept by the code as a whole or a finite case distinction.
- Parsing and printing of budget durations, display tables and the remaining user interface.
