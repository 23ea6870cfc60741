/**
 The platform behind a campaign's benchmarks: check for a cancellation, validate, save the job,
 queue it, wait for it and pick out the result. The world's answers are parameters.
 */
module Platform {
  import opened Domain
  import opened AgentSpec
  import opened Store
  import opened Protocol

  datatype JobState = JobPending | JobRunning | JobCollecting | JobAnalyzing | JobCompleted | JobFailed | JobCancelled {
    predicate Terminal() {
      JobCompleted? || JobFailed? || JobCancelled?
    }
  }

  datatype Job = Job(tenant: string, spec: TrialSpec, state: JobState, errorMsg: string)

  /** What one turn of the waiting loop finds; the read of the job may fail. */
  datatype Tick =
    | ContextDone
    | DeadlineHit
    | Polled(job: Option<Job>)

  /** Everything a benchmark meets outside the platform. A read that fails is None. */
  datatype World = World(
    campaign: Option<RowState>,
    save: Fault,
    enqueue: Fault,
    ticks: seq<Tick>,
    results: Option<seq<Result>>)

  const NO_RESULT := Result("", 0.0, 0.0, 0.0, 0, 0.0, 0.0)

  // ----- what is dispatchable

  const ENGINES := {"vllm", "sglang", "tensorrt", "llamacpp", "ollama", "mock"}
  const QUANTIZATIONS := {"fp8", "int8", "int4", "gptq", "awq"}

  predicate ValidWorkload(w: WorkloadConfig) {
    && 1 <= w.concurrency <= 1024 && 1 <= w.promptTokens <= 1_000_000
    && 1 <= w.outputTokens <= 1_000_000 && 1 <= w.numRequests <= 100_000
  }

  /** Zero and the empty string stand for a knob that is not set. */
  predicate ValidEngineConfig(c: EngineConfig) {
    && (c.quantization == "" || c.quantization in QUANTIZATIONS)
    && 0 <= c.tensorParallel <= 8 && 0 <= c.maxBatchSize <= 4096
    && 0 <= c.maxModelLen <= 1_048_576 && 0.0 <= c.gpuMemoryUtilization <= 1.0
  }

  predicate Dispatchable(spec: TrialSpec) {
    spec.engine in ENGINES && ValidWorkload(spec.workload) && ValidEngineConfig(spec.engineConfig)
  }

  function Rejection(spec: TrialSpec): string {
    if spec.engine !in ENGINES then "unknown engine"
    else if !ValidWorkload(spec.workload) then "workload out of bounds"
    else "engine_config out of bounds"
  }

  // ----- waiting

  datatype Wait = Finished(job: Job) | Interrupted | TimedOut

  /** The read failed, or the job is pending, running, collecting or analyzing. */
  predicate InProgress(tick: Tick) {
    tick.Polled?
    && (tick.job.None? || tick.job.value.state.JobPending? || tick.job.value.state.JobRunning?
        || tick.job.value.state.JobCollecting? || tick.job.value.state.JobAnalyzing?)
  }

  /** What the waiting comes to: the first decisive tick's verdict. */
  function Waited(ticks: seq<Tick>): Wait {
    if ticks == [] then TimedOut
    else
      match ticks[0]
      case ContextDone => Interrupted
      case DeadlineHit => TimedOut
      case Polled(job) => if job.Some? && job.value.state.Terminal() then Finished(job.value) else Waited(ticks[1..])
  }

  /** Polls until the first decisive tick: failed reads and jobs in progress are passed over.
      Ticks that run out stand for the deadline. */
  method WaitForJob(ticks: seq<Tick>) returns (wait: Wait, at: nat)
    ensures at <= |ticks| && (forall j :: 0 <= j < at ==> InProgress(ticks[j]))
    ensures wait == Waited(ticks)
    ensures at == |ticks| ==> wait == TimedOut
    ensures at < |ticks| ==>
              && !InProgress(ticks[at])
              && (wait == match ticks[at]
                          case ContextDone => Interrupted
                          case DeadlineHit => TimedOut
                          case Polled(job) => Finished(job.value))
  {
    at := 0;
    while at < |ticks|
      invariant at <= |ticks| && forall j :: 0 <= j < at ==> InProgress(ticks[j])
      invariant Waited(ticks) == Waited(ticks[at..])
    {
      assert ticks[at..][1..] == ticks[at + 1..];
      match ticks[at] {
        case ContextDone => return Interrupted, at;
        case DeadlineHit => return TimedOut, at;
        case Polled(job) =>
          if job.Some? && job.value.state.Terminal() {
            return Finished(job.value), at;
          }
      }
      at := at + 1;
    }
    wait := TimedOut;
  }

  /** Some tick shows the job completed, and nothing was decided before it. */
  predicate Completes(ticks: seq<Tick>) {
    exists at :: 0 <= at < |ticks| && CompletesAt(ticks, at)
  }

  predicate CompletesAt(ticks: seq<Tick>, at: nat)
    requires at < |ticks|
  {
    && ticks[at].Polled? && ticks[at].job.Some? && ticks[at].job.value.state.JobCompleted?
    && forall j :: 0 <= j < at ==> InProgress(ticks[j])
  }

  /** `r` is the first result of the engine that was asked for. */
  predicate FirstOf(results: seq<Result>, engine: string, r: Result) {
    exists k :: 0 <= k < |results| && IsFirst(results, engine, k) && results[k] == r
  }

  predicate IsFirst(results: seq<Result>, engine: string, k: nat)
    requires k < |results|
  {
    results[k].engine == engine && forall j :: 0 <= j < k ==> results[j].engine != engine
  }

  function Found(results: seq<Result>, engine: string): Option<Result> {
    if results == [] then None
    else if results[0].engine == engine then Some(results[0])
    else Found(results[1..], engine)
  }

  method FindResult(results: seq<Result>, engine: string) returns (found: Option<Result>)
    ensures found == Found(results, engine)
    ensures found.None? <==> forall j :: 0 <= j < |results| ==> results[j].engine != engine
    ensures found.Some? ==> FirstOf(results, engine, found.value)
  {
    for i := 0 to |results|
      invariant forall j :: 0 <= j < i ==> results[j].engine != engine
      invariant Found(results, engine) == Found(results[i..], engine)
    {
      assert results[i..][1..] == results[i + 1..];
      if results[i].engine == engine {
        assert IsFirst(results, engine, i);
        return Some(results[i]);
      }
    }
    found := None;
  }

  // ----- a benchmark

  predicate Blocked(world: World) {
    world.campaign == Some(RowState.Cancelled)
  }

  /** A job is saved exactly when the check passes, the specification is dispatchable and the
      statement takes effect. */
  predicate Saves(world: World, spec: TrialSpec) {
    !Blocked(world) && Dispatchable(spec) && world.save.Applies()
  }

  predicate Queues(world: World, spec: TrialSpec) {
    !Blocked(world) && Dispatchable(spec) && world.save.NoFault? && world.enqueue.Applies()
  }

  function Failure(text: string): BenchReply {
    BenchReply(NO_RESULT, Some(text))
  }

  function EndedText(job: Job): string {
    "job ended: " + (if job.errorMsg == "" then "no error message recorded" else job.errorMsg)
  }

  /** The answer to a job that was queued. */
  function Collected(ticks: seq<Tick>, results: Option<seq<Result>>, engine: string): BenchReply {
    match Waited(ticks)
    case Interrupted => Failure("context done")
    case TimedOut => Failure("job did not finish in time")
    case Finished(job) =>
      if !job.state.JobCompleted? then Failure(EndedText(job))
      else if results.None? then Failure("read results for job")
      else
        match Found(results.value, engine)
        case None => Failure("job completed but produced no result")
        case Some(r) => BenchReply(r, None)
  }

  /** The answer to a benchmark, in this world. */
  function Reply(world: World, spec: TrialSpec): BenchReply {
    if Blocked(world) then Failure(CANCELLED_ERROR)
    else if !Dispatchable(spec) then Failure(Rejection(spec))
    else if !world.save.NoFault? then Failure("save benchmark job")
    else if !world.enqueue.NoFault? then Failure("enqueue benchmark job")
    else Collected(world.ticks, world.results, spec.engine)
  }

  /** How the answer and the world go together, for every benchmark. */
  ghost predicate Answers(world: World, spec: TrialSpec, reply: BenchReply) {
    && (Blocked(world) <==> reply.err == Some(CANCELLED_ERROR))
    && (!Dispatchable(spec) || !world.save.NoFault? || !world.enqueue.NoFault? ==> reply.err.Some?)
    && (reply.err.Some? ==> reply.result == NO_RESULT)
    && (reply.err.None? <==>
          && !Blocked(world) && Dispatchable(spec) && world.save.NoFault? && world.enqueue.NoFault?
          && Completes(world.ticks) && world.results.Some?
          && exists r :: r in world.results.value && r.engine == spec.engine)
    && (reply.err.None? ==> world.results.Some? && FirstOf(world.results.value, spec.engine, reply.result))
  }

  class Platform {
    const tenant: string
    var saved: seq<Job>
    var queued: seq<Job>

    constructor (tenant: string)
      ensures this.tenant == tenant && saved == [] && queued == []
    {
      this.tenant := tenant;
      saved, queued := [], [];
    }

    /** Submits one benchmark. At most one job is saved, and at most that job is queued; the
        answer is a result only when that job was seen completed. */
    method RunBenchmark(world: World, spec: TrialSpec) returns (reply: BenchReply)
      modifies this`saved, this`queued
      ensures saved == old(saved) + if Saves(world, spec) then [Job(tenant, spec, JobPending, "")] else []
      ensures queued == old(queued) + if Queues(world, spec) then [Job(tenant, spec, JobPending, "")] else []
      ensures reply == Reply(world, spec) && Answers(world, spec, reply)
    {
      if CheckCancelled(world.campaign) {
        return Failure(CANCELLED_ERROR);
      }
      if !Dispatchable(spec) {
        assert Rejection(spec)[0] != CANCELLED_ERROR[0];
        return Failure(Rejection(spec));
      }
      var job := Job(tenant, spec, JobPending, "");
      if world.save.Applies() {
        saved := saved + [job];
      }
      if !world.save.NoFault? {
        return Failure("save benchmark job");
      }
      if world.enqueue.Applies() {
        queued := queued + [job];
      }
      if !world.enqueue.NoFault? {
        return Failure("enqueue benchmark job");
      }
      reply := Collect(world.ticks, world.results, spec);
    }

    /** A state that cannot be read stops nothing. */
    predicate CheckCancelled(campaign: Option<RowState>) {
      campaign.Some? && campaign.value.Cancelled?
    }

    /** Waits for the job and picks the result of the engine that was asked for. */
    method Collect(ticks: seq<Tick>, results: Option<seq<Result>>, spec: TrialSpec) returns (reply: BenchReply)
      ensures reply == Collected(ticks, results, spec.engine)
      ensures reply.err != Some(CANCELLED_ERROR) && (reply.err.Some? ==> reply.result == NO_RESULT)
      ensures reply.err.None? <==>
                && Completes(ticks) && results.Some?
                && exists r :: r in results.value && r.engine == spec.engine
      ensures reply.err.None? ==> results.Some? && FirstOf(results.value, spec.engine, reply.result)
    {
      var wait, at := WaitForJob(ticks);
      if wait.Finished? && wait.job.state.JobCompleted? {
        assert CompletesAt(ticks, at);
        if results.None? {
          return Failure("read results for job");
        }
        var found := FindResult(results.value, spec.engine);
        reply := if found.Some? then BenchReply(found.value, None)
                 else Failure("job completed but produced no result");
      } else {
        NothingCompletes(ticks, at);
        var msg := match wait
                   case Interrupted => "context done"
                   case TimedOut => "job did not finish in time"
                   case Finished(job) => EndedText(job);
        assert msg[0] != CANCELLED_ERROR[0] || msg[1] != CANCELLED_ERROR[1];
        reply := Failure(msg);
      }
    }
  }

  lemma FirstIsUnique(ticks: seq<Tick>, a: nat, b: nat)
    requires a <= |ticks| && b <= |ticks|
    requires forall j :: 0 <= j < a ==> InProgress(ticks[j])
    requires forall j :: 0 <= j < b ==> InProgress(ticks[j])
    requires a < |ticks| ==> !InProgress(ticks[a])
    requires b < |ticks| ==> !InProgress(ticks[b])
    ensures a == b
  {
  }

  lemma NothingCompletes(ticks: seq<Tick>, at: nat)
    requires at <= |ticks| && forall j :: 0 <= j < at ==> InProgress(ticks[j])
    requires at < |ticks| ==>
               && !InProgress(ticks[at])
               && !(ticks[at].Polled? && ticks[at].job.value.state.JobCompleted?)
    ensures !Completes(ticks)
  {
    if Completes(ticks) {
      var k :| 0 <= k < |ticks| && CompletesAt(ticks, k);
      FirstIsUnique(ticks, at, k);
    }
  }

  // ----- the documented bounds

  /** An engine that exists, a workload within its bounds and knobs within theirs or not set. */
  predicate WithinBounds(spec: TrialSpec) {
    var w, k := spec.workload, spec.engineConfig;
    && (spec.engine == "vllm" || spec.engine == "sglang" || spec.engine == "tensorrt"
        || spec.engine == "llamacpp" || spec.engine == "ollama" || spec.engine == "mock")
    && 1 <= w.concurrency <= 1024 && 1 <= w.numRequests <= 100000
    && 1 <= w.promptTokens <= 1000000 && 1 <= w.outputTokens <= 1000000
    && 0 <= k.tensorParallel <= 8 && 0 <= k.maxBatchSize <= 4096 && 0 <= k.maxModelLen <= 1048576
    && 0.0 <= k.gpuMemoryUtilization <= 1.0
    && (k.quantization == "" || k.quantization == "fp8" || k.quantization == "int8" || k.quantization == "int4"
        || k.quantization == "gptq" || k.quantization == "awq")
  }

  /** A benchmark out of bounds is answered with an error and never becomes a job; within bounds it
      does, unless the campaign is known to be cancelled or the store fails. */
  lemma JobIffWithinBounds(world: World, spec: TrialSpec)
    ensures Saves(world, spec) <==>
            world.campaign != Some(RowState.Cancelled) && WithinBounds(spec) && !world.save.FailsBefore?
    ensures Queues(world, spec) <==>
            && world.campaign != Some(RowState.Cancelled) && WithinBounds(spec)
            && world.save.NoFault? && !world.enqueue.FailsBefore?
    ensures !WithinBounds(spec) ==> Reply(world, spec).err.Some? && Reply(world, spec).result == NO_RESULT
  {
    hide Waited, Found, Dispatchable, WithinBounds;
    BoundsAreWithin(spec);
  }

  lemma BoundsAreWithin(spec: TrialSpec)
    ensures Dispatchable(spec) <==> WithinBounds(spec)
  {
  }

  // ----- what the answer says about the job

  /** Everything went well up to the queue. */
  predicate WasQueued(world: World, spec: TrialSpec) {
    world.campaign != Some(RowState.Cancelled) && WithinBounds(spec) && world.save.NoFault? && world.enqueue.NoFault?
  }

  lemma {:induction false} WaitedAt(ticks: seq<Tick>, at: nat)
    requires at <= |ticks| && forall j :: 0 <= j < at ==> InProgress(ticks[j])
    ensures Waited(ticks) == Waited(ticks[at..])
  {
    if at > 0 {
      WaitedAt(ticks[1..], at - 1);
      assert ticks[1..][at - 1..] == ticks[at..];
    }
  }

  lemma FirstDecided(ticks: seq<Tick>) returns (at: nat)
    ensures at <= |ticks| && forall j :: 0 <= j < at ==> InProgress(ticks[j])
    ensures at < |ticks| ==> !InProgress(ticks[at])
  {
    if ticks == [] || !InProgress(ticks[0]) {
      at := 0;
    } else {
      at := FirstDecided(ticks[1..]);
      at := at + 1;
    }
  }

  /**
   The answer carries a result exactly when the job was queued, was seen completed after nothing
   but failed reads and unfinished states, its results could be read, and one of them is of the
   engine asked for.
   */
  lemma ResultIffSeenCompleted(world: World, spec: TrialSpec)
    ensures Reply(world, spec).err.None? <==>
            && WasQueued(world, spec)
            && (exists at :: 0 <= at < |world.ticks|
                  && world.ticks[at].Polled? && world.ticks[at].job.Some? && world.ticks[at].job.value.state.JobCompleted?
                  && forall j :: 0 <= j < at ==> InProgress(world.ticks[j]))
            && world.results.Some? && exists r :: r in world.results.value && r.engine == spec.engine
  {
    hide Dispatchable, WithinBounds;
    BoundsAreWithin(spec);
    var ticks := world.ticks;
    var at := FirstDecided(ticks);
    WaitedAt(ticks, at);
    if world.results.Some? {
      FoundIffThere(world.results.value, spec.engine);
    }
    if exists k :: 0 <= k < |ticks| && CompletesAt(ticks, k) {
      var k :| 0 <= k < |ticks| && CompletesAt(ticks, k);
      FirstIsUnique(ticks, at, k);
    }
    if at < |ticks| && ticks[at].Polled? {
      assert ticks[at].job.value.state.JobCompleted? ==> CompletesAt(ticks, at);
    }
  }

  lemma {:induction false} FoundIffThere(results: seq<Result>, engine: string)
    ensures Found(results, engine).Some? <==> exists r :: r in results && r.engine == engine
  {
    if results != [] {
      FoundIffThere(results[1..], engine);
      assert forall r :: r in results <==> r == results[0] || r in results[1..];
    }
  }

  /** A queued job that is first decided as failed or cancelled is answered with its own text. */
  lemma EndedJobAnswersItsText(world: World, spec: TrialSpec, at: nat)
    requires WasQueued(world, spec) && at < |world.ticks| && forall j :: 0 <= j < at ==> InProgress(world.ticks[j])
    requires world.ticks[at].Polled? && world.ticks[at].job.Some?
    requires world.ticks[at].job.value.state.JobFailed? || world.ticks[at].job.value.state.JobCancelled?
    ensures var text := world.ticks[at].job.value.errorMsg;
            Reply(world, spec).err ==
              Some("job ended: " + if text == "" then "no error message recorded" else text)
  {
    hide Dispatchable, WithinBounds;
    BoundsAreWithin(spec);
    WaitedAt(world.ticks, at);
  }

  /** A queued job times out exactly when the deadline comes while it is still in progress. */
  lemma TimesOutIffUndecided(world: World, spec: TrialSpec)
    requires WasQueued(world, spec)
    ensures Reply(world, spec).err == Some("job did not finish in time") <==>
            exists at :: 0 <= at <= |world.ticks| && (forall j :: 0 <= j < at ==> InProgress(world.ticks[j]))
                      && (at == |world.ticks| || world.ticks[at].DeadlineHit?)
  {
    hide Dispatchable, WithinBounds, EndedText, Found;
    BoundsAreWithin(spec);
    var ticks := world.ticks;
    var at := FirstDecided(ticks);
    WaitedAt(ticks, at);
    if at < |ticks| && ticks[at].Polled? {
      EndedTextIsNoTimeout(ticks[at].job.value);
    }
    if exists k :: 0 <= k <= |ticks| && (forall j :: 0 <= j < k ==> InProgress(ticks[j]))
                && (k == |ticks| || ticks[k].DeadlineHit?)
    {
      var k :| 0 <= k <= |ticks| && (forall j :: 0 <= j < k ==> InProgress(ticks[j]))
                && (k == |ticks| || ticks[k].DeadlineHit?);
      FirstIsUnique(ticks, at, k);
    }
  }

  lemma EndedTextIsNoTimeout(job: Job)
    ensures EndedText(job) != "job did not finish in time"
  {
    assert EndedText(job)[4] == 'e';
  }

  // ----- as steps of the protocol

  /** A benchmark is the check and, if it passes, a rejection or a save: whatever the platform
      answers is a step the protocol allows, and it counts the jobs that the platform saves. */
  lemma BenchmarkTakesSteps(c: Campaign, s: Sys, i: nat, world: World) returns (steps: seq<Step>)
    requires At(s, i, false) && !s.pcs[i].checked
    requires world.campaign.Some? ==> world.campaign.value == s.row.state
    requires var sub := NextAction(s, i).submission; Answers(world, sub.spec, sub.reply)
    ensures Legal(c, s, steps)
    ensures var t := After(c, s, steps); var spec := NextAction(s, i).submission.spec;
            && t.row == s.row && t.log == s.log && t.kept == s.kept
            && t.jobs == s.jobs + (if Saves(world, spec) then 1 else 0)
            && t.blindChecks == s.blindChecks + (if world.campaign.None? && s.row.state.Cancelled? then 1 else 0)
            && t.cancelledJobs == s.cancelledJobs + (if Saves(world, spec) && s.row.state.Cancelled? then 1 else 0)
            && t.pcs == s.pcs[i := Looping(s.pcs[i].progress.(pos := s.pcs[i].progress.pos + 1), false)]
  {
    hide Completes, FirstOf, Dispatchable, EventsAfter, Quiet, Run, Legal, After;
    Nothing(c, s);
    var check := Check(i, world.campaign.Some?);
    Extend(c, s, [], check);
    steps := [] + [check];
    if !Blocked(world) {
      var next := if Dispatchable(NextAction(s, i).submission.spec) then Save(i, world.save) else Reject(i);
      Extend(c, s, steps, next);
      steps := steps + [next];
    }
  }
}
