/** The values that campaigns, trials, reports and events are made of. */
module Domain {
  datatype Option<+T> = None | Some(value: T)

  datatype EngineConfig = EngineConfig(
    quantization: string,
    tensorParallel: int,
    maxBatchSize: int,
    maxModelLen: int,
    gpuMemoryUtilization: real)

  datatype WorkloadConfig = WorkloadConfig(
    concurrency: int,
    promptTokens: int,
    outputTokens: int,
    numRequests: int)

  /** One benchmark measurement. Floating-point figures are reals. */
  datatype Result = Result(
    engine: string,
    ttftP50Ms: real,
    ttftP99Ms: real,
    tokPerSec: real,
    gpuMemMB: int,
    errorRate: real,
    costPerMTok: real)

  datatype TrialSpec = TrialSpec(
    model: string,
    engine: string,
    gpuProfile: string,
    workload: WorkloadConfig,
    engineConfig: EngineConfig)

  /** A specification with its outcome; `err` is empty when nothing went wrong. */
  datatype Trial = Trial(
    spec: TrialSpec,
    result: Result,
    err: string,
    duration: int,
    hypothesis: string,
    reused: bool)
  {
    predicate OK() {
      err == "" && result.tokPerSec > 0.0
    }

    /** The filter of the mechanical fallback: usable, error-free and priced. */
    predicate Eligible() {
      OK() && !(result.errorRate > 0.0) && !(result.costPerMTok <= 0.0)
    }
  }

  /** Durations are in whatever unit the clock ticks. */
  datatype Budget = Budget(maxTrials: int, maxDuration: int, maxTurns: int) {
    predicate Valid() {
      maxTrials >= 1 && maxDuration > 0 && maxTurns >= 1
    }
  }

  datatype Campaign = Campaign(
    goal: string,
    model: string,
    gpuProfile: string,
    workload: WorkloadConfig,
    engines: seq<string>,
    budget: Budget)
  {
    /** What building an agent for this campaign insists on. */
    predicate Valid() {
      goal != "" && model != "" && gpuProfile != "" && engines != [] && budget.Valid()
    }

    /** The specification a planner's choice of engine and knobs stands for. */
    function SpecFor(engine: string, config: EngineConfig): TrialSpec {
      TrialSpec(model, engine, gpuProfile, workload, config)
    }
  }

  datatype Usage = Usage(input: int, output: int, cacheRead: int, cacheCreation: int) {
    function Plus(other: Usage): Usage {
      Usage(input + other.input, output + other.output,
            cacheRead + other.cacheRead, cacheCreation + other.cacheCreation)
    }
  }

  const NO_USAGE := Usage(0, 0, 0, 0)

  datatype Recommendation = Recommendation(
    engine: string,
    engineConfig: EngineConfig,
    reasoning: string,
    runnerUp: string,
    confidence: string,
    caveats: string,
    measured: Option<Result>,
    fallback: bool)

  datatype Report = Report(
    recommendation: Option<Recommendation>,
    trials: seq<Trial>,
    usage: Usage,
    turns: nat)

  datatype EventKind = Plan | Thinking | TrialStart | TrialDone | TrialFailed | Lookup | Warn | Done

  datatype Event = Event(
    kind: EventKind,
    text: string,
    trial: Option<TrialSpec>,
    result: Option<Result>,
    elapsed: int)
  {
    predicate IsOutcome() {
      kind.TrialDone? || kind.TrialFailed?
    }

    predicate IsNarration() {
      !kind.TrialStart? && !IsOutcome()
    }
  }
}
