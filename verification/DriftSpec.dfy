/** Baselines and severities: what a window of results is summarised to and how it is judged. */
module DriftSpec {
  import opened Domain
  import opened DriftStats

  datatype Baseline = Baseline(
    ttftP50Ms: real,
    ttftP99Ms: real,
    tokPerSec: real,
    gpuMemMB: int,
    sampleCount: nat)

  datatype Metric = TtftP50 | TtftP99 | TokPerSec | GpuMem

  datatype Severity = Quiet | Warning | Critical {
    function Rank(): nat {
      match this
      case Quiet => 0
      case Warning => 1
      case Critical => 2
    }
  }

  datatype Config = Config(warningPct: real, criticalPct: real, minSamples: int)

  // ----- summarising a window

  function P50s(results: seq<Result>): seq<real> {
    seq(|results|, i requires 0 <= i < |results| => results[i].ttftP50Ms)
  }

  function P99s(results: seq<Result>): seq<real> {
    seq(|results|, i requires 0 <= i < |results| => results[i].ttftP99Ms)
  }

  function Rates(results: seq<Result>): seq<real> {
    seq(|results|, i requires 0 <= i < |results| => results[i].tokPerSec)
  }

  function Memories(results: seq<Result>): seq<int> {
    seq(|results|, i requires 0 <= i < |results| => results[i].gpuMemMB)
  }

  const MIN_RESULTS := 5

  function ComputeFromResults(results: seq<Result>): Option<Baseline> {
    if |results| < MIN_RESULTS then None
    else Some(Baseline(Median(P50s(results)), Percentile(P99s(results), 0.95),
                       Mean(Rates(results)), Max(Memories(results)), |results|))
  }

  /** The throughputs of a window added up. */
  function TotalRate(results: seq<Result>): real {
    if results == [] then 0.0 else results[0].tokPerSec + TotalRate(results[1..])
  }

  lemma {:induction false} TotalRateIsSum(results: seq<Result>)
    ensures Sum(Rates(results)) == TotalRate(results)
  {
    if results != [] {
      TotalRateIsSum(results[1..]);
      assert Rates(results) == [results[0].tokPerSec] + Rates(results[1..]);
      SumConcat([results[0].tokPerSec], Rates(results[1..]));
      assert Sum([results[0].tokPerSec]) == results[0].tokPerSec;
    }
  }

  /**
   What a baseline says about its window of at least five results: at most half of the samples
   lie on either side of the first figure, at most 95% below and 5% above the second (up to the
   one sample that a rank can be off), the third is the mean throughput, and the fourth a memory
   figure of the window that none exceeds.
   */
  lemma BaselineMeans(results: seq<Result>)
    ensures ComputeFromResults(results).Some? <==> |results| >= 5
    ensures |results| >= 5 ==>
              var b, m := ComputeFromResults(results).value, (|results| - 1) as real;
              var p50s := seq(|results|, i requires 0 <= i < |results| => results[i].ttftP50Ms);
              var p99s := seq(|results|, i requires 0 <= i < |results| => results[i].ttftP99Ms);
              && CountBelow(p50s, b.ttftP50Ms) as real < 0.5 * m + 1.0
              && CountAbove(p50s, b.ttftP50Ms) as real < 0.5 * m + 1.0
              && CountBelow(p99s, b.ttftP99Ms) as real < 0.95 * m + 1.0
              && CountAbove(p99s, b.ttftP99Ms) as real < 0.05 * m + 1.0
              && b.tokPerSec * |results| as real == TotalRate(results)
              && (exists i :: 0 <= i < |results| && results[i].gpuMemMB == b.gpuMemMB)
              && (forall i :: 0 <= i < |results| ==> results[i].gpuMemMB <= b.gpuMemMB)
              && b.sampleCount == |results|
  {
    hide Median, Percentile, Mean, Max, TotalRate, CountAbove, CountBelow;
    if |results| >= 5 {
      assert seq(|results|, i requires 0 <= i < |results| => results[i].ttftP50Ms) == P50s(results);
      assert seq(|results|, i requires 0 <= i < |results| => results[i].ttftP99Ms) == P99s(results);
      MedianRank(P50s(results));
      NinetyFifthRank(P99s(results));
      MeanOfRates(results);
      MaxOfMemories(results);
    }
  }

  lemma MedianRank(values: seq<real>)
    requires values != []
    ensures CountBelow(values, Median(values)) as real < 0.5 * (|values| - 1) as real + 1.0
    ensures CountAbove(values, Median(values)) as real < 0.5 * (|values| - 1) as real + 1.0
  {
    hide *;
    MedianIsHalf(values);
    PercentileRank(values, 0.5);
  }

  lemma NinetyFifthRank(values: seq<real>)
    requires values != []
    ensures CountBelow(values, Percentile(values, 0.95)) as real < 0.95 * (|values| - 1) as real + 1.0
    ensures CountAbove(values, Percentile(values, 0.95)) as real < 0.05 * (|values| - 1) as real + 1.0
  {
    hide *;
    PercentileRank(values, 0.95);
  }

  lemma MeanOfRates(results: seq<Result>)
    requires results != []
    ensures Mean(Rates(results)) * |results| as real == TotalRate(results)
  {
    hide *;
    TotalRateIsSum(results);
    assert |Rates(results)| == |results| by { RatesLength(results); }
    MeanIsQuotient(Rates(results), |results|);
    MeanTimesCount(Sum(Rates(results)), |results| as real);
  }

  lemma RatesLength(results: seq<Result>)
    ensures |Rates(results)| == |results|
  {
  }

  lemma MeanIsQuotient(values: seq<real>, n: nat)
    requires |values| == n > 0
    ensures Mean(values) == Sum(values) / n as real
  {
  }

  lemma MeanTimesCount(sum: real, n: real)
    requires n > 0.0
    ensures sum / n * n == sum
  {
  }

  lemma MaxOfMemories(results: seq<Result>)
    requires results != []
    ensures exists i :: 0 <= i < |results| && results[i].gpuMemMB == Max(Memories(results))
    ensures forall i :: 0 <= i < |results| ==> results[i].gpuMemMB <= Max(Memories(results))
  {
    var ms := Memories(results);
    MaxIsLargest(ms);
    var i :| 0 <= i < |ms| && ms[i] == Max(ms);
    assert results[i].gpuMemMB == Max(ms);
    assert forall i :: 0 <= i < |results| ==> results[i].gpuMemMB == ms[i];
  }

  // ----- judging a metric

  /** How far in percent, and None when it moved the good way or the baseline is zero. */
  function Deviation(metric: Metric, baseline: real, current: real): Option<real> {
    if baseline == 0.0 then None
    else
      var d := (current - baseline) / baseline;
      if metric.TokPerSec? then (if d < 0.0 then Some(-d * 100.0) else None)
      else if d > 0.0 then Some(d * 100.0) else None
  }

  function Judge(cfg: Config, metric: Metric, baseline: real, current: real): Severity {
    match Deviation(metric, baseline, current)
    case None => Quiet
    case Some(pct) =>
      if pct >= cfg.criticalPct then Critical
      else if pct >= cfg.warningPct then Warning
      else Quiet
  }

  /** The value of a metric in a baseline. */
  function Value(b: Baseline, metric: Metric): real {
    match metric
    case TtftP50 => b.ttftP50Ms
    case TtftP99 => b.ttftP99Ms
    case TokPerSec => b.tokPerSec
    case GpuMem => b.gpuMemMB as real
  }

  // ----- a window that is no better is judged no better

  /** Sample by sample at least as bad: slower, hungrier, less throughput. */
  ghost predicate NoBetter(a: seq<Result>, b: seq<Result>) {
    |a| == |b| && forall i :: 0 <= i < |a| ==> WorseSample(a[i], b[i])
  }

  predicate WorseSample(a: Result, b: Result) {
    && a.ttftP50Ms <= b.ttftP50Ms && a.ttftP99Ms <= b.ttftP99Ms
    && a.gpuMemMB <= b.gpuMemMB && a.tokPerSec >= b.tokPerSec
  }

  /** Summaries of such windows are ordered the same way, metric by metric. */
  lemma SummaryNoBetter(a: seq<Result>, b: seq<Result>)
    requires NoBetter(a, b) && |a| >= MIN_RESULTS
    ensures var x, y := ComputeFromResults(a), ComputeFromResults(b);
            && x.Some? && y.Some?
            && x.value.ttftP50Ms <= y.value.ttftP50Ms && x.value.ttftP99Ms <= y.value.ttftP99Ms
            && x.value.gpuMemMB <= y.value.gpuMemMB && x.value.tokPerSec >= y.value.tokPerSec
  {
    hide Median, Percentile, Mean, Max;
    assert Below(P50s(a), P50s(b)) && Below(P99s(a), P99s(b)) && Below(Rates(b), Rates(a));
    MedianIsHalf(P50s(a));
    MedianIsHalf(P50s(b));
    PercentileDominates(P50s(a), P50s(b), 0.5);
    PercentileDominates(P99s(a), P99s(b), 0.95);
    MeanDominates(Rates(b), Rates(a));
    MaxDominates(Memories(a), Memories(b));
  }

  lemma DeviationGrows(baseline: real, x: real, y: real)
    requires baseline > 0.0 && x <= y
    ensures (x - baseline) / baseline <= (y - baseline) / baseline
  {
    var d := (y - x) / baseline;
    assert d >= 0.0;
    assert (y - baseline) / baseline == (x - baseline) / baseline + d;
  }

  /** The direction in which a metric gets worse. */
  predicate Worse(metric: Metric, x: real, y: real) {
    if metric.TokPerSec? then y <= x else x <= y
  }

  lemma JudgeMonotone(cfg: Config, metric: Metric, baseline: real, x: real, y: real)
    requires baseline >= 0.0 && Worse(metric, x, y)
    ensures Judge(cfg, metric, baseline, x).Rank() <= Judge(cfg, metric, baseline, y).Rank()
  {
    if baseline > 0.0 {
      if metric.TokPerSec? {
        DeviationGrows(baseline, y, x);
      } else {
        DeviationGrows(baseline, x, y);
      }
    }
  }

  /** How much worse than the baseline, in the direction of the metric. */
  function Loss(metric: Metric, baseline: real, current: real): real {
    if metric.TokPerSec? then baseline - current else current - baseline
  }

  /** Against a positive baseline a metric is judged by its loss as a share of the baseline: a
      threshold is met exactly when the loss is positive and reaches that many hundredths. */
  lemma SeverityIsShareOfBaseline(cfg: Config, metric: Metric, baseline: real, current: real)
    requires baseline > 0.0
    ensures var loss, s := Loss(metric, baseline, current), Judge(cfg, metric, baseline, current);
            && (s == Critical <==> loss > 0.0 && loss >= cfg.criticalPct / 100.0 * baseline)
            && (s == Warning <==> loss > 0.0 && cfg.warningPct / 100.0 * baseline <= loss < cfg.criticalPct / 100.0 * baseline)
  {
    var loss := Loss(metric, baseline, current);
    ShareReaches(baseline, loss, cfg.criticalPct);
    ShareReaches(baseline, loss, cfg.warningPct);
    assert (current - baseline) / baseline == if metric.TokPerSec? then -(loss / baseline) else loss / baseline;
    assert loss > 0.0 <==> loss / baseline > 0.0;
  }

  lemma ShareReaches(baseline: real, loss: real, pct: real)
    requires baseline > 0.0
    ensures loss / baseline * 100.0 >= pct <==> loss >= pct / 100.0 * baseline
  {
    var d := loss - pct / 100.0 * baseline;
    assert loss / baseline == d / baseline + pct / 100.0;
    assert d >= 0.0 <==> d / baseline >= 0.0;
  }

  lemma ScaledDeviation(baseline: real, k: real)
    requires baseline != 0.0
    ensures ((1.0 + k) * baseline - baseline) / baseline == k
  {
    assert (1.0 + k) * baseline - baseline == k * baseline;
  }

  lemma JudgedCritical(cfg: Config, metric: Metric, baseline: real, current: real, d: real)
    requires baseline != 0.0 && (current - baseline) / baseline == d
    requires if metric.TokPerSec? then d < 0.0 && -d * 100.0 >= cfg.criticalPct
             else d > 0.0 && d * 100.0 >= cfg.criticalPct
    ensures Judge(cfg, metric, baseline, current) == Critical
  {
  }

  /** Against a negative baseline, a value on the good side is critical and a worse one is not. */
  lemma NegativeBaselineMisjudges(cfg: Config, metric: Metric, baseline: real) returns (x: real, y: real)
    requires baseline < 0.0
    ensures Worse(metric, x, y)
    ensures Judge(cfg, metric, baseline, x) == Critical && Judge(cfg, metric, baseline, y) == Quiet
  {
    var k := if cfg.criticalPct > 100.0 then cfg.criticalPct / 100.0 else 1.0;
    var good := if metric.TokPerSec? then -k else k;
    var bad := if metric.TokPerSec? then 1.0 else -1.0;
    x, y := (1.0 + good) * baseline, (1.0 + bad) * baseline;
    ScaledDeviation(baseline, good);
    ScaledDeviation(baseline, bad);
    JudgedCritical(cfg, metric, baseline, x, good);
    if metric.TokPerSec? {
      ScaledOrder(baseline, good, bad);
    } else {
      ScaledOrder(baseline, bad, good);
    }
  }

  lemma ScaledOrder(baseline: real, j: real, k: real)
    requires baseline < 0.0 && j <= k
    ensures (1.0 + j) * baseline >= (1.0 + k) * baseline
  {
    assert (1.0 + j) * baseline - (1.0 + k) * baseline == (k - j) * -baseline;
  }

  ghost predicate SeverityMonotone(cfg: Config, metric: Metric, baseline: real) {
    forall x, y :: Worse(metric, x, y) ==>
      Judge(cfg, metric, baseline, x).Rank() <= Judge(cfg, metric, baseline, y).Rank()
  }

  /** Whatever the thresholds: severity follows the metric exactly when the baseline is not
      negative, which nothing in the judgement itself checks. */
  lemma SeverityMonotoneIff(cfg: Config, metric: Metric, baseline: real)
    ensures SeverityMonotone(cfg, metric, baseline) <==> baseline >= 0.0
  {
    hide Judge;
    if baseline >= 0.0 {
      forall x, y | Worse(metric, x, y)
        ensures Judge(cfg, metric, baseline, x).Rank() <= Judge(cfg, metric, baseline, y).Rank()
      {
        JudgeMonotone(cfg, metric, baseline, x, y);
      }
    } else {
      var x, y := NegativeBaselineMisjudges(cfg, metric, baseline);
      assert Worse(metric, x, y);
    }
  }

  ghost predicate NonNegative(b: Baseline) {
    b.ttftP50Ms >= 0.0 && b.ttftP99Ms >= 0.0 && b.tokPerSec >= 0.0 && b.gpuMemMB >= 0
  }

  /** A window at least as bad, sample by sample, is classified no lower on every metric. */
  lemma WorseWindowIsJudgedNoLower(cfg: Config, baseline: Baseline, a: seq<Result>, b: seq<Result>, metric: Metric)
    requires NoBetter(a, b) && |a| >= MIN_RESULTS && NonNegative(baseline)
    ensures ComputeFromResults(a).Some? && ComputeFromResults(b).Some?
    ensures Judge(cfg, metric, Value(baseline, metric), Value(ComputeFromResults(a).value, metric)).Rank()
         <= Judge(cfg, metric, Value(baseline, metric), Value(ComputeFromResults(b).value, metric)).Rank()
  {
    hide ComputeFromResults, Judge;
    SummaryNoBetter(a, b);
    JudgeMonotone(cfg, metric, Value(baseline, metric),
                  Value(ComputeFromResults(a).value, metric), Value(ComputeFromResults(b).value, metric));
  }

  // ----- a window in another order is the same window

  function Project<T>(a: seq<Result>, f: Result -> T): seq<T> {
    seq(|a|, i requires 0 <= i < |a| => f(a[i]))
  }

  lemma ProjectConcat<T>(a: seq<Result>, x: Result, b: seq<Result>, f: Result -> T)
    ensures Project(a + [x] + b, f) == Project(a, f) + [f(x)] + Project(b, f)
    ensures Project(a + b, f) == Project(a, f) + Project(b, f)
  {
  }

  /** Taking one occurrence of an element out of a list, wherever it stands. */
  lemma TakeOut(b: seq<Result>, x: Result) returns (left: seq<Result>, right: seq<Result>)
    requires x in multiset(b)
    ensures b == left + [x] + right && multiset(left + right) == multiset(b) - multiset{x}
  {
    assert x in b;
    var i :| 0 <= i < |b| && b[i] == x;
    left, right := b[..i], b[i + 1..];
    assert b == left + [x] + right;
    assert multiset(b) == multiset(left) + multiset{x} + multiset(right);
    assert multiset(left + right) == multiset(left) + multiset(right);
  }

  lemma {:induction false} ProjectionForgetsOrder<T>(a: seq<Result>, b: seq<Result>, f: Result -> T)
    requires multiset(a) == multiset(b)
    ensures multiset(Project(a, f)) == multiset(Project(b, f))
    decreases |a|
  {
    hide Project;
    if a == [] {
      assert |multiset(b)| == |b|;
      assert a == b;
    } else {
      var x, init := a[|a| - 1], a[..|a| - 1];
      assert a == init + [x] + [];
      assert x in multiset(a);
      var left, right := TakeOut(b, x);
      assert multiset(a) == multiset(init) + multiset{x};
      assert multiset(init) == multiset(left + right);
      ProjectionForgetsOrder(init, left + right, f);
      ProjectConcat(init, x, [], f);
      ProjectConcat(left, x, right, f);
      assert init + [] == init;
      assert multiset(Project(a, f)) == multiset(Project(init, f)) + multiset{f(x)} + multiset(Project([], f));
    }
  }

  /** Any rearrangement of a window has the same summary. */
  lemma SummaryForgetsOrder(a: seq<Result>, b: seq<Result>)
    requires multiset(a) == multiset(b)
    ensures ComputeFromResults(a) == ComputeFromResults(b)
  {
    hide Median, Percentile, Mean, Max;
    assert |multiset(a)| == |a| && |multiset(b)| == |b|;
    if |a| >= MIN_RESULTS {
      ProjectionForgetsOrder(a, b, (r: Result) => r.ttftP50Ms);
      ProjectionForgetsOrder(a, b, (r: Result) => r.ttftP99Ms);
      ProjectionForgetsOrder(a, b, (r: Result) => r.tokPerSec);
      ProjectionForgetsOrder(a, b, (r: Result) => r.gpuMemMB);
      assert P50s(a) == Project(a, (r: Result) => r.ttftP50Ms) && P50s(b) == Project(b, (r: Result) => r.ttftP50Ms);
      assert P99s(a) == Project(a, (r: Result) => r.ttftP99Ms) && P99s(b) == Project(b, (r: Result) => r.ttftP99Ms);
      assert Rates(a) == Project(a, (r: Result) => r.tokPerSec) && Rates(b) == Project(b, (r: Result) => r.tokPerSec);
      assert Memories(a) == Project(a, (r: Result) => r.gpuMemMB) && Memories(b) == Project(b, (r: Result) => r.gpuMemMB);
      MedianIsHalf(P50s(a));
      MedianIsHalf(P50s(b));
      PercentileForgetsOrder(P50s(a), P50s(b), 0.5);
      PercentileForgetsOrder(P99s(a), P99s(b), 0.95);
      MeanForgetsOrder(Rates(a), Rates(b));
      MaxForgetsOrder(Memories(a), Memories(b));
    }
  }

  /** Judged against the summary of the same results in any order, no metric raises an alert,
      whatever the thresholds and the sign of the figures. */
  lemma RearrangedWindowIsQuiet(cfg: Config, a: seq<Result>, b: seq<Result>, metric: Metric)
    requires multiset(a) == multiset(b) && |a| >= MIN_RESULTS
    ensures ComputeFromResults(a).Some? && ComputeFromResults(b).Some?
    ensures Judge(cfg, metric, Value(ComputeFromResults(a).value, metric),
                  Value(ComputeFromResults(b).value, metric)).Quiet?
  {
    hide Median, Percentile, Mean, Max;
    SummaryForgetsOrder(a, b);
    var v := Value(ComputeFromResults(a).value, metric);
    assert v != 0.0 ==> (v - v) / v == 0.0;
  }
}
