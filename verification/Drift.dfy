/** Drift detection as it runs: loops over arrays, and a detector that owns the baselines. */
module Drift {
  import opened Domain
  import opened DriftStats
  import opened DriftSpec
  import opened Store

  // ----- sorting in place

  /** Sinks a[i] into the ordered prefix before it. */
  method SinkInto(a: array<real>, i: nat)
    requires i < a.Length && Ordered(a[..i])
    modifies a
    ensures a[..i + 1] == Insert(old(a[i]), old(a[..i]))
    ensures a[i + 1..] == old(a[i + 1..])
  {
    hide Insert;
    var x := a[i];
    ghost var s := a[..i];
    var j := i;
    while j > 0 && a[j - 1] >= x
      invariant 0 <= j <= i
      invariant forall k :: 0 <= k < j ==> a[k] == s[k]
      invariant forall k :: j < k <= i ==> a[k] == s[k - 1]
      invariant forall k :: i < k < a.Length ==> a[k] == old(a[k])
      invariant j < i ==> x <= s[j]
    {
      a[j] := a[j - 1];
      j := j - 1;
    }
    a[j] := x;
    Sunk(a[..i + 1], x, s, j);
  }

  lemma Sunk(t: seq<real>, x: real, s: seq<real>, j: nat)
    requires Ordered(s) && j <= |s| && |t| == |s| + 1 && t[j] == x
    requires forall k :: 0 <= k < j ==> t[k] == s[k]
    requires forall k :: j < k < |t| ==> t[k] == s[k - 1]
    requires j > 0 ==> s[j - 1] < x
    requires j < |s| ==> x <= s[j]
    ensures t == Insert(x, s)
  {
    hide Insert;
    assert t == s[..j] + [x] + s[j..];
    assert forall k :: 0 <= k < j ==> s[k] <= s[j - 1];
    assert forall k :: j <= k < |s| ==> s[j] <= s[k];
    InsertAt(x, s, j);
  }

  /** Inserting after everything smaller and before everything else. */
  lemma {:induction false} InsertAt(x: real, s: seq<real>, j: nat)
    requires j <= |s|
    requires forall k :: 0 <= k < j ==> s[k] < x
    requires forall k :: j <= k < |s| ==> x <= s[k]
    ensures Insert(x, s) == s[..j] + [x] + s[j..]
  {
    if j > 0 {
      InsertAt(x, s[1..], j - 1);
      assert s[..j] == [s[0]] + s[1..][..j - 1];
      assert s[j..] == s[1..][j - 1..];
    }
  }

  method SortFloats(a: array<real>)
    modifies a
    ensures a[..] == Sort(old(a[..]))
  {
    ghost var s := a[..];
    for i := 0 to a.Length
      invariant a[..i] == Sort(s[..i]) && a[i..] == s[i..]
    {
      SortSorts(s[..i]);
      assert a[i] == s[i] by { assert a[i..][0] == s[i..][0]; }
      assert s[..i + 1][..i] == s[..i];
      assert a[i + 1..] == a[i..][1..] && s[i + 1..] == s[i..][1..];
      SinkInto(a, i);
    }
    assert a[..a.Length] == a[..] && s[..|s|] == s;
  }

  method SortedCopy(values: seq<real>) returns (sorted: array<real>)
    ensures fresh(sorted) && sorted[..] == Sort(values) && sorted.Length == |values|
  {
    sorted := new real[|values|](i requires 0 <= i < |values| => values[i]);
    assert sorted[..] == values;
    SortSorts(values);
    SortFloats(sorted);
  }

  // ----- the statistics

  method ComputeMedian(values: seq<real>) returns (m: real)
    requires values != []
    ensures m == Median(values)
  {
    var sorted := SortedCopy(values);
    var n := sorted.Length;
    assert forall k :: 0 <= k < n ==> sorted[k] == Sort(values)[k];
    if n % 2 == 0 {
      return (sorted[n / 2 - 1] + sorted[n / 2]) / 2.0;
    }
    m := sorted[n / 2];
  }

  method Interpolate(sorted: array<real>, index: real) returns (v: real)
    requires sorted.Length > 0
    ensures v == ValueAt(sorted[..], index)
  {
    var n := sorted.Length;
    var lower := Trunc(index);
    var upper := lower + 1;
    if upper >= n {
      return sorted[n - 1];
    }
    if lower < 0 {
      return sorted[0];
    }
    var weight := index - lower as real;
    v := sorted[lower] * (1.0 - weight) + sorted[upper] * weight;
  }

  method ComputePercentile(values: seq<real>, percentile: real) returns (v: real)
    requires values != []
    ensures v == Percentile(values, percentile)
  {
    var sorted := SortedCopy(values);
    var n := sorted.Length;
    v := Interpolate(sorted, Index(n, percentile));
  }

  method ComputeMean(values: seq<real>) returns (m: real)
    ensures m == Mean(values) && (values == [] ==> m == 0.0)
  {
    if |values| == 0 {
      return 0.0;
    }
    var sum := 0.0;
    for i := 0 to |values|
      invariant sum == Sum(values[..i])
    {
      assert values[..i + 1][..i] == values[..i];
      sum := sum + values[i];
    }
    assert values[..|values|] == values;
    m := sum / |values| as real;
  }

  method ComputeMax(values: seq<int>) returns (max: int)
    ensures max == Max(values) && (values == [] ==> max == 0)
  {
    if |values| == 0 {
      return 0;
    }
    max := values[0];
    for i := 1 to |values|
      invariant max == Max(values[..i])
    {
      assert values[..i + 1][..i] == values[..i];
      if values[i] > max {
        max := values[i];
      }
    }
    assert values[..|values|] == values;
  }

  method ComputeBaseline(results: seq<Result>) returns (baseline: Option<Baseline>)
    ensures baseline == ComputeFromResults(results)
  {
    if |results| < MIN_RESULTS {
      return None;
    }
    var p50s, p99s, rates, memories := [], [], [], [];
    for i := 0 to |results|
      invariant p50s == P50s(results[..i]) && p99s == P99s(results[..i])
      invariant rates == Rates(results[..i]) && memories == Memories(results[..i])
    {
      p50s, p99s := p50s + [results[i].ttftP50Ms], p99s + [results[i].ttftP99Ms];
      rates, memories := rates + [results[i].tokPerSec], memories + [results[i].gpuMemMB];
    }
    assert results[..|results|] == results;
    var p50 := ComputeMedian(p50s);
    var p99 := ComputePercentile(p99s, 0.95);
    var rate := ComputeMean(rates);
    var memory := ComputeMax(memories);
    baseline := Some(Baseline(p50, p99, rate, memory, |results|));
  }

  // ----- the detector

  datatype Alert = Alert(metric: Metric, baseline: real, current: real, deviationPct: real, severity: Severity)

  /** The alert a judgement stands for; none when the metric is quiet. */
  function AlertFor(cfg: Config, metric: Metric, baseline: real, current: real): Option<Alert> {
    var severity := Judge(cfg, metric, baseline, current);
    if severity.Quiet? then None
    else Some(Alert(metric, baseline, current, Deviation(metric, baseline, current).value, severity))
  }

  function AlertList(cfg: Config, metrics: seq<Metric>, baseline: Baseline, current: Baseline): seq<Alert> {
    if metrics == [] then []
    else
      var rest := AlertList(cfg, metrics[1..], baseline, current);
      var alert := AlertFor(cfg, metrics[0], Value(baseline, metrics[0]), Value(current, metrics[0]));
      if alert.Some? then [alert.value] + rest else rest
  }

  const METRICS := [TtftP50, TtftP99, TokPerSec, GpuMem]

  /** One check of a window: the stored baseline afterwards and the alerts raised. The first
      window with enough results becomes the baseline and is not judged. */
  function Check(cfg: Config, stored: Option<Baseline>, results: seq<Result>): (Option<Baseline>, seq<Alert>) {
    var current := ComputeFromResults(results);
    if |results| < cfg.minSamples || current.None? then (stored, [])
    else if stored.None? then (current, [])
    else (stored, AlertList(cfg, METRICS, stored.value, current.value))
  }

  /** The alerts that found room, in order. */
  function Sent(alerts: seq<Alert>, room: nat -> bool): seq<Alert> {
    if alerts == [] then []
    else
      var n := |alerts| - 1;
      Sent(alerts[..n], room) + (if room(n) then [alerts[n]] else [])
  }

  lemma {:induction false} QuietListIsEmpty(cfg: Config, metrics: seq<Metric>, baseline: Baseline, current: Baseline)
    requires forall m :: Judge(cfg, m, Value(baseline, m), Value(current, m)).Quiet?
    ensures AlertList(cfg, metrics, baseline, current) == []
  {
    if metrics != [] {
      QuietListIsEmpty(cfg, metrics[1..], baseline, current);
    }
  }

  /** However often the window that set the baseline is seen again, in whatever order, it raises
      no alert and leaves the baseline alone. */
  lemma RecheckIsQuiet(cfg: Config, first: seq<Result>, again: seq<Result>)
    requires multiset(first) == multiset(again)
    ensures var stored := Check(cfg, None, first).0;
            Check(cfg, stored, again) == (stored, [])
  {
    hide Judge;
    SameElementsSameLength(first, again);
    SummaryForgetsOrder(first, again);
    if |first| >= MIN_RESULTS {
      var x, y := ComputeFromResults(first).value, ComputeFromResults(again).value;
      forall m ensures Judge(cfg, m, Value(x, m), Value(y, m)).Quiet? {
        RearrangedWindowIsQuiet(cfg, first, again, m);
      }
      QuietListIsEmpty(cfg, METRICS, x, y);
    }
  }

  // ----- which alerts a window raises

  /** The figure of a metric in a baseline. */
  function Figure(b: Baseline, m: Metric): real {
    match m
    case TtftP50 => b.ttftP50Ms
    case TtftP99 => b.ttftP99Ms
    case TokPerSec => b.tokPerSec
    case GpuMem => b.gpuMemMB as real
  }

  /** The order in which metrics are reported. */
  function Place(m: Metric): nat {
    match m
    case TtftP50 => 0
    case TtftP99 => 1
    case TokPerSec => 2
    case GpuMem => 3
  }

  /** The loss is positive, measured in percent of the baseline, and reaches a threshold. */
  predicate Drifted(cfg: Config, m: Metric, baseline: real, current: real) {
    baseline != 0.0 &&
    var share := 100.0 * Loss(m, baseline, current) / baseline;
    share > 0.0 && (share >= cfg.criticalPct || share >= cfg.warningPct)
  }

  /** An alert carries both figures of its metric, the loss in percent of the baseline, and
      critical exactly if that reaches the critical threshold. */
  predicate Reports(cfg: Config, stored: Baseline, current: Baseline, a: Alert) {
    && a.baseline == Figure(stored, a.metric) && a.current == Figure(current, a.metric) && a.baseline != 0.0
    && a.deviationPct * a.baseline == 100.0 * Loss(a.metric, a.baseline, a.current)
    && a.severity == if a.deviationPct >= cfg.criticalPct then Critical else Warning
  }

  /** One alert for every metric that drifted and for no other, in order. */
  ghost predicate Tells(cfg: Config, stored: Baseline, current: Baseline, alerts: seq<Alert>) {
    && (forall i, j :: 0 <= i < j < |alerts| ==> Place(alerts[i].metric) < Place(alerts[j].metric))
    && (forall i :: 0 <= i < |alerts| ==> Reports(cfg, stored, current, alerts[i]))
    && (forall m :: Drifted(cfg, m, Figure(stored, m), Figure(current, m)) <==> Mentions(alerts, m))
  }

  predicate Mentions(alerts: seq<Alert>, m: Metric) {
    exists i :: 0 <= i < |alerts| && alerts[i].metric == m
  }

  lemma ShareOfBaseline(m: Metric, baseline: real, current: real)
    requires baseline != 0.0
    ensures var d := (current - baseline) / baseline;
            100.0 * Loss(m, baseline, current) / baseline == if m.TokPerSec? then -d * 100.0 else d * 100.0
  {
    var d := (current - baseline) / baseline;
    assert d * baseline == current - baseline;
    PercentOf(baseline, current - baseline);
    PercentOf(baseline, baseline - current);
  }

  lemma PercentOf(b: real, x: real)
    requires b != 0.0
    ensures 100.0 * x / b == x / b * 100.0 && -x / b == -(x / b)
  {
    var q := x / b;
    assert q * b == x;
    assert (100.0 * q) * b == 100.0 * x;
    assert (-q) * b == -x;
  }

  lemma AlertReports(cfg: Config, stored: Baseline, current: Baseline, m: Metric)
    ensures var alert := AlertFor(cfg, m, Value(stored, m), Value(current, m));
            && (alert.Some? <==> Drifted(cfg, m, Figure(stored, m), Figure(current, m)))
            && (alert.Some? ==> alert.value.metric == m && Reports(cfg, stored, current, alert.value))
  {
    var b, x := Figure(stored, m), Figure(current, m);
    assert Value(stored, m) == b && Value(current, m) == x;
    if b != 0.0 {
      ShareOfBaseline(m, b, x);
      var share := 100.0 * Loss(m, b, x) / b;
      assert share * b == 100.0 * Loss(m, b, x);
    }
  }

  /** The alerts of the metrics in `metrics`, which are in order. */
  ghost predicate TellsOf(cfg: Config, stored: Baseline, current: Baseline, metrics: seq<Metric>, alerts: seq<Alert>) {
    && (forall i, j :: 0 <= i < j < |alerts| ==> Place(alerts[i].metric) < Place(alerts[j].metric))
    && (forall i :: 0 <= i < |alerts| ==> alerts[i].metric in metrics && Reports(cfg, stored, current, alerts[i]))
    && (forall m :: m in metrics && Drifted(cfg, m, Figure(stored, m), Figure(current, m)) ==> Mentions(alerts, m))
    && (forall m :: Mentions(alerts, m) ==> Drifted(cfg, m, Figure(stored, m), Figure(current, m)))
  }

  lemma MentionsMore(first: Alert, rest: seq<Alert>, m: Metric)
    ensures Mentions([first] + rest, m) <==> first.metric == m || Mentions(rest, m)
  {
    var all := [first] + rest;
    if Mentions(rest, m) {
      var i :| 0 <= i < |rest| && rest[i].metric == m;
      assert all[i + 1].metric == m;
    }
    if first.metric == m {
      assert all[0].metric == m;
    }
  }

  lemma {:induction false} ListTells(cfg: Config, stored: Baseline, current: Baseline, metrics: seq<Metric>)
    requires forall i, j :: 0 <= i < j < |metrics| ==> Place(metrics[i]) < Place(metrics[j])
    ensures TellsOf(cfg, stored, current, metrics, AlertList(cfg, metrics, stored, current))
  {
    hide AlertFor, Reports, Drifted, Mentions;
    if metrics == [] {
      NoMentions();
    } else {
      var m, rest := metrics[0], AlertList(cfg, metrics[1..], stored, current);
      ListTells(cfg, stored, current, metrics[1..]);
      AlertReports(cfg, stored, current, m);
      var alert := AlertFor(cfg, m, Value(stored, m), Value(current, m));
      if alert.Some? {
        FirstTells(cfg, stored, current, metrics, alert.value, rest);
      }
    }
  }

  lemma NoMentions()
    ensures forall m :: !Mentions([], m)
  {
  }

  lemma FirstTells(cfg: Config, stored: Baseline, current: Baseline, metrics: seq<Metric>, first: Alert, rest: seq<Alert>)
    requires metrics != [] && first.metric == metrics[0] && Reports(cfg, stored, current, first)
    requires forall i, j :: 0 <= i < j < |metrics| ==> Place(metrics[i]) < Place(metrics[j])
    requires Drifted(cfg, metrics[0], Figure(stored, metrics[0]), Figure(current, metrics[0]))
    requires TellsOf(cfg, stored, current, metrics[1..], rest)
    ensures TellsOf(cfg, stored, current, metrics, [first] + rest)
  {
    hide Reports, Drifted, Mentions;
    var all := [first] + rest;
    forall m ensures Mentions(all, m) <==> first.metric == m || Mentions(rest, m) {
      MentionsMore(first, rest, m);
    }
    forall i | 0 <= i < |rest| ensures Place(first.metric) < Place(rest[i].metric) {
      assert rest[i].metric in metrics[1..];
    }
  }

  /** With a stored baseline and enough results, a check raises one alert for every metric that
      drifted and for no other, in the order p50, p99, throughput, memory, each with both figures,
      the loss in percent of the baseline and the severity that this reaches. */
  lemma CheckTellsWhatDrifted(cfg: Config, stored: Baseline, results: seq<Result>)
    requires |results| >= 5 && |results| >= cfg.minSamples
    ensures ComputeFromResults(results).Some? && Check(cfg, Some(stored), results).0 == Some(stored)
    ensures Tells(cfg, stored, ComputeFromResults(results).value, Check(cfg, Some(stored), results).1)
  {
    hide AlertList, Reports, Drifted, Mentions;
    var current := ComputeFromResults(results).value;
    ListTells(cfg, stored, current, METRICS);
    forall m: Metric ensures m in METRICS {
      match m
      case TtftP50 => assert METRICS[0] == m;
      case TtftP99 => assert METRICS[1] == m;
      case TokPerSec => assert METRICS[2] == m;
      case GpuMem => assert METRICS[3] == m;
    }
  }

  /** A metric drifted exactly if it is judged warning or critical. */
  lemma DriftedIffJudged(cfg: Config, m: Metric, baseline: real, current: real)
    ensures Drifted(cfg, m, baseline, current) <==> !Judge(cfg, m, baseline, current).Quiet?
  {
    if baseline != 0.0 {
      ShareOfBaseline(m, baseline, current);
    }
  }

  /** Of the alerts, exactly those that find room are sent, in order. */
  lemma {:induction false} SentIsWhatFits(alerts: seq<Alert>, room: nat -> bool) returns (picks: seq<nat>)
    ensures |picks| == |Sent(alerts, room)|
    ensures forall k :: 0 <= k < |picks| ==>
              picks[k] < |alerts| && room(picks[k]) && Sent(alerts, room)[k] == alerts[picks[k]]
    ensures forall k, l :: 0 <= k < l < |picks| ==> picks[k] < picks[l]
    ensures forall i: nat :: i < |alerts| && room(i) ==> i in picks
  {
    if alerts == [] {
      picks := [];
    } else {
      var n := |alerts| - 1;
      picks := SentIsWhatFits(alerts[..n], room);
      if room(n) {
        picks := picks + [n];
      }
    }
  }

  lemma {:induction false} RoomForAll(alerts: seq<Alert>, room: nat -> bool)
    requires forall i :: room(i)
    ensures Sent(alerts, room) == alerts
  {
    if alerts != [] {
      RoomForAll(alerts[..|alerts| - 1], room);
    }
  }

  class Detector {
    const config: Config
    var baselines: map<(string, string), Baseline>

    constructor (config: Config)
      ensures this.config == config && baselines == map[]
    {
      this.config := config;
      baselines := map[];
    }

    /** One metric, branch by branch. */
    method CheckMetric(metric: Metric, baseline: real, current: real) returns (alert: Option<Alert>)
      ensures alert == AlertFor(config, metric, baseline, current)
    {
      if baseline == 0.0 {
        return None;
      }
      var deviation := (current - baseline) / baseline;
      var pct, bad := 0.0, false;
      if metric.TokPerSec? {
        if deviation < 0.0 {
          pct, bad := -deviation * 100.0, true;
        }
      } else if deviation > 0.0 {
        pct, bad := deviation * 100.0, true;
      }
      if !bad {
        return None;
      }
      if pct >= config.criticalPct {
        return Some(Alert(metric, baseline, current, pct, Critical));
      }
      if pct >= config.warningPct {
        return Some(Alert(metric, baseline, current, pct, Warning));
      }
      alert := None;
    }

    method CheckMetrics(metrics: seq<Metric>, baseline: Baseline, current: Baseline) returns (alerts: seq<Alert>)
      ensures alerts == AlertList(config, metrics, baseline, current)
    {
      alerts := [];
      for i := 0 to |metrics|
        invariant alerts + AlertList(config, metrics[i..], baseline, current)
                  == AlertList(config, metrics, baseline, current)
      {
        assert metrics[i..][1..] == metrics[i + 1..];
        var alert := CheckMetric(metrics[i], Value(baseline, metrics[i]), Value(current, metrics[i]));
        if alert.Some? {
          alerts := alerts + [alert.value];
        }
      }
    }

    ghost function Stored(key: (string, string)): Option<Baseline>
      reads this
    {
      if key in baselines then Some(baselines[key]) else None
    }

    /** Checks one engine and model. The query and the read of the baseline may fail, the write of
        a new baseline may fail before or after it takes effect, and an alert that finds the
        channel full is dropped. The baselines of all other keys stay as they are. */
    method CheckEngineModel(key: (string, string), results: Option<seq<Result>>, readOk: bool, write: Fault,
                            room: nat -> bool)
      returns (ok: bool, sent: seq<Alert>)
      modifies this
      ensures baselines - {key} == old(baselines) - {key}
      ensures results.None? ==> !ok && sent == [] && baselines == old(baselines)
      ensures results.Some? && |results.value| < config.minSamples ==>
                ok && sent == [] && baselines == old(baselines)
      ensures results.Some? && |results.value| >= config.minSamples && !readOk ==>
                !ok && sent == [] && baselines == old(baselines)
      ensures results.Some? && |results.value| >= config.minSamples && readOk ==>
                var checked := Check(config, old(Stored(key)), results.value);
                && sent == Sent(checked.1, room)
                && Stored(key) == (if write.Applies() then checked.0 else old(Stored(key)))
                && (ok <==> checked.0 == old(Stored(key)) || write.NoFault?)
      ensures results.Some? && |results.value| >= 5 && |results.value| >= config.minSamples && readOk
              && key in old(baselines) && (forall i :: room(i)) ==>
                var current := ComputeFromResults(results.value);
                current.Some? && Tells(config, old(baselines)[key], current.value, sent)
      ensures results.Some? && |results.value| >= 5 && |results.value| >= config.minSamples && readOk
              && key !in old(baselines) && write.NoFault? ==>
                sent == [] && key in baselines && ComputeFromResults(results.value) == Some(baselines[key])
    {
      hide Tells;
      if results.Some? && |results.value| >= 5 && |results.value| >= config.minSamples && key in baselines {
        CheckTellsWhatDrifted(config, baselines[key], results.value);
        var alerts := Check(config, Some(baselines[key]), results.value).1;
        if forall i :: room(i) {
          RoomForAll(alerts, room);
        }
      }
      if results.None? {
        return false, [];
      }
      if |results.value| < config.minSamples {
        return true, [];
      }
      if !readOk {
        return false, [];
      }
      var current := ComputeBaseline(results.value);
      if key !in baselines {
        if current.None? {
          return true, [];
        }
        if write.Applies() {
          baselines := baselines[key := current.value];
        }
        return write.NoFault?, [];
      }
      if current.None? {
        return true, [];
      }
      var alerts := CheckMetrics(METRICS, baselines[key], current.value);
      sent := SendAll(alerts, room);
      ok := true;
    }

    /** Each alert goes into the channel if there is room at that moment. */
    static method SendAll(alerts: seq<Alert>, room: nat -> bool) returns (sent: seq<Alert>)
      ensures sent == Sent(alerts, room)
    {
      sent := [];
      for i := 0 to |alerts|
        invariant sent == Sent(alerts[..i], room)
      {
        assert alerts[..i + 1][..i] == alerts[..i];
        if room(i) {
          sent := sent + [alerts[i]];
        }
      }
      assert alerts[..|alerts|] == alerts;
    }
  }
}
