/** How a benchmark's raw requests become throughput, error rate and cost. */
module Measurement {

  /** `failed` is whether the request recorded an error. */
  datatype RawRequest = RawRequest(totalMs: real, outputTokens: int, failed: bool)

  datatype Figures = Figures(tokPerSec: real, errorRate: real, costPerMTok: real)

  const DEFAULT_PRICE := 0.10

  /** US dollars per hour. */
  function PriceOf(gpuProfile: string): real {
    match gpuProfile
    case "a100-80gb" => 3.50
    case "h100" => 5.00
    case "l40s" => 2.20
    case "cpu" => 0.10
    case _ => DEFAULT_PRICE
  }

  function Successful(raw: seq<RawRequest>): seq<RawRequest> {
    if raw == [] then []
    else if raw[0].failed then Successful(raw[1..])
    else [raw[0]] + Successful(raw[1..])
  }

  function Tokens(raw: seq<RawRequest>): int {
    if raw == [] then 0 else raw[0].outputTokens + Tokens(raw[1..])
  }

  function Millis(raw: seq<RawRequest>): real {
    if raw == [] then 0.0 else raw[0].totalMs + Millis(raw[1..])
  }

  /** Zero when there is nothing to divide by. */
  function Throughput(successful: seq<RawRequest>): real {
    var seconds := Millis(successful) / 1000.0;
    if successful != [] && seconds > 0.0 then Tokens(successful) as real / seconds else 0.0
  }

  function ErrorRate(raw: seq<RawRequest>): real {
    if raw == [] then 0.0 else (|raw| - |Successful(raw)|) as real / |raw| as real
  }

  function CostPerMTok(price: real, tokPerSec: real): real {
    if tokPerSec > 0.0 then (price / 3600.0) / (tokPerSec / 1000000.0) else 0.0
  }

  function ComputeResult(gpuProfile: string, raw: seq<RawRequest>): Figures {
    var tok := Throughput(Successful(raw));
    Figures(tok, ErrorRate(raw), CostPerMTok(PriceOf(gpuProfile), tok))
  }

  // ----- throughput is a mean of the requests' own rates

  ghost predicate Timed(raw: seq<RawRequest>) {
    forall i :: 0 <= i < |raw| ==> raw[i].totalMs > 0.0
  }

  /** A request's own rate in tokens per second. */
  function Rate(r: RawRequest): real
    requires r.totalMs > 0.0
  {
    r.outputTokens as real / (r.totalMs / 1000.0)
  }

  lemma {:induction false} MillisPositive(raw: seq<RawRequest>)
    requires Timed(raw)
    ensures Millis(raw) >= 0.0 && (raw != [] ==> Millis(raw) > 0.0)
  {
    if raw != [] {
      MillisPositive(raw[1..]);
    }
  }

  lemma Scale(bound: real, tokens: real, seconds: real)
    requires seconds > 0.0
    ensures tokens / seconds >= bound <==> tokens >= bound * seconds
    ensures tokens / seconds <= bound <==> tokens <= bound * seconds
  {
    var d := tokens - bound * seconds;
    assert tokens / seconds - bound == d / seconds;
    assert d >= 0.0 <==> d / seconds >= 0.0;
    assert d <= 0.0 <==> d / seconds <= 0.0;
  }

  lemma RequestBounded(r: RawRequest, low: real, high: real)
    requires r.totalMs > 0.0 && low <= Rate(r) <= high
    ensures low * (r.totalMs / 1000.0) <= r.outputTokens as real <= high * (r.totalMs / 1000.0)
  {
    Scale(low, r.outputTokens as real, r.totalMs / 1000.0);
    Scale(high, r.outputTokens as real, r.totalMs / 1000.0);
  }

  lemma Distribute(x: real, s: real, t: real)
    ensures x * ((s + t) / 1000.0) == x * (s / 1000.0) + x * (t / 1000.0)
  {
    assert (s + t) / 1000.0 == s / 1000.0 + t / 1000.0;
  }

  lemma {:induction false} TokensBounded(raw: seq<RawRequest>, low: real, high: real)
    requires Timed(raw)
    requires forall i :: 0 <= i < |raw| ==> low <= Rate(raw[i]) <= high
    ensures low * (Millis(raw) / 1000.0) <= Tokens(raw) as real <= high * (Millis(raw) / 1000.0)
  {
    hide Rate;
    if raw != [] {
      var rest := raw[1..];
      TokensBounded(rest, low, high);
      RequestBounded(raw[0], low, high);
      Distribute(low, raw[0].totalMs, Millis(rest));
      Distribute(high, raw[0].totalMs, Millis(rest));
      assert Millis(raw) == raw[0].totalMs + Millis(rest);
      assert Tokens(raw) == raw[0].outputTokens + Tokens(rest);
    }
  }

  lemma {:induction false} Extremes(raw: seq<RawRequest>) returns (slow: nat, fast: nat)
    requires Timed(raw) && raw != []
    ensures slow < |raw| && fast < |raw|
    ensures forall i :: 0 <= i < |raw| ==> Rate(raw[slow]) <= Rate(raw[i]) <= Rate(raw[fast])
  {
    if |raw| == 1 {
      slow, fast := 0, 0;
    } else {
      var n := |raw| - 1;
      slow, fast := Extremes(raw[..n]);
      assert forall i :: 0 <= i < n ==> raw[..n][i] == raw[i];
      if Rate(raw[n]) < Rate(raw[slow]) {
        slow := n;
      }
      if Rate(raw[n]) > Rate(raw[fast]) {
        fast := n;
      }
    }
  }

  lemma MeanBetween(ok: seq<RawRequest>, low: real, high: real)
    requires Timed(ok) && ok != []
    requires forall i :: 0 <= i < |ok| ==> low <= Rate(ok[i]) <= high
    ensures low <= Throughput(ok) <= high
  {
    hide Rate, Tokens, Millis;
    MillisPositive(ok);
    TokensBounded(ok, low, high);
    Scale(low, Tokens(ok) as real, Millis(ok) / 1000.0);
    Scale(high, Tokens(ok) as real, Millis(ok) / 1000.0);
  }

  /** The reported throughput lies between the slowest and the fastest successful request. */
  lemma ThroughputIsBetweenRates(raw: seq<RawRequest>) returns (slow: RawRequest, fast: RawRequest)
    requires Timed(Successful(raw)) && Successful(raw) != []
    ensures slow in Successful(raw) && fast in Successful(raw) && slow.totalMs > 0.0 && fast.totalMs > 0.0
    ensures Rate(slow) <= Throughput(Successful(raw)) <= Rate(fast)
  {
    hide Rate;
    var ok := Successful(raw);
    var i, j := Extremes(ok);
    slow, fast := ok[i], ok[j];
    MeanBetween(ok, Rate(slow), Rate(fast));
  }

  // ----- failed requests change the error rate and nothing else

  lemma {:induction false} SuccessfulConcat(a: seq<RawRequest>, b: seq<RawRequest>)
    ensures Successful(a + b) == Successful(a) + Successful(b)
  {
    if a == [] {
      assert a + b == b;
    } else {
      SuccessfulConcat(a[1..], b);
      SuccessfulStep(a, b);
    }
  }

  lemma SuccessfulStep(a: seq<RawRequest>, b: seq<RawRequest>)
    requires a != []
    ensures Successful(a + b) ==
            if a[0].failed then Successful(a[1..] + b) else [a[0]] + Successful(a[1..] + b)
  {
    assert (a + b)[0] == a[0] && (a + b)[1..] == a[1..] + b;
  }

  lemma {:induction false} SuccessfulIsShorter(raw: seq<RawRequest>)
    ensures |Successful(raw)| <= |raw|
  {
    if raw != [] {
      SuccessfulIsShorter(raw[1..]);
    }
  }

  lemma RatioInUnit(part: nat, whole: nat)
    requires part <= whole && whole > 0
    ensures 0.0 <= part as real / whole as real <= 1.0
  {
    Scale(1.0, part as real, whole as real);
    Scale(0.0, part as real, whole as real);
  }

  lemma ErrorRateInUnit(raw: seq<RawRequest>)
    ensures 0.0 <= ErrorRate(raw) <= 1.0
  {
    SuccessfulIsShorter(raw);
    if raw != [] {
      RatioInUnit(|raw| - |Successful(raw)|, |raw|);
    }
  }

  /** A failed request, wherever it occurs, leaves throughput and cost as they are; the error
      rate stays within [0, 1] and does not fall. */
  lemma FailuresOnlyAffectErrorRate(gpuProfile: string, a: seq<RawRequest>, bad: RawRequest, b: seq<RawRequest>)
    requires bad.failed
    ensures var without, with := ComputeResult(gpuProfile, a + b), ComputeResult(gpuProfile, a + [bad] + b);
            && with.tokPerSec == without.tokPerSec && with.costPerMTok == without.costPerMTok
            && 0.0 <= without.errorRate <= with.errorRate <= 1.0
  {
    hide Throughput, CostPerMTok, PriceOf;
    SuccessfulConcat(a, b);
    SuccessfulConcat(a, [bad]);
    SuccessfulConcat(a + [bad], b);
    assert Successful([bad]) == [];
    assert Successful(a) + [] == Successful(a);
    ErrorRateInUnit(a + b);
    ErrorRateInUnit(a + [bad] + b);
    var good, n := |Successful(a + b)|, |a + b|;
    SuccessfulIsShorter(a + b);
    if n > 0 {
      MoreFailures(n - good, n);
    }
  }

  lemma MoreFailures(failed: nat, n: nat)
    requires failed <= n && n > 0
    ensures failed as real / n as real <= (failed + 1) as real / (n + 1) as real
  {
    var r := failed as real / n as real;
    assert r * n as real == failed as real;
    Scale(1.0, failed as real, n as real);
    assert r * (n + 1) as real == failed as real + r;
    Scale(r, (failed + 1) as real, (n + 1) as real);
  }

  // ----- the figures, counted from the requests themselves

  function FailedRequests(raw: seq<RawRequest>): nat {
    if raw == [] then 0 else (if raw[0].failed then 1 else 0) + FailedRequests(raw[1..])
  }

  /** The tokens of the requests that succeeded. */
  function GoodTokens(raw: seq<RawRequest>): int {
    if raw == [] then 0 else (if raw[0].failed then 0 else raw[0].outputTokens) + GoodTokens(raw[1..])
  }

  /** The milliseconds of the requests that succeeded, one after the other. */
  function GoodMillis(raw: seq<RawRequest>): real {
    if raw == [] then 0.0 else (if raw[0].failed then 0.0 else raw[0].totalMs) + GoodMillis(raw[1..])
  }

  lemma {:induction false} SuccessfulCounts(raw: seq<RawRequest>)
    ensures |raw| - |Successful(raw)| == FailedRequests(raw)
    ensures Tokens(Successful(raw)) == GoodTokens(raw) && Millis(Successful(raw)) == GoodMillis(raw)
  {
    if raw != [] {
      SuccessfulCounts(raw[1..]);
      if !raw[0].failed {
        assert Successful(raw)[1..] == Successful(raw[1..]);
      }
    }
  }

  lemma QuotientTimes(x: real, y: real)
    requires y != 0.0
    ensures x / y * y == x
  {
  }

  lemma ShareTimes(part: int, same: int, n: nat)
    requires part == same && n > 0
    ensures part as real / n as real * n as real == same as real
  {
    QuotientTimes(part as real, n as real);
  }

  lemma ErrorRateTimes(raw: seq<RawRequest>)
    requires raw != []
    ensures ErrorRate(raw) * |raw| as real == (|raw| - |Successful(raw)|) as real
  {
    hide Successful;
    var failed, n := |raw| - |Successful(raw)|, |raw|;
    ShareTimes(failed, failed, n);
    assert ErrorRate(raw) == failed as real / n as real;
  }

  lemma NothingFailed(raw: seq<RawRequest>)
    requires raw == []
    ensures ErrorRate(raw) == 0.0 && FailedRequests(raw) == 0
  {
  }

  /** The error rate is the share of failed requests, and zero for none. */
  lemma ErrorRateIsShare(gpuProfile: string, raw: seq<RawRequest>)
    ensures ComputeResult(gpuProfile, raw).errorRate * |raw| as real == FailedRequests(raw) as real
    ensures raw == [] ==> ComputeResult(gpuProfile, raw).errorRate == 0.0
  {
    hide Throughput, CostPerMTok, PriceOf, Successful, ErrorRate, FailedRequests;
    if raw == [] {
      NothingFailed(raw);
    } else {
      SuccessfulCounts(raw);
      ErrorRateTimes(raw);
    }
  }

  /** The throughput is the tokens of all successful requests by the seconds they took together;
      zero when they took none. */
  lemma ThroughputIsTotal(gpuProfile: string, raw: seq<RawRequest>)
    ensures var tok := ComputeResult(gpuProfile, raw).tokPerSec;
            if GoodMillis(raw) > 0.0 then tok * GoodMillis(raw) == 1000.0 * GoodTokens(raw) as real else tok == 0.0
  {
    hide ErrorRate, CostPerMTok, PriceOf, Tokens, Millis;
    SuccessfulCounts(raw);
    var ok := Successful(raw);
    if GoodMillis(raw) > 0.0 {
      assert ok != [] by { NoMillis(ok); }
      var seconds := GoodMillis(raw) / 1000.0;
      QuotientTimes(GoodTokens(raw) as real, seconds);
      assert GoodMillis(raw) == seconds * 1000.0;
    }
  }

  lemma NoMillis(ok: seq<RawRequest>)
    ensures ok == [] ==> Millis(ok) == 0.0
  {
  }

  // ----- the cost law

  lemma PriceIsPositive(gpuProfile: string)
    ensures PriceOf(gpuProfile) > 0.0
  {
  }

  /** What a token costs times how fast tokens come is the GPU's price, in these units. */
  function PricePerUnit(gpuProfile: string): real {
    PriceOf(gpuProfile) * 1000000.0 / 3600.0
  }

  lemma CostTimesThroughput(price: real, tok: real)
    requires tok > 0.0
    ensures CostPerMTok(price, tok) * tok == price * 1000000.0 / 3600.0
  {
    var m := tok / 1000000.0;
    assert m > 0.0 && tok == m * 1000000.0;
    assert (price / 3600.0) / m * m == price / 3600.0;
    assert CostPerMTok(price, tok) * tok == ((price / 3600.0) / m * m) * 1000000.0;
  }

  /** For one GPU profile, cost times throughput is the same positive constant for every result
      with throughput: what the GPU costs for the time a million tokens take. Without throughput
      the cost is recorded as zero. */
  lemma CostLaw(gpuProfile: string, raw: seq<RawRequest>)
    ensures PricePerUnit(gpuProfile) > 0.0
    ensures var r := ComputeResult(gpuProfile, raw);
            if r.tokPerSec > 0.0 then
              && r.costPerMTok > 0.0 && r.costPerMTok * r.tokPerSec == PricePerUnit(gpuProfile)
              && r.costPerMTok * (r.tokPerSec * 3600.0) == PriceOf(gpuProfile) * 1000000.0
            else r.costPerMTok == 0.0
  {
    hide Throughput, ErrorRate;
    PriceIsPositive(gpuProfile);
    var r := ComputeResult(gpuProfile, raw);
    if r.tokPerSec > 0.0 {
      CostTimesThroughput(PriceOf(gpuProfile), r.tokPerSec);
      assert r.tokPerSec / 1000000.0 > 0.0 && PriceOf(gpuProfile) / 3600.0 > 0.0;
      assert r.costPerMTok * (r.tokPerSec * 3600.0) == r.costPerMTok * r.tokPerSec * 3600.0;
    }
  }
}
