/**
 The per-tenant rate limiter. Requests touch shared state only inside a bucket's lock, so a
 concurrent run is the sequence of requests in the order they take their locks; each carries
 the time it read before that, which need not be in order.
 */
module RateLimit {
  import opened Domain

  const LIMIT: nat := 100

  /** `stamp` is the time in whole seconds that the request read on arrival. */
  datatype Request = Request(tenant: Option<string>, stamp: nat)

  datatype Decision = PassThrough | Admitted(remaining: int) | TooMany

  // ----- bucket keys

  function Digit(d: nat): char
    requires d < 10
  {
    "0123456789"[d]
  }

  function Decimal(n: nat): string {
    if n < 10 then [Digit(n)] else Decimal(n / 10) + [Digit(n % 10)]
  }

  function Key(tenant: string, minute: nat): string {
    "rl:" + tenant + ":" + Decimal(minute)
  }

  lemma {:induction false} DecimalHasNoColon(n: nat)
    ensures ':' !in Decimal(n) && |Decimal(n)| > 0
  {
    if n >= 10 {
      DecimalHasNoColon(n / 10);
    }
  }

  lemma DigitInjective(a: nat, b: nat)
    requires a < 10 && b < 10 && Digit(a) == Digit(b)
    ensures a == b
  {
  }

  lemma {:induction false} DecimalInjective(m: nat, n: nat)
    requires Decimal(m) == Decimal(n)
    ensures m == n
  {
    var d, e := Decimal(m), Decimal(n);
    DecimalHasNoColon(m / 10);
    DecimalHasNoColon(n / 10);
    if m < 10 || n < 10 {
      assert |d| == 1 && |e| == 1;
      DigitInjective(m, n);
    } else {
      assert d[..|d| - 1] == Decimal(m / 10) && e[..|e| - 1] == Decimal(n / 10);
      assert d[|d| - 1] == Digit(m % 10) && e[|e| - 1] == Digit(n % 10);
      DecimalInjective(m / 10, n / 10);
      DigitInjective(m % 10, n % 10);
    }
  }

  lemma NoLaterColon(a: string, b: string)
    requires ':' !in b
    ensures var s := a + ":" + b;
            s[|a|] == ':' && forall k :: |a| < k < |s| ==> s[k] != ':'
  {
    var s := a + ":" + b;
    forall k | |a| < k < |s| ensures s[k] != ':' {
      assert s[k] == b[k - |a| - 1];
    }
  }

  /** Cutting at a colon that no other follows is unambiguous. */
  lemma LastColon(a: string, b: string, c: string, d: string)
    requires a + ":" + b == c + ":" + d && ':' !in b && ':' !in d
    ensures a == c && b == d
  {
    var s, t := a + ":" + b, c + ":" + d;
    NoLaterColon(a, b);
    NoLaterColon(c, d);
    assert |a| == |c|;
    assert s[..|a|] == a && t[..|c|] == c;
    assert s[|a| + 1..] == b && t[|c| + 1..] == d;
  }

  /** Different tenants or minutes never share a bucket, whatever a tenant's name contains. */
  lemma KeyInjective(tenant1: string, minute1: nat, tenant2: string, minute2: nat)
    requires Key(tenant1, minute1) == Key(tenant2, minute2)
    ensures tenant1 == tenant2 && minute1 == minute2
  {
    hide Decimal;
    DecimalHasNoColon(minute1);
    DecimalHasNoColon(minute2);
    LastColon("rl:" + tenant1, Decimal(minute1), "rl:" + tenant2, Decimal(minute2));
    assert ("rl:" + tenant1)[3..] == tenant1 && ("rl:" + tenant2)[3..] == tenant2;
    DecimalInjective(minute1, minute2);
  }

  // ----- one request

  type Buckets = map<string, nat>

  function CountIn(buckets: Buckets, key: string): nat {
    if key in buckets then buckets[key] else 0
  }

  function Handled(buckets: Buckets, r: Request): (Buckets, Decision) {
    if r.tenant.None? then (buckets, PassThrough)
    else
      var key := Key(r.tenant.value, r.stamp / 60);
      var count := CountIn(buckets, key);
      if count >= LIMIT then (buckets[key := count], TooMany)
      else (buckets[key := count + 1], Admitted(LIMIT - (count + 1)))
  }

  class RateLimiter {
    var buckets: Buckets

    constructor ()
      ensures buckets == map[]
    {
      buckets := map[];
    }

    method Handle(r: Request) returns (d: Decision)
      modifies this
      ensures (buckets, d) == Handled(old(buckets), r)
    {
      if r.tenant.None? {
        return PassThrough;
      }
      var key := Key(r.tenant.value, r.stamp / 60);
      if key !in buckets {
        buckets := buckets[key := 0];
      }
      ghost var loaded := buckets;
      assert loaded == old(buckets)[key := CountIn(old(buckets), key)];
      if buckets[key] >= LIMIT {
        return TooMany;
      }
      buckets := buckets[key := buckets[key] + 1];
      assert buckets == old(buckets)[key := CountIn(old(buckets), key) + 1];
      d := Admitted(LIMIT - buckets[key]);
    }
  }

  // ----- whole runs

  function BucketsAfter(rs: seq<Request>): Buckets {
    if rs == [] then map[] else Handled(BucketsAfter(rs[..|rs| - 1]), rs[|rs| - 1]).0
  }

  function DecisionAt(rs: seq<Request>, i: nat): Decision
    requires i < |rs|
  {
    Handled(BucketsAfter(rs[..i]), rs[i]).1
  }

  predicate InMinute(r: Request, tenant: string, minute: nat) {
    r.tenant == Some(tenant) && r.stamp / 60 == minute
  }

  predicate InWindow(r: Request, tenant: string, start: nat) {
    r.tenant == Some(tenant) && start <= r.stamp < start + 60
  }

  /** How many requests of a tenant's clock minute the run has admitted. */
  function AdmittedInMinute(rs: seq<Request>, tenant: string, minute: nat): nat {
    if rs == [] then 0
    else
      var n := |rs| - 1;
      AdmittedInMinute(rs[..n], tenant, minute)
      + if InMinute(rs[n], tenant, minute) && DecisionAt(rs, n).Admitted? then 1 else 0
  }

  /** How many requests stamped within sixty seconds from `start` the run has admitted. */
  function AdmittedInWindow(rs: seq<Request>, tenant: string, start: nat): nat {
    if rs == [] then 0
    else
      var n := |rs| - 1;
      AdmittedInWindow(rs[..n], tenant, start)
      + if InWindow(rs[n], tenant, start) && DecisionAt(rs, n).Admitted? then 1 else 0
  }

  /** A bucket's count is the number of admissions of its tenant and minute, never above 100. */
  lemma {:induction false} BucketCountsAdmissions(rs: seq<Request>, tenant: string, minute: nat)
    ensures CountIn(BucketsAfter(rs), Key(tenant, minute)) == AdmittedInMinute(rs, tenant, minute) <= 100
  {
    hide Key;
    if rs != [] {
      var n := |rs| - 1;
      BucketCountsAdmissions(rs[..n], tenant, minute);
      var r := rs[n];
      if r.tenant.Some? && Key(r.tenant.value, r.stamp / 60) == Key(tenant, minute) {
        KeyInjective(r.tenant.value, r.stamp / 60, tenant, minute);
      }
    }
  }

  /** A request of a tenant is refused exactly when the tenant's minute has admitted 100;
      otherwise it is told 99, 98, ... in the order of admission. Any other passes through. */
  lemma DecisionFollowsCount(rs: seq<Request>, i: nat)
    requires i < |rs|
    ensures DecisionAt(rs, i) ==
            match rs[i].tenant
            case None => PassThrough
            case Some(tenant) =>
              var before := AdmittedInMinute(rs[..i], tenant, rs[i].stamp / 60);
              if before == 100 then TooMany else Admitted(99 - before)
  {
    hide Key;
    if rs[i].tenant.Some? {
      BucketCountsAdmissions(rs[..i], rs[i].tenant.value, rs[i].stamp / 60);
    }
  }

  /** Each tenant's clock minute admits at most 100. */
  lemma MinuteIsLimited(rs: seq<Request>, tenant: string, minute: nat)
    ensures AdmittedInMinute(rs, tenant, minute) <= 100
  {
    BucketCountsAdmissions(rs, tenant, minute);
  }

  lemma {:induction false} WindowSpansTwoMinutes(rs: seq<Request>, tenant: string, start: nat)
    ensures AdmittedInWindow(rs, tenant, start)
            <= AdmittedInMinute(rs, tenant, start / 60)
               + if start % 60 == 0 then 0 else AdmittedInMinute(rs, tenant, start / 60 + 1)
  {
    hide DecisionAt;
    if rs != [] {
      WindowSpansTwoMinutes(rs[..|rs| - 1], tenant, start);
    }
  }

  /** Any sixty seconds admit at most 200 of a tenant's requests. */
  lemma WindowIsLimited(rs: seq<Request>, tenant: string, start: nat)
    ensures AdmittedInWindow(rs, tenant, start) <= 200
  {
    WindowSpansTwoMinutes(rs, tenant, start);
    MinuteIsLimited(rs, tenant, start / 60);
    MinuteIsLimited(rs, tenant, start / 60 + 1);
  }

  function Burst(tenant: string, stamp: nat, n: nat): seq<Request> {
    if n == 0 then [] else Burst(tenant, stamp, n - 1) + [Request(Some(tenant), stamp)]
  }

  /** With the minute's limit not reached, one more request is one more admission. */
  lemma OneMore(rs: seq<Request>, tenant: string, stamp: nat, minute: nat, start: nat)
    requires AdmittedInMinute(rs, tenant, stamp / 60) < 100
    ensures var all := rs + [Request(Some(tenant), stamp)];
            && AdmittedInMinute(all, tenant, minute)
               == AdmittedInMinute(rs, tenant, minute) + (if minute == stamp / 60 then 1 else 0)
            && AdmittedInWindow(all, tenant, start)
               == AdmittedInWindow(rs, tenant, start) + (if start <= stamp < start + 60 then 1 else 0)
  {
    hide DecisionAt;
    var all := rs + [Request(Some(tenant), stamp)];
    assert all[..|rs|] == rs;
    DecisionFollowsCount(all, |rs|);
  }

  lemma NobodyAdmitted(tenant: string, minute: nat, start: nat)
    ensures AdmittedInMinute([], tenant, minute) == 0 && AdmittedInWindow([], tenant, start) == 0
  {
  }

  lemma {:induction false} BurstIsAdmitted(tenant: string, stamp: nat, n: nat, minute: nat)
    requires n <= 100
    ensures AdmittedInMinute(Burst(tenant, stamp, n), tenant, minute) == if minute == stamp / 60 then n else 0
    ensures AdmittedInWindow(Burst(tenant, stamp, n), tenant, stamp) == n
  {
    hide AdmittedInMinute, AdmittedInWindow;
    if n == 0 {
      NobodyAdmitted(tenant, minute, stamp);
    } else {
      BurstIsAdmitted(tenant, stamp, n - 1, minute);
      BurstIsAdmitted(tenant, stamp, n - 1, stamp / 60);
      OneMore(Burst(tenant, stamp, n - 1), tenant, stamp, minute, stamp);
    }
  }

  /** A full minute's burst at the start of the window and one request after the minute turns. */
  lemma BurstAcrossTheMinute(tenant: string, start: nat) returns (rs: seq<Request>)
    requires start % 60 != 0
    ensures AdmittedInWindow(rs, tenant, start) == 101
  {
    hide AdmittedInMinute, AdmittedInWindow, Burst;
    var turn := (start / 60 + 1) * 60;
    var burst := Burst(tenant, start, 100);
    rs := burst + [Request(Some(tenant), turn)];
    BurstIsAdmitted(tenant, start, 100, turn / 60);
    OneMore(burst, tenant, turn, turn / 60, start);
  }

  ghost predicate HoldsIn(tenant: string, start: nat) {
    forall rs :: AdmittedInWindow(rs, tenant, start) <= 100
  }

  /** The documented 100 requests a minute hold for the sixty seconds of a clock minute and for
      no other sixty seconds. */
  lemma LimitHoldsExactlyForClockMinutes(tenant: string, start: nat)
    ensures HoldsIn(tenant, start) <==> start % 60 == 0
  {
    if start % 60 == 0 {
      forall rs ensures AdmittedInWindow(rs, tenant, start) <= 100 {
        WindowSpansTwoMinutes(rs, tenant, start);
        MinuteIsLimited(rs, tenant, start / 60);
      }
    } else {
      var rs := BurstAcrossTheMinute(tenant, start);
      assert AdmittedInWindow(rs, tenant, start) > 100;
    }
  }
}
