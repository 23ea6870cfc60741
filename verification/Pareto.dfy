/** The configuration sweep's answer: the best trial and the trials no other one beats. */
module Pareto {
  import opened Domain
  import opened Measurement

  datatype Point = Point(config: EngineConfig, tok: real, cost: real)

  /** No slower, no dearer, and better in one of the two. */
  predicate Dominates(q: Point, p: Point) {
    q.tok >= p.tok && q.cost <= p.cost && (q.tok > p.tok || q.cost < p.cost)
  }

  predicate Dominated(results: seq<Point>, p: Point) {
    exists j :: 0 <= j < |results| && Dominates(results[j], p)
  }

  /** The undominated among the first `n` results. */
  function FrontierOf(results: seq<Point>, n: nat): seq<Point>
    requires n <= |results|
  {
    if n == 0 then []
    else if Dominated(results, results[n - 1]) then FrontierOf(results, n - 1)
    else FrontierOf(results, n - 1) + [results[n - 1]]
  }

  function Frontier(results: seq<Point>): seq<Point> {
    FrontierOf(results, |results|)
  }

  /** Every result is compared with every other one; the first that dominates it ends the search. */
  method ParetoFrontier(results: seq<Point>) returns (pareto: seq<Point>)
    ensures pareto == Frontier(results)
  {
    pareto := [];
    for i := 0 to |results|
      invariant pareto == FrontierOf(results, i)
    {
      var p := results[i];
      var dominated := false;
      for j := 0 to |results|
        invariant !dominated && forall k :: 0 <= k < j ==> !Dominates(results[k], p)
      {
        if i == j {
          continue;
        }
        var q := results[j];
        if q.tok >= p.tok && q.cost <= p.cost {
          if q.tok > p.tok || q.cost < p.cost {
            assert Dominates(results[j], p);
            dominated := true;
            break;
          }
        }
      }
      if !dominated {
        pareto := pareto + [p];
      }
    }
  }

  // ----- sound and complete

  function Count(s: seq<Point>, p: Point): nat {
    multiset(s)[p]
  }

  lemma CountAppend(s: seq<Point>, x: Point, p: Point)
    ensures Count(s + [x], p) == Count(s, p) + if x == p then 1 else 0
  {
  }

  lemma {:induction false} FrontierCounts(results: seq<Point>, n: nat, p: Point)
    requires n <= |results|
    ensures Count(FrontierOf(results, n), p) == if Dominated(results, p) then 0 else Count(results[..n], p)
  {
    hide Dominated, Count;
    if n == 0 {
      assert results[..n] == [] == FrontierOf(results, n);
      NoneCounted(p);
    } else {
      var last := results[n - 1];
      FrontierCounts(results, n - 1, p);
      assert results[..n] == results[..n - 1] + [last];
      CountAppend(results[..n - 1], last, p);
      CountAppend(FrontierOf(results, n - 1), last, p);
    }
  }

  lemma NoneCounted(p: Point)
    ensures Count([], p) == 0
  {
  }

  /** Some result is no slower and no dearer, and better in one of the two. */
  predicate Beaten(results: seq<Point>, p: Point) {
    exists j :: 0 <= j < |results|
      && results[j].tok >= p.tok && results[j].cost <= p.cost
      && (results[j].tok > p.tok || results[j].cost < p.cost)
  }

  /** The list keeps an undominated result as often as it occurs and no dominated one. */
  lemma FrontierIsTheUndominated(results: seq<Point>, p: Point)
    ensures multiset(Frontier(results))[p] == if Beaten(results, p) then 0 else multiset(results)[p]
    ensures p in Frontier(results) <==> p in results && !Beaten(results, p)
    ensures Beaten(results, p) <==> Dominated(results, p)
  {
    assert forall j :: 0 <= j < |results| ==>
      (Dominates(results[j], p) <==>
       results[j].tok >= p.tok && results[j].cost <= p.cost && (results[j].tok > p.tok || results[j].cost < p.cost));
    FrontierCounts(results, |results|, p);
    assert results[..|results|] == results;
    assert p in Frontier(results) <==> p in multiset(Frontier(results));
    assert p in results <==> p in multiset(results);
  }

  /** `list` is made of the results at the increasing positions `picks`, all before `n`. */
  ghost predicate Picked(results: seq<Point>, list: seq<Point>, picks: seq<nat>, n: nat)
    requires n <= |results|
  {
    && |picks| == |list|
    && (forall k :: 0 <= k < |picks| ==> picks[k] < n && results[picks[k]] == list[k])
    && (forall k, l :: 0 <= k < l < |picks| ==> picks[k] < picks[l])
  }

  lemma PickedLater(results: seq<Point>, list: seq<Point>, picks: seq<nat>, n: nat)
    requires n < |results| && Picked(results, list, picks, n)
    ensures Picked(results, list, picks, n + 1)
    ensures Picked(results, list + [results[n]], picks + [n], n + 1)
  {
  }

  /** The positions a frontier keeps are in the order of the results. */
  lemma {:induction false} FrontierKeepsOrder(results: seq<Point>, n: nat) returns (picks: seq<nat>)
    requires n <= |results|
    ensures Picked(results, FrontierOf(results, n), picks, n)
  {
    hide Dominated, Picked;
    if n == 0 {
      picks := [];
      assert Picked(results, [], picks, 0) by { NothingPicked(results); }
    } else {
      picks := FrontierKeepsOrder(results, n - 1);
      PickedLater(results, FrontierOf(results, n - 1), picks, n - 1);
      if !Dominated(results, results[n - 1]) {
        picks := picks + [n - 1];
      }
    }
  }

  lemma NothingPicked(results: seq<Point>)
    ensures Picked(results, [], [], 0)
  {
  }

  ghost function Dominators(results: seq<Point>, p: Point): set<nat> {
    set i: nat | i < |results| && Dominates(results[i], p)
  }

  /** Whatever is left out is dominated by a member: following dominators ends at one. */
  lemma {:induction false} DominatedByMember(results: seq<Point>, p: Point) returns (m: Point)
    requires Dominated(results, p)
    ensures m in Frontier(results)
    ensures Dominates(m, p) && m.tok >= p.tok && m.cost <= p.cost && (m.tok > p.tok || m.cost < p.cost)
    decreases Dominators(results, p)
  {
    var j: nat :| j < |results| && Dominates(results[j], p);
    var q := results[j];
    if Dominated(results, q) {
      assert j in Dominators(results, p) && j !in Dominators(results, q);
      m := DominatedByMember(results, q);
    } else {
      m := q;
      FrontierIsTheUndominated(results, q);
    }
  }

  // ----- the best trial

  /** The first of the largest throughputs. */
  function Best(results: seq<Point>): Point
    requires results != []
  {
    if |results| == 1 then results[0]
    else
      var b := Best(results[..|results| - 1]);
      if results[|results| - 1].tok > b.tok then results[|results| - 1] else b
  }

  lemma {:induction false} BestIsFirstLargest(results: seq<Point>) returns (i: nat)
    requires results != []
    ensures i < |results| && results[i] == Best(results)
    ensures forall j :: 0 <= j < |results| ==> results[j].tok <= Best(results).tok
    ensures forall j :: 0 <= j < i ==> results[j].tok < Best(results).tok
  {
    var n := |results| - 1;
    if n == 0 {
      i := 0;
    } else {
      i := BestIsFirstLargest(results[..n]);
      assert forall j :: 0 <= j < n ==> results[..n][j] == results[j];
      if results[n].tok > Best(results[..n]).tok {
        i := n;
      }
    }
  }

  /** The frontier of a non-empty list is non-empty, and its largest throughput is the best one. */
  lemma FrontierReachesBest(results: seq<Point>) returns (m: Point)
    requires results != []
    ensures m in Frontier(results) && m.tok == Best(results).tok
    ensures forall p :: p in Frontier(results) ==> p.tok <= Best(results).tok
  {
    var i := BestIsFirstLargest(results);
    var b := results[i];
    if Dominated(results, b) {
      m := DominatedByMember(results, b);
    } else {
      m := b;
    }
    FrontierIsTheUndominated(results, m);
    forall p | p in Frontier(results) ensures p.tok <= b.tok {
      FrontierIsTheUndominated(results, p);
    }
  }

  // ----- what the frontier is at one GPU price

  /** Results whose cost follows their throughput at one price. */
  ghost predicate Priced(results: seq<Point>, price: real) {
    price > 0.0 && forall i :: 0 <= i < |results| ==> FollowsPrice(results[i], price)
  }

  ghost predicate FollowsPrice(p: Point, price: real) {
    if p.tok > 0.0 then p.cost > 0.0 && p.cost * p.tok == price else p.cost == 0.0
  }

  lemma FasterIsCheaper(price: real, p: Point, q: Point)
    requires FollowsPrice(p, price) && FollowsPrice(q, price) && p.tok > 0.0 && q.tok > 0.0
    ensures q.tok > p.tok ==> q.cost < p.cost
    ensures q.tok == p.tok ==> q.cost == p.cost
  {
    if q.tok > p.tok && q.cost >= p.cost {
      ProductGrows(q.cost, p.cost, q.tok, p.tok);
      assert false;
    }
    if q.tok == p.tok {
      assert q.cost == price / q.tok && p.cost == price / p.tok;
    }
  }

  lemma ProductGrows(a: real, b: real, c: real, d: real)
    requires a >= b > 0.0 && c > d > 0.0
    ensures a * c > b * d
  {
    assert a * c >= b * c;
    assert b * c > b * d;
  }

  lemma PricedDominance(price: real, p: Point, q: Point)
    requires price > 0.0 && FollowsPrice(p, price) && FollowsPrice(q, price)
    ensures Dominates(q, p) <==> q.tok > p.tok && (p.tok > 0.0 || q.tok <= 0.0)
  {
    if p.tok > 0.0 && q.tok > 0.0 {
      FasterIsCheaper(price, p, q);
    }
  }

  /**
   At one price, a result is on the frontier exactly when nothing is faster, or it has no
   throughput and nothing else without throughput is faster. With throughputs that are never
   negative: the fastest results together with those of zero throughput, whose cost is zero.
   */
  lemma PricedFrontier(results: seq<Point>, price: real, p: Point)
    requires Priced(results, price) && p in results
    ensures p in Frontier(results) <==>
            forall q :: q in results && (p.tok > 0.0 || q.tok <= 0.0) ==> q.tok <= p.tok
    ensures (forall q :: q in results ==> q.tok >= 0.0) ==>
              (p in Frontier(results) <==> p.tok == Best(results).tok || p.tok == 0.0)
  {
    hide FollowsPrice, Dominates;
    FrontierIsTheUndominated(results, p);
    var b := BestIsFirstLargest(results);
    var i :| 0 <= i < |results| && results[i] == p;
    assert FollowsPrice(results[i], price);
    forall j | 0 <= j < |results|
      ensures Dominates(results[j], p) <==> results[j].tok > p.tok && (p.tok > 0.0 || results[j].tok <= 0.0)
    {
      assert FollowsPrice(results[j], price);
      PricedDominance(price, p, results[j]);
    }
  }

  // ----- the sweep

  /** One attempt: a configuration and its raw requests; None when the trial raised an error. */
  datatype Attempt = Attempt(config: EngineConfig, raw: Option<seq<RawRequest>>)

  const DEFAULT_CONFIG := EngineConfig("", 1, 256, 8192, 0.90)

  function PointOf(gpuProfile: string, config: EngineConfig, raw: seq<RawRequest>): Point {
    var r := ComputeResult(gpuProfile, raw);
    Point(config, r.tokPerSec, r.costPerMTok)
  }

  /** The results of the attempts that did not raise an error, in order. */
  function Collected(gpuProfile: string, attempts: seq<Attempt>): seq<Point> {
    if attempts == [] then []
    else
      var last := attempts[|attempts| - 1];
      var rest := Collected(gpuProfile, attempts[..|attempts| - 1]);
      if last.raw.None? then rest else rest + [PointOf(gpuProfile, last.config, last.raw.value)]
  }

  /** The figures of an attempt that did not fail. */
  predicate MeasuredAs(gpuProfile: string, attempt: Attempt, p: Point) {
    && attempt.raw.Some? && p.config == attempt.config
    && p.tok == ComputeResult(gpuProfile, attempt.raw.value).tokPerSec
    && p.cost == ComputeResult(gpuProfile, attempt.raw.value).costPerMTok
  }

  /** The results are the figures of exactly the attempts that did not fail, in order. */
  ghost predicate CameFrom(gpuProfile: string, attempts: seq<Attempt>, results: seq<Point>, picks: seq<nat>) {
    && |picks| == |results|
    && (forall k, l :: 0 <= k < l < |picks| ==> picks[k] < picks[l])
    && (forall k :: 0 <= k < |picks| ==>
          picks[k] < |attempts| && MeasuredAs(gpuProfile, attempts[picks[k]], results[k]))
    && (forall i: nat :: i < |attempts| && attempts[i].raw.Some? ==> i in picks)
  }

  lemma OneMoreAttempt(gpuProfile: string, attempts: seq<Attempt>, results: seq<Point>, picks: seq<nat>, last: Attempt)
    requires CameFrom(gpuProfile, attempts, results, picks)
    ensures last.raw.None? ==> CameFrom(gpuProfile, attempts + [last], results, picks)
    ensures forall p :: MeasuredAs(gpuProfile, last, p) ==>
              CameFrom(gpuProfile, attempts + [last], results + [p], picks + [|attempts|])
  {
    hide MeasuredAs;
    var all := attempts + [last];
    assert forall k :: 0 <= k < |picks| ==> all[picks[k]] == attempts[picks[k]];
  }

  /** A sweep loses no attempt that did not fail, wherever the failing ones occur. */
  lemma {:induction false} CollectedIsWhatSucceeded(gpuProfile: string, attempts: seq<Attempt>) returns (picks: seq<nat>)
    ensures CameFrom(gpuProfile, attempts, Collected(gpuProfile, attempts), picks)
  {
    hide ComputeResult;
    if attempts == [] {
      picks := [];
    } else {
      var n, last := |attempts| - 1, attempts[|attempts| - 1];
      hide CameFrom;
      picks := CollectedIsWhatSucceeded(gpuProfile, attempts[..n]);
      OneMoreAttempt(gpuProfile, attempts[..n], Collected(gpuProfile, attempts[..n]), picks, last);
      assert attempts == attempts[..n] + [last];
      if last.raw.Some? {
        assert MeasuredAs(gpuProfile, last, PointOf(gpuProfile, last.config, last.raw.value));
        picks := picks + [n];
      }
    }
  }

  datatype SearchResult = SearchResult(best: Point, pareto: seq<Point>, trialsRun: nat)

  method Search(gpuProfile: string, attempts: seq<Attempt>) returns (r: SearchResult)
    ensures var results := Collected(gpuProfile, attempts);
            r == SearchResult(if results == [] then Point(DEFAULT_CONFIG, 0.0, 0.0) else Best(results),
                              Frontier(results), |results|)
  {
    var results := [];
    for i := 0 to |attempts|
      invariant results == Collected(gpuProfile, attempts[..i])
    {
      assert attempts[..i + 1][..i] == attempts[..i];
      if attempts[i].raw.Some? {
        results := results + [PointOf(gpuProfile, attempts[i].config, attempts[i].raw.value)];
      }
    }
    assert attempts[..|attempts|] == attempts;
    var pareto := ParetoFrontier(results);
    var best := Point(DEFAULT_CONFIG, 0.0, 0.0);
    if results != [] {
      best := results[0];
      for i := 1 to |results|
        invariant best == Best(results[..i])
      {
        assert results[..i + 1][..i] == results[..i];
        if results[i].tok > best.tok {
          best := results[i];
        }
      }
      assert results[..|results|] == results;
    }
    r := SearchResult(best, pareto, |results|);
  }

  lemma {:induction false} SweepIsPriced(gpuProfile: string, attempts: seq<Attempt>)
    ensures Priced(Collected(gpuProfile, attempts), PricePerUnit(gpuProfile))
  {
    hide ComputeResult, PricePerUnit;
    CostLaw(gpuProfile, []);
    if attempts != [] {
      var last := attempts[|attempts| - 1];
      SweepIsPriced(gpuProfile, attempts[..|attempts| - 1]);
      if last.raw.Some? {
        CostLaw(gpuProfile, last.raw.value);
      }
    }
  }

  /** A sweep measures one GPU profile, so its frontier adds nothing to the fastest trials but
      the trials without throughput. */
  lemma SweepFrontier(gpuProfile: string, attempts: seq<Attempt>, p: Point)
    requires p in Collected(gpuProfile, attempts)
    ensures var results := Collected(gpuProfile, attempts);
            p in Frontier(results) <==>
            forall q :: q in results && (p.tok > 0.0 || q.tok <= 0.0) ==> q.tok <= p.tok
  {
    hide Collected, Frontier, PricePerUnit;
    SweepIsPriced(gpuProfile, attempts);
    PricedFrontier(Collected(gpuProfile, attempts), PricePerUnit(gpuProfile), p);
  }
}
