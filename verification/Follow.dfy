/**
 The two ends of a cursor: the handler that serves a page of a campaign's events, and the
 command that follows a campaign by asking for one page after the other.
 */
module Follow {
  import opened Domain
  import opened FeedSpec
  import opened Store
  import opened Protocol

  // ----- the handler

  /** A query parameter: missing, not an integer, or an integer. */
  datatype Query = Absent | Garbage | Number(n: int)

  const MAX_PAGE: nat := 500

  function QueryInt(q: Query, defaultValue: nat, max: Option<nat>): nat {
    match q
    case Number(n) =>
      if n < 0 then defaultValue
      else if max.Some? && n > max.value then max.value
      else n
    case _ => defaultValue
  }

  /** The number that takes effect never exceeds the ceiling, and is the caller's own whenever
      that is a number within it. */
  lemma QueryIsClamped(q: Query, defaultValue: nat, max: nat)
    requires defaultValue <= max
    ensures QueryInt(q, defaultValue, Some(max)) <= max
    ensures forall n: nat :: q == Number(n) ==> (QueryInt(q, defaultValue, Some(max)) == n <==> n <= max)
    ensures (forall n: nat :: q != Number(n)) ==> QueryInt(q, defaultValue, Some(max)) == defaultValue
  {
    if q.Number? && q.n >= 0 {
      var n: nat := q.n;
      assert q == Number(n);
    }
  }

  datatype Reply =
    | NotFound
    | ServerError
    | Page(events: seq<Logged>, lastSeq: nat, state: RowState, done: bool)

  /** Serves the events past the cursor. The row is read first and the events after it, so the
      state can be older than the page; None stands for a row that is missing, belongs to another
      tenant or cannot be read, and for a table that cannot be read. */
  method GetCampaignEvents(row: Option<Row>, table: Option<CampaignStore>, afterParam: Query, limitParam: Query)
    returns (reply: Reply)
    ensures row.None? <==> reply == NotFound
    ensures row.Some? && table.None? <==> reply == ServerError
    ensures row.Some? && table.Some? ==>
              var cursor := QueryInt(afterParam, 0, None);
              && reply.Page? && reply.state == row.value.state
              && (reply.done <==> !row.value.state.Pending? && !row.value.state.Running?)
              && reply.events == EventsAfter(table.value.log, cursor, QueryInt(limitParam, 200, Some(500)))
              && |reply.events| <= 500
              && reply.lastSeq == if reply.events == [] then cursor else reply.events[|reply.events| - 1].seqNo
  {
    if row.None? {
      return NotFound;
    }
    var afterSeq := QueryInt(afterParam, 0, None);
    var limit := QueryInt(limitParam, PAGE, Some(MAX_PAGE));
    if table.None? {
      return ServerError;
    }
    var events := table.value.Events(afterSeq, limit);
    PageFits(table.value.log, afterSeq, limit);
    var lastSeq := afterSeq;
    if |events| > 0 {
      lastSeq := events[|events| - 1].seqNo;
    }
    reply := Page(events, lastSeq, row.value.state, row.value.state.Terminal());
  }

  lemma {:induction false} PageFits(log: seq<Logged>, afterSeq: nat, limit: nat)
    ensures |EventsAfter(log, afterSeq, limit)| <= limit
    decreases |log|
  {
    if log != [] && limit != 0 {
      PageFits(log[1..], afterSeq, if log[0].seqNo > afterSeq then limit - 1 else limit);
    }
  }

  // ----- the follower

  /** What one request of the follower meets: the row's state when the row was read and the table
      when the events were, or nothing when the request fails. */
  datatype Request =
    | Failed
    | Served(state: RowState, log: seq<Logged>)

  /** The protocol's view of a request: a poll that fails, or one that asks and gets a page. */
  function AfterRequest(f: Follower, request: Request): Follower {
    match request
    case Failed => f
    case Served(state, log) => AfterPage(f.(phase := Asked(Poll(state, false))), log)
  }

  /** The follower after the first `n` requests; once stopped it asks no more. */
  function AfterRequests(start: nat, requests: seq<Request>, n: nat): (f: Follower)
    requires n <= |requests|
    ensures !f.phase.Asked?
  {
    if n == 0 then Follower(start, [], Idle)
    else
      var f := AfterRequests(start, requests, n - 1);
      if f.phase.Stopped? then f else AfterRequest(f, requests[n - 1])
  }

  /** Renders events as they are recorded, until the campaign is over or the caller gives up
      after the last request. */
  method FollowCampaign(start: nat, requests: seq<Request>)
    returns (rendered: seq<Logged>, afterSeq: nat, done: bool)
    ensures var f := AfterRequests(start, requests, |requests|);
            rendered == f.rendered && afterSeq == f.cursor && (done <==> f.phase.Stopped?)
  {
    hide EventsAfter;
    rendered, afterSeq, done := [], start, false;
    var i := 0;
    while i < |requests| && !done
      invariant i <= |requests|
      invariant var f := AfterRequests(start, requests, i);
                rendered == f.rendered && afterSeq == f.cursor && (done <==> f.phase.Stopped?)
    {
      var page := Fetch(requests[i], afterSeq);
      if page.Page? {
        for k := 0 to |page.events|
          invariant rendered == AfterRequests(start, requests, i).rendered + page.events[..k]
        {
          assert page.events[..k + 1] == page.events[..k] + [page.events[k]];
          rendered := rendered + [page.events[k]];
        }
        assert page.events[..|page.events|] == page.events;
        afterSeq := page.lastSeq;
        done := page.done;
      }
      i := i + 1;
    }
    StoppedStays(start, requests, i, |requests|);
  }

  /** A request of the command: the cursor, and no limit of its own. */
  method Fetch(request: Request, afterSeq: nat) returns (page: Reply)
    ensures request.Failed? ==> page == ServerError
    ensures request.Served? ==>
              page == Page(EventsAfter(request.log, afterSeq, 200),
                           (var e := EventsAfter(request.log, afterSeq, 200);
                            if e == [] then afterSeq else e[|e| - 1].seqNo),
                           request.state, !request.state.Pending? && !request.state.Running?)
  {
    match request
    case Failed =>
      page := ServerError;
    case Served(state, log) =>
      var table := new CampaignStore("");
      table.log := log;
      page := GetCampaignEvents(Some(NewRow("").(state := state)), Some(table), Number(afterSeq), Absent);
  }

  lemma {:induction false} StoppedStays(start: nat, requests: seq<Request>, i: nat, n: nat)
    requires i <= n <= |requests|
    requires i == n || AfterRequests(start, requests, i).phase.Stopped?
    ensures AfterRequests(start, requests, n) == AfterRequests(start, requests, i)
  {
    if i < n {
      StoppedStays(start, requests, i, n - 1);
    }
  }

  // ----- what the follower shows

  /** The tables that the requests see are gap-free, reach past the start and only ever grow. */
  ghost predicate Growing(start: nat, requests: seq<Request>) {
    && (forall i :: 0 <= i < |requests| && requests[i].Served? ==>
          GapFree(requests[i].log) && start <= |requests[i].log|)
    && (forall i, j :: 0 <= i < j < |requests| && requests[i].Served? && requests[j].Served? ==>
          requests[i].log <= requests[j].log)
  }

  /** One successful request. */
  lemma OneRequest(start: nat, f: Follower, state: RowState, seen: seq<Logged>)
    requires GapFree(seen) && start <= f.cursor <= |seen| && f.rendered == seen[start..f.cursor]
    ensures var g := AfterRequest(f, Served(state, seen));
            && g.cursor == Min(f.cursor + 200, |seen|) && g.rendered == seen[start..g.cursor]
            && (g.phase.Stopped? <==> !state.Pending? && !state.Running?)
            && (g.rendered == seen[start..] <==> |seen| - f.cursor <= 200)
  {
    hide AfterPage, GapFree;
    OnePage(start, f.(phase := Asked(Poll(state, false))), seen);
    PageCompletesIff(start, f.(phase := Asked(Poll(state, false))), seen);
  }

  /** Whatever requests fail and however the table grows in between, a follower that starts at a
      recorded cursor has shown exactly the events between that cursor and its present one. */
  lemma {:induction false} ShowsEveryEventOnce(start: nat, requests: seq<Request>, n: nat, log: seq<Logged>)
    requires n <= |requests| && Growing(start, requests) && start <= |log|
    requires forall i :: 0 <= i < n && requests[i].Served? ==> requests[i].log <= log
    ensures var f := AfterRequests(start, requests, n);
            && start <= f.cursor <= |log| && f.rendered == log[start..f.cursor]
            && forall i :: n <= i < |requests| && requests[i].Served? ==> f.cursor <= |requests[i].log|
  {
    hide EventsAfter, AfterPage, GapFree;
    if n > 0 {
      var f := AfterRequests(start, requests, n - 1);
      ShowsEveryEventOnce(start, requests, n - 1, log);
      var request := requests[n - 1];
      if !f.phase.Stopped? && request.Served? {
        var seen := request.log;
        assert log[..|seen|] == seen;
        OneRequest(start, f, request.state, seen);
      }
    }
  }

  /** The request that stops a follower completes its picture of the table exactly when at most a
      page was missing; the command never goes back for the rest. */
  lemma StopsCompleteIff(start: nat, requests: seq<Request>, n: nat)
    requires n < |requests| && Growing(start, requests)
    requires !AfterRequests(start, requests, n).phase.Stopped?
    requires requests[n].Served? && !requests[n].state.Pending? && !requests[n].state.Running?
    ensures AfterRequests(start, requests, |requests|).rendered == requests[n].log[start..] <==>
            |requests[n].log| - AfterRequests(start, requests, n).cursor <= 200
  {
    hide EventsAfter, AfterPage, GapFree;
    var f, log := AfterRequests(start, requests, n), requests[n].log;
    ShowsEveryEventOnce(start, requests, n, log);
    OneRequest(start, f, requests[n].state, log);
    StoppedStays(start, requests, n + 1, |requests|);
  }

  /** So a follower that attaches to a finished campaign shows its first page and no more. */
  lemma LateFollowerShowsOnePage(requests: seq<Request>)
    requires requests != [] && Growing(0, requests)
    requires requests[0].Served? && !requests[0].state.Pending? && !requests[0].state.Running?
    ensures AfterRequests(0, requests, |requests|).rendered ==
            requests[0].log[..Min(200, |requests[0].log|)]
  {
    hide EventsAfter, AfterPage, GapFree;
    OneRequest(0, Follower(0, [], Idle), requests[0].state, requests[0].log);
    assert AfterRequests(0, requests, 0) == Follower(0, [], Idle);
    StoppedStays(0, requests, 1, |requests|);
  }
}
