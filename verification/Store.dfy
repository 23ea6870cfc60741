/**
 The campaign row and its event table. Every method is one SQL statement, so one atomic step.
 A call can fail before it takes effect or after, and its caller cannot tell which.
 */
module Store {
  import opened Domain
  import opened FeedSpec

  datatype RowState = Pending | Running | Completed | Failed | Cancelled {
    predicate Terminal() {
      Completed? || Failed? || Cancelled?
    }
  }

  datatype Row = Row(
    tenant: string,
    state: RowState,
    recommendation: Option<Recommendation>,
    trials: Option<seq<Trial>>,
    usage: Option<Usage>,
    errorMsg: Option<string>)

  datatype Fault = NoFault | FailsBefore | FailsAfter {
    predicate Applies() {
      !FailsBefore?
    }
  }

  // ----- what each statement does to the row

  function NewRow(tenant: string): Row {
    Row(tenant, Pending, None, None, None, None)
  }

  /** The claim touches a pending row only. */
  function MarkRunningRow(r: Row): Row {
    if r.state.Pending? then r.(state := Running) else r
  }

  /** Guards against cancelled only: any other state, even a terminal one, is overwritten. */
  function CompleteRow(r: Row, report: Option<Report>): Row {
    r.(state := if r.state.Cancelled? then Cancelled else Completed,
       recommendation := if report.Some? then report.value.recommendation else None,
       trials := if report.Some? then Some(report.value.trials) else None,
       usage := if report.Some? then Some(report.value.usage) else None)
  }

  function FailRow(r: Row, msg: string, report: Option<Report>): Row {
    r.(state := if r.state.Cancelled? then Cancelled else Failed,
       errorMsg := Some(msg),
       trials := if report.Some? then Some(report.value.trials) else r.trials,
       usage := if report.Some? then Some(report.value.usage) else r.usage)
  }

  predicate Cancellable(r: Row, tenant: string) {
    r.tenant == tenant && (r.state.Pending? || r.state.Running?)
  }

  function CancelRow(r: Row, tenant: string): Row {
    if Cancellable(r, tenant) then r.(state := Cancelled) else r
  }

  // ----- the event table

  function MaxSeq(log: seq<Logged>): nat {
    if log == [] then 0
    else
      var m := MaxSeq(log[..|log| - 1]);
      if log[|log| - 1].seqNo > m then log[|log| - 1].seqNo else m
  }

  /** The number is one more than the largest so far, in the same statement. */
  function AppendTo(log: seq<Logged>, e: Event): seq<Logged> {
    log + [Logged(MaxSeq(log) + 1, e)]
  }

  /** Numbered 1, 2, 3, ... without gaps, in the order of the table. */
  ghost predicate GapFree(log: seq<Logged>) {
    forall k :: 0 <= k < |log| ==> log[k].seqNo == k + 1
  }

  lemma {:induction false} GapFreeMax(log: seq<Logged>)
    requires GapFree(log)
    ensures MaxSeq(log) == |log|
  {
    if log != [] {
      GapFreeMax(log[..|log| - 1]);
    }
  }

  /** Appending keeps the numbering gap-free, and gives the event the next number. */
  lemma AppendKeepsNumbering(log: seq<Logged>, e: Event)
    requires GapFree(log)
    ensures GapFree(AppendTo(log, e)) && AppendTo(log, e) == log + [Logged(|log| + 1, e)]
  {
    GapFreeMax(log);
  }

  /** The rows past a cursor, oldest first, at most `limit` of them. */
  function EventsAfter(log: seq<Logged>, afterSeq: nat, limit: nat): seq<Logged> {
    if log == [] || limit == 0 then []
    else if log[0].seqNo > afterSeq then [log[0]] + EventsAfter(log[1..], afterSeq, limit - 1)
    else EventsAfter(log[1..], afterSeq, limit)
  }

  function Min(a: nat, b: nat): nat {
    if a <= b then a else b
  }

  ghost predicate NumberedFrom(log: seq<Logged>, first: nat) {
    forall k :: 0 <= k < |log| ==> log[k].seqNo == first + k
  }

  lemma {:induction false} PageFromStart(log: seq<Logged>, first: nat, afterSeq: nat, limit: nat)
    requires NumberedFrom(log, first) && afterSeq < first
    ensures EventsAfter(log, afterSeq, limit) == log[..Min(limit, |log|)]
    decreases |log|
  {
    if log != [] && limit != 0 {
      PageFromStart(log[1..], first + 1, afterSeq, limit - 1);
      var n := Min(limit, |log|);
      assert log[..n] == [log[0]] + log[1..][..n - 1];
    }
  }

  lemma {:induction false} PageSkipsSeen(log: seq<Logged>, first: nat, skip: nat, limit: nat)
    requires NumberedFrom(log, first) && skip <= |log| && first > 0
    ensures EventsAfter(log, first + skip - 1, limit) == EventsAfter(log[skip..], first + skip - 1, limit)
    decreases skip
  {
    if skip > 0 && limit > 0 {
      PageSkipsSeen(log[1..], first + 1, skip - 1, limit);
      assert log[1..][skip - 1..] == log[skip..];
    } else if skip == 0 {
      assert log[0..] == log;
    }
  }

  /** On a gap-free log a page is the slice that starts where the cursor stands. */
  lemma PageIsSlice(log: seq<Logged>, cursor: nat, limit: nat)
    requires GapFree(log) && cursor <= |log|
    ensures EventsAfter(log, cursor, limit) == log[cursor..Min(cursor + limit, |log|)]
  {
    hide EventsAfter;
    var rest := log[cursor..];
    PageSkipsSeen(log, 1, cursor, limit);
    PageFromStart(rest, cursor + 1, cursor, limit);
    assert rest[..Min(limit, |rest|)] == log[cursor..Min(cursor + limit, |log|)];
  }

  // ----- the store

  datatype CancelReply = CancelDone | NoCancellableCampaign | CancelFailed

  class CampaignStore {
    var row: Row
    var log: seq<Logged>

    constructor (tenant: string)
      ensures row == NewRow(tenant) && log == []
    {
      row, log := NewRow(tenant), [];
    }

    /** Claims a pending campaign; `claimed` is reported only when the call came back. */
    method MarkRunning(fault: Fault) returns (claimed: bool, ok: bool)
      modifies this`row
      ensures row == if fault.Applies() then MarkRunningRow(old(row)) else old(row)
      ensures ok == fault.NoFault?
      ensures claimed <==> ok && old(row).state.Pending?
    {
      var affected := 0;
      if fault.Applies() && row.state.Pending? {
        row := row.(state := Running);
        affected := 1;
      }
      ok := fault.NoFault?;
      claimed := ok && affected == 1;
    }

    /** Without a report the three columns become empty. */
    method Complete(report: Option<Report>, fault: Fault) returns (ok: bool)
      modifies this`row
      ensures row == if fault.Applies() then CompleteRow(old(row), report) else old(row)
      ensures ok == fault.NoFault?
    {
      if fault.Applies() {
        if !row.state.Cancelled? {
          row := row.(state := Completed);
        }
        if report.Some? {
          row := row.(recommendation := report.value.recommendation,
                      trials := Some(report.value.trials), usage := Some(report.value.usage));
        } else {
          row := row.(recommendation := None, trials := None, usage := None);
        }
      }
      ok := fault.NoFault?;
    }

    method Fail(msg: string, report: Option<Report>, fault: Fault) returns (ok: bool)
      modifies this`row
      ensures row == if fault.Applies() then FailRow(old(row), msg, report) else old(row)
      ensures ok == fault.NoFault?
    {
      if fault.Applies() {
        if !row.state.Cancelled? {
          row := row.(state := Failed);
        }
        row := row.(errorMsg := Some(msg));
        if report.Some? {
          row := row.(trials := Some(report.value.trials), usage := Some(report.value.usage));
        }
      }
      ok := fault.NoFault?;
    }

    /** Only the campaign's own tenant can cancel it; anyone else is told there is no such campaign. */
    method Cancel(tenant: string, fault: Fault) returns (reply: CancelReply)
      modifies this`row
      ensures reply == CancelDone <==>
                fault.NoFault? && old(row).tenant == tenant && (old(row).state.Pending? || old(row).state.Running?)
      ensures old(row).tenant != tenant ==> row == old(row)
      ensures row == if fault.Applies() then CancelRow(old(row), tenant) else old(row)
      ensures reply == if !fault.NoFault? then CancelFailed
                       else if Cancellable(old(row), tenant) then CancelDone
                       else NoCancellableCampaign
    {
      var affected := 0;
      if fault.Applies() && row.tenant == tenant && (row.state.Pending? || row.state.Running?) {
        row := row.(state := Cancelled);
        affected := 1;
      }
      reply := if !fault.NoFault? then CancelFailed
               else if affected == 0 then NoCancellableCampaign else CancelDone;
    }

    method AppendEvent(e: Event, fault: Fault) returns (ok: bool)
      modifies this`log
      ensures log == if fault.Applies() then AppendTo(old(log), e) else old(log)
      ensures ok == fault.NoFault?
    {
      if fault.Applies() {
        var max := 0;
        for i := 0 to |log|
          invariant max == MaxSeq(log[..i]) && log == old(log)
        {
          assert log[..i + 1][..i] == log[..i];
          if log[i].seqNo > max {
            max := log[i].seqNo;
          }
        }
        assert log[..|log|] == log;
        log := log + [Logged(max + 1, e)];
      }
      ok := fault.NoFault?;
    }

    method Events(afterSeq: nat, limit: nat) returns (page: seq<Logged>)
      ensures page == EventsAfter(log, afterSeq, limit)
    {
      page := [];
      var i := 0;
      while i < |log| && |page| < limit
        invariant 0 <= i <= |log| && |page| <= limit
        invariant EventsAfter(log, afterSeq, limit) == page + EventsAfter(log[i..], afterSeq, limit - |page|)
      {
        assert log[i..][1..] == log[i + 1..];
        if log[i].seqNo > afterSeq {
          page := page + [log[i]];
        }
        i := i + 1;
      }
    }
  }
}
