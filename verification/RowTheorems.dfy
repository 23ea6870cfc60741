/** Who can change a campaign's row, and what it says for good. */
module RowTheorems {
  import opened Domain
  import opened AgentSpec
  import opened Store
  import opened Protocol
  import opened ProtocolInvariants
  import opened CampaignTheorems

  // ----- whose campaign it is

  lemma StepKeepsTenant(c: Campaign, s: Sys, step: Step)
    requires Enabled(c, s, step)
    ensures Next(c, s, step).row.tenant == s.row.tenant
  {
    hide Run, EventsAfter, AppendTo, Quiet;
  }

  /** A campaign belongs to the tenant it was created for, whatever happens to it. */
  lemma {:induction false} TenantStays(c: Campaign, s: Sys, steps: seq<Step>)
    requires Legal(c, s, steps)
    ensures After(c, s, steps).row.tenant == s.row.tenant
    decreases |steps|
  {
    hide Enabled, Next;
    if steps != [] {
      StepKeepsTenant(c, s, steps[0]);
      TenantStays(c, Next(c, s, steps[0]), steps[1..]);
    }
  }

  /** Step number `k` of the run is a cancellation by the campaign's own tenant that took effect
      while the campaign was pending or running. */
  ghost predicate CancelTook(c: Campaign, s: Sys, steps: seq<Step>, k: nat) {
    && k < |steps| && steps[k].Cancel? && !steps[k].fault.FailsBefore? && Legal(c, s, steps[..k])
    && steps[k].tenant == s.row.tenant
    && (After(c, s, steps[..k]).row.state.Pending? || After(c, s, steps[..k]).row.state.Running?)
  }

  lemma StepCancels(c: Campaign, s: Sys, step: Step)
    requires SysInv(c, s) && Enabled(c, s, step)
    ensures Next(c, s, step).row.state.Cancelled? <==>
            s.row.state.Cancelled?
            || (step.Cancel? && !step.fault.FailsBefore? && step.tenant == s.row.tenant
                && (s.row.state.Pending? || s.row.state.Running?))
  {
    hide LogInv, CancelInv, RowTells, FollowInv, Run, EventsAfter, AppendTo, Quiet;
    StepFollowsEdge(c, s, step);
  }

  lemma TookNow(c: Campaign, s: Sys, steps: seq<Step>)
    requires steps != []
    ensures CancelTook(c, s, steps, 0) <==>
            steps[0].Cancel? && !steps[0].fault.FailsBefore? && steps[0].tenant == s.row.tenant
            && (s.row.state.Pending? || s.row.state.Running?)
  {
    assert steps[..0] == [];
    Nothing(c, s);
  }

  lemma TookLater(c: Campaign, s: Sys, steps: seq<Step>, k: nat)
    requires steps != [] && Enabled(c, s, steps[0]) && k < |steps| - 1
    ensures CancelTook(c, s, steps, k + 1) <==> CancelTook(c, Next(c, s, steps[0]), steps[1..], k)
  {
    hide Enabled, Next;
    StepKeepsTenant(c, s, steps[0]);
    assert steps[..k + 1][0] == steps[0] && steps[..k + 1][1..] == steps[1..][..k];
  }

  lemma {:induction false} CancelledBy(c: Campaign, s: Sys, steps: seq<Step>)
    requires SysInv(c, s) && Legal(c, s, steps)
    ensures After(c, s, steps).row.state.Cancelled? <==>
            s.row.state.Cancelled? || exists k: nat :: CancelTook(c, s, steps, k)
    decreases |steps|
  {
    hide SysInv, Enabled, Next, CancelTook;
    if steps == [] {
      forall k: nat ensures !CancelTook(c, s, steps, k) {
        NothingTook(c, s, k);
      }
    } else {
      var s1 := Next(c, s, steps[0]);
      StepCancels(c, s, steps[0]);
      StepKeeps(c, s, steps[0]);
      CancelledBy(c, s1, steps[1..]);
      TookNow(c, s, steps);
      if exists k: nat :: CancelTook(c, s1, steps[1..], k) {
        var k: nat :| CancelTook(c, s1, steps[1..], k);
        InRange(c, s1, steps[1..], k);
        TookLater(c, s, steps, k);
      }
      if exists k: nat :: CancelTook(c, s, steps, k) {
        var k: nat :| CancelTook(c, s, steps, k);
        InRange(c, s, steps, k);
        if k > 0 {
          TookLater(c, s, steps, k - 1);
        }
      }
    }
  }

  lemma NothingTook(c: Campaign, s: Sys, k: nat)
    ensures !CancelTook(c, s, [], k)
  {
  }

  lemma InRange(c: Campaign, s: Sys, steps: seq<Step>, k: nat)
    requires CancelTook(c, s, steps, k)
    ensures k < |steps|
  {
  }

  /** A campaign is cancelled exactly when its own tenant cancelled it while it was pending or
      running, by a call that took effect. */
  lemma CancelledIffByItsTenant(c: Campaign, tenant: string, steps: seq<Step>)
    requires Legal(c, Start(tenant), steps)
    ensures After(c, Start(tenant), steps).row.state.Cancelled? <==>
            exists k: nat :: CancelTook(c, Start(tenant), steps, k)
    ensures After(c, Start(tenant), steps).row.tenant == tenant
  {
    hide Legal, After, SysInv, CancelTook;
    StartInv(c, tenant);
    CancelledBy(c, Start(tenant), steps);
    TenantStays(c, Start(tenant), steps);
  }

  /** A cancellation by anyone else changes nothing at all. */
  lemma StrangersCancelNothing(c: Campaign, s: Sys, tenant: string, fault: Fault)
    requires tenant != s.row.tenant
    ensures Enabled(c, s, Step.Cancel(tenant, fault)) && Next(c, s, Step.Cancel(tenant, fault)) == s
  {
  }

  // ----- what a finished row says

  lemma QuietRowIsFrozen(c: Campaign, s: Sys, step: Step)
    requires Claims(s) && Enabled(c, s, step) && Quiet(s)
    ensures Next(c, s, step).row == s.row
  {
    hide Exclusive, NobodyInvolved, NobodyActive, Run, EventsAfter, AppendTo;
  }

  lemma {:induction false} QuietForGood(c: Campaign, s: Sys, more: seq<Step>)
    requires SysInv(c, s) && Quiet(s) && Legal(c, s, more)
    ensures After(c, s, more).row == s.row
    decreases |more|
  {
    hide LogInv, Claims, CancelInv, RowTells, FollowInv, Next, Enabled, Quiet;
    if more != [] {
      QuietRowIsFrozen(c, s, more[0]);
      QuietStays(c, s, more[0]);
      StepKeeps(c, s, more[0]);
      QuietForGood(c, Next(c, s, more[0]), more[1..]);
    }
  }

  lemma FinishIsQuiet(c: Campaign, s: Sys, i: nat, msg: string, fault: Fault)
    requires Claims(s) && Enabled(c, s, Finish(i, msg, fault)) && !fault.FailsBefore?
    ensures Quiet(Next(c, s, Finish(i, msg, fault)))
  {
    hide Exclusive, Run, EventsAfter, AppendTo;
    var s1 := Next(c, s, Finish(i, msg, fault));
    ActiveStep(s, i, s1.pcs[i]);
  }

  /** What a finish writes, cancelled or not: the work is stored, and nothing is taken back. */
  lemma FinishStores(c: Campaign, s: Sys, i: nat, msg: string, fault: Fault)
    requires Enabled(c, s, Finish(i, msg, fault)) && !fault.FailsBefore? && s.pcs[i].final.Some?
    ensures var row, run := Next(c, s, Finish(i, msg, fault)).row, s.pcs[i].final.value.run;
            && row.trials == Some(run.state.trials) && row.usage == Some(run.state.usage)
            && (run.err.None? ==> row.recommendation == run.state.recommendation && row.errorMsg == s.row.errorMsg)
            && (run.err.Some? && run.err != Some(LoopCancelled) ==>
                  row.recommendation == s.row.recommendation && row.errorMsg == Some(msg))
            && (s.row.state.Cancelled? ==> row.state.Cancelled?)
  {
  }

  /**
   Once a delivery's finish took effect, the row holds its run's trials and usage, and its
   recommendation or its error, in every continuation - also when the campaign was cancelled
   meanwhile, which keeps the work that was done.
   */
  lemma FinishedWorkIsKept(c: Campaign, tenant: string, steps: seq<Step>, i: nat, msg: string, fault: Fault, more: seq<Step>)
    requires Legal(c, Start(tenant), steps)
    requires Enabled(c, After(c, Start(tenant), steps), Finish(i, msg, fault)) && !fault.FailsBefore?
    requires After(c, Start(tenant), steps).pcs[i].final.Some?
    requires Legal(c, Next(c, After(c, Start(tenant), steps), Finish(i, msg, fault)), more)
    ensures var s := After(c, Start(tenant), steps);
            var run := s.pcs[i].final.value.run;
            var row := After(c, Next(c, s, Finish(i, msg, fault)), more).row;
            && row.trials == Some(run.state.trials) && row.usage == Some(run.state.usage)
            && (run.err.None? ==> row.recommendation == run.state.recommendation)
            && (run.err.Some? && run.err != Some(LoopCancelled) ==> row.errorMsg == Some(msg))
            && (s.row.state.Cancelled? ==> row.state.Cancelled?)
  {
    hide After, Legal, Start, LogInv, Claims, CancelInv, RowTells, FollowInv, Next, Quiet;
    ReachableInv(c, tenant, steps);
    var s := After(c, Start(tenant), steps);
    FinishStores(c, s, i, msg, fault);
    FinishIsQuiet(c, s, i, msg, fault);
    StepKeeps(c, s, Finish(i, msg, fault));
    QuietForGood(c, Next(c, s, Finish(i, msg, fault)), more);
  }
}
