/** What the feed makes of any log whatever, read off the log itself. */
module FeedLaw {
  import opened Domain
  import opened FeedSpec

  /** A trial's start or its outcome. */
  predicate Marks(l: Logged) {
    l.event.kind.TrialStart? || l.event.kind.TrialDone? || l.event.kind.TrialFailed?
  }

  /** Event `k` is the outcome that trial `s` was waiting for: the next mark after its start. */
  ghost predicate Answers(log: seq<Logged>, s: nat, k: nat) {
    && s < k < |log| && log[s].event.kind.TrialStart?
    && (log[k].event.kind.TrialDone? || log[k].event.kind.TrialFailed?)
    && forall m :: s < m < k ==> !Marks(log[m])
  }

  ghost predicate Answered(log: seq<Logged>, k: nat) {
    exists s: nat :: Answers(log, s, k)
  }

  /** The trial started at `s` has had no mark since. */
  ghost predicate Waits(log: seq<Logged>, s: nat) {
    && s < |log| && log[s].event.kind.TrialStart?
    && forall m :: s < m < |log| ==> !Marks(log[m])
  }

  /** What a card tells of the start it was opened for. */
  predicate Opens(card: Card, start: Event) {
    && card.hypothesis == start.text
    && card.engine == (if start.trial.Some? then start.trial.value.engine else "unknown")
    && card.gpuProfile == (if start.trial.Some? then start.trial.value.gpuProfile else "")
    && card.config == (if start.trial.Some? then Some(start.trial.value.engineConfig) else None)
  }

  /** What a card tells of the outcome that closed it. */
  predicate Closes(card: Card, outcome: Event) {
    && !card.running && card.elapsed == outcome.elapsed
    && card.error == (if outcome.kind.TrialFailed? then Some(outcome.text) else None)
    && card.result == (if outcome.kind.TrialFailed? then None else outcome.result)
  }

  predicate StillRuns(card: Card, start: Event) {
    card.running && card.elapsed == start.elapsed && card.result.None? && card.error.None?
  }

  ghost predicate Unanswered(log: seq<Logged>, s: nat) {
    forall k: nat :: !Answers(log, s, k)
  }

  /** The item shows the event at `p`: a start as a card that holds the trial's own outcome or
      still runs, anything else as narration. */
  ghost predicate Shows(item: Item, log: seq<Logged>, p: nat) {
    && p < |log| && item.key == log[p].seqNo
    && if log[p].event.kind.TrialStart? then
         && item.TrialItem? && Opens(item.card, log[p].event)
         && (Unanswered(log, p) ==> StillRuns(item.card, log[p].event))
         && (forall k: nat :: Answers(log, p, k) ==> Closes(item.card, log[k].event))
       else item == Narration(log[p].seqNo, log[p].event)
  }

  /** The items show, in the order of the log, every event that is not a trial's own outcome. */
  ghost predicate ShowsAt(items: seq<Item>, log: seq<Logged>, ps: seq<nat>) {
    && |ps| == |items|
    && (forall i, j :: 0 <= i < j < |ps| ==> ps[i] < ps[j])
    && (forall i :: 0 <= i < |ps| ==> Shows(items[i], log, ps[i]))
    && (forall k: nat :: k < |log| ==> (k in ps <==> !Answered(log, k)))
  }

  ghost predicate Tracks(f: FeedState, log: seq<Logged>, ps: seq<nat>) {
    && |ps| == |f.items|
    && (f.open.Some? ==> f.open.value < |ps| && Waits(log, ps[f.open.value]))
    && (f.open.None? ==> forall s: nat :: !Waits(log, s))
  }

  // ----- one more event

  /** Earlier answers stay, and the new event answers exactly the trial that waited. */
  lemma AnswersGrow(log: seq<Logged>, l: Logged, s: nat, k: nat)
    ensures Answers(log + [l], s, k) <==>
              Answers(log, s, k)
              || (k == |log| && Waits(log, s) && (l.event.kind.TrialDone? || l.event.kind.TrialFailed?))
  {
    var all := log + [l];
    if k < |log| {
      assert all[k] == log[k];
      assert s < k ==> all[s] == log[s];
      assert forall m :: s < m < k ==> all[m] == log[m];
    } else if k == |log| {
      assert s < |log| ==> all[s] == log[s];
      assert forall m :: s < m < k ==> all[m] == log[m];
    }
  }

  lemma WaitsGrow(log: seq<Logged>, l: Logged, s: nat)
    ensures Waits(log + [l], s) <==>
              (s == |log| && l.event.kind.TrialStart?) || (Waits(log, s) && !Marks(l))
  {
    var all := log + [l];
    assert all[|log|] == l;
    assert forall m :: 0 <= m < |log| ==> all[m] == log[m];
  }

  lemma OneWaits(log: seq<Logged>, s: nat, t: nat)
    requires Waits(log, s) && Waits(log, t)
    ensures s == t
  {
  }

  lemma WaitsUnanswered(log: seq<Logged>, s: nat)
    requires Waits(log, s)
    ensures Unanswered(log, s)
  {
    forall k: nat ensures !Answers(log, s, k) {
      if Answers(log, s, k) {
        assert Marks(log[k]);
      }
    }
  }

  /** An item keeps showing its event when the new one is not its outcome. */
  lemma ShowsStays(item: Item, log: seq<Logged>, l: Logged, p: nat)
    requires Shows(item, log, p)
    requires !(Waits(log, p) && (l.event.kind.TrialDone? || l.event.kind.TrialFailed?))
    ensures Shows(item, log + [l], p)
  {
    hide Answers, Waits, Opens, Closes, StillRuns;
    var all := log + [l];
    assert all[p] == log[p];
    forall k: nat ensures Answers(all, p, k) <==> Answers(log, p, k) {
      AnswersGrow(log, l, p, k);
    }
    forall k: nat ensures Answers(all, p, k) ==> k < |log| && all[k] == log[k] {
      AnswersInside(log, p, k);
    }
  }

  lemma AnswersInside(log: seq<Logged>, s: nat, k: nat)
    ensures Answers(log, s, k) ==> s < k < |log|
  {
  }

  /** A new event shown as an item of its own. */
  lemma ShowsNew(item: Item, log: seq<Logged>, l: Logged)
    requires item == if l.event.kind.TrialStart? then TrialItem(l.seqNo, OpenedCard(l.event))
                     else Narration(l.seqNo, l.event)
    ensures Shows(item, log + [l], |log|)
  {
    assert (log + [l])[|log|] == l;
  }

  /** The card that waited, closed by its outcome. */
  lemma ShowsClosed(item: Item, log: seq<Logged>, l: Logged, p: nat)
    requires item.TrialItem? && Shows(item, log, p) && Waits(log, p)
    requires l.event.kind.TrialDone? || l.event.kind.TrialFailed?
    ensures Shows(item.(card := ClosedCard(item.card, l.event)), log + [l], p)
  {
    hide Answers, Waits;
    var all := log + [l];
    WaitsInside(log, p);
    assert all[p] == log[p] && all[|log|] == l;
    WaitsUnanswered(log, p);
    forall k: nat ensures Answers(all, p, k) <==> k == |log| {
      AnswersGrow(log, l, p, k);
    }
    assert Answers(all, p, |log|);
  }

  lemma WaitsInside(log: seq<Logged>, s: nat)
    requires Waits(log, s)
    ensures s < |log| && log[s].event.kind.TrialStart?
  {
  }

  lemma AnsweredGrows(log: seq<Logged>, l: Logged, k: nat)
    ensures k < |log| ==> (Answered(log + [l], k) <==> Answered(log, k))
    ensures Answered(log + [l], |log|) <==>
              (exists s: nat :: Waits(log, s)) && (l.event.kind.TrialDone? || l.event.kind.TrialFailed?)
  {
    hide Answers, Waits;
    var all := log + [l];
    forall s: nat
      ensures Answers(all, s, |log|) <==> Waits(log, s) && (l.event.kind.TrialDone? || l.event.kind.TrialFailed?)
    {
      AnswersGrow(log, l, s, |log|);
      AnswersInside(log, s, |log|);
    }
    if k < |log| {
      forall s: nat ensures Answers(all, s, k) <==> Answers(log, s, k) {
        AnswersGrow(log, l, s, k);
      }
    }
    if s: nat :| Waits(log, s) {
      assert Answers(all, s, |log|) <==> l.event.kind.TrialDone? || l.event.kind.TrialFailed?;
    }
  }

  /** The event that closes the open card adds no item. */
  lemma CloseStep(f: FeedState, log: seq<Logged>, ps: seq<nat>, l: Logged)
    requires f.Valid() && ShowsAt(f.items, log, ps) && Tracks(f, log, ps) && f.open.Some?
    requires l.event.kind.TrialDone? || l.event.kind.TrialFailed?
    ensures ShowsAt(AfterEvent(f, l).items, log + [l], ps) && Tracks(AfterEvent(f, l), log + [l], ps)
  {
    hide Answers, Waits, Shows, Answered;
    var g, all, o := AfterEvent(f, l), log + [l], f.open.value;
    forall i | 0 <= i < |ps| ensures Shows(g.items[i], all, ps[i]) {
      if i == o {
        ShowsClosed(f.items[o], log, l, ps[o]);
      } else {
        if Waits(log, ps[i]) {
          OneWaits(log, ps[i], ps[o]);
        }
        ShowsStays(f.items[i], log, l, ps[i]);
      }
    }
    forall k: nat | k < |all| ensures k in ps <==> !Answered(all, k) {
      AnsweredGrows(log, l, k);
      if k in ps {
        var i :| 0 <= i < |ps| && ps[i] == k;
        ShownInside(f.items[i], log, k);
      }
    }
    forall s: nat ensures !Waits(all, s) {
      WaitsGrow(log, l, s);
    }
  }

  lemma ShownInside(item: Item, log: seq<Logged>, p: nat)
    requires Shows(item, log, p)
    ensures p < |log|
  {
  }

  /** Any other event becomes the next item. */
  lemma ItemStep(f: FeedState, log: seq<Logged>, ps: seq<nat>, l: Logged)
    requires f.Valid() && ShowsAt(f.items, log, ps) && Tracks(f, log, ps)
    requires !((l.event.kind.TrialDone? || l.event.kind.TrialFailed?) && f.open.Some?)
    ensures ShowsAt(AfterEvent(f, l).items, log + [l], ps + [|log|])
    ensures Tracks(AfterEvent(f, l), log + [l], ps + [|log|])
  {
    hide Answers, Waits, Shows, Answered;
    var g, all, qs := AfterEvent(f, l), log + [l], ps + [|log|];
    ShowsNew(g.items[|ps|], log, l);
    forall i | 0 <= i < |qs| ensures Shows(g.items[i], all, qs[i]) {
      if i < |ps| {
        ShowsStays(f.items[i], log, l, ps[i]);
      }
    }
    forall i | 0 <= i < |ps| ensures ps[i] < |log| {
      ShownInside(f.items[i], log, ps[i]);
    }
    forall k: nat | k < |all| ensures k in qs <==> !Answered(all, k) {
      AnsweredGrows(log, l, k);
    }
    forall s: nat ensures Waits(all, s) <==> (s == |log| && l.event.kind.TrialStart?) || (Waits(log, s) && !Marks(l)) {
      WaitsGrow(log, l, s);
    }
  }

  lemma {:induction false} FeedTracks(log: seq<Logged>) returns (ps: seq<nat>)
    ensures ShowsAt(Feed(log).items, log, ps) && Tracks(Feed(log), log, ps)
  {
    hide ShowsAt, Tracks, AfterEvent;
    if log == [] {
      ps := [];
      NothingShown();
    } else {
      var n := |log| - 1;
      var init := log[..n];
      ps := FeedTracks(init);
      assert log == init + [log[n]];
      var e := log[n].event;
      if (e.kind.TrialDone? || e.kind.TrialFailed?) && Feed(init).open.Some? {
        CloseStep(Feed(init), init, ps, log[n]);
      } else {
        ItemStep(Feed(init), init, ps, log[n]);
        ps := ps + [n];
      }
    }
  }

  lemma NothingShown()
    ensures ShowsAt(Feed([]).items, [], []) && Tracks(Feed([]), [], [])
  {
  }

  /** Of any log, complete or not, the feed shows every event once and in order, except that the
      outcome a trial was waiting for is told on that trial's own card. */
  lemma FeedShowsTheLog(log: seq<Logged>) returns (ps: seq<nat>)
    ensures ShowsAt(Feed(log).items, log, ps)
  {
    ps := FeedTracks(log);
  }
}
