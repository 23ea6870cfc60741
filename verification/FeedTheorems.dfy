/** What the feed makes of any log, complete or not. */
module FeedTheorems {
  import opened Domain
  import opened FeedSpec

  ghost predicate Increasing(log: seq<Logged>) {
    forall i, j :: 0 <= i < j < |log| ==> log[i].seqNo < log[j].seqNo
  }

  function ClosedCards(items: seq<Item>): nat {
    if items == [] then 0
    else
      var last := items[|items| - 1];
      ClosedCards(items[..|items| - 1]) + (if last.TrialItem? && !last.card.running then 1 else 0)
  }

  lemma {:induction false} ClosingCounts(items: seq<Item>, k: nat, item: Item)
    requires k < |items| && items[k].TrialItem? && items[k].card.running
    requires item.TrialItem? && !item.card.running
    ensures ClosedCards(items[k := item]) == ClosedCards(items) + 1
  {
    var n := |items| - 1;
    var all := items[k := item];
    if k == n {
      assert all[..n] == items[..n];
    } else {
      assert all[..n] == items[..n][k := item];
      ClosingCounts(items[..n], k, item);
    }
  }

  /** The card that is waited for is running. */
  ghost predicate AwaitsRunning(f: FeedState) {
    f.Valid() && (f.open.Some? ==> f.items[f.open.value].card.running)
  }

  lemma MoreItems(items: seq<Item>, x: Item)
    ensures ClosedCards(items + [x]) == ClosedCards(items) + if x.TrialItem? && !x.card.running then 1 else 0
  {
    assert (items + [x])[..|items|] == items;
  }

  lemma UsedOnce(f: FeedState, l: Logged)
    requires AwaitsRunning(f)
    ensures var g := AfterEvent(f, l);
            AwaitsRunning(g) && |g.items| + ClosedCards(g.items) == |f.items| + ClosedCards(f.items) + 1
  {
    hide ClosedCards;
    var g := AfterEvent(f, l);
    if l.event.kind.TrialStart? {
      MoreItems(f.items, TrialItem(l.seqNo, OpenedCard(l.event)));
    } else if l.event.IsOutcome() && f.open.Some? {
      ClosingCounts(f.items, f.open.value, g.items[f.open.value]);
    } else {
      MoreItems(f.items, Narration(l.seqNo, l.event));
    }
  }

  /** Every event of a log either makes one item or closes one running card, and a card that is
      waited for is still running: nothing is dropped, duplicated or closed twice. */
  lemma {:induction false} EveryEventIsUsedOnce(log: seq<Logged>)
    ensures |log| == |Feed(log).items| + ClosedCards(Feed(log).items) && AwaitsRunning(Feed(log))
  {
    hide AfterEvent, AwaitsRunning;
    if log == [] {
      assert AwaitsRunning(Feed([])) by { NothingAwaited(); }
    } else {
      var n := |log| - 1;
      EveryEventIsUsedOnce(log[..n]);
      UsedOnce(Feed(log[..n]), log[n]);
    }
  }

  lemma NothingAwaited()
    ensures AwaitsRunning(Feed([]))
  {
  }

  /** Where an item comes from: a trial's card from its start, narration from the event shown. */
  ghost predicate MadeBy(item: Item, l: Logged) {
    && item.key == l.seqNo
    && (match item
        case TrialItem(_, card) =>
          && l.event.kind.TrialStart? && card.hypothesis == l.event.text
          && card.engine == (if l.event.trial.Some? then l.event.trial.value.engine else "unknown")
          && card.config == (if l.event.trial.Some? then Some(l.event.trial.value.engineConfig) else None)
        case Narration(_, e) => e == l.event && !e.kind.TrialStart?)
  }

  ghost predicate HasMaker(item: Item, log: seq<Logged>) {
    exists k :: 0 <= k < |log| && MadeBy(item, log[k])
  }

  /** Every item shows an event of the log, under that event's number. */
  lemma {:induction false} ItemsShowEvents(log: seq<Logged>)
    ensures forall i :: 0 <= i < |Feed(log).items| ==> HasMaker(Feed(log).items[i], log)
  {
    hide MadeBy, AfterEvent;
    if log != [] {
      var n := |log| - 1;
      ItemsShowEvents(log[..n]);
      var f, g := Feed(log[..n]), Feed(log);
      assert g == AfterEvent(f, log[n]);
      ItemsGrow(f, log[n]);
      forall i | 0 <= i < |g.items| ensures HasMaker(g.items[i], log) {
        if i < |f.items| {
          assert HasMaker(f.items[i], log[..n]);
          var k :| 0 <= k < n && MadeBy(f.items[i], log[..n][k]);
          SameMaker(f, log[n], i, log[k]);
        } else {
          NewItem(f, log[n]);
        }
      }
    }
  }

  ghost predicate KeysIncrease(items: seq<Item>) {
    forall i, j :: 0 <= i < j < |items| ==> items[i].key < items[j].key
  }

  /** On an increasing log, as the store's is, every item has a key of its own, in order. */
  lemma {:induction false} KeysAreDistinct(log: seq<Logged>)
    requires Increasing(log)
    ensures KeysIncrease(Feed(log).items)
  {
    hide AfterEvent;
    if log != [] {
      var n := |log| - 1;
      KeysAreDistinct(log[..n]);
      ItemsShowEvents(log[..n]);
      var f, g := Feed(log[..n]), Feed(log);
      assert g == AfterEvent(f, log[n]);
      ItemsGrow(f, log[n]);
      forall i | 0 <= i < |f.items| ensures f.items[i].key < log[n].seqNo {
        assert HasMaker(f.items[i], log[..n]);
      }
      if |g.items| > |f.items| {
        NewItem(f, log[n]);
        assert g.items[|f.items|].key == log[n].seqNo;
      }
      forall i, j | 0 <= i < j < |g.items| ensures g.items[i].key < g.items[j].key {
        assert g.items[i].key == f.items[i].key;
        if j < |f.items| {
          assert f.items[i].key < f.items[j].key == g.items[j].key;
        }
      }
    }
  }

  lemma ItemsGrow(f: FeedState, l: Logged)
    requires f.Valid()
    ensures |f.items| <= |AfterEvent(f, l).items| <= |f.items| + 1
    ensures forall i :: 0 <= i < |f.items| ==> AfterEvent(f, l).items[i].key == f.items[i].key
  {
  }

  lemma SameMaker(f: FeedState, l: Logged, i: nat, maker: Logged)
    requires f.Valid() && i < |f.items| && MadeBy(f.items[i], maker)
    ensures i < |AfterEvent(f, l).items| && MadeBy(AfterEvent(f, l).items[i], maker)
  {
  }

  lemma NewItem(f: FeedState, l: Logged)
    requires f.Valid() && |AfterEvent(f, l).items| > |f.items|
    ensures |AfterEvent(f, l).items| == |f.items| + 1
    ensures MadeBy(AfterEvent(f, l).items[|f.items|], l)
  {
  }
}
