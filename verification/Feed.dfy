/**
 The feed as the dashboard builds it: one pass over the events that pushes items and fills in
 the open trial's card in place, through a second reference to the object in the list.
 */
module Feed {
  import opened Domain
  import opened FeedSpec

  class TrialCard {
    const engine: string
    const gpuProfile: string
    const config: Option<EngineConfig>
    const hypothesis: string
    var result: Option<Result>
    var error: Option<string>
    var elapsed: int
    var running: bool

    ghost function View(): Card
      reads this
    {
      Card(engine, gpuProfile, config, hypothesis, result, error, elapsed, running)
    }

    constructor (e: Event)
      ensures View() == OpenedCard(e)
    {
      engine := if e.trial.Some? then e.trial.value.engine else "unknown";
      gpuProfile := if e.trial.Some? then e.trial.value.gpuProfile else "";
      config := if e.trial.Some? then Some(e.trial.value.engineConfig) else None;
      hypothesis, result, error := e.text, None, None;
      elapsed, running := e.elapsed, true;
    }

    method Close(e: Event)
      modifies this
      ensures View() == ClosedCard(old(View()), e)
    {
      running := false;
      elapsed := e.elapsed;
      if e.kind.TrialFailed? {
        error := Some(e.text);
      } else {
        result := e.result;
      }
    }
  }

  datatype FeedItem =
    | TrialEntry(key: nat, trial: TrialCard)
    | NarrationEntry(key: nat, event: Event)

  ghost predicate SameItem(x: FeedItem, y: Item)
    reads if x.TrialEntry? then {x.trial} else {}
  {
    match x
    case TrialEntry(key, trial) => y == TrialItem(key, trial.View())
    case NarrationEntry(key, event) => y == Narration(key, event)
  }

  /** The list on the heap is the list of values, and its cards are among `cards`. */
  ghost predicate Mirrors(items: seq<FeedItem>, cards: set<TrialCard>, spec: seq<Item>)
    reads cards
  {
    && |items| == |spec|
    && (forall i :: 0 <= i < |items| && items[i].TrialEntry? ==> items[i].trial in cards)
    && (forall i :: 0 <= i < |items| ==> SameItem(items[i], spec[i]))
  }

  ghost predicate NoSharing(items: seq<FeedItem>) {
    forall i, j :: 0 <= i < j < |items| && items[i].TrialEntry? && items[j].TrialEntry? ==>
      items[i].trial != items[j].trial
  }

  /** Closing the open card in place changes that item and no other. */
  method CloseCard(items: seq<FeedItem>, ghost cards: set<TrialCard>, ghost f: FeedState, l: Logged, trial: TrialCard)
    requires f.Valid() && f.open.Some? && l.event.IsOutcome()
    requires Mirrors(items, cards, f.items) && NoSharing(items)
    requires items[f.open.value].TrialEntry? && items[f.open.value].trial == trial
    modifies trial
    ensures Mirrors(items, cards, AfterEvent(f, l).items)
  {
    trial.Close(l.event);
    ghost var spec := AfterEvent(f, l).items;
    forall i | 0 <= i < |items| ensures SameItem(items[i], spec[i]) {
      assert SameItem(items[i], f.items[i]) || i == f.open.value;
    }
  }

  lemma MirrorsMore(items: seq<FeedItem>, cards: set<TrialCard>, spec: seq<Item>, x: FeedItem, y: Item)
    requires Mirrors(items, cards, spec) && SameItem(x, y)
    ensures Mirrors(items + [x], if x.TrialEntry? then cards + {x.trial} else cards, spec + [y])
  {
  }

  lemma MirrorsNothing()
    ensures Mirrors([], {}, [])
  {
  }

  method BuildFeed(log: seq<Logged>) returns (items: seq<FeedItem>, ghost cards: set<TrialCard>)
    ensures Mirrors(items, cards, FeedSpec.Feed(log).items)
    ensures NoSharing(items) && fresh(cards)
  {
    hide Mirrors, SameItem;
    items, cards := [], {};
    MirrorsNothing();
    var openTrial: TrialCard? := null;
    ghost var f := FeedSpec.Feed([]);
    for k := 0 to |log|
      invariant f == FeedSpec.Feed(log[..k])
      invariant Mirrors(items, cards, f.items) && |items| == |f.items| && NoSharing(items) && fresh(cards)
      invariant forall i :: 0 <= i < |items| && items[i].TrialEntry? ==> items[i].trial in cards
      invariant openTrial == null <==> f.open.None?
      invariant openTrial != null ==> items[f.open.value].TrialEntry? && items[f.open.value].trial == openTrial
    {
      var e, seqNo := log[k].event, log[k].seqNo;
      assert log[..k + 1][..k] == log[..k];
      if e.kind.TrialStart? {
        var card := new TrialCard(e);
        assert SameItem(TrialEntry(seqNo, card), TrialItem(seqNo, OpenedCard(e))) by { CardIsItem(seqNo, card); }
        MirrorsMore(items, cards, f.items, TrialEntry(seqNo, card), TrialItem(seqNo, OpenedCard(e)));
        items, cards := items + [TrialEntry(seqNo, card)], cards + {card};
        openTrial := card;
      } else if e.IsOutcome() && openTrial != null {
        CloseCard(items, cards, f, log[k], openTrial);
        openTrial := null;
      } else {
        assert SameItem(NarrationEntry(seqNo, e), Narration(seqNo, e)) by { EventIsItem(seqNo, e); }
        MirrorsMore(items, cards, f.items, NarrationEntry(seqNo, e), Narration(seqNo, e));
        items := items + [NarrationEntry(seqNo, e)];
      }
      f := AfterEvent(f, log[k]);
    }
    assert log[..|log|] == log;
  }

  lemma CardIsItem(key: nat, trial: TrialCard)
    ensures SameItem(TrialEntry(key, trial), TrialItem(key, trial.View()))
  {
  }

  lemma EventIsItem(key: nat, e: Event)
    ensures SameItem(NarrationEntry(key, e), Narration(key, e))
  {
  }
}
