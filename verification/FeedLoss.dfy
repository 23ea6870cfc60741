/**
 The feed of a table from which appends were lost: which losses it survives, and what it shows
 otherwise.
 */
module FeedLoss {
  import opened Domain
  import opened AgentSpec
  import opened AgentInvariants
  import opened FeedSpec
  import opened FeedTheorems

  // ----- the cards, as a fold of their own

  /** The cards alone, and whether the last one waits for its outcome. */
  datatype Deck = Deck(cards: seq<Card>, open: bool)

  function AfterCard(d: Deck, e: Event): Deck {
    if e.kind.TrialStart? then Deck(d.cards + [OpenedCard(e)], true)
    else if e.IsOutcome() && d.open && d.cards != [] then
      Deck(d.cards[..|d.cards| - 1] + [ClosedCard(d.cards[|d.cards| - 1], e)], false)
    else d
  }

  function DeckOf(events: seq<Event>): Deck {
    if events == [] then Deck([], false)
    else AfterCard(DeckOf(events[..|events| - 1]), events[|events| - 1])
  }

  lemma DeckAppend(events: seq<Event>, e: Event)
    ensures DeckOf(events + [e]) == AfterCard(DeckOf(events), e)
  {
    assert (events + [e])[..|events|] == events;
  }

  lemma {:induction false} CardsConcat(a: seq<Item>, b: seq<Item>)
    ensures Cards(a + b) == Cards(a) + Cards(b)
    decreases |b|
  {
    if b == [] {
      assert a + b == a;
    } else {
      var n := |b| - 1;
      assert (a + b)[..|a + b| - 1] == a + b[..n];
      CardsConcat(a, b[..n]);
    }
  }

  /** The feed's cards and its open card are those of the deck: the open card is the last one. */
  ghost predicate ShowsDeck(f: FeedState, d: Deck) {
    && f.Valid() && Cards(f.items) == d.cards && (f.open.Some? <==> d.open)
    && (d.open ==> d.cards != [] && Cards(f.items[f.open.value + 1..]) == [])
  }

  lemma DeckOpens(f: FeedState, d: Deck, l: Logged)
    requires ShowsDeck(f, d) && l.event.kind.TrialStart?
    ensures ShowsDeck(AfterEvent(f, l), AfterCard(d, l.event))
  {
    hide Cards;
    ItemsAppend(f.items, TrialItem(l.seqNo, OpenedCard(l.event)));
    assert AfterEvent(f, l).items[|f.items| + 1..] == [];
    NoCards();
  }

  /** Replacing the last card of a list replaces the last card of its deck. */
  lemma ReplaceLastCard(items: seq<Item>, o: nat, item: Item)
    requires o < |items| && items[o].TrialItem? && item.TrialItem? && Cards(items[o + 1..]) == []
    ensures Cards(items) != [] && Cards(items)[|Cards(items)| - 1] == items[o].card
    ensures Cards(items[o := item]) == Cards(items)[..|Cards(items)| - 1] + [item.card]
  {
    hide Cards;
    var rest := items[o + 1..];
    assert items == items[..o] + [items[o]] + rest;
    assert items[o := item] == items[..o] + [item] + rest;
    CardsConcat(items[..o] + [items[o]], rest);
    CardsConcat(items[..o] + [item], rest);
    ItemsAppend(items[..o], items[o]);
    ItemsAppend(items[..o], item);
  }

  lemma DeckCloses(f: FeedState, d: Deck, l: Logged)
    requires ShowsDeck(f, d) && l.event.IsOutcome() && f.open.Some?
    ensures ShowsDeck(AfterEvent(f, l), AfterCard(d, l.event))
  {
    hide Cards;
    var o := f.open.value;
    ReplaceLastCard(f.items, o, AfterEvent(f, l).items[o]);
  }

  lemma DropAppend(items: seq<Item>, x: Item, n: nat)
    requires n <= |items|
    ensures (items + [x])[n..] == items[n..] + [x]
  {
  }

  lemma DeckNarrates(f: FeedState, d: Deck, l: Logged)
    requires ShowsDeck(f, d) && !l.event.kind.TrialStart? && (l.event.IsOutcome() ==> f.open.None?)
    ensures ShowsDeck(AfterEvent(f, l), AfterCard(d, l.event))
  {
    hide Cards;
    var x := Narration(l.seqNo, l.event);
    ItemsAppend(f.items, x);
    if f.open.Some? {
      DropAppend(f.items, x, f.open.value + 1);
      ItemsAppend(f.items[f.open.value + 1..], x);
    }
  }

  lemma DeckStep(f: FeedState, d: Deck, l: Logged)
    requires ShowsDeck(f, d)
    ensures ShowsDeck(AfterEvent(f, l), AfterCard(d, l.event))
  {
    hide ShowsDeck, AfterEvent, AfterCard;
    if l.event.kind.TrialStart? {
      DeckOpens(f, d, l);
    } else if l.event.IsOutcome() && f.open.Some? {
      DeckCloses(f, d, l);
    } else {
      DeckNarrates(f, d, l);
    }
  }

  lemma NoCards()
    ensures Cards([]) == []
  {
  }

  lemma {:induction false} FeedShowsDeck(events: seq<Event>)
    ensures ShowsDeck(Feed(Numbered(events)), DeckOf(events))
  {
    hide AfterEvent, AfterCard, ShowsDeck;
    if events == [] {
      assert Numbered(events) == [];
      EmptyDeck();
    } else {
      var n := |events| - 1;
      FeedShowsDeck(events[..n]);
      assert events == events[..n] + [events[n]];
      FeedAppend(events[..n], events[n]);
      DeckStep(Feed(Numbered(events[..n])), DeckOf(events[..n]), Logged(n + 1, events[n]));
    }
  }

  lemma EmptyDeck()
    ensures ShowsDeck(Feed([]), DeckOf([]))
  {
  }

  // ----- losing narration leaves the cards alone

  /** Every event of a trial was recorded. */
  ghost predicate OnlyNarrationLost(events: seq<Event>, kept: seq<bool>)
    requires |kept| == |events|
  {
    forall k :: 0 <= k < |events| && !kept[k] ==> events[k].IsNarration()
  }

  lemma KeptStep(events: seq<Event>, kept: seq<bool>)
    requires |kept| == |events| && events != []
    ensures var n := |events| - 1;
            Kept(events, kept) == if kept[n] then Kept(events[..n], kept[..n]) + [events[n]] else Kept(events[..n], kept[..n])
  {
  }

  lemma {:induction false} NarrationIsHarmless(events: seq<Event>, kept: seq<bool>)
    requires |kept| == |events| && OnlyNarrationLost(events, kept)
    ensures DeckOf(Kept(events, kept)) == DeckOf(events)
  {
    if events != [] {
      var n := |events| - 1;
      LossGrows(events, kept);
      NarrationIsHarmless(events[..n], kept[..n]);
      KeptStep(events, kept);
      if kept[n] {
        DeckAppend(Kept(events[..n], kept[..n]), events[n]);
      }
    }
  }

  // ----- losing anything else does not

  function TrialEvents(events: seq<Event>): nat {
    if events == [] then 0
    else
      var n := |events| - 1;
      TrialEvents(events[..n]) + if events[n].IsNarration() then 0 else 1
  }

  function Closed(cards: seq<Card>): nat {
    if cards == [] then 0
    else
      var n := |cards| - 1;
      Closed(cards[..n]) + if cards[n].running then 0 else 1
  }

  /** What the cards account for: a start each, and an outcome if closed. */
  function Weight(cards: seq<Card>): nat {
    |cards| + Closed(cards)
  }

  lemma ClosedAppend(cards: seq<Card>, card: Card)
    ensures Closed(cards + [card]) == Closed(cards) + if card.running then 0 else 1
  {
    assert (cards + [card])[..|cards|] == cards;
  }

  lemma TrialEventsAppend(events: seq<Event>, e: Event)
    ensures TrialEvents(events + [e]) == TrialEvents(events) + if e.IsNarration() then 0 else 1
  {
    assert (events + [e])[..|events|] == events;
  }

  lemma WeighStep(d: Deck, e: Event)
    requires d.open ==> d.cards != [] && d.cards[|d.cards| - 1].running
    ensures var d1 := AfterCard(d, e);
            && (d1.open ==> d1.cards != [] && d1.cards[|d1.cards| - 1].running)
            && Weight(d1.cards) == Weight(d.cards)
               + if e.kind.TrialStart? || (e.IsOutcome() && d.open) then 1 else 0
  {
    hide Closed;
    if e.kind.TrialStart? {
      ClosedAppend(d.cards, OpenedCard(e));
    } else if e.IsOutcome() && d.open {
      var n := |d.cards| - 1;
      assert d.cards == d.cards[..n] + [d.cards[n]];
      ClosedAppend(d.cards[..n], d.cards[n]);
      ClosedAppend(d.cards[..n], ClosedCard(d.cards[n], e));
    }
  }

  /** Cards never account for more than the trial events, and lose one for every stray outcome. */
  lemma {:induction false} DeckWeighs(events: seq<Event>)
    ensures Weight(DeckOf(events).cards) <= TrialEvents(events)
    ensures Weight(DeckOf(events).cards) == TrialEvents(events) <==> NoStrays(events)
    ensures DeckOf(events).open ==>
              DeckOf(events).cards != [] && DeckOf(events).cards[|DeckOf(events).cards| - 1].running
  {
    hide Weight;
    if events == [] {
      assert Weight([]) == 0 by { WeightOfNothing(); }
    } else {
      var n := |events| - 1;
      DeckWeighs(events[..n]);
      WeighStep(DeckOf(events[..n]), events[n]);
    }
  }

  lemma WeightOfNothing()
    ensures Weight([]) == 0
  {
  }

  /** Every outcome finds a card that waits for it. */
  ghost predicate NoStrays(events: seq<Event>) {
    events == [] ||
    var n := |events| - 1;
    NoStrays(events[..n]) && (events[n].IsOutcome() ==> DeckOf(events[..n]).open)
  }

  lemma {:induction false} KeptWeighs(events: seq<Event>, kept: seq<bool>)
    requires |kept| == |events|
    ensures TrialEvents(Kept(events, kept)) <= TrialEvents(events)
    ensures TrialEvents(Kept(events, kept)) == TrialEvents(events) <==> OnlyNarrationLost(events, kept)
  {
    if events == [] {
      assert Kept(events, kept) == [];
    } else {
      var n := |events| - 1;
      hide OnlyNarrationLost, Kept;
      KeptWeighs(events[..n], kept[..n]);
      KeptStep(events, kept);
      TrialEventsAppend(Kept(events[..n], kept[..n]), events[n]);
      LossGrows(events, kept);
    }
  }

  lemma LossGrows(events: seq<Event>, kept: seq<bool>)
    requires |kept| == |events| && events != []
    ensures var n := |events| - 1;
            OnlyNarrationLost(events, kept) <==>
            OnlyNarrationLost(events[..n], kept[..n]) && (kept[n] || events[n].IsNarration())
  {
    var n := |events| - 1;
    assert forall k :: 0 <= k < n ==> events[..n][k] == events[k] && kept[..n][k] == kept[k];
  }

  /** The cards of what was kept are the cards of the whole stream exactly when every event of a
      trial was kept. */
  lemma CardsSurviveIff(events: seq<Event>, kept: seq<bool>)
    requires |kept| == |events| && NoStrays(events)
    ensures DeckOf(Kept(events, kept)).cards == DeckOf(events).cards <==> OnlyNarrationLost(events, kept)
  {
    hide DeckOf, Kept, OnlyNarrationLost, NoStrays, TrialEvents, Weight;
    DeckWeighs(events);
    DeckWeighs(Kept(events, kept));
    KeptWeighs(events, kept);
    if OnlyNarrationLost(events, kept) {
      NarrationIsHarmless(events, kept);
    }
  }

  // ----- the stream of a run has no stray outcome

  lemma {:induction false} NoStraysFrom(events: seq<Event>, n: nat)
    requires n <= |events|
    requires forall m :: 0 <= m <= n ==> Narrated(Feed(Numbered(events[..m])).items) == NarrationOf(events[..m])
    ensures NoStrays(events[..n])
  {
    hide DeckOf, Feed, Narrated, NarrationOf, Numbered, ShowsDeck;
    if n > 0 {
      NoStraysFrom(events, n - 1);
      var before, e := events[..n - 1], events[n - 1];
      assert events[..n] == before + [e] && events[..n][..n - 1] == before;
      assert Narrated(Feed(Numbered(before)).items) == NarrationOf(before);
      assert Narrated(Feed(Numbered(before + [e])).items) == NarrationOf(before + [e]);
      if e.IsOutcome() {
        OutcomeFindsCard(before, e);
      }
    }
  }

  lemma OutcomeFindsCard(before: seq<Event>, e: Event)
    requires e.IsOutcome()
    requires Narrated(Feed(Numbered(before)).items) == NarrationOf(before)
    requires Narrated(Feed(Numbered(before + [e])).items) == NarrationOf(before + [e])
    ensures DeckOf(before).open
  {
    hide DeckOf, Feed, Narrated, NarrationOf, Numbered, Cards;
    FeedShowsDeck(before);
    FeedAppend(before, e);
    NarrationAppend(before, e);
    var f := Feed(Numbered(before));
    if f.open.None? {
      ItemsAppend(f.items, Narration(|before| + 1, e));
    }
  }

  lemma StreamHasNoStrays(events: seq<Event>, ms: seq<Trial>, bs: seq<Submission>, n: nat)
    requires PrefixesShow(events, ms, bs) && n <= |events|
    ensures NoStrays(events[..n])
  {
    hide FeedShows, Narrated, NarrationOf, Numbered, Feed, NoStrays;
    forall m | 0 <= m <= n ensures Narrated(Feed(Numbered(events[..m])).items) == NarrationOf(events[..m]) {
      assert PrefixShows(events[..m], ms, bs);
    }
    NoStraysFrom(events, n);
  }

  // ----- narration

  lemma StraysKept(events: seq<Event>, e: Event)
    requires NoStrays(events) && (e.IsOutcome() ==> DeckOf(events).open)
    ensures NoStrays(events + [e])
  {
    hide DeckOf;
    assert (events + [e])[..|events|] == events;
  }

  lemma {:induction false} KeptHasNoStrays(events: seq<Event>, kept: seq<bool>)
    requires |kept| == |events| && OnlyNarrationLost(events, kept) && NoStrays(events)
    ensures NoStrays(Kept(events, kept))
  {
    hide OnlyNarrationLost, DeckOf;
    if events == [] {
      assert Kept(events, kept) == [];
    } else {
      var n := |events| - 1;
      LossGrows(events, kept);
      KeptHasNoStrays(events[..n], kept[..n]);
      KeptStep(events, kept);
      if kept[n] {
        NarrationIsHarmless(events[..n], kept[..n]);
        StraysKept(Kept(events[..n], kept[..n]), events[n]);
      }
    }
  }

  /** Without strays, what is narrated is the narration. */
  lemma {:induction false} NarratesTheRest(events: seq<Event>)
    requires NoStrays(events)
    ensures Narrated(Feed(Numbered(events)).items) == NarrationOf(events)
  {
    hide DeckOf, Feed, Narrated, Numbered, Cards;
    if events == [] {
      NothingNarrated();
    } else {
      var n := |events| - 1;
      var before, e := events[..n], events[n];
      NarratesTheRest(before);
      assert events == before + [e];
      FeedAppend(before, e);
      FeedShowsDeck(before);
      var f := Feed(Numbered(before));
      if e.kind.TrialStart? {
        ItemsAppend(f.items, TrialItem(n + 1, OpenedCard(e)));
      } else if e.IsOutcome() {
        var o := f.open.value;
        CardReplaced(f.items, o, AfterEvent(f, Logged(n + 1, e)).items[o]);
      } else {
        ItemsAppend(f.items, Narration(n + 1, e));
      }
    }
  }

  lemma NothingNarrated()
    ensures Narrated(Feed(Numbered([])).items) == []
  {
    assert Numbered([]) == [];
  }

  lemma {:induction false} CardReplaced(items: seq<Item>, o: nat, item: Item)
    requires o < |items| && items[o].TrialItem? && item.TrialItem?
    ensures Narrated(items[o := item]) == Narrated(items)
  {
    var n := |items| - 1;
    if o == n {
      assert items[o := item][..n] == items[..n];
    } else {
      assert items[o := item][..n] == items[..n][o := item];
      CardReplaced(items[..n], o, item);
    }
  }

  // ----- nothing lost

  lemma {:induction false} NothingLost(events: seq<Event>, kept: seq<bool>)
    requires |kept| == |events| && forall k :: 0 <= k < |kept| ==> kept[k]
    ensures Kept(events, kept) == events
  {
    if events != [] {
      NothingLost(events[..|events| - 1], kept[..|events| - 1]);
    }
  }

  lemma LengthOfNumbered(events: seq<Event>)
    ensures |Numbered(events)| == |events|
  {
  }
}
