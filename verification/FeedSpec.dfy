/** The fold of a campaign's event log into trial cards and narration, as a function. */
module FeedSpec {
  import opened Domain

  /** An event as stored: numbered from 1 within its campaign. */
  datatype Logged = Logged(seqNo: nat, event: Event)

  datatype Card = Card(
    engine: string,
    gpuProfile: string,
    config: Option<EngineConfig>,
    hypothesis: string,
    result: Option<Result>,
    error: Option<string>,
    elapsed: int,
    running: bool)

  /** An item's key is the number of the event that created it. */
  datatype Item =
    | TrialItem(key: nat, card: Card)
    | Narration(key: nat, event: Event)

  /** `open` is the position of the card that waits for its outcome. */
  datatype FeedState = FeedState(items: seq<Item>, open: Option<nat>)
  {
    ghost predicate Valid() {
      open.Some? ==> open.value < |items| && items[open.value].TrialItem?
    }
  }

  function OpenedCard(e: Event): Card {
    if e.trial.Some? then
      Card(e.trial.value.engine, e.trial.value.gpuProfile, Some(e.trial.value.engineConfig),
           e.text, None, None, e.elapsed, true)
    else Card("unknown", "", None, e.text, None, None, e.elapsed, true)
  }

  function ClosedCard(card: Card, e: Event): Card {
    if e.kind.TrialFailed? then card.(running := false, elapsed := e.elapsed, error := Some(e.text))
    else card.(running := false, elapsed := e.elapsed, result := e.result)
  }

  function AfterEvent(f: FeedState, l: Logged): (r: FeedState)
    requires f.Valid()
    ensures r.Valid()
  {
    var e := l.event;
    if e.kind.TrialStart? then
      FeedState(f.items + [TrialItem(l.seqNo, OpenedCard(e))], Some(|f.items|))
    else if e.IsOutcome() && f.open.Some? then
      var item := f.items[f.open.value];
      FeedState(f.items[f.open.value := item.(card := ClosedCard(item.card, e))], None)
    else
      f.(items := f.items + [Narration(l.seqNo, e)])
  }

  function Feed(log: seq<Logged>): (f: FeedState)
    ensures f.Valid()
  {
    if log == [] then FeedState([], None)
    else AfterEvent(Feed(log[..|log| - 1]), log[|log| - 1])
  }

  function Cards(items: seq<Item>): seq<Card> {
    if items == [] then []
    else
      var last := items[|items| - 1];
      Cards(items[..|items| - 1]) + (if last.TrialItem? then [last.card] else [])
  }

  function Narrated(items: seq<Item>): seq<Event> {
    if items == [] then []
    else
      var last := items[|items| - 1];
      Narrated(items[..|items| - 1]) + (if last.Narration? then [last.event] else [])
  }

  /** The log that results when every event is recorded. */
  function Numbered(events: seq<Event>): seq<Logged> {
    seq(|events|, i requires 0 <= i < |events| => Logged(i + 1, events[i]))
  }

  /** Of the events, those whose append took effect. */
  function Kept(events: seq<Event>, kept: seq<bool>): seq<Event>
    requires |kept| == |events|
  {
    if events == [] then []
    else
      var n := |events| - 1;
      Kept(events[..n], kept[..n]) + (if kept[n] then [events[n]] else [])
  }

  /** The events that belong to no trial. */
  function NarrationOf(events: seq<Event>): seq<Event> {
    if events == [] then []
    else
      var last := events[|events| - 1];
      NarrationOf(events[..|events| - 1]) + (if last.IsNarration() then [last] else [])
  }
}
