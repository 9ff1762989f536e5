/** What else a round shows and keeps of its model stream. */
module ForwardedItems {
  import opened Wrappers
  import opened Sequences
  import opened Protocol
  import opened Conversation
  import opened StreamCollecting
  import opened Forwarding
  import CanonicalJson
  import Utf8

  // ---------------------------------------------------------- search results

  /** The items that stand for the search results shown. */
  function ResultItems(sent: seq<Event>): seq<Item> {
    if sent == [] then []
    else
      var last := sent[|sent| - 1];
      ResultItems(sent[..|sent| - 1])
      + (if last.WebSearchResult? then [Context("搜索来源：" + last.title, last.url + "\n" + last.snippet)] else [])
  }

  /** The provider items that are kept: those of at most 64 KiB. */
  function SmallItems(events: seq<ModelEvent>): seq<Item> {
    if events == [] then [] else SmallItems(events[..|events| - 1]) + SmallItem(events[|events| - 1])
  }

  function Contexts(items: seq<Item>): seq<Item> {
    if items == [] then []
    else Contexts(items[..|items| - 1]) + (if items[|items| - 1].Context? then [items[|items| - 1]] else [])
  }

  function ProviderItems(items: seq<Item>): seq<Item> {
    if items == [] then []
    else ProviderItems(items[..|items| - 1]) + (if items[|items| - 1].ProviderItem? then [items[|items| - 1]] else [])
  }

  lemma {:induction false} ResultItemsConcat(a: seq<Event>, b: seq<Event>)
    ensures ResultItems(a + b) == ResultItems(a) + ResultItems(b)
    decreases |b|
  {
    if b == [] {
      assert a + b == a;
    } else {
      var n := |b| - 1;
      ResultItemsConcat(a, b[..n]);
      assert (a + b)[..|a + b| - 1] == a + b[..n] && (a + b)[|a + b| - 1] == b[n];
    }
  }

  lemma {:induction false} NoResultItems(sent: seq<Event>)
    requires forall k :: 0 <= k < |sent| ==> !sent[k].WebSearchResult?
    ensures ResultItems(sent) == []
  {
    if sent != [] {
      NoResultItems(sent[..|sent| - 1]);
    }
  }

  lemma {:induction false} MappedShowsNoResult(chunks: seq<string>, make: string -> Event)
    requires forall chunk :: !make(chunk).WebSearchResult?
    ensures forall k :: 0 <= k < |Mapped(chunks, make)| ==> !Mapped(chunks, make)[k].WebSearchResult?
  {
    if chunks != [] {
      MappedShowsNoResult(chunks[1..], make);
    }
  }

  lemma OneMore(items: seq<Item>, more: seq<Item>)
    requires |more| <= 1
    ensures Contexts(items + more) == Contexts(items) + (if more != [] && more[0].Context? then more else [])
    ensures ProviderItems(items + more) == ProviderItems(items) + (if more != [] && more[0].ProviderItem? then more else [])
  {
    if more == [] {
      assert items + more == items;
    } else {
      assert (items + more)[..|items|] == items && more == [more[0]];
    }
  }

  lemma SendsAndKeeps(p: Progress, e: ModelEvent, max: nat)
    ensures |Keeps(p, e)| <= 1
    ensures (if Keeps(p, e) != [] && Keeps(p, e)[0].Context? then Keeps(p, e) else []) == ResultItems(Sends(p, e, max))
  {
    match e
    case WebSearchResult(title, url, snippet) =>
      if HasRoom(p, ResultBytes(title, url, snippet)) {
        ResultItemOfOne(Event.WebSearchResult(title, url, snippet));
      }
    case TextDelta(delta) =>
      MappedShowsNoResult(Utf8.Chunks(delta, max), TextEvent);
      NoResultItems(Sends(p, e, max));
    case ReasoningDelta(delta) =>
      MappedShowsNoResult(Utf8.Chunks(delta, max), ReasoningEvent);
      NoResultItems(Sends(p, e, max));
    case _ => NoResultItems(Sends(p, e, max));
  }

  lemma ResultItemOfOne(e: Event)
    requires e.WebSearchResult?
    ensures ResultItems([e]) == [Context("搜索来源：" + e.title, e.url + "\n" + e.snippet)]
  {
    assert [e][..0] == [] && ResultItems([]) == [];
  }

  /** The items are those of the results shown and the small provider items. */
  ghost predicate Stand(items: seq<Item>, sent: seq<Event>, small: seq<Item>) {
    && Contexts(items) == ResultItems(sent) && ProviderItems(items) == small
    && |items| == |Contexts(items)| + |ProviderItems(items)|
  }

  function SmallItem(e: ModelEvent): seq<Item> {
    if e.ProviderItem? && Utf8.Bytes(CanonicalJson.Canonical(e.item)) <= 64 * 1024 then [Item.ProviderItem(e.item)] else []
  }

  lemma KeepsSmall(p: Progress, e: ModelEvent)
    ensures |Keeps(p, e)| <= 1 && (Keeps(p, e) != [] ==> Keeps(p, e)[0].Context? || Keeps(p, e)[0].ProviderItem?)
    ensures (if Keeps(p, e) != [] && Keeps(p, e)[0].ProviderItem? then Keeps(p, e) else []) == SmallItem(e)
  {
  }

  lemma StandMore(items: seq<Item>, sent: seq<Event>, small: seq<Item>, kept: seq<Item>, more: seq<Event>, smallMore: seq<Item>)
    requires Stand(items, sent, small) && |kept| <= 1 && (kept != [] ==> kept[0].Context? || kept[0].ProviderItem?)
    requires (if kept != [] && kept[0].Context? then kept else []) == ResultItems(more)
    requires (if kept != [] && kept[0].ProviderItem? then kept else []) == smallMore
    ensures Stand(items + kept, sent + more, small + smallMore)
  {
    OneMore(items, kept);
    ResultItemsConcat(sent, more);
  }

  /** A round keeps an item for every search result that it shows, and every
      provider item of at most 64 KiB; nothing else. */
  lemma {:induction false} RoundKeeps(events: seq<ModelEvent>, max: nat)
    ensures Stand(Collected(events), Emitted(events, max), SmallItems(events))
  {
    if events != [] {
      var n := |events| - 1;
      var before, p := events[..n], Moved(events[..n]);
      RoundKeeps(before, max);
      SendsAndKeeps(p, events[n], max);
      KeepsSmall(p, events[n]);
      StandMore(Collected(before), Emitted(before, max), SmallItems(before),
                Keeps(p, events[n]), Sends(p, events[n], max), SmallItem(events[n]));
    }
  }

  // ---------------------------------------------------------- progress reports

  /** All argument bytes delivered so far, and the last tool name. */
  function ArgumentBytes(events: seq<ModelEvent>): nat {
    if events == [] then 0
    else
      var last := events[|events| - 1];
      ArgumentBytes(events[..|events| - 1]) + (if last.ToolCallDelta? then Utf8.Bytes(last.arguments) else 0)
  }

  function LastName(events: seq<ModelEvent>): Option<string> {
    if events == [] then None
    else
      var last := events[|events| - 1];
      if last.ToolCallDelta? && last.name.Some? then last.name else LastName(events[..|events| - 1])
  }

  lemma {:induction false} ProgressIs(events: seq<ModelEvent>)
    ensures Moved(events).toolBytes == ArgumentBytes(events) && Moved(events).toolName == LastName(events)
  {
    if events != [] {
      ProgressIs(events[..|events| - 1]);
    }
  }

  /** A progress report tells the argument bytes and the tool name so far; there
      is one for the first delta, and whenever the name becomes known. */
  lemma ReportsAreTrue(events: seq<ModelEvent>, n: nat, max: nat)
    requires n < |events| && events[n].ToolCallDelta?
    ensures var sent, report := Sends(Moved(events[..n]), events[n], max),
                ToolCallStreaming(LastName(events[..n + 1]), ArgumentBytes(events[..n + 1]));
      && (sent == [] || sent == [report])
      && (ArgumentBytes(events[..n]) == 0 || (LastName(events[..n]).None? && events[n].name.Some?) ==> sent == [report])
  {
    ProgressIs(events[..n]);
    assert events[..n + 1][..n] == events[..n];
  }

  // ------------------------------------------------------------- other events

  /** Retries, searches and usage are told as they come. */
  function Passed(e: ModelEvent): seq<Event> {
    match e
    case Retrying(reason, delayMs) => [ProviderRetry(reason, delayMs)]
    case WebSearchStarted(query) => [Event.WebSearchStarted(query)]
    case Usage(input, output, total) => [Event.Usage(input, output, total)]
    case _ => []
  }

  function AllPassed(events: seq<ModelEvent>): seq<Event> {
    if events == [] then [] else AllPassed(events[..|events| - 1]) + Passed(events[|events| - 1])
  }

  predicate IsPassed(e: Event) {
    e.ProviderRetry? || e.WebSearchStarted? || e.Usage?
  }

  function OnlyPassed(sent: seq<Event>): seq<Event> {
    if sent == [] then []
    else OnlyPassed(sent[..|sent| - 1]) + (if IsPassed(sent[|sent| - 1]) then [sent[|sent| - 1]] else [])
  }

  lemma {:induction false} OnlyPassedConcat(a: seq<Event>, b: seq<Event>)
    ensures OnlyPassed(a + b) == OnlyPassed(a) + OnlyPassed(b)
    decreases |b|
  {
    if b == [] {
      assert a + b == a;
    } else {
      var n := |b| - 1;
      OnlyPassedConcat(a, b[..n]);
      assert (a + b)[..|a + b| - 1] == a + b[..n] && (a + b)[|a + b| - 1] == b[n];
    }
  }

  lemma {:induction false} NonePassed(sent: seq<Event>)
    requires forall k :: 0 <= k < |sent| ==> !IsPassed(sent[k])
    ensures OnlyPassed(sent) == []
  {
    if sent != [] {
      NonePassed(sent[..|sent| - 1]);
    }
  }

  lemma {:induction false} MappedPassesNothing(chunks: seq<string>, make: string -> Event)
    requires forall chunk :: !IsPassed(make(chunk))
    ensures forall k :: 0 <= k < |Mapped(chunks, make)| ==> !IsPassed(Mapped(chunks, make)[k])
  {
    if chunks != [] {
      MappedPassesNothing(chunks[1..], make);
    }
  }

  lemma SendsPass(p: Progress, e: ModelEvent, max: nat)
    ensures OnlyPassed(Sends(p, e, max)) == Passed(e)
  {
    match e
    case TextDelta(delta) =>
      MappedPassesNothing(Utf8.Chunks(delta, max), TextEvent);
      NonePassed(Sends(p, e, max));
    case ReasoningDelta(delta) =>
      MappedPassesNothing(Utf8.Chunks(delta, max), ReasoningEvent);
      NonePassed(Sends(p, e, max));
    case Retrying(reason, delayMs) => PassedOne(ProviderRetry(reason, delayMs));
    case WebSearchStarted(query) => PassedOne(Event.WebSearchStarted(query));
    case Usage(input, output, total) => PassedOne(Event.Usage(input, output, total));
    case _ => NonePassed(Sends(p, e, max));
  }

  lemma PassedOne(e: Event)
    requires IsPassed(e)
    ensures OnlyPassed([e]) == [e]
  {
    assert [e][..0] == [] && OnlyPassed([]) == [];
  }

  /** A round tells every retry, every started search and every usage, in order. */
  lemma {:induction false} RoundPasses(events: seq<ModelEvent>, max: nat)
    ensures OnlyPassed(Emitted(events, max)) == AllPassed(events)
  {
    if events != [] {
      var n := |events| - 1;
      RoundPasses(events[..n], max);
      SendsPass(Moved(events[..n]), events[n], max);
      OnlyPassedConcat(Emitted(events[..n], max), Sends(Moved(events[..n]), events[n], max));
    }
  }
}
