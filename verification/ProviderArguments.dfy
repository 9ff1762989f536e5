/** The arguments of tool calls, and the labels of events, that the network
    provider sends on. */
module ProviderArguments {
  import opened Wrappers
  import opened Sequences
  import opened StreamCollecting
  import opened PartialCalls
  import opened Forwarding
  import opened Secrets
  import opened RedactionTheorems
  import opened ProviderStream
  import CanonicalJson
  import CanonicalJsonTheorems
  import JsonRedaction
  import Protocol
  import StreamRedaction

  type Step = StreamRedaction.Step

  function Extended(before: Step, step: Step): Step {
    StreamRedaction.Step(before.output + step.output, step.pending)
  }

  // --------------------------------------------------- what a slot's deltas say

  /** A redactor that is fed the deltas of one slot and nothing else. */
  function Piped(f: Filter, events: seq<ModelEvent>, slot: string): Step
    requires f.Valid()
  {
    if events == [] then StreamRedaction.Step([], [])
    else
      var before, last := Piped(f, events[..|events| - 1], slot), events[|events| - 1];
      if IsDeltaOf(last, slot) then Extended(before, f.Push(before.pending, last.arguments)) else before
  }

  lemma {:induction false} ArgumentsOfConcat(a: seq<ModelEvent>, b: seq<ModelEvent>, slot: string)
    ensures ArgumentsOf(a + b, slot) == ArgumentsOf(a, slot) + ArgumentsOf(b, slot)
    decreases |b|
  {
    if b == [] {
      assert a + b == a;
    } else {
      var n := |b| - 1;
      ArgumentsOfConcat(a, b[..n], slot);
      assert (a + b)[..|a + b| - 1] == a + b[..n] && (a + b)[|a + b| - 1] == b[n];
      Assoc(ArgumentsOf(a, slot), ArgumentsOf(b[..n], slot), if IsDeltaOf(b[n], slot) then b[n].arguments else []);
    }
  }

  lemma {:induction false} NoArguments(events: seq<ModelEvent>, slot: string)
    requires forall i :: 0 <= i < |events| ==> !IsDeltaOf(events[i], slot)
    ensures ArgumentsOf(events, slot) == []
  {
    if events != [] {
      NoArguments(events[..|events| - 1], slot);
    }
  }

  lemma ArgumentsOfOne(e: ModelEvent, slot: string)
    ensures ArgumentsOf([e], slot) == if IsDeltaOf(e, slot) then e.arguments else []
  {
    assert [e][..0] == [];
    assert ArgumentsOf([], slot) == [];
  }

  lemma ArgumentsGrow(sent: seq<ModelEvent>, reasoning: Text, text: Text, rest: seq<ModelEvent>, slot: string)
    ensures ArgumentsOf(sent + Words(reasoning, text) + rest, slot) == ArgumentsOf(sent, slot) + ArgumentsOf(rest, slot)
  {
    NoArguments(Words(reasoning, text), slot);
    ArgumentsPass(sent, Words(reasoning, text), rest, slot);
  }

  lemma ArgumentsPass(sent: seq<ModelEvent>, words: seq<ModelEvent>, rest: seq<ModelEvent>, slot: string)
    requires ArgumentsOf(words, slot) == []
    ensures ArgumentsOf(sent + words + rest, slot) == ArgumentsOf(sent, slot) + ArgumentsOf(rest, slot)
  {
    ArgumentsOfConcat(sent + words, rest, slot);
    ArgumentsOfConcat(sent, words, slot);
    assert ArgumentsOf(sent, slot) + [] == ArgumentsOf(sent, slot);
  }

  // --------------------------------------------------------- the map of slots

  ghost predicate Ordered(slots: seq<Slot>) {
    forall i, j :: 0 <= i < j < |slots| ==> CanonicalJson.Less(slots[i].key, slots[j].key)
  }

  lemma {:induction false} FindPut(slots: seq<Slot>, slot: Slot, key: string)
    ensures ProviderStream.Find(Put(slots, slot), key) ==
      if key == slot.key then Some(slot) else ProviderStream.Find(slots, key)
  {
    if slots != [] && slots[0].key != slot.key && !CanonicalJson.Less(slot.key, slots[0].key) {
      FindPut(slots[1..], slot, key);
    }
  }

  lemma {:induction false} PutHas(slots: seq<Slot>, slot: Slot, x: Slot)
    requires x in Put(slots, slot)
    ensures x == slot || x in slots
  {
    if slots != [] && slots[0].key != slot.key && !CanonicalJson.Less(slot.key, slots[0].key) && x != slots[0] {
      PutHas(slots[1..], slot, x);
    }
  }

  lemma {:induction false} PutKeepsOrder(slots: seq<Slot>, slot: Slot)
    requires Ordered(slots)
    ensures Ordered(Put(slots, slot))
  {
    if slots != [] && slots[0].key != slot.key {
      if CanonicalJson.Less(slot.key, slots[0].key) {
        forall j | 0 <= j < |slots| ensures CanonicalJson.Less(slot.key, slots[j].key) {
          if j > 0 {
            CanonicalJsonTheorems.LessIsTransitive(slot.key, slots[0].key, slots[j].key);
          }
        }
      } else {
        CanonicalJsonTheorems.LessIsTotal(slot.key, slots[0].key);
        PutKeepsOrder(slots[1..], slot);
        forall x | x in Put(slots[1..], slot) ensures CanonicalJson.Less(slots[0].key, x.key) {
          PutHas(slots[1..], slot, x);
        }
      }
    }
  }

  /** The entry that bears the id is the one that its key finds. */
  lemma {:induction false} ByIdIsFound(slots: seq<Slot>, id: string)
    requires Ordered(slots)
    ensures var found := ById(slots, id);
      && (found.Some? ==> found.value.id == Some(id) && found.value in slots)
      && (found.Some? ==> ProviderStream.Find(slots, found.value.key) == found)
  {
    if slots != [] && slots[0].id != Some(id) {
      ByIdIsFound(slots[1..], id);
      if ById(slots[1..], id).Some? {
        CanonicalJsonTheorems.LessIsIrreflexive(slots[0].key);
      }
    }
  }

  lemma {:induction false} FindIsIn(slots: seq<Slot>, key: string)
    ensures var found := ProviderStream.Find(slots, key);
      && (found.Some? ==> found.value in slots && found.value.key == key)
      && (found.Some? <==> exists k :: 0 <= k < |slots| && slots[k].key == key)
  {
    if slots != [] && slots[0].key != key {
      FindIsIn(slots[1..], key);
      assert forall k :: 0 <= k < |slots| - 1 ==> slots[1..][k] == slots[k + 1];
      assert forall k :: 1 <= k < |slots| ==> slots[k] == slots[1..][k - 1];
    }
  }

  /** What is withheld of a slot's arguments. */
  function Waiting(slots: seq<Slot>, key: string): Text {
    var found := ProviderStream.Find(slots, key);
    if found.Some? then found.value.pending else []
  }

  lemma {:induction false} FindLast(slots: seq<Slot>, key: string)
    requires Ordered(slots) && slots != []
    ensures var last := slots[|slots| - 1];
      && ProviderStream.Find(slots, key) == (if last.key == key then Some(last) else ProviderStream.Find(slots[..|slots| - 1], key))
      && (last.key == key ==> ProviderStream.Find(slots[..|slots| - 1], key) == None)
  {
    if |slots| > 1 {
      var last := slots[|slots| - 1];
      FindLast(slots[1..], key);
      assert slots[1..][..|slots| - 2] == slots[..|slots| - 1][1..];
      CanonicalJsonTheorems.LessIsIrreflexive(key);
      assert CanonicalJson.Less(slots[0].key, last.key);
    } else {
      assert slots == [slots[0]] && slots[..0] == [];
    }
  }

  /** Of the slots in use none but `key` is shown as `key` is shown. */
  ghost predicate Apart(f: Filter, slots: seq<Slot>, key: string)
    requires f.Valid()
  {
    forall i :: 0 <= i < |slots| && f.Clean(slots[i].key) == f.Clean(key) ==> slots[i].key == key
  }

  lemma TailArguments(f: Filter, slot: Slot, key: string)
    requires f.Valid() && (f.Clean(slot.key) == f.Clean(key) ==> slot.key == key)
    ensures ArgumentsOf(Tail(f, slot), f.Clean(key)) == if slot.key == key then slot.pending else []
  {
    if slot.pending != [] {
      ArgumentsOfOne(ToolCallDelta(f.Clean(slot.key), None, None, slot.pending), f.Clean(key));
    }
  }

  lemma {:induction false} TailsArguments(f: Filter, slots: seq<Slot>, key: string)
    requires f.Valid() && Ordered(slots) && Apart(f, slots, key)
    ensures ArgumentsOf(Tails(f, slots), f.Clean(key)) == Waiting(slots, key)
  {
    if slots != [] {
      var n := |slots| - 1;
      TailsArguments(f, slots[..n], key);
      ArgumentsOfConcat(Tails(f, slots[..n]), Tail(f, slots[n]), f.Clean(key));
      TailArguments(f, slots[n], key);
      FindLast(slots, key);
    }
  }

  lemma {:induction false} EmptiedWaits(slots: seq<Slot>, key: string)
    ensures Waiting(Emptied(slots), key) == []
  {
    if slots != [] {
      var n := |slots| - 1;
      EmptiedWaits(slots[..n], key);
      FindSnoc(Emptied(slots[..n]), slots[n].(pending := []), key);
    }
  }

  lemma {:induction false} EmptiedHasNoTails(f: Filter, slots: seq<Slot>)
    requires f.Valid()
    ensures Tails(f, Emptied(slots)) == []
  {
    if slots != [] {
      var n := |slots| - 1;
      EmptiedHasNoTails(f, slots[..n]);
      NothingToSend(f, Emptied(slots[..n]), slots[n].(pending := []));
    }
  }

  lemma NothingToSend(f: Filter, slots: seq<Slot>, slot: Slot)
    requires f.Valid() && Tails(f, slots) == [] && slot.pending == []
    ensures Tails(f, slots + [slot]) == []
  {
    assert (slots + [slot])[..|slots|] == slots;
  }

  lemma {:induction false} FindSnoc(slots: seq<Slot>, slot: Slot, key: string)
    ensures ProviderStream.Find(slots + [slot], key) ==
      var found := ProviderStream.Find(slots, key);
      if found.Some? then found else if slot.key == key then Some(slot) else None
  {
    if slots != [] {
      FindSnoc(slots[1..], slot, key);
      assert (slots + [slot])[1..] == slots[1..] + [slot];
    }
  }

  // ------------------------------------------------------------- one event

  /** What an event does to the arguments of a slot. */
  datatype Effect = Pushed | Flushed | Kept

  /** `more` is sent of the arguments, `was` was withheld of them and `now` is. */
  ghost predicate Has(f: Filter, e: ModelEvent, key: string, fine: bool, more: Text, was: Text, now: Text, effect: Effect)
    requires f.Valid()
  {
    match effect
    case Pushed => IsDeltaOf(e, key) && fine && StreamRedaction.Step(more, now) == f.Push(was, e.arguments)
    case Flushed => !IsDeltaOf(e, key) && fine && more == was && now == []
    case Kept => (!IsDeltaOf(e, key) || !fine) && more == [] && now == was
  }

  lemma EntryIs(slots: seq<Slot>, key: string, id: Option<string>)
    ensures var entry := Entry(slots, key, id);
      && entry.key == key && entry.pending == Waiting(slots, key)
      && entry.id == if id.Some? then id
                     else if ProviderStream.Find(slots, key).Some? then ProviderStream.Find(slots, key).value.id else None
  {
    FindIsIn(slots, key);
  }

  lemma DeltaHas(f: Filter, h: Held, e: ModelEvent, key: string, shown: string, r: Handled)
    requires f.Valid() && e.ToolCallDelta? && (f.Clean(e.slot) == shown <==> e.slot == key)
    requires r == HandleDelta(f, h, e.slot, e.id, e.name, e.arguments)
    ensures Has(f, e, key, r.fine, ArgumentsOf(r.rest, shown), Waiting(h.slots, key), Waiting(r.held.slots, key),
                if e.slot == key && r.fine then Pushed else Kept)
  {
    if r.fine {
      var entry := Entry(h.slots, e.slot, e.id);
      EntryIs(h.slots, e.slot, e.id);
      ArgumentsOfOne(r.rest[0], shown);
      FindPut(h.slots, entry.(pending := f.Push(entry.pending, e.arguments).pending), key);
    }
  }

  lemma CompleteHas(f: Filter, h: Held, e: ModelEvent, key: string, shown: string, r: Handled)
    requires f.Valid() && e.ToolCallComplete? && Ordered(h.slots) && Apart(f, h.slots, key) && shown == f.Clean(key)
    requires r == HandleComplete(f, h, e.call)
    ensures var found := ById(h.slots, e.call.id);
      Has(f, e, key, r.fine, ArgumentsOf(r.rest, shown), Waiting(h.slots, key), Waiting(r.held.slots, key),
          if found.Some? && found.value.key == key then Flushed else Kept)
  {
    var found := ById(h.slots, e.call.id);
    var last := ToolCallComplete(f.CleanCall(e.call));
    ArgumentsOfOne(last, shown);
    if found.Some? {
      ByIdIsFound(h.slots, e.call.id);
      TailArguments(f, found.value, key);
      ArgumentsOfConcat(Tail(f, found.value), [last], shown);
      FindPut(h.slots, found.value.(pending := []), key);
    } else {
      assert [] + [last] == [last];
    }
  }

  lemma DoneHas(f: Filter, slots: seq<Slot>, key: string, shown: string)
    requires f.Valid() && Ordered(slots) && Apart(f, slots, key) && shown == f.Clean(key)
    ensures Has(f, ModelEvent.Done, key, true, ArgumentsOf(Tails(f, slots) + [ModelEvent.Done], shown),
                Waiting(slots, key), Waiting(Emptied(slots), key), Flushed)
  {
    TailsArguments(f, slots, key);
    ArgumentsOfConcat(Tails(f, slots), [ModelEvent.Done], shown);
    ArgumentsOfOne(ModelEvent.Done, shown);
    EmptiedWaits(slots, key);
  }

  lemma DoneIs(f: Filter, h: Held)
    requires f.Valid()
    ensures var r := Handle(f, h, ModelEvent.Done);
      r.rest == Tails(f, h.slots) + [ModelEvent.Done] && r.held.slots == Emptied(h.slots) && r.fine
  {
  }

  lemma OtherHas(f: Filter, h: Held, e: ModelEvent, key: string, shown: string)
    requires f.Valid() && !e.ToolCallDelta? && !e.ToolCallComplete? && !e.Done?
    ensures var r := Handle(f, h, e);
      Has(f, e, key, r.fine, ArgumentsOf(r.rest, shown), Waiting(h.slots, key), Waiting(r.held.slots, key), Kept)
  {
    NoArguments(Handle(f, h, e).rest, shown);
  }

  // ------------------------------------------------------------ the whole loop

  /** No other slot of the stream is shown as `key` is shown: so it is where
      redaction leaves the slots as they are. */
  ghost predicate Distinct(f: Filter, parsed: seq<ModelEvent>, key: string)
    requires f.Valid()
  {
    forall i :: 0 <= i < |parsed| && parsed[i].ToolCallDelta? && f.Clean(parsed[i].slot) == f.Clean(key)
      ==> parsed[i].slot == key
  }

  predicate CompletesAt(events: seq<ModelEvent>, key: string, i: nat)
    requires i < |events|
  {
    events[i].ToolCallComplete? && IdOf(events[..i], key) == Some(events[i].call.id)
  }

  /** A complete call has come that bears the id of the slot. */
  ghost predicate Over(events: seq<ModelEvent>, key: string) {
    exists i :: 0 <= i < |events| && CompletesAt(events, key, i)
  }

  /** After its complete call, no delta of the slot comes. */
  ghost predicate NotResumed(parsed: seq<ModelEvent>, key: string) {
    forall i, j :: 0 <= i < j < |parsed| && CompletesAt(parsed, key, i) ==> !IsDeltaOf(parsed[j], key)
  }

  lemma OverSnoc(events: seq<ModelEvent>, e: ModelEvent, key: string)
    ensures Over(events, key) ==> Over(events + [e], key)
    ensures e.ToolCallComplete? && IdOf(events, key) == Some(e.call.id) ==> Over(events + [e], key)
  {
    var all := events + [e];
    if Over(events, key) {
      var i :| 0 <= i < |events| && CompletesAt(events, key, i);
      assert all[..i] == events[..i];
      assert CompletesAt(all, key, i);
    }
    if e.ToolCallComplete? && IdOf(events, key) == Some(e.call.id) {
      assert all[..|events|] == events;
      assert CompletesAt(all, key, |events|);
    }
  }

  lemma OverIsNotResumed(events: seq<ModelEvent>, e: ModelEvent, key: string)
    requires NotResumed(events + [e], key) && Over(events, key)
    ensures !IsDeltaOf(e, key)
  {
    var all := events + [e];
    var i :| 0 <= i < |events| && CompletesAt(events, key, i);
    assert all[..i] == events[..i];
    assert CompletesAt(all, key, i);
    assert !IsDeltaOf(all[|events|], key);
  }

  ghost predicate Seen(events: seq<ModelEvent>, slot: string) {
    exists j :: 0 <= j < |events| && IsDeltaOf(events[j], slot)
  }

  lemma SeenSnoc(events: seq<ModelEvent>, e: ModelEvent, slot: string)
    ensures Seen(events, slot) || IsDeltaOf(e, slot) ==> Seen(events + [e], slot)
  {
    var all := events + [e];
    assert all[|events|] == e;
    if Seen(events, slot) {
      var j :| 0 <= j < |events| && IsDeltaOf(events[j], slot);
      assert IsDeltaOf(all[j], slot);
    }
  }

  /** The slots are those of the deltas so far, under the ids these gave. */
  ghost predicate Tracks(events: seq<ModelEvent>, slots: seq<Slot>, key: string) {
    && Ordered(slots)
    && (forall i :: 0 <= i < |slots| ==> Seen(events, slots[i].key))
    && (var found := ProviderStream.Find(slots, key);
        IdOf(events, key) == if found.Some? then found.value.id else None)
  }

  lemma TracksApart(f: Filter, parsed: seq<ModelEvent>, slots: seq<Slot>, key: string)
    requires f.Valid() && Tracks(parsed, slots, key) && Distinct(f, parsed, key)
    ensures Apart(f, slots, key)
  {
    forall i | 0 <= i < |slots| && f.Clean(slots[i].key) == f.Clean(key) ensures slots[i].key == key {
      var j :| 0 <= j < |parsed| && IsDeltaOf(parsed[j], slots[i].key);
    }
  }

  lemma TracksPut(events: seq<ModelEvent>, e: ModelEvent, slots: seq<Slot>, slot: Slot, key: string)
    requires Tracks(events, slots, key)
    requires IsDeltaOf(e, slot.key) || ProviderStream.Find(slots, slot.key).Some?
    requires slot.key == key ==> slot.id == IdOf(events + [e], key)
    requires slot.key != key ==> !IsDeltaOf(e, key)
    ensures Tracks(events + [e], Put(slots, slot), key)
  {
    var all, after := events + [e], Put(slots, slot);
    PutKeepsOrder(slots, slot);
    FindPut(slots, slot, key);
    assert all[..|events|] == events && all[|events|] == e;
    forall i | 0 <= i < |after| ensures Seen(all, after[i].key) {
      PutHas(slots, slot, after[i]);
      FindIsIn(slots, after[i].key);
      SeenSnoc(events, e, after[i].key);
    }
  }

  lemma TracksStep(f: Filter, events: seq<ModelEvent>, e: ModelEvent, h: Held, key: string)
    requires f.Valid() && Tracks(events, h.slots, key) && !e.Done? && Handle(f, h, e).fine
    ensures Tracks(events + [e], Handle(f, h, e).held.slots, key)
  {
    HandleSlots(f, h, e);
    if e.ToolCallDelta? {
      DeltaTracks(events, e, h.slots, f.Push(Entry(h.slots, e.slot, e.id).pending, e.arguments).pending, key);
    } else if e.ToolCallComplete? {
      CompleteTracks(events, e, h.slots, key);
    } else {
      TracksMore(events, e, h.slots, key);
    }
  }

  lemma HandleSlots(f: Filter, h: Held, e: ModelEvent)
    requires f.Valid() && !e.Done? && Handle(f, h, e).fine
    ensures var slots, found := h.slots, if e.ToolCallComplete? then ById(h.slots, e.call.id) else None;
      Handle(f, h, e).held.slots ==
        if e.ToolCallDelta? then
          var entry := Entry(slots, e.slot, e.id);
          Put(slots, entry.(pending := f.Push(entry.pending, e.arguments).pending))
        else if found.Some? then Put(slots, found.value.(pending := []))
        else slots
  {
  }

  lemma DeltaTracks(events: seq<ModelEvent>, e: ModelEvent, slots: seq<Slot>, pending: Text, key: string)
    requires Tracks(events, slots, key) && e.ToolCallDelta?
    ensures Tracks(events + [e], Put(slots, Entry(slots, e.slot, e.id).(pending := pending)), key)
  {
    assert (events + [e])[..|events|] == events;
    EntryIs(slots, e.slot, e.id);
    TracksPut(events, e, slots, Entry(slots, e.slot, e.id).(pending := pending), key);
  }

  lemma CompleteTracks(events: seq<ModelEvent>, e: ModelEvent, slots: seq<Slot>, key: string)
    requires Tracks(events, slots, key) && e.ToolCallComplete?
    ensures var found := ById(slots, e.call.id);
      Tracks(events + [e], if found.Some? then Put(slots, found.value.(pending := [])) else slots, key)
  {
    assert (events + [e])[..|events|] == events;
    ByIdIsFound(slots, e.call.id);
    if ById(slots, e.call.id).Some? {
      TracksPut(events, e, slots, ById(slots, e.call.id).value.(pending := []), key);
    } else {
      TracksMore(events, e, slots, key);
    }
  }

  lemma TracksMore(events: seq<ModelEvent>, e: ModelEvent, slots: seq<Slot>, key: string)
    requires Tracks(events, slots, key) && !e.ToolCallDelta?
    ensures Tracks(events + [e], slots, key)
  {
    var all := events + [e];
    assert all[..|events|] == events && all[|events|] == e;
    forall i | 0 <= i < |slots| ensures Seen(all, slots[i].key) {
      SeenSnoc(events, e, slots[i].key);
    }
  }

  /** What is sent and withheld of the arguments is what the slot's own redactor
      has put out and keeps. */
  predicate Streamed(piped: Step, sent: Text, waiting: Text) {
    sent == piped.output && waiting == piped.pending
  }

  /** The slot's redactor has been finished. */
  predicate Closed(piped: Step, sent: Text, waiting: Text) {
    sent == piped.output + piped.pending && waiting == []
  }

  lemma EffectKeeps(f: Filter, events: seq<ModelEvent>, e: ModelEvent, key: string,
                    sent: Text, more: Text, was: Text, now: Text, effect: Effect)
    requires f.Valid() && Has(f, e, key, true, more, was, now, effect)
    requires Streamed(Piped(f, events, key), sent, was) || (Closed(Piped(f, events, key), sent, was) && !IsDeltaOf(e, key))
    ensures var piped := Piped(f, events + [e], key);
      && (Streamed(Piped(f, events, key), sent, was) && effect != Flushed ==> Streamed(piped, sent + more, now))
      && (effect == Flushed ==> Closed(piped, sent + more, now))
      && (Closed(Piped(f, events, key), sent, was) && !IsDeltaOf(e, key) ==> Closed(piped, sent + more, now))
  {
    assert (events + [e])[..|events|] == events;
    assert more == [] ==> sent + more == sent;
  }

  ghost predicate Matches(f: Filter, events: seq<ModelEvent>, key: string, flow: Flow)
    requires f.Valid()
  {
    var piped, sent, waiting := Piped(f, events, key), ArgumentsOf(flow.sent, f.Clean(key)), Waiting(flow.held.slots, key);
    match flow.state
    case Going => Tracks(events, flow.held.slots, key)
      && (Streamed(piped, sent, waiting) || (Closed(piped, sent, waiting) && Over(events, key)))
    case Stopped => Closed(piped, sent, waiting) && Tails(f, flow.held.slots) == []
    case Failed => Streamed(piped, sent, waiting) || Closed(piped, sent, waiting)
  }

  lemma HandleHas(f: Filter, events: seq<ModelEvent>, h: Held, e: ModelEvent, key: string, shown: string) returns (effect: Effect)
    requires f.Valid() && Tracks(events, h.slots, key) && Distinct(f, events + [e], key) && shown == f.Clean(key)
    ensures var r := Handle(f, h, e);
      Has(f, e, key, r.fine, ArgumentsOf(r.rest, shown), Waiting(h.slots, key), Waiting(r.held.slots, key), effect)
    ensures effect == Flushed && !e.Done? ==> Over(events + [e], key)
    ensures e.Done? ==> effect == Flushed
  {
    LastIsDistinct(f, events, e, key);
    TracksApart(f, events, h.slots, key);
    match e {
      case ToolCallDelta(_, _, _, _) =>
        effect := if e.slot == key && Handle(f, h, e).fine then Pushed else Kept;
        DeltaHas(f, h, e, key, shown, Handle(f, h, e));
      case ToolCallComplete(call) =>
        var found := ById(h.slots, call.id);
        effect := if found.Some? && found.value.key == key then Flushed else Kept;
        CompleteHas(f, h, e, key, shown, Handle(f, h, e));
        FlushedIsOver(events, h.slots, e, key);
      case Done =>
        effect := Flushed;
        DoneIs(f, h);
        DoneHas(f, h.slots, key, shown);
      case _ =>
        effect := Kept;
        OtherHas(f, h, e, key, shown);
    }
  }

  lemma LastIsDistinct(f: Filter, events: seq<ModelEvent>, e: ModelEvent, key: string)
    requires f.Valid() && Distinct(f, events + [e], key)
    ensures Distinct(f, events, key)
    ensures e.ToolCallDelta? && f.Clean(e.slot) == f.Clean(key) ==> e.slot == key
  {
    var all := events + [e];
    assert all[|events|] == e && forall j :: 0 <= j < |events| ==> all[j] == events[j];
  }

  lemma FlushedIsOver(events: seq<ModelEvent>, slots: seq<Slot>, e: ModelEvent, key: string)
    requires Tracks(events, slots, key) && e.ToolCallComplete?
    ensures var found := ById(slots, e.call.id);
      found.Some? && found.value.key == key ==> Over(events + [e], key)
  {
    ByIdIsFound(slots, e.call.id);
    OverSnoc(events, e, key);
  }

  /** What one more event does to what is sent and withheld of the arguments. */
  ghost predicate Affects(f: Filter, events: seq<ModelEvent>, e: ModelEvent, key: string, flow: Flow, next: Flow,
                          effect: Effect, more: Text)
    requires f.Valid()
  {
    && ArgumentsOf(next.sent, f.Clean(key)) == ArgumentsOf(flow.sent, f.Clean(key)) + more
    && Has(f, e, key, next.state != Failed, more, Waiting(flow.held.slots, key), Waiting(next.held.slots, key), effect)
    && (next.state == Going ==> Tracks(events + [e], next.held.slots, key))
    && (next.state == Going && effect == Flushed ==> Over(events + [e], key))
    && (next.state == Stopped ==> effect == Flushed && Tails(f, next.held.slots) == [])
  }

  lemma HeldAfter(f: Filter, events: seq<ModelEvent>, h: Held, e: ModelEvent, key: string)
    requires f.Valid() && Tracks(events, h.slots, key)
    ensures var r := Handle(f, h, e);
      && (e.Done? ==> r.fine && Tails(f, r.held.slots) == [])
      && (!e.Done? && r.fine ==> Tracks(events + [e], r.held.slots, key))
  {
    if e.Done? {
      DoneLeaves(f, h);
    } else if Handle(f, h, e).fine {
      TracksStep(f, events, e, h, key);
    }
  }

  lemma DoneLeaves(f: Filter, h: Held)
    requires f.Valid()
    ensures var r := Handle(f, h, ModelEvent.Done);
      r.fine && Tails(f, r.held.slots) == []
  {
    DoneIs(f, h);
    EmptiedHasNoTails(f, h.slots);
  }

  lemma NextHas(f: Filter, events: seq<ModelEvent>, e: ModelEvent, key: string, flow: Flow) returns (effect: Effect, more: Text)
    requires f.Valid() && flow.state == Going && Tracks(events, flow.held.slots, key) && Distinct(f, events + [e], key)
    ensures Affects(f, events, e, key, flow, Next(f, flow, e), effect, more)
  {
    var r := Handle(f, flow.held, e);
    effect := HandleHas(f, events, flow.held, e, key, f.Clean(key));
    more := ArgumentsOf(r.rest, f.Clean(key));
    ArgumentsGrow(flow.sent, r.reasoning, r.text, r.rest, f.Clean(key));
    HeldAfter(f, events, flow.held, e, key);
    FlowAffects(f, events, e, key, flow, r, effect, more);
  }

  lemma FlowAffects(f: Filter, events: seq<ModelEvent>, e: ModelEvent, key: string, flow: Flow, r: Handled,
                    effect: Effect, more: Text)
    requires f.Valid()
    requires ArgumentsOf(flow.sent + Words(r.reasoning, r.text) + r.rest, f.Clean(key)) == ArgumentsOf(flow.sent, f.Clean(key)) + more
    requires Has(f, e, key, r.fine, more, Waiting(flow.held.slots, key), Waiting(r.held.slots, key), effect)
    requires e.Done? ==> effect == Flushed && r.fine && Tails(f, r.held.slots) == []
    requires !e.Done? && r.fine ==> Tracks(events + [e], r.held.slots, key)
    requires !e.Done? && effect == Flushed ==> Over(events + [e], key)
    ensures Affects(f, events, e, key, flow,
                    Flow(flow.sent + Words(r.reasoning, r.text) + r.rest, r.held,
                         if !r.fine then Failed else if e.Done? then Stopped else Going), effect, more)
  {
  }

  lemma NextMatches(f: Filter, events: seq<ModelEvent>, e: ModelEvent, key: string, flow: Flow, next: Flow)
    requires f.Valid() && flow.state == Going && Matches(f, events, key, flow) && next == Next(f, flow, e)
    requires Distinct(f, events + [e], key) && NotResumed(events + [e], key)
    ensures Matches(f, if next.state == Failed then events else events + [e], key, next)
  {
    var effect, more := NextHas(f, events, e, key, flow);
    OverSnoc(events, e, key);
    if Over(events, key) {
      OverIsNotResumed(events, e, key);
    }
    EffectMatches(f, events, e, key, flow, next, effect, more);
  }

  lemma EffectMatches(f: Filter, events: seq<ModelEvent>, e: ModelEvent, key: string, flow: Flow, next: Flow,
                      effect: Effect, more: Text)
    requires f.Valid() && flow.state == Going && Matches(f, events, key, flow)
    requires Over(events, key) ==> !IsDeltaOf(e, key) && Over(events + [e], key)
    requires Affects(f, events, e, key, flow, next, effect, more)
    ensures Matches(f, if next.state == Failed then events else events + [e], key, next)
  {
    var sent := ArgumentsOf(flow.sent, f.Clean(key));
    if next.state == Failed {
      assert sent + [] == sent;
    } else {
      EffectKeeps(f, events, e, key, sent, more, Waiting(flow.held.slots, key), Waiting(next.held.slots, key), effect);
    }
  }

  /** After `m` of the parsed events have been handled, and no more will be. */
  lemma {:induction false} ThroughMatches(f: Filter, parsed: seq<ModelEvent>, key: string) returns (m: nat)
    requires f.Valid() && Distinct(f, parsed, key) && NotResumed(parsed, key)
    ensures m <= |parsed| && Matches(f, parsed[..m], key, Through(f, parsed))
    ensures var state := Through(f, parsed).state;
      && (state == Going ==> m == |parsed|)
      && (state == Stopped ==> 0 < m && parsed[m - 1].Done?)
  {
    if parsed == [] {
      m := 0;
      StartMatches(f, parsed, key);
    } else {
      var n := |parsed| - 1;
      var before, e := parsed[..n], parsed[n];
      assert before + [e] == parsed;
      ShorterHolds(f, before, e, key);
      m := ThroughMatches(f, before, key);
      ThroughSnoc(f, before, e);
      m := NextThroughMatches(f, before, e, key, Through(f, before), m);
    }
  }

  lemma ThroughSnoc(f: Filter, before: seq<ModelEvent>, e: ModelEvent)
    requires f.Valid()
    ensures Through(f, before + [e]) == Next(f, Through(f, before), e)
  {
    assert (before + [e])[..|before|] == before;
  }

  lemma StartMatches(f: Filter, parsed: seq<ModelEvent>, key: string)
    requires f.Valid() && parsed == []
    ensures Matches(f, parsed[..0], key, Through(f, parsed)) && Through(f, parsed).state == Going
  {
    assert parsed[..0] == [];
  }

  lemma NextThroughMatches(f: Filter, before: seq<ModelEvent>, e: ModelEvent, key: string, flow: Flow, n: nat) returns (m: nat)
    requires f.Valid() && Distinct(f, before + [e], key) && NotResumed(before + [e], key)
    requires n <= |before| && Matches(f, before[..n], key, flow)
    requires flow.state == Going ==> n == |before|
    requires flow.state == Stopped ==> 0 < n && before[n - 1].Done?
    ensures var parsed, next := before + [e], Next(f, flow, e);
      && m <= |parsed| && Matches(f, parsed[..m], key, next)
      && (next.state == Going ==> m == |parsed|)
      && (next.state == Stopped ==> 0 < m && parsed[m - 1].Done?)
  {
    var parsed, next := before + [e], Next(f, flow, e);
    m := n;
    assert parsed[..n] == before[..n];
    if flow.state == Going {
      assert before[..n] == before;
      NextMatches(f, before, e, key, flow, next);
      if next.state != Failed {
        m := |parsed|;
        assert parsed[..m] == parsed;
      }
    }
  }

  lemma ShorterHolds(f: Filter, events: seq<ModelEvent>, e: ModelEvent, key: string)
    requires f.Valid() && Distinct(f, events + [e], key) && NotResumed(events + [e], key)
    ensures Distinct(f, events, key) && NotResumed(events, key)
  {
    var all := events + [e];
    assert forall j :: 0 <= j < |events| ==> all[j] == events[j];
    forall i, j | 0 <= i < j < |events| && CompletesAt(events, key, i) ensures !IsDeltaOf(events[j], key) {
      assert all[..i] == events[..i];
      assert CompletesAt(all, key, i);
      assert !IsDeltaOf(all[j], key);
    }
  }

  // ----------------------------------------------------------------- theorems

  lemma {:induction false} PipedIsSafe(f: Filter, events: seq<ModelEvent>, slot: string)
    requires f.Valid() && Clear(f.patterns, f.Marker())
    ensures Safe(f.patterns, Piped(f, events, slot))
  {
    if events != [] {
      var n := |events| - 1;
      PipedIsSafe(f, events[..n], slot);
      if IsDeltaOf(events[n], slot) {
        ApplyIsSafe(f.patterns, f.Marker(), Piped(f, events[..n], slot), Chunk(events[n].arguments));
      }
    }
  }

  lemma {:induction false} PipedIsFaithful(f: Filter, events: seq<ModelEvent>, slot: string)
    requires f.Valid() && SuffixOnly(f.patterns)
    ensures var piped := Piped(f, events, slot);
      Faithful(f, ArgumentsOf(events, slot), piped.output, piped.pending)
  {
    if events == [] {
      assert forall u: Text :: [] + u == u;
    } else {
      var n := |events| - 1;
      var raw, before := ArgumentsOf(events[..n], slot), Piped(f, events[..n], slot);
      PipedIsFaithful(f, events[..n], slot);
      if IsDeltaOf(events[n], slot) {
        PushIsFaithful(f, raw, before.output, before.pending, events[n].arguments);
      } else {
        assert raw + [] == raw;
      }
    }
  }

  /** The arguments sent are what the slot's own redactor puts out, at the end
      what it still withholds as well. */
  lemma SentArguments(f: Filter, parsed: seq<ModelEvent>, ending: Ending, chat: bool, key: string) returns (m: nat)
    requires f.Valid() && Distinct(f, parsed, key) && NotResumed(parsed, key)
    ensures m <= |parsed|
    ensures var piped, sent := Piped(f, parsed[..m], key), ArgumentsOf(Sent(f, parsed, ending, chat), f.Clean(key));
      && (sent == piped.output || sent == piped.output + piped.pending)
      && (!Fails(Through(f, parsed).state, ending) ==> sent == piped.output + piped.pending)
    ensures var state := Through(f, parsed).state;
      (state == Going ==> m == |parsed|) && (state == Stopped ==> 0 < m && parsed[m - 1].Done?)
  {
    var flow := Through(f, parsed);
    m := ThroughMatches(f, parsed, key);
    if !Fails(flow.state, ending) {
      SentGrows(f, parsed, flow, ending, chat, f.Clean(key));
      if flow.state == Going {
        TracksApart(f, parsed[..m], flow.held.slots, key);
        TailsArguments(f, flow.held.slots, key);
      }
    }
  }

  lemma SentGrows(f: Filter, parsed: seq<ModelEvent>, flow: Flow, ending: Ending, chat: bool, shown: string)
    requires f.Valid() && flow == Through(f, parsed) && !Fails(flow.state, ending)
    ensures ArgumentsOf(Sent(f, parsed, ending, chat), shown)
      == ArgumentsOf(flow.sent, shown) + ArgumentsOf(Tails(f, flow.held.slots), shown)
  {
    ArgumentsGrow(flow.sent, flow.held.reasoning, flow.held.text, Last(f, flow.held.slots, flow.state, ending, chat), shown);
    LastArguments(f, flow.held.slots, flow.state, ending, chat, shown);
  }

  lemma LastArguments(f: Filter, slots: seq<Slot>, state: State, ending: Ending, chat: bool, shown: string)
    requires f.Valid()
    ensures ArgumentsOf(Last(f, slots, state, ending, chat), shown) == ArgumentsOf(Tails(f, slots), shown)
  {
    var done := if (state == Going && ending == ProviderStream.Closed) || chat then [ModelEvent.Done] else [];
    ArgumentsOfConcat(Tails(f, slots), done, shown);
    NoArguments(done, shown);
  }

  /** Over all deltas of a slot, joined, the arguments that are sent hold no
      credential, however the stream ends. */
  lemma ArgumentsAreClean(f: Filter, parsed: seq<ModelEvent>, ending: Ending, chat: bool, key: string)
    requires f.Valid() && Clear(f.patterns, f.Marker()) && Distinct(f, parsed, key) && NotResumed(parsed, key)
    ensures NoMatch(f.patterns, ArgumentsOf(Sent(f, parsed, ending, chat), f.Clean(key)))
  {
    var m := SentArguments(f, parsed, ending, chat, key);
    var piped := Piped(f, parsed[..m], key);
    PipedIsSafe(f, parsed[..m], key);
    SafeIsClean(f.patterns, piped.output, piped.pending);
  }

  predicate DoneIsLast(parsed: seq<ModelEvent>) {
    forall i :: 0 <= i < |parsed| - 1 ==> !parsed[i].Done?
  }

  /** A stream that does not fail sends exactly the batch redaction of the
      arguments, where streaming can equal batch redaction at all. */
  lemma ArgumentsAreRedaction(f: Filter, parsed: seq<ModelEvent>, ending: Ending, chat: bool, key: string)
    requires f.Valid() && SuffixOnly(f.patterns) && Distinct(f, parsed, key) && NotResumed(parsed, key)
    requires DoneIsLast(parsed) && !Fails(Through(f, parsed).state, ending)
    ensures ArgumentsOf(Sent(f, parsed, ending, chat), f.Clean(key)) == Redact(f.patterns, f.Marker(), ArgumentsOf(parsed, key))
  {
    var m := SentArguments(f, parsed, ending, chat, key);
    assert parsed[..|parsed|] == parsed;
    var piped := Piped(f, parsed, key);
    PipedIsFaithful(f, parsed, key);
    FinishIsFaithful(f, ArgumentsOf(parsed, key), piped.output, piped.pending);
  }

  // ------------------------------------------------------------ a slot resumed

  lemma PushKeepsAll(f: Filter, text: Text)
    requires f.Valid() && NoMatch(f.patterns, text)
    ensures var step := f.Push([], text);
      step.output + step.pending == text
  {
    assert [] + text == text;
    if f.patterns != [] {
      var keep := StreamRedaction.Keep(f.patterns, text);
      assert [] + text[..keep] == text[..keep];
      assert text[..keep] + text[keep..] == text;
    }
  }

  lemma NextGrows(f: Filter, flow: Flow, e: ModelEvent, r: Handled, shown: string)
    requires f.Valid() && flow.state == Going && r == Handle(f, flow.held, e) && r.fine && !e.Done?
    ensures var next := Next(f, flow, e);
      && next.state == Going && next.held == r.held
      && ArgumentsOf(next.sent, shown) == ArgumentsOf(flow.sent, shown) + ArgumentsOf(r.rest, shown)
  {
    ArgumentsGrow(flow.sent, r.reasoning, r.text, r.rest, shown);
  }

  /** A delta of the only slot, of which nothing is withheld. */
  lemma DeltaAlone(f: Filter, h: Held, e: ModelEvent, id: Option<string>)
    requires f.Valid() && e.ToolCallDelta? && f.fits(h.slots, e.slot, e.id)
    requires h.slots == if id.None? then [] else [Slot(e.slot, id, [])]
    ensures var r, step := HandleDelta(f, h, e.slot, e.id, e.name, e.arguments), f.Push([], e.arguments);
      && r.fine && r.held.slots == [Slot(e.slot, if e.id.Some? then e.id else id, step.pending)]
      && ArgumentsOf(r.rest, f.Clean(e.slot)) == step.output
  {
    var r := HandleDelta(f, h, e.slot, e.id, e.name, e.arguments);
    ArgumentsOfOne(r.rest[0], f.Clean(e.slot));
  }

  lemma CompleteAlone(f: Filter, h: Held, call: Protocol.ToolCall, slot: Slot, last: ModelEvent)
    requires f.Valid() && h.slots == [slot] && slot.id == Some(call.id) && last == ToolCallComplete(f.CleanCall(call))
    ensures var r := HandleComplete(f, h, call);
      r.held.slots == [slot.(pending := [])] && ArgumentsOf(r.rest, f.Clean(slot.key)) == slot.pending
  {
    assert ById([slot], call.id) == Some(slot);
    assert Put([slot], slot.(pending := [])) == [slot.(pending := [])];
    TailArguments(f, slot, slot.key);
    ArgumentsOfConcat(Tail(f, slot), [last], f.Clean(slot.key));
    ArgumentsOfOne(last, f.Clean(slot.key));
    assert slot.pending + [] == slot.pending;
  }

  /** Without the condition a credential gets through: its first part before the
      complete call and the rest in a delta after it, each of them harmless. */
  lemma ResumedSlotLeaks(f: Filter, k: nat, first: Text, second: Text, slot: string, call: Protocol.ToolCall)
    requires f.Valid() && k < |f.patterns| && f.patterns[k] == first + second
    requires NoMatch(f.patterns, first) && NoMatch(f.patterns, second)
    requires forall slots, key, id :: f.fits(slots, key, id)
    ensures var parsed := [ToolCallDelta(slot, Some(call.id), None, first), ToolCallComplete(call),
                           ToolCallDelta(slot, None, None, second)];
      && Distinct(f, parsed, slot) && !NotResumed(parsed, slot)
      && ArgumentsOf(Sent(f, parsed, ProviderStream.Closed, false), f.Clean(slot)) == f.patterns[k]
  {
    var a, b, c := ToolCallDelta(slot, Some(call.id), None, first), ToolCallComplete(call), ToolCallDelta(slot, None, None, second);
    var one, other := f.Push([], first), f.Push([], second);
    ResumedSends(f, a, b, c, one, other);
    PushKeepsAll(f, first);
    PushKeepsAll(f, second);
    Assoc(first, other.output, other.pending);
    ResumedIsNot(slot, call, first, second);
    ResumedIsDistinct(f, [a, b, c], slot);
  }

  lemma ResumedIsDistinct(f: Filter, parsed: seq<ModelEvent>, slot: string)
    requires f.Valid() && forall i :: 0 <= i < |parsed| ==> parsed[i].ToolCallDelta? ==> parsed[i].slot == slot
    ensures Distinct(f, parsed, slot)
  {
  }

  lemma ResumedIsNot(slot: string, call: Protocol.ToolCall, first: Text, second: Text)
    ensures !NotResumed([ToolCallDelta(slot, Some(call.id), None, first), ToolCallComplete(call),
                         ToolCallDelta(slot, None, None, second)], slot)
  {
    var a := ToolCallDelta(slot, Some(call.id), None, first);
    var parsed := [a, ToolCallComplete(call), ToolCallDelta(slot, None, None, second)];
    assert parsed[..1] == [a];
    assert CompletesAt(parsed, slot, 1) && IsDeltaOf(parsed[2], slot);
  }

  /** The slot is the only one, and so many arguments have been sent of it. */
  ghost predicate Alone(f: Filter, flow: Flow, slot: Slot, sent: Text)
    requires f.Valid()
  {
    flow.state == Going && flow.held.slots == [slot] && ArgumentsOf(flow.sent, f.Clean(slot.key)) == sent
  }

  lemma DeltaFlows(f: Filter, flow: Flow, e: ModelEvent, id: Option<string>, sent: Text, step: Step)
    requires f.Valid() && e.ToolCallDelta? && f.fits(flow.held.slots, e.slot, e.id) && step == f.Push([], e.arguments)
    requires if id.None? then flow == START && sent == [] else Alone(f, flow, Slot(e.slot, id, []), sent)
    ensures Alone(f, Next(f, flow, e), Slot(e.slot, if e.id.Some? then e.id else id, step.pending), sent + step.output)
  {
    DeltaAlone(f, flow.held, e, id);
    NextGrows(f, flow, e, Handle(f, flow.held, e), f.Clean(e.slot));
  }

  lemma CompleteFlows(f: Filter, flow: Flow, e: ModelEvent, slot: Slot, sent: Text)
    requires f.Valid() && e.ToolCallComplete? && slot.id == Some(e.call.id) && Alone(f, flow, slot, sent)
    ensures Alone(f, Next(f, flow, e), slot.(pending := []), sent + slot.pending)
  {
    CompleteAlone(f, flow.held, e.call, slot, ToolCallComplete(f.CleanCall(e.call)));
    NextGrows(f, flow, e, Handle(f, flow.held, e), f.Clean(slot.key));
  }

  lemma ResumedHalf(f: Filter, a: ModelEvent, b: ModelEvent, one: Step)
    requires f.Valid() && a.ToolCallDelta? && b.ToolCallComplete? && a.id == Some(b.call.id)
    requires f.fits([], a.slot, a.id) && one == f.Push([], a.arguments)
    ensures Alone(f, Next(f, Next(f, START, a), b), Slot(a.slot, a.id, []), one.output + one.pending)
  {
    DeltaFlows(f, START, a, None, [], one);
    assert [] + one.output == one.output;
    CompleteFlows(f, Next(f, START, a), b, Slot(a.slot, a.id, one.pending), one.output);
  }

  lemma ResumedGoesOn(f: Filter, a: ModelEvent, b: ModelEvent, c: ModelEvent, one: Step, other: Step)
    requires f.Valid() && a.ToolCallDelta? && b.ToolCallComplete? && c.ToolCallDelta?
    requires a.slot == c.slot && a.id == Some(b.call.id) && c.id == None
    requires f.fits([], a.slot, a.id) && f.fits([Slot(a.slot, a.id, [])], c.slot, c.id)
    requires one == f.Push([], a.arguments) && other == f.Push([], c.arguments)
    ensures Alone(f, Through(f, [a, b, c]), Slot(a.slot, a.id, other.pending), one.output + one.pending + other.output)
  {
    ResumedHalf(f, a, b, one);
    DeltaFlows(f, Next(f, Next(f, START, a), b), c, a.id, one.output + one.pending, other);
    ThroughThree(f, a, b, c);
  }

  lemma AloneIsSent(f: Filter, parsed: seq<ModelEvent>, flow: Flow, slot: Slot, sent: Text)
    requires f.Valid() && flow == Through(f, parsed) && Alone(f, flow, slot, sent)
    ensures ArgumentsOf(Sent(f, parsed, ProviderStream.Closed, false), f.Clean(slot.key)) == sent + slot.pending
  {
    SentGrows(f, parsed, flow, ProviderStream.Closed, false, f.Clean(slot.key));
    TailsArguments(f, [slot], slot.key);
  }

  lemma ResumedSends(f: Filter, a: ModelEvent, b: ModelEvent, c: ModelEvent, one: Step, other: Step)
    requires f.Valid() && a.ToolCallDelta? && b.ToolCallComplete? && c.ToolCallDelta?
    requires a.slot == c.slot && a.id == Some(b.call.id) && c.id == None
    requires f.fits([], a.slot, a.id) && f.fits([Slot(a.slot, a.id, [])], c.slot, c.id)
    requires one == f.Push([], a.arguments) && other == f.Push([], c.arguments)
    ensures ArgumentsOf(Sent(f, [a, b, c], ProviderStream.Closed, false), f.Clean(a.slot))
      == one.output + one.pending + other.output + other.pending
  {
    ResumedGoesOn(f, a, b, c, one, other);
    AloneIsSent(f, [a, b, c], Through(f, [a, b, c]), Slot(a.slot, a.id, other.pending), one.output + one.pending + other.output);
  }

  lemma ThroughThree(f: Filter, a: ModelEvent, b: ModelEvent, c: ModelEvent)
    requires f.Valid()
    ensures Through(f, [a, b, c]) == Next(f, Next(f, Next(f, START, a), b), c)
  {
    ThroughSnoc(f, [], a);
    ThroughSnoc(f, [a], b);
    ThroughSnoc(f, [a, b], c);
    assert [] + [a] == [a] && [a] + [b] == [a, b] && [a, b] + [c] == [a, b, c];
    assert Through(f, []) == START;
  }

  // ------------------------------------------- everything but words and arguments

  /** What else an event says: neither words nor arguments, and not the end. */
  function Mark(e: ModelEvent): seq<ModelEvent> {
    match e
    case TextDelta(_) => []
    case ReasoningDelta(_) => []
    case Done => []
    case ToolCallDelta(slot, id, name, _) => if id.None? && name.None? then [] else [ToolCallDelta(slot, id, name, [])]
    case _ => [e]
  }

  function Marks(events: seq<ModelEvent>): seq<ModelEvent> {
    if events == [] then [] else Marks(events[..|events| - 1]) + Mark(events[|events| - 1])
  }

  function CleanMark(f: Filter, e: ModelEvent): ModelEvent
    requires f.Valid()
  {
    match e
    case ToolCallDelta(slot, id, name, arguments) => ToolCallDelta(f.Clean(slot), f.CleanOption(id), f.CleanOption(name), arguments)
    case ToolCallComplete(call) => ToolCallComplete(f.CleanCall(call))
    case _ => Cleaned(f, e)
  }

  function CleanMarks(f: Filter, marks: seq<ModelEvent>): seq<ModelEvent>
    requires f.Valid()
  {
    seq(|marks|, i requires 0 <= i < |marks| => CleanMark(f, marks[i]))
  }

  lemma {:induction false} MarksOfConcat(a: seq<ModelEvent>, b: seq<ModelEvent>)
    ensures Marks(a + b) == Marks(a) + Marks(b)
    decreases |b|
  {
    if b == [] {
      assert a + b == a;
    } else {
      var n := |b| - 1;
      MarksOfConcat(a, b[..n]);
      assert (a + b)[..|a + b| - 1] == a + b[..n] && (a + b)[|a + b| - 1] == b[n];
      Assoc(Marks(a), Marks(b[..n]), Mark(b[n]));
    }
  }

  lemma MarksOfOne(e: ModelEvent)
    ensures Marks([e]) == Mark(e)
  {
    assert [e][..0] == [] && Marks([]) == [];
  }

  lemma {:induction false} NoMarks(events: seq<ModelEvent>)
    requires forall i :: 0 <= i < |events| ==> Mark(events[i]) == []
    ensures Marks(events) == []
  {
    if events != [] {
      NoMarks(events[..|events| - 1]);
    }
  }

  lemma {:induction false} TailsHaveNoMarks(f: Filter, slots: seq<Slot>)
    requires f.Valid()
    ensures forall i :: 0 <= i < |Tails(f, slots)| ==> Mark(Tails(f, slots)[i]) == []
  {
    if slots != [] {
      TailsHaveNoMarks(f, slots[..|slots| - 1]);
    }
  }

  lemma MarksGrow(sent: seq<ModelEvent>, reasoning: Text, text: Text, rest: seq<ModelEvent>)
    ensures Marks(sent + Words(reasoning, text) + rest) == Marks(sent) + Marks(rest)
  {
    NoMarks(Words(reasoning, text));
    MarksOfConcat(sent + Words(reasoning, text), rest);
    MarksOfConcat(sent, Words(reasoning, text));
    assert Marks(sent) + [] == Marks(sent);
  }

  lemma MarksBehind(tail: seq<ModelEvent>, last: ModelEvent)
    requires Marks(tail) == []
    ensures Marks(tail + [last]) == Mark(last)
  {
    MarksOfConcat(tail, [last]);
    MarksOfOne(last);
    assert [] + Mark(last) == Mark(last);
  }

  lemma TailHasNoMarks(f: Filter, slot: Slot)
    requires f.Valid()
    ensures Marks(Tail(f, slot)) == []
  {
    NoMarks(Tail(f, slot));
  }

  lemma CompleteMarks(f: Filter, h: Held, call: Protocol.ToolCall, last: ModelEvent)
    requires f.Valid() && last == ToolCallComplete(f.CleanCall(call))
    ensures Marks(HandleComplete(f, h, call).rest) == Mark(last)
  {
    var found := ById(h.slots, call.id);
    if found.Some? {
      TailHasNoMarks(f, found.value);
      MarksBehind(Tail(f, found.value), last);
    } else {
      MarksOfOne(last);
      assert [] + [last] == [last];
    }
  }

  lemma DoneMarks(f: Filter, slots: seq<Slot>, last: seq<ModelEvent>)
    requires f.Valid() && (last == [] || last == [ModelEvent.Done])
    ensures Marks(Tails(f, slots) + last) == []
  {
    TailsHaveNoMarks(f, slots);
    NoMarks(Tails(f, slots) + last);
  }

  /** Redaction leaves the mark of an event its mark. */
  lemma MarkOfClean(f: Filter, e: ModelEvent, arguments: Text)
    requires f.Valid()
    ensures var clean := CleanMark(f, e);
      && (!clean.ToolCallDelta? ==> Mark(clean) == CleanMarks(f, Mark(e)))
      && (clean.ToolCallDelta? ==> Mark(clean.(arguments := arguments)) == CleanMarks(f, Mark(e)))
  {
  }

  lemma DeltaMarks(f: Filter, h: Held, e: ModelEvent)
    requires f.Valid() && e.ToolCallDelta?
    ensures var r := HandleDelta(f, h, e.slot, e.id, e.name, e.arguments);
      Marks(r.rest) == if r.fine then CleanMarks(f, Mark(e)) else []
  {
    if f.fits(h.slots, e.slot, e.id) {
      var output := f.Push(Entry(h.slots, e.slot, e.id).pending, e.arguments).output;
      MarkOfClean(f, e, output);
      MarksOfOne(CleanMark(f, e).(arguments := output));
    }
  }

  lemma OtherMarks(f: Filter, e: ModelEvent)
    requires f.Valid() && !e.ToolCallDelta? && !e.ToolCallComplete? && !e.Done? && !e.TextDelta? && !e.ReasoningDelta?
    ensures Marks([Cleaned(f, e)]) == CleanMarks(f, Mark(e))
  {
    MarksOfOne(Cleaned(f, e));
    MarkOfClean(f, e, []);
  }

  lemma HandleMarks(f: Filter, h: Held, e: ModelEvent)
    requires f.Valid()
    ensures var r := Handle(f, h, e);
      Marks(r.rest) == if r.fine then CleanMarks(f, Mark(e)) else []
  {
    match e
    case ToolCallDelta(_, _, _, _) => DeltaMarks(f, h, e);
    case ToolCallComplete(call) =>
      CompleteMarks(f, h, call, CleanMark(f, e));
      MarkOfClean(f, e, []);
    case Done =>
      DoneIs(f, h);
      DoneMarks(f, h.slots, [ModelEvent.Done]);
    case TextDelta(_) =>
    case ReasoningDelta(_) =>
    case _ => OtherMarks(f, e);
  }

  lemma CleanMarksConcat(f: Filter, a: seq<ModelEvent>, b: seq<ModelEvent>)
    requires f.Valid()
    ensures CleanMarks(f, a + b) == CleanMarks(f, a) + CleanMarks(f, b)
  {
  }

  lemma NextMarks(f: Filter, before: seq<ModelEvent>, e: ModelEvent, flow: Flow)
    requires f.Valid() && flow.state == Going && Marks(flow.sent) == CleanMarks(f, Marks(before))
    ensures var next := Next(f, flow, e);
      Marks(next.sent) == CleanMarks(f, Marks(if next.state == Failed then before else before + [e]))
  {
    var r := Handle(f, flow.held, e);
    MarksGrow(flow.sent, r.reasoning, r.text, r.rest);
    HandleMarks(f, flow.held, e);
    if r.fine {
      MarksOfConcat(before, [e]);
      MarksOfOne(e);
      CleanMarksConcat(f, Marks(before), Mark(e));
    } else {
      assert Marks(flow.sent) + [] == Marks(flow.sent);
    }
  }

  lemma {:induction false} ThroughMarks(f: Filter, parsed: seq<ModelEvent>) returns (m: nat)
    requires f.Valid()
    ensures m <= |parsed| && Marks(Through(f, parsed).sent) == CleanMarks(f, Marks(parsed[..m]))
    ensures var state := Through(f, parsed).state;
      (state == Going ==> m == |parsed|) && (state == Stopped ==> 0 < m && parsed[m - 1].Done?)
  {
    if parsed == [] {
      m := 0;
    } else {
      var n := |parsed| - 1;
      var before, e := parsed[..n], parsed[n];
      assert before + [e] == parsed;
      m := ThroughMarks(f, before);
      ThroughSnoc(f, before, e);
      m := NextThroughMarks(f, before, e, Through(f, before), m);
    }
  }

  lemma NextThroughMarks(f: Filter, before: seq<ModelEvent>, e: ModelEvent, flow: Flow, n: nat) returns (m: nat)
    requires f.Valid() && n <= |before| && Marks(flow.sent) == CleanMarks(f, Marks(before[..n]))
    requires flow.state == Going ==> n == |before|
    requires flow.state == Stopped ==> 0 < n && before[n - 1].Done?
    ensures var parsed, next := before + [e], Next(f, flow, e);
      && m <= |parsed| && Marks(next.sent) == CleanMarks(f, Marks(parsed[..m]))
      && (next.state == Going ==> m == |parsed|) && (next.state == Stopped ==> 0 < m && parsed[m - 1].Done?)
  {
    var parsed, next := before + [e], Next(f, flow, e);
    m := n;
    assert parsed[..n] == before[..n];
    if flow.state == Going {
      assert before[..n] == before;
      NextMarks(f, before, e, flow);
      if next.state != Failed {
        m := |parsed|;
        assert parsed[..m] == parsed;
      }
    }
  }

  /** Ids, names, complete calls, provider items, searches, response ids and usage
      are sent in the order in which they were parsed, each redacted, and none is
      dropped unless the stream fails. */
  lemma MarksAreCleaned(f: Filter, parsed: seq<ModelEvent>, ending: Ending, chat: bool)
    requires f.Valid()
    ensures exists m :: 0 <= m <= |parsed| && Marks(Sent(f, parsed, ending, chat)) == CleanMarks(f, Marks(parsed[..m]))
    ensures DoneIsLast(parsed) && !Fails(Through(f, parsed).state, ending) ==>
      Marks(Sent(f, parsed, ending, chat)) == CleanMarks(f, Marks(parsed))
  {
    var flow := Through(f, parsed);
    var m := ThroughMarks(f, parsed);
    assert parsed[..|parsed|] == parsed;
    if !Fails(flow.state, ending) {
      var last := if (flow.state == Going && ending == ProviderStream.Closed) || chat then [ModelEvent.Done] else [];
      MarksGrow(flow.sent, flow.held.reasoning, flow.held.text, Last(f, flow.held.slots, flow.state, ending, chat));
      DoneMarks(f, flow.held.slots, last);
      assert Marks(flow.sent) + [] == Marks(flow.sent);
    }
    assert Marks(Sent(f, parsed, ending, chat)) == CleanMarks(f, Marks(parsed[..m]));
  }

  // -------------------------------------------------------------- clean labels

  /** What the event says besides words and arguments holds no credential. */
  ghost predicate LabelIsClean(ps: seq<Text>, e: ModelEvent) {
    match e
    case ToolCallDelta(slot, id, name, _) =>
      NoMatch(ps, slot) && (id.Some? ==> NoMatch(ps, id.value)) && (name.Some? ==> NoMatch(ps, name.value))
    case ToolCallComplete(call) =>
      NoMatch(ps, call.id) && NoMatch(ps, call.name) && JsonRedaction.JsonIsClean(ps, call.arguments)
    case ProviderItem(item) => JsonRedaction.JsonIsClean(ps, item)
    case ResponseId(id) => NoMatch(ps, id)
    case WebSearchStarted(query) => NoMatch(ps, query)
    case WebSearchResult(title, url, snippet) => NoMatch(ps, title) && NoMatch(ps, url) && NoMatch(ps, snippet)
    case _ => true
  }

  ghost predicate LabelsAreClean(ps: seq<Text>, events: seq<ModelEvent>) {
    forall i :: 0 <= i < |events| ==> LabelIsClean(ps, events[i])
  }

  lemma CleanIsClean(f: Filter, s: string)
    requires f.Valid() && Clear(f.patterns, f.Marker())
    ensures NoMatch(f.patterns, f.Clean(s))
  {
    RedactionIsClean(f.patterns, [], s);
  }

  lemma CleanMarkIsClean(f: Filter, e: ModelEvent)
    requires f.Valid() && Clear(f.patterns, f.Marker())
    ensures LabelIsClean(f.patterns, CleanMark(f, e))
  {
    match e
    case ToolCallDelta(slot, id, name, _) =>
      CleanIsClean(f, slot);
      CleanIsClean(f, if id.Some? then id.value else []);
      CleanIsClean(f, if name.Some? then name.value else []);
    case ToolCallComplete(call) =>
      CleanIsClean(f, call.id);
      CleanIsClean(f, call.name);
      JsonRedaction.RedactJsonIsClean(f.patterns, call.arguments);
    case ProviderItem(item) => JsonRedaction.RedactJsonIsClean(f.patterns, item);
    case ResponseId(id) => CleanIsClean(f, id);
    case WebSearchStarted(query) => CleanIsClean(f, query);
    case WebSearchResult(title, url, snippet) =>
      CleanIsClean(f, title);
      CleanIsClean(f, url);
      CleanIsClean(f, snippet);
    case _ =>
  }

  lemma {:induction false} TailsAreClean(f: Filter, slots: seq<Slot>)
    requires f.Valid() && Clear(f.patterns, f.Marker())
    ensures LabelsAreClean(f.patterns, Tails(f, slots))
  {
    if slots != [] {
      TailsAreClean(f, slots[..|slots| - 1]);
      CleanIsClean(f, slots[|slots| - 1].key);
    }
  }

  lemma HandleIsClean(f: Filter, h: Held, e: ModelEvent)
    requires f.Valid() && Clear(f.patterns, f.Marker())
    ensures LabelsAreClean(f.patterns, Handle(f, h, e).rest)
  {
    CleanMarkIsClean(f, e);
    match e
    case ToolCallComplete(call) =>
      CompleteIsClean(f, h, call, CleanMark(f, e));
    case Done =>
      DoneIs(f, h);
      TailsAreClean(f, h.slots);
    case _ =>
  }

  lemma CompleteIsClean(f: Filter, h: Held, call: Protocol.ToolCall, last: ModelEvent)
    requires f.Valid() && Clear(f.patterns, f.Marker()) && last == ToolCallComplete(f.CleanCall(call))
    requires LabelIsClean(f.patterns, last)
    ensures LabelsAreClean(f.patterns, HandleComplete(f, h, call).rest)
  {
    var found := ById(h.slots, call.id);
    if found.Some? {
      CleanIsClean(f, found.value.key);
    }
  }

  lemma {:induction false} ThroughLabels(f: Filter, parsed: seq<ModelEvent>)
    requires f.Valid() && Clear(f.patterns, f.Marker())
    ensures LabelsAreClean(f.patterns, Through(f, parsed).sent)
  {
    if parsed != [] {
      var n := |parsed| - 1;
      ThroughLabels(f, parsed[..n]);
      HandleIsClean(f, Through(f, parsed[..n]).held, parsed[n]);
    }
  }

  lemma LastLabels(f: Filter, slots: seq<Slot>, state: State, ending: Ending, chat: bool)
    requires f.Valid() && Clear(f.patterns, f.Marker())
    ensures LabelsAreClean(f.patterns, Last(f, slots, state, ending, chat))
  {
    TailsAreClean(f, slots);
  }

  lemma WordsGoWell(ps: seq<Text>, sent: seq<ModelEvent>, words: seq<ModelEvent>, last: seq<ModelEvent>)
    requires LabelsAreClean(ps, sent) && LabelsAreClean(ps, last)
    requires forall i :: 0 <= i < |words| ==> words[i].TextDelta? || words[i].ReasoningDelta?
    ensures LabelsAreClean(ps, sent + words) && LabelsAreClean(ps, sent + words + last)
  {
  }

  /** No id, name, slot, search field, response id, provider item or complete call
      that is sent holds a credential. */
  lemma SentLabelsAreClean(f: Filter, parsed: seq<ModelEvent>, ending: Ending, chat: bool)
    requires f.Valid() && Clear(f.patterns, f.Marker())
    ensures LabelsAreClean(f.patterns, Sent(f, parsed, ending, chat))
  {
    var flow := Through(f, parsed);
    ThroughLabels(f, parsed);
    LastLabels(f, flow.held.slots, flow.state, ending, chat);
    WordsGoWell(f.patterns, flow.sent, Words(flow.held.reasoning, flow.held.text), Last(f, flow.held.slots, flow.state, ending, chat));
  }
}
