/** `subscribe_cursor_from` under concurrency (`src/bridge.rs`): any number of
    pushing tasks and of consumers that are woken by a coalescing watch signal
    and then read bounded batches from the ring. */
module CursorWatch {
  import opened Wrappers
  import opened Protocol
  import opened EventBridge

  datatype Limits = Limits(maxEvents: nat, maxBytes: nat)

  /** `seen` is the watch version the consumer has acknowledged. */
  datatype Consumer =
    | Joining(after: nat, seen: nat)                                         // watch installed, ring not read yet
    | Draining(after: nat, applied: seq<Envelope>, last: nat, seen: nat)     // reads batches
    | Waiting(after: nat, applied: seq<Envelope>, last: nat, seen: nat)      // awaits a change
    | Resyncing

  /** `unsignalled` counts pushes between their ring append and their watch
      update; `version` counts watch updates. */
  datatype State = State(log: seq<Envelope>, unsignalled: nat, version: nat, consumers: map<nat, Consumer>)

  datatype Action =
    | Append(sessionId: string, event: Event)
    | Signal
    | Install(id: nat, after: nat)
    | Snapshot(id: nat)
    | Wake(id: nat)
    | Fetch(id: nat, limit: nat)

  function Init(log: seq<Envelope>): State {
    State(log, 0, |log|, map[])
  }

  predicate Enabled(s: State, a: Action) {
    match a
    case Append(_, _) => true
    case Signal => s.unsignalled > 0
    case Install(id, _) => id !in s.consumers
    case Snapshot(id) => id in s.consumers && s.consumers[id].Joining?
    case Wake(id) => id in s.consumers && s.consumers[id].Waiting? && s.consumers[id].seen != s.version
    case Fetch(id, _) => id in s.consumers && s.consumers[id].Draining?
  }

  function Ring(s: State, limits: Limits): nat {
    |Retained(s.log, limits.maxEvents, limits.maxBytes)|
  }

  function Joined(s: State, c: Consumer, limits: Limits): Consumer
    requires c.Joining?
  {
    match Owed(s.log, Ring(s, limits), c.after)
    case Err(_) => Resyncing
    case Ok(replay) => Waiting(c.after, replay, c.after + |replay|, c.seen)
  }

  function Fetched(s: State, c: Consumer, limit: nat, limits: Limits): Consumer
    requires c.Draining?
  {
    match Owed(s.log, Ring(s, limits), c.last)
    case Err(_) => Resyncing
    case Ok(owed) =>
      var batch := Take(owed, if limit > 1 then limit else 1);
      if batch == [] then Waiting(c.after, c.applied, c.last, c.seen)
      else Draining(c.after, c.applied + batch, batch[|batch| - 1].cursor, c.seen)
  }

  function Step(s: State, a: Action, limits: Limits): State {
    if !Enabled(s, a) then s
    else match a
      case Append(sessionId, event) =>
        s.(log := s.log + [Envelope(|s.log| + 1, sessionId, event)], unsignalled := s.unsignalled + 1)
      case Signal => s.(unsignalled := s.unsignalled - 1, version := s.version + 1)
      case Install(id, after) => s.(consumers := s.consumers[id := Joining(after, s.version)])
      case Snapshot(id) => s.(consumers := s.consumers[id := Joined(s, s.consumers[id], limits)])
      case Wake(id) =>
        var Waiting(after, applied, last, _) := s.consumers[id];
        s.(consumers := s.consumers[id := Draining(after, applied, last, s.version)])
      case Fetch(id, limit) => s.(consumers := s.consumers[id := Fetched(s, s.consumers[id], limit, limits)])
  }

  function Execute(s: State, actions: seq<Action>, limits: Limits): State
    decreases |actions|
  {
    if actions == [] then s else Execute(Step(s, actions[0], limits), actions[1..], limits)
  }

  // --------------------------------------------------------------- invariant

  /** `applied` is the log after `after`, up to `last`. */
  predicate Applied(log: seq<Envelope>, applied: seq<Envelope>, last: nat, after: nat) {
    && last == after + |applied|
    && (applied != [] ==> last <= |log| && applied == log[after..last])
  }

  /** A consumer acknowledges no update it has not seen, and waits only after
      reading everything that was announced when it last acknowledged. */
  predicate GoodConsumer(s: State, c: Consumer) {
    match c
    case Joining(_, seen) => seen <= s.version
    case Draining(after, applied, last, seen) => seen <= s.version && Applied(s.log, applied, last, after)
    case Waiting(after, applied, last, seen) => seen <= s.version && Applied(s.log, applied, last, after) && seen <= last
    case Resyncing => true
  }

  ghost predicate Good(s: State) {
    && Numbered(s.log)
    && |s.log| == s.version + s.unsignalled
    && forall id :: id in s.consumers ==> GoodConsumer(s, s.consumers[id])
  }

  lemma GrowthKeeps(s: State, t: State, c: Consumer)
    requires GoodConsumer(s, c) && s.version <= t.version && s.log <= t.log
    ensures GoodConsumer(t, c)
  {
    if (c.Draining? || c.Waiting?) && c.applied != [] {
      assert t.log[c.after..c.last] == s.log[c.after..c.last];
    }
  }

  lemma JoinKeeps(s: State, c: Consumer, limits: Limits)
    requires Numbered(s.log) && s.version <= |s.log| && GoodConsumer(s, c) && c.Joining?
    ensures GoodConsumer(s, Joined(s, c, limits))
  {
    if c.after <= |s.log| {
      assert s.log[c.after..|s.log|] == s.log[c.after..];
    }
  }

  lemma BatchIsSlice(log: seq<Envelope>, last: nat, batch: seq<Envelope>)
    requires Numbered(log) && last < |log| && batch != [] && batch <= log[last..]
    ensures last + |batch| <= |log| && batch == log[last..last + |batch|]
    ensures batch[|batch| - 1].cursor == last + |batch|
  {
  }

  lemma SlicesJoin(log: seq<Envelope>, i: nat, j: nat, k: nat, applied: seq<Envelope>)
    requires i <= j <= k <= |log| && applied == log[i..j]
    ensures applied + log[j..k] == log[i..k]
  {
  }

  lemma FetchKeeps(s: State, c: Consumer, limit: nat, limits: Limits)
    requires Numbered(s.log) && s.version <= |s.log| && GoodConsumer(s, c) && c.Draining?
    ensures GoodConsumer(s, Fetched(s, c, limit, limits))
  {
    var Draining(after, applied, last, _) := c;
    if last < |s.log| {
      var batch := Take(s.log[last..], if limit > 1 then limit else 1);
      BatchIsSlice(s.log, last, batch);
      SlicesJoin(s.log, after, last, last + |batch|, applied);
    }
  }

  lemma StepKeepsGood(s: State, a: Action, limits: Limits)
    requires Good(s)
    ensures Good(Step(s, a, limits))
  {
    var t := Step(s, a, limits);
    if Enabled(s, a) {
      if a.Snapshot? {
        JoinKeeps(s, s.consumers[a.id], limits);
      } else if a.Fetch? {
        FetchKeeps(s, s.consumers[a.id], a.limit, limits);
      }
      forall id | id in t.consumers ensures GoodConsumer(t, t.consumers[id]) {
        if id in s.consumers {
          GrowthKeeps(s, t, s.consumers[id]);
        }
      }
    }
  }

  lemma {:induction false} ExecuteKeepsGood(s: State, actions: seq<Action>, limits: Limits)
    requires Good(s)
    ensures Good(Execute(s, actions, limits))
    decreases |actions|
  {
    if actions != [] {
      StepKeepsGood(s, actions[0], limits);
      ExecuteKeepsGood(Step(s, actions[0], limits), actions[1..], limits);
    }
  }

  // ---------------------------------------------------------------- theorems

  /** In every interleaving each consumer's batches are, joined up, the log from
      its start without gap or repetition. */
  lemma BatchesAreGapless(log: seq<Envelope>, actions: seq<Action>, limits: Limits, id: nat)
    requires Numbered(log)
    ensures var s := Execute(Init(log), actions, limits);
      id in s.consumers && (s.consumers[id].Draining? || s.consumers[id].Waiting?) ==>
        var c := s.consumers[id];
        && (c.applied != [] ==> c.after + |c.applied| <= |s.log| && c.applied == s.log[c.after..c.after + |c.applied|])
        && (forall i :: 0 <= i < |c.applied| ==> c.applied[i].cursor == c.after + 1 + i)
  {
    ExecuteKeepsGood(Init(log), actions, limits);
    var s := Execute(Init(log), actions, limits);
    if id in s.consumers {
      assert GoodConsumer(s, s.consumers[id]);
    }
  }

  /** No wake-up is lost: a consumer that waits while the log is ahead of it has
      its watch flag set, or some push is still between append and signal. */
  lemma NoWakeUpIsLost(log: seq<Envelope>, actions: seq<Action>, limits: Limits, id: nat)
    requires Numbered(log)
    ensures var s := Execute(Init(log), actions, limits);
      id in s.consumers && s.consumers[id].Waiting? && s.consumers[id].last < |s.log| ==>
        Enabled(s, Wake(id)) || s.unsignalled > 0
  {
    ExecuteKeepsGood(Init(log), actions, limits);
    var s := Execute(Init(log), actions, limits);
    if id in s.consumers {
      assert GoodConsumer(s, s.consumers[id]);
    }
  }

  /** So when every push has signalled and nothing wakes a consumer, it holds
      everything after its start. */
  lemma QuietMeansCaughtUp(log: seq<Envelope>, actions: seq<Action>, limits: Limits, id: nat)
    requires Numbered(log)
    ensures var s := Execute(Init(log), actions, limits);
      id in s.consumers && s.consumers[id].Waiting? && s.unsignalled == 0 && !Enabled(s, Wake(id))
        && s.consumers[id].after <= |s.log| ==>
        s.consumers[id].applied == s.log[s.consumers[id].after..]
  {
    NoWakeUpIsLost(log, actions, limits, id);
    ExecuteKeepsGood(Init(log), actions, limits);
    var s := Execute(Init(log), actions, limits);
    if id in s.consumers && s.consumers[id].Waiting? {
      var c := s.consumers[id];
      assert GoodConsumer(s, c);
      if c.applied != [] && c.last >= |s.log| {
        assert s.log[c.after..|s.log|] == s.log[c.after..];
      }
    }
  }
}
