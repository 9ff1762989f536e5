/** `subscribe_from` under concurrency (`src/bridge.rs`): every interleaving of
    the pushing tasks' ring append and broadcast with a consumer's live
    subscription, ring snapshot and deduplicated receives. */
module LiveChannel {
  import opened Wrappers
  import opened Protocol
  import opened EventBridge

  datatype Limits = Limits(maxEvents: nat, maxBytes: nat, capacity: nat, pushers: nat)

  datatype Consumer =
    | Away                                         // has not subscribed yet
    | Subscribed(queue: seq<Envelope>)             // live receiver created
    | Following(applied: seq<Envelope>, last: nat, queue: seq<Envelope>)
    | Lagged                                       // the live channel overran it
    | Resyncing                                    // its cursor was evicted

  /** `inFlight` holds the envelopes appended to the ring whose broadcast, which
      happens outside the lock, is still to come; `sent` counts broadcasts. */
  datatype State = State(log: seq<Envelope>, inFlight: seq<Envelope>, sent: nat, consumer: Consumer)

  datatype Action =
    | Append(sessionId: string, event: Event)
    | Broadcast(index: nat)
    | Subscribe
    | Snapshot
    | Receive

  function Init(log: seq<Envelope>): State {
    State(log, [], |log|, Away)
  }

  predicate Enabled(s: State, a: Action, limits: Limits) {
    match a
    case Append(_, _) => |s.inFlight| < limits.pushers
    case Broadcast(index) => index < |s.inFlight|
    case Subscribe => s.consumer.Away?
    case Snapshot => s.consumer.Subscribed?
    case Receive => s.consumer.Following? && s.consumer.queue != []
  }

  /** The channel keeps the newest `capacity` messages of a receiver; one that
      has lost any gets an error instead of the next message. */
  function Deliver(c: Consumer, envelope: Envelope, capacity: nat): Consumer {
    match c
    case Subscribed(queue) => if |queue| < capacity then Subscribed(queue + [envelope]) else Lagged
    case Following(applied, last, queue) =>
      if |queue| < capacity then Following(applied, last, queue + [envelope]) else Lagged
    case _ => c
  }

  /** The consumer's rule: skip cursors it has already seen. */
  function Consume(c: Consumer): Consumer
    requires c.Following? && c.queue != []
  {
    var envelope := c.queue[0];
    if envelope.cursor <= c.last then Following(c.applied, c.last, c.queue[1..])
    else Following(c.applied + [envelope], envelope.cursor, c.queue[1..])
  }

  function Last(replay: seq<Envelope>, after: nat): nat {
    if replay == [] then after else replay[|replay| - 1].cursor
  }

  function Apply(s: State, a: Action, limits: Limits, after: nat): State
    requires Enabled(s, a, limits)
  {
    match a
    case Append(sessionId, event) =>
      var envelope := Envelope(|s.log| + 1, sessionId, event);
      s.(log := s.log + [envelope], inFlight := s.inFlight + [envelope])
    case Broadcast(i) =>
      s.(inFlight := s.inFlight[..i] + s.inFlight[i + 1..], sent := s.sent + 1,
         consumer := Deliver(s.consumer, s.inFlight[i], limits.capacity))
    case Subscribe => s.(consumer := Consumer.Subscribed([]))
    case Snapshot =>
      var owed := Owed(s.log, |Retained(s.log, limits.maxEvents, limits.maxBytes)|, after);
      s.(consumer := match owed
        case Err(_) => Resyncing
        case Ok(replay) => Following(replay, Last(replay, after), s.consumer.queue))
    case Receive => s.(consumer := Consume(s.consumer))
  }

  /** A run; a step that is not enabled does nothing. */
  function Execute(s: State, actions: seq<Action>, limits: Limits, after: nat): State
    decreases |actions|
  {
    if actions == [] then s
    else Execute(Step(s, actions[0], limits, after), actions[1..], limits, after)
  }

  function Step(s: State, a: Action, limits: Limits, after: nat): State {
    if Enabled(s, a, limits) then Apply(s, a, limits, after) else s
  }

  // --------------------------------------------------------------- invariant

  /** The receiver holds the newest broadcasts, in cursor order. */
  predicate Holds(s: State, queue: seq<Envelope>) {
    |queue| <= s.sent <= |s.log| && queue == s.log[s.sent - |queue|..s.sent]
  }

  /** `applied` is the log after `after`, up to `last`. */
  predicate Applied(s: State, applied: seq<Envelope>, last: nat, after: nat) {
    && last == after + |applied|
    && (applied != [] ==> last <= |s.log| && applied == s.log[after..last])
  }

  predicate Good(s: State, after: nat) {
    && Numbered(s.log)
    && s.sent <= |s.log| <= s.sent + 1
    && s.inFlight == s.log[s.sent..]
    && match s.consumer
      case Subscribed(queue) => Holds(s, queue)
      case Following(applied, last, queue) =>
        Holds(s, queue) && Applied(s, applied, last, after) && s.sent - |queue| <= last
      case _ => true
  }

  lemma SliceSnoc(log: seq<Envelope>, queue: seq<Envelope>, n: nat)
    requires |queue| <= n < |log| && queue == log[n - |queue|..n]
    ensures queue + [log[n]] == log[n - |queue|..n + 1]
  {
  }

  lemma SliceStays(log: seq<Envelope>, x: Envelope, i: nat, j: nat)
    requires i <= j <= |log|
    ensures (log + [x])[i..j] == log[i..j] && (log + [x])[i..] == log[i..] + [x]
  {
  }

  lemma BroadcastKeepsGood(s: State, limits: Limits, after: nat)
    requires Good(s, after) && |s.log| == s.sent + 1
    ensures Good(Apply(s, Broadcast(0), limits, after), after)
  {
    var t := Apply(s, Broadcast(0), limits, after);
    assert s.inFlight == [s.log[s.sent]];
    assert t.inFlight == [] == t.log[t.sent..];
    match s.consumer
    case Subscribed(queue) => SliceSnoc(s.log, queue, s.sent);
    case Following(_, _, queue) => SliceSnoc(s.log, queue, s.sent);
    case _ =>
  }

  lemma GrowthKeeps(s: State, t: State, x: Envelope, after: nat)
    requires t.log == s.log + [x] && t.sent == s.sent
    ensures forall queue :: Holds(s, queue) ==> Holds(t, queue)
    ensures forall applied, last :: Applied(s, applied, last, after) ==> Applied(t, applied, last, after)
  {
    forall queue | Holds(s, queue) ensures Holds(t, queue) {
      SliceStays(s.log, x, s.sent - |queue|, s.sent);
    }
    forall applied, last | Applied(s, applied, last, after) ensures Applied(t, applied, last, after) {
      if applied != [] {
        SliceStays(s.log, x, after, last);
      }
    }
  }

  lemma AppendKeepsGood(s: State, sessionId: string, event: Event, limits: Limits, after: nat)
    requires Good(s, after) && s.inFlight == [] && Enabled(s, Append(sessionId, event), limits)
    ensures Good(Apply(s, Append(sessionId, event), limits, after), after)
  {
    var x := Envelope(|s.log| + 1, sessionId, event);
    SliceStays(s.log, x, s.sent, s.sent);
    GrowthKeeps(s, Apply(s, Append(sessionId, event), limits, after), x, after);
  }

  lemma ReceiveKeepsGood(s: State, limits: Limits, after: nat)
    requires Good(s, after) && Enabled(s, Receive, limits)
    ensures Good(Apply(s, Receive, limits, after), after)
  {
    var Following(applied, last, queue) := s.consumer;
    var n := s.sent - |queue|;
    assert queue[0] == s.log[n];
    assert queue[1..] == s.log[n + 1..s.sent];
    if queue[0].cursor > last {
      assert last == n;
      if applied != [] {
        assert applied + [s.log[n]] == s.log[after..n + 1];
      }
    }
  }

  lemma SnapshotKeepsGood(s: State, limits: Limits, after: nat)
    requires Good(s, after) && Enabled(s, Snapshot, limits)
    ensures Good(Apply(s, Snapshot, limits, after), after)
  {
    if after <= |s.log| {
      assert s.log[after..|s.log|] == s.log[after..];
    }
  }

  lemma StepKeepsGood(s: State, a: Action, limits: Limits, after: nat)
    requires Good(s, after) && limits.pushers <= 1
    ensures Good(Step(s, a, limits, after), after)
  {
    if Enabled(s, a, limits) {
      match a
      case Append(sessionId, event) => AppendKeepsGood(s, sessionId, event, limits, after);
      case Broadcast(index) => BroadcastKeepsGood(s, limits, after);
      case Subscribe => assert s.log[s.sent..s.sent] == [];
      case Snapshot => SnapshotKeepsGood(s, limits, after);
      case Receive => ReceiveKeepsGood(s, limits, after);
    }
  }

  lemma {:induction false} ExecuteKeepsGood(s: State, actions: seq<Action>, limits: Limits, after: nat)
    requires Good(s, after) && limits.pushers <= 1
    ensures Good(Execute(s, actions, limits, after), after)
    decreases |actions|
  {
    if actions != [] {
      StepKeepsGood(s, actions[0], limits, after);
      ExecuteKeepsGood(Step(s, actions[0], limits, after), actions[1..], limits, after);
    }
  }

  // ---------------------------------------------------------------- theorems

  /** With one pushing task, in every interleaving, a following consumer has
      applied after+1, after+2, ... each once and in order, with the logged
      contents, and once nothing is in flight or queued it has applied all. */
  lemma ExactlyOnceInOrder(log: seq<Envelope>, actions: seq<Action>, limits: Limits, after: nat)
    requires Numbered(log) && limits.pushers <= 1
    ensures var s := Execute(Init(log), actions, limits, after);
      s.consumer.Following? ==>
        var Following(applied, last, queue) := s.consumer;
        && (applied != [] ==> after + |applied| <= |s.log| && applied == s.log[after..after + |applied|])
        && (forall i :: 0 <= i < |applied| ==> applied[i].cursor == after + 1 + i)
        && (s.inFlight == [] && queue == [] && after <= |s.log| ==> applied == s.log[after..])
  {
    assert log[|log|..] == [];
    ExecuteKeepsGood(Init(log), actions, limits, after);
    var s := Execute(Init(log), actions, limits, after);
    if s.consumer.Following? {
      var Following(applied, last, queue) := s.consumer;
      assert s.inFlight == [] ==> s.sent == |s.log|;
      if applied != [] {
        assert s.log[after..|s.log|] == s.log[after..];
      }
    }
  }

  lemma BothAppended(first: Event, second: Event, limits: Limits)
    requires limits.pushers >= 2
    ensures var x, y := Envelope(1, "", first), Envelope(2, "", second);
      Execute(Init([]), [Subscribe, Snapshot, Append("", first), Append("", second)], limits, 0)
        == State([x, y], [x, y], 0, Following([], 0, []))
  {
    var x, y := Envelope(1, "", first), Envelope(2, "", second);
    var s1 := State([], [], 0, Consumer.Subscribed([]));
    var s2 := State([], [], 0, Following([], 0, []));
    var s3 := State([x], [x], 0, Following([], 0, []));
    var s4 := State([x, y], [x, y], 0, Following([], 0, []));
    assert Retained([], limits.maxEvents, limits.maxBytes) == [];
    assert Step(s1, Snapshot, limits, 0) == s2;
    Execute4(Init([]), Subscribe, Snapshot, Append("", first), Append("", second), limits, s1, s2, s3, s4);
  }

  lemma OvertakenDelivery(x: Envelope, y: Envelope, limits: Limits)
    requires limits.capacity >= 2 && x.cursor == 1 && y.cursor == 2
    ensures Execute(State([x, y], [x, y], 0, Following([], 0, [])), [Broadcast(1), Broadcast(0), Receive, Receive], limits, 0)
      == State([x, y], [], 2, Following([y], 2, []))
  {
    var s4 := State([x, y], [x, y], 0, Following([], 0, []));
    var s5 := State([x, y], [x], 1, Following([], 0, [y]));
    var s6 := State([x, y], [], 2, Following([], 0, [y, x]));
    var s7 := State([x, y], [], 2, Following([y], 2, [x]));
    var s8 := State([x, y], [], 2, Following([y], 2, []));
    assert [x, y][..1] + [x, y][2..] == [x] && [] + [y] == [y];
    assert [x][..0] + [x][1..] == [] && [y] + [x] == [y, x];
    Execute4(s4, Broadcast(1), Broadcast(0), Receive, Receive, limits, s5, s6, s7, s8);
  }

  /** The single pusher is needed: with two, the second may broadcast first, and
      the consumer then skips the first event for good. */
  lemma TwoPushersLoseAnEvent(first: Event, second: Event, limits: Limits)
    requires limits.pushers >= 2 && limits.capacity >= 2
    ensures var s := Execute(Init([]), Overtaking(first, second), limits, 0);
      && s.log == [Envelope(1, "", first), Envelope(2, "", second)] && s.inFlight == []
      && s.consumer == Following([Envelope(2, "", second)], 2, [])
  {
    BothAppended(first, second, limits);
    OvertakenDelivery(Envelope(1, "", first), Envelope(2, "", second), limits);
    ExecuteConcat(Init([]), [Subscribe, Snapshot, Append("", first), Append("", second)],
                  [Broadcast(1), Broadcast(0), Receive, Receive], limits, 0);
  }

  function Overtaking(first: Event, second: Event): seq<Action> {
    [Subscribe, Snapshot, Append("", first), Append("", second)] + [Broadcast(1), Broadcast(0), Receive, Receive]
  }

  lemma Execute4(s0: State, a: Action, b: Action, c: Action, d: Action, limits: Limits, s1: State, s2: State, s3: State, s4: State)
    requires Step(s0, a, limits, 0) == s1 && Step(s1, b, limits, 0) == s2
    requires Step(s2, c, limits, 0) == s3 && Step(s3, d, limits, 0) == s4
    ensures Execute(s0, [a, b, c, d], limits, 0) == s4
  {
    assert [a, b, c, d][1..] == [b, c, d] && [b, c, d][1..] == [c, d] && [c, d][1..] == [d] && [d][1..] == [];
    assert Execute(s3, [d], limits, 0) == Execute(s4, [], limits, 0);
    assert Execute(s2, [c, d], limits, 0) == Execute(s3, [d], limits, 0);
    assert Execute(s1, [b, c, d], limits, 0) == Execute(s2, [c, d], limits, 0);
  }

  lemma {:induction false} ExecuteConcat(s: State, a: seq<Action>, b: seq<Action>, limits: Limits, after: nat)
    ensures Execute(s, a + b, limits, after) == Execute(Execute(s, a, limits, after), b, limits, after)
    decreases |a|
  {
    if a == [] {
      assert a + b == b;
    } else {
      ExecuteConcat(Step(s, a[0], limits, after), a[1..], b, limits, after);
      assert (a + b)[1..] == a[1..] + b;
    }
  }
}
