/** The active session and the parked ones (`src/app/runtime.rs`,
    `SessionRuntime` in `src/session.rs`). */
module ParkedSessions {
  import opened Wrappers

  /** The fields that decide whether a session may be stopped, and when. */
  datatype Runtime = Runtime(busy: bool, activeTask: bool, pendingApproval: bool, parkedAt: nat) {
    predicate Idle() {
      !busy && !activeTask && !pendingApproval
    }
  }

  type Parked = map<string, Runtime>

  // ------------------------------------------------------------ specification

  predicate NoneIdle(parked: Parked) {
    forall id :: id in parked ==> !parked[id].Idle()
  }

  /** Idle, and parked no later than any other idle session. */
  predicate IsVictim(parked: Parked, id: string) {
    id in parked && parked[id].Idle() && forall other :: other in parked && parked[other].Idle() ==> parked[id].parkedAt <= parked[other].parkedAt
  }

  /** `after` is what eviction down to `capacity` may leave of `before`: whatever
      went was idle and parked no later than the idle sessions that stay, and
      no more went than had to. */
  ghost predicate Evicted(before: Parked, after: Parked, capacity: nat) {
    && (forall id :: id in after ==> id in before && after[id] == before[id])
    && (forall id :: id in before && id !in after ==> before[id].Idle())
    && (forall gone, kept :: gone in before && gone !in after && kept in after && after[kept].Idle() ==>
      before[gone].parkedAt <= after[kept].parkedAt)
    && (|after| <= capacity || NoneIdle(after))
    && (after == before || |after| >= capacity)
  }

  /** What fits is left alone. */
  lemma NoOverflowNoEviction(before: Parked, after: Parked, capacity: nat)
    requires Evicted(before, after, capacity) && |before| <= capacity
    ensures after == before
  {
    assert after.Keys <= before.Keys;
    assert |before.Keys| == |before| && |after.Keys| == |after|;
    assert before.Keys == after.Keys + (before.Keys - after.Keys);
  }

  lemma RemoveOne(parked: Parked, id: string)
    requires id in parked
    ensures |parked - {id}| == |parked| - 1
  {
    assert (parked - {id}).Keys == parked.Keys - {id};
    assert |parked.Keys| == |parked| && |(parked - {id}).Keys| == |parked - {id}|;
  }

  lemma InsertSize(parked: Parked, id: string, r: Runtime)
    ensures |parked[id := r]| == |parked| + (if id in parked then 0 else 1)
  {
    assert parked[id := r].Keys == parked.Keys + {id};
    assert |parked.Keys| == |parked| && |parked[id := r].Keys| == |parked[id := r]|;
  }

  /** The least recently parked idle session; the order of the map decides
      between sessions parked at the same time. */
  method FindVictim(parked: Parked) returns (victim: Option<string>)
    ensures victim.Some? ==> IsVictim(parked, victim.value)
    ensures victim.None? ==> NoneIdle(parked)
  {
    victim := None;
    var rest := parked;
    while rest != map[]
      invariant forall id :: id in rest ==> id in parked && rest[id] == parked[id]
      invariant victim.None? ==> forall id :: id in parked && parked[id].Idle() ==> id in rest
      invariant victim.Some? ==> victim.value in parked && parked[victim.value].Idle()
      invariant victim.Some? ==>
        forall id :: id in parked && parked[id].Idle() && id !in rest ==> parked[victim.value].parkedAt <= parked[id].parkedAt
      decreases |rest|
    {
      var id :| id in rest;
      if rest[id].Idle() && (victim.None? || rest[id].parkedAt < parked[victim.value].parkedAt) {
        victim := Some(id);
      }
      RemoveOne(rest, id);
      rest := rest - {id};
    }
  }

  lemma EvictOne(before: Parked, now: Parked, id: string, capacity: nat)
    requires Evictable(before, now) && IsVictim(now, id) && |now| > capacity
    ensures Evictable(before, now - {id}) && |now - {id}| >= capacity
  {
    RemoveOne(now, id);
  }

  /** Eviction under way. */
  ghost predicate Evictable(before: Parked, now: Parked) {
    && (forall id :: id in now ==> id in before && now[id] == before[id])
    && (forall id :: id in before && id !in now ==> before[id].Idle())
    && (forall gone, kept :: gone in before && gone !in now && kept in now && now[kept].Idle() ==>
      before[gone].parkedAt <= now[kept].parkedAt)
  }

  class App {
    var activeSession: string
    var current: Runtime
    var background: Parked
    var capacity: nat
    /** The sessions stopped so far, as they were when they were stopped. */
    ghost var stopped: seq<Runtime>

    constructor (session: string, runtime: Runtime, capacity: nat)
      ensures Valid() && activeSession == session && current == runtime && background == map[] && this.capacity == capacity
      ensures stopped == []
    {
      activeSession, current, background, this.capacity := session, runtime, map[], capacity;
      stopped := [];
    }

    /** The active session is not parked, and nothing busy was stopped. */
    ghost predicate Valid()
      reads this
    {
      && activeSession !in background
      && forall i :: 0 <= i < |stopped| ==> stopped[i].Idle()
    }

    /** Stops idle sessions until the rest fits. */
    method EvictBackgroundOverflow()
      requires forall i :: 0 <= i < |stopped| ==> stopped[i].Idle()
      modifies this`background, this`stopped
      ensures Evicted(old(background), background, capacity)
      ensures forall i :: 0 <= i < |stopped| ==> stopped[i].Idle()
      ensures |old(background)| <= capacity ==> background == old(background) && stopped == old(stopped)
      ensures |stopped| - |old(stopped)| == |old(background)| - |background| && old(stopped) <= stopped
    {
      ghost var before, calm := background, |background| <= capacity;
      while |background| > capacity
        invariant Evictable(before, background)
        invariant background == before || |background| >= capacity
        invariant calm ==> background == before && stopped == old(stopped)
        invariant |stopped| - |old(stopped)| == |before| - |background| && old(stopped) <= stopped
        invariant forall i :: 0 <= i < |stopped| ==> stopped[i].Idle()
        decreases |background|
      {
        var victim := FindVictim(background);
        if victim.None? {
          break;
        }
        EvictOne(before, background, victim.value, capacity);
        RemoveOne(background, victim.value);
        stopped := stopped + [background[victim.value]];
        background := background - {victim.value};
      }
    }

    /** If `id` is not parked and the sessions are at capacity, stops one. */
    method MakeRoom(id: string) returns (ok: bool)
      requires Valid()
      modifies this`background, this`stopped
      ensures Valid() && old(stopped) <= stopped
      ensures ok <==> !Refuses(old(background), id, capacity)
      ensures if ok then RoomFor(old(background), id, background, capacity) else background == old(background) && stopped == old(stopped)
    {
      if id in background || |background| < capacity {
        return true;
      }
      var victim := FindVictim(background);
      if victim.None? {
        return false;
      }
      RemoveOne(background, victim.value);
      stopped := stopped + [background[victim.value]];
      background := background - {victim.value};
      ok := true;
    }

    /** Switches to `id`, whose runtime is parked or built anew as `built`. */
    method ActivateSession(id: string, built: Runtime, now: nat) returns (r: Result<(), string>, ghost room: Parked)
      requires Valid()
      modifies this`activeSession, this`current, this`background, this`stopped
      ensures Valid() && old(stopped) <= stopped
      ensures r.Err? <==> id != old(activeSession) && Refuses(old(background), id, capacity)
      ensures r.Err? || id == old(activeSession) ==>
        activeSession == old(activeSession) && current == old(current) && background == old(background) && stopped == old(stopped)
      ensures r.Ok? ==> activeSession == id
      ensures r.Ok? && id != old(activeSession) ==>
        && RoomFor(old(background), id, room, capacity)
        && current == (if id in room then room[id] else built)
        && Evicted((room - {id})[old(activeSession) := old(current).(parkedAt := now)], background, capacity)
      ensures |old(background)| <= capacity ==> |background| <= capacity
    {
      room := background;
      if id == activeSession {
        return Ok(()), room;
      }
      var ok := MakeRoom(id);
      if !ok {
        return Err("background sessions are at capacity and all running"), room;
      }
      room := background;
      SwapFits(old(background), id, room, activeSession, current.(parkedAt := now), capacity);
      var target := if id in background then background[id] else built;
      background := (background - {id})[activeSession := current.(parkedAt := now)];
      current := target;
      EvictBackgroundOverflow();
      activeSession := id;
      r := Ok(());
    }

    /** A session becomes busy or idle, asks or is answered. */
    method Work(id: string, busy: bool, activeTask: bool, pendingApproval: bool)
      requires Valid()
      modifies this`current, this`background
      ensures Valid() && background.Keys == old(background.Keys) && |background| == |old(background)|
      ensures forall other :: other in background && other != id ==> background[other] == old(background)[other]
      ensures id in background ==> background[id] == Runtime(busy, activeTask, pendingApproval, old(background)[id].parkedAt)
      ensures current == if id == activeSession then Runtime(busy, activeTask, pendingApproval, old(current).parkedAt) else old(current)
    {
      if id == activeSession {
        current := Runtime(busy, activeTask, pendingApproval, current.parkedAt);
      } else if id in background {
        InsertSize(background, id, Runtime(busy, activeTask, pendingApproval, background[id].parkedAt));
        background := background[id := Runtime(busy, activeTask, pendingApproval, background[id].parkedAt)];
      }
    }

    /** Any sequence of activations, evictions and changes of work keeps the
        parked sessions within capacity; `Valid` has the rest. */
    method Operate(ops: seq<Op>)
      requires Valid() && |background| <= capacity
      modifies this
      ensures Valid() && |background| <= capacity && capacity == old(capacity)
      ensures old(stopped) <= stopped
    {
      for n := 0 to |ops|
        invariant Valid() && |background| <= capacity && capacity == old(capacity)
        invariant old(stopped) <= stopped
      {
        match ops[n] {
          case Activate(id, built, now) =>
            var r, _ := ActivateSession(id, built, now);
          case Evict =>
            EvictBackgroundOverflow();
          case Work(id, busy, activeTask, pendingApproval) =>
            Work(id, busy, activeTask, pendingApproval);
        }
      }
    }
  }

  datatype Op = Activate(id: string, built: Runtime, now: nat) | Evict | Work(id: string, busy: bool, activeTask: bool, pendingApproval: bool)

  /** No room can be made for a session that is not parked. */
  predicate Refuses(parked: Parked, id: string, capacity: nat) {
    id !in parked && |parked| >= capacity && NoneIdle(parked)
  }

  /** `room` has a place for the session that will be parked: the target's own,
      a free one, or that of the least recently parked idle session. */
  ghost predicate RoomFor(parked: Parked, id: string, room: Parked, capacity: nat) {
    if id in parked || |parked| < capacity then room == parked
    else exists victim :: IsVictim(parked, victim) && room == parked - {victim}
  }

  lemma SwapFits(parked: Parked, id: string, room: Parked, previous: string, r: Runtime, capacity: nat)
    requires RoomFor(parked, id, room, capacity)
    ensures |parked| <= capacity ==> |(room - {id})[previous := r]| <= capacity
  {
    if id in parked {
      RemoveOne(parked, id);
    } else {
      assert room - {id} == room;
      if |parked| >= capacity {
        var victim :| IsVictim(parked, victim) && room == parked - {victim};
        RemoveOne(parked, victim);
      }
    }
    InsertSize(room - {id}, previous, r);
  }
}
