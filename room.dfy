/** One room (internal/service/room/room.go) and the subscriber channels it
    pushes snapshots into. Each method runs as if under the room's lock. */
module Rooms {
  import opened Dto
  import opened Transitions

  /** The buffer size of every subscriber channel. */
  const Capacity: nat := 10

  /** What a receive on a channel yields: a buffered snapshot, the end of a
      closed and drained channel (`ok == false`), or nothing yet (a receive
      that would block). */
  datatype Received = Delivered(state: State) | Drained | WouldBlock

  /** A buffered channel of snapshots. */
  class Channel {
    const capacity: nat
    var buffer: seq<State>
    var closed: bool
    /** The room that made the channel; a proof device that keeps the channel
        sets of distinct rooms apart. */
    ghost const owner: object

    constructor (capacity: nat, ghost owner: object)
      ensures this.capacity == capacity && buffer == [] && !closed && this.owner == owner
    {
      this.capacity := capacity;
      buffer := [];
      closed := false;
      this.owner := owner;
    }

    /** A plain send where the buffer is known to have room, so it does not
        block. Sending on a closed channel panics. */
    method Send(st: State)
      requires !closed && |buffer| < capacity
      modifies this
      ensures buffer == old(buffer) + [st] && !closed
    {
      buffer := buffer + [st];
    }

    /** A send inside `select` with a `default` branch: it goes through
        exactly when the buffer has room. */
    method TrySend(st: State) returns (sent: bool)
      requires !closed
      modifies this
      ensures sent <==> |old(buffer)| < capacity
      ensures buffer == (if sent then old(buffer) + [st] else old(buffer))
      ensures !closed
    {
      sent := |buffer| < capacity;
      if sent {
        buffer := buffer + [st];
      }
    }

    /** Closing a channel twice panics, hence the precondition. */
    method Close()
      requires !closed
      modifies this
      ensures closed && buffer == old(buffer)
    {
      closed := true;
    }

    /** The consumer's receive: buffered snapshots come out in the order they
        were sent, even after the channel is closed. */
    method Receive() returns (r: Received)
      modifies this
      ensures old(buffer) != [] ==> r == Delivered(old(buffer)[0]) && buffer == old(buffer)[1..]
      ensures old(buffer) == [] ==> buffer == [] && r == (if closed then Drained else WouldBlock)
      ensures closed == old(closed)
    {
      if buffer != [] {
        r := Delivered(buffer[0]);
        buffer := buffer[1..];
      } else if closed {
        r := Drained;
      } else {
        r := WouldBlock;
      }
    }
  }

  /** A channel a room may still send into. */
  ghost predicate Open(c: Channel)
    reads c
  {
    !c.closed && c.capacity == Capacity && |c.buffer| <= c.capacity
  }

  class Room {
    const id: RoomId
    var queue: seq<Video>
    var current: Option<Video>
    var playing: bool
    var basePos: real
    var startedAt: Time
    var subscribers: map<int, Channel>
    var nextSubID: int
    const createAt: Time

    /** The room `CreateRoom` inserts. */
    constructor (id: RoomId, now: Time)
      ensures this.id == id && createAt == now
      ensures Pb() == Fresh && subscribers == map[] && nextSubID == 1
      ensures Valid()
    {
      this.id := id;
      queue := [];
      current := None;
      playing := false;
      basePos := 0.0;
      startedAt := 0.0;
      subscribers := map[];
      nextSubID := 1;
      createAt := now;
    }

    /** The playback fields as a value. */
    function Pb(): Playback
      reads this`queue, this`current, this`playing, this`basePos, this`startedAt
    {
      Playback(queue, current, playing, basePos, startedAt)
    }

    /** The room invariant: the playback invariant; every subscriber id was
        handed out before (so `nextSubID` is fresh); every channel in the map
        is open and within its capacity; no channel is registered twice. */
    ghost predicate Valid()
      reads this, subscribers.Values
    {
      Consistent(Pb()) && Linked()
    }

    /** The subscriber half of the invariant: every subscriber id was handed
        out before (so `nextSubID` is fresh); every channel in the map is
        open and within its capacity; no channel is registered twice. */
    ghost predicate Linked()
      reads this`subscribers, this`nextSubID, subscribers.Values
    {
      && 1 <= nextSubID
      && (forall k :: k in subscribers ==> 1 <= k < nextSubID && Open(subscribers[k]))
      && (forall c :: c in subscribers.Values ==> c.owner == this)
      && (forall k, k' :: k in subscribers && k' in subscribers && k != k' ==> subscribers[k] != subscribers[k'])
    }

    /** The snapshot the room reports at `now`: its own fields, a copy of the
        queue, and the derived position. */
    function StateAt(now: Time): (s: State)
      reads this`queue, this`current, this`playing, this`basePos, this`startedAt
      ensures s.id == id && s.current == current && s.queue == queue && s.playing == playing
      ensures s.updatedAt == now && s.position == Position(Pb(), now)
      ensures !playing ==> s.position == basePos
      ensures playing ==> s.position == basePos + (now - startedAt)
    {
      State(id, current, queue, playing, Position(Pb(), now), now)
    }

    /** The summary line of the room listing. */
    function Info(): (i: RoomInfo)
      reads this
      ensures i.id == id && i.queue == queue && i.current == current && i.playing == playing
      ensures i.subscribers == |subscribers|
    {
      RoomInfo(id, queue, current, playing, |subscribers|)
    }

    /** The buffers of the channels in `m`, as a value. */
    ghost function Buffers(m: map<int, Channel>): (b: map<int, seq<State>>)
      reads m.Values
      ensures b.Keys == m.Keys
    {
      map k | k in m :: m[k].buffer
    }

    /** Whether this room is reaped by a cleanup tick at `now`: nobody is
        subscribed and it was created more than `idle` seconds ago. */
    predicate Expired(now: Time, idle: real)
      reads this`subscribers
    {
      |subscribers| == 0 && now - createAt > idle
    }

    /** The effect of one broadcast of `st`, relative to the subscriber map
        `before` it started from: a subscriber whose buffer had room stays,
        with `st` appended behind what it already held; a subscriber whose
        buffer was full is removed and its channel closed, its buffer left as
        it was. */
    twostate predicate FannedOut(before: map<int, Channel>, st: State)
      reads this, before.Values
    {
      && subscribers.Keys <= before.Keys
      && forall k :: k in before ==>
           && (k in subscribers <==> |old(before[k].buffer)| < before[k].capacity)
           && (k in subscribers ==> subscribers[k] == before[k])
           && before[k].buffer == old(before[k].buffer) + (if k in subscribers then [st] else [])
           && before[k].closed == (k !in subscribers)
    }

    /** The broadcast loop's invariant once the subscribers in `todo` are
        still to be visited. */
    ghost predicate Fanning(before: map<int, Channel>, sent: map<int, seq<State>>, todo: set<int>, st: State)
      reads this, before.Values
    {
      && todo <= subscribers.Keys <= before.Keys == sent.Keys
      && (forall k, k' :: k in before && k' in before && k != k' ==> before[k] != before[k'])
      && (forall c :: c in subscribers.Values ==> c.owner == this)
      && forall k :: k in before ==>
           && |sent[k]| <= Capacity == before[k].capacity
           && (k !in todo ==> (k in subscribers <==> |sent[k]| < Capacity))
           && (k in subscribers ==> subscribers[k] == before[k])
           && before[k].buffer == sent[k] + (if k in subscribers && k !in todo then [st] else [])
           && before[k].closed == (k !in subscribers)
    }

    /** One round of the broadcast loop: try to send `st` to subscriber `k`;
        if its buffer is full, remove it from the map and close its channel. */
    method Offer(ghost before: map<int, Channel>, ghost sent: map<int, seq<State>>, ghost todo: set<int>,
                 k: int, st: State)
      requires k in todo && Fanning(before, sent, todo, st)
      modifies this`subscribers, subscribers[k]
      ensures Fanning(before, sent, todo - {k}, st)
    {
      var ch := subscribers[k];
      assert forall k' :: k' in before && k' != k ==> before[k'] != ch;
      var ok := ch.TrySend(st);
      if !ok {
        subscribers := subscribers - {k};
        ch.Close();
      }
    }

    /** Send `st` to every subscriber, evicting each one whose buffer is full.
        The map is visited in no particular order, as Go's map iteration is;
        every order ends in the same state. */
    method Broadcast(st: State)
      requires Valid()
      modifies this`subscribers, subscribers.Values
      ensures Valid()
      ensures FannedOut(old(subscribers), st)
      ensures subscribers.Keys <= old(subscribers.Keys)
      ensures Pb() == old(Pb()) && nextSubID == old(nextSubID)
    {
      ghost var before := subscribers;
      ghost var sent := Buffers(subscribers);
      FanOut(before, sent, st);
      forall k | k in before
        ensures sent[k] == old(before[k].buffer)
      {
      }
      Fanned(before, sent, st);
    }

    /** The broadcast loop: visit every subscriber once, in any order. */
    method FanOut(ghost before: map<int, Channel>, ghost sent: map<int, seq<State>>, st: State)
      requires Fanning(before, sent, subscribers.Keys, st)
      modifies this`subscribers, before.Values
      ensures Fanning(before, sent, {}, st)
    {
      var todo := subscribers.Keys;
      var done := false;
      while !done
        invariant Fanning(before, sent, todo, st)
        invariant done ==> forall k :: k !in todo
        decreases |todo|, !done
      {
        if k :| k in todo {
          Offer(before, sent, todo, k, st);
          todo := todo - {k};
        } else {
          done := true;
        }
      }
    }

    /** Once every subscriber has been visited, the subscribers that stayed
        are all open and within capacity again. */
    lemma Fanned(before: map<int, Channel>, sent: map<int, seq<State>>, st: State)
      requires Fanning(before, sent, {}, st)
      requires 1 <= nextSubID && forall k :: k in before ==> 1 <= k < nextSubID
      ensures Linked()
    {
    }

    /** Register a new subscriber: it gets the next id and a fresh channel
        holding one snapshot, the current state. */
    method Subscribe(now: Time) returns (userID: int, ch: Channel)
      requires Valid()
      modifies this`subscribers, this`nextSubID
      ensures Valid()
      ensures userID == old(nextSubID) && nextSubID == userID + 1
      ensures userID !in old(subscribers)
      ensures fresh(ch) && subscribers == old(subscribers)[userID := ch]
      ensures ch.buffer == [StateAt(now)] && !ch.closed && ch.capacity == Capacity
    {
      userID := nextSubID;
      nextSubID := nextSubID + 1;
      ch := new Channel(Capacity, this);
      subscribers := subscribers[userID := ch];
      ch.Send(StateAt(now));
    }

    /** Remove one subscriber and close its channel. `empty` tells the caller
        the map became empty, which is when the room asks to be removed. */
    method Unsubscribe(userID: int) returns (out: Outcome, empty: bool)
      requires Valid()
      modifies this`subscribers, if userID in subscribers then {subscribers[userID]} else {}
      ensures Valid()
      ensures userID !in old(subscribers) ==>
        out == Err(UserNotFound) && Message(out.error) == "user does not exist" && !empty
        && subscribers == old(subscribers)
      ensures userID in old(subscribers) ==>
        && out == Ok
        && subscribers == old(subscribers) - {userID}
        && old(subscribers[userID]).closed
        && old(subscribers[userID]).buffer == old(subscribers[userID].buffer)
        && (empty <==> subscribers == map[])
    {
      if userID !in subscribers {
        out, empty := Err(UserNotFound), false;
        return;
      }
      var ch := subscribers[userID];
      subscribers := subscribers - {userID};
      ch.Close();
      out := Ok;
      empty := |subscribers| == 0;
    }

    /** Empty the subscriber map, closing every channel on the way; buffered
        snapshots stay in the channels for their consumers to drain. This is
        the second half of removing a room. */
    method CloseAll()
      requires Valid()
      modifies this`subscribers, subscribers.Values
      ensures Valid()
      ensures forall k :: k !in subscribers
      ensures forall k :: k in old(subscribers) ==>
        old(subscribers)[k].closed && old(subscribers)[k].buffer == old(subscribers[k].buffer)
    {
      ghost var before := subscribers;
      ghost var kept := Buffers(subscribers);
      var done := false;
      while !done
        invariant Closing(before, kept)
        invariant done ==> forall k :: k !in subscribers
        decreases |subscribers|, !done
      {
        if userID :| userID in subscribers {
          Drop(before, kept, userID);
        } else {
          done := true;
        }
      }
      forall k | k in before
        ensures kept[k] == old(before[k].buffer)
      {
      }
    }

    /** The invariant of the closing loop: the subscribers still registered
        are some of those in `before`, exactly the removed ones are closed,
        every buffer is as `kept` recorded it, and the room invariant holds. */
    ghost predicate Closing(before: map<int, Channel>, kept: map<int, seq<State>>)
      reads this, before.Values, subscribers.Values
    {
      && before.Keys == kept.Keys
      && (forall k, k' :: k in before && k' in before && k != k' ==> before[k] != before[k'])
      && (forall k :: k in subscribers ==> k in before && subscribers[k] == before[k])
      && (forall k :: k in before ==> before[k].buffer == kept[k] && (before[k].closed <==> k !in subscribers))
      && Linked()
    }

    /** One round of the closing loop: remove subscriber `userID` and close
        its channel. */
    method Drop(ghost before: map<int, Channel>, ghost kept: map<int, seq<State>>, userID: int)
      requires userID in subscribers && Closing(before, kept)
      modifies this`subscribers, subscribers[userID]
      ensures Closing(before, kept)
      ensures subscribers == old(subscribers) - {userID}
    {
      var ch := subscribers[userID];
      assert forall k :: k in before && k != userID ==> before[k] != ch;
      subscribers := subscribers - {userID};
      ch.Close();
    }

    /** What a command did, given the step it was supposed to take: the
        returned error, the new playback fields, and either a broadcast of
        the new snapshot or no change at all. */
    twostate predicate Did(before: map<int, Channel>, s: Step, now: Time, out: Outcome)
      reads this, before.Values
    {
      && out == OutcomeOf(s)
      && nextSubID == old(nextSubID)
      && subscribers.Keys <= before.Keys
      && match s
         case Changed(after) => Pb() == after && FannedOut(before, StateAt(now))
         case _ =>
           && Pb() == old(Pb()) && subscribers == before
           && forall k :: k in before ==>
                before[k].buffer == old(before[k].buffer) && before[k].closed == old(before[k].closed)
    }

    method Play(now: Time) returns (out: Outcome)
      requires Valid()
      modifies this, subscribers.Values
      ensures Valid()
      ensures Did(old(subscribers), Transitions.Play(old(Pb()), now), now, out)
    {
      ghost var s := Transitions.Play(Pb(), now);
      if playing {
        return Ok;
      }
      if current.None? {
        if |queue| == 0 {
          return Err(EmptyQueue);
        }
        assert s.after == Pb().(basePos := 0.0, current := Some(queue[0]), queue := queue[1..],
                                startedAt := now, playing := true);
        basePos := 0.0;
        current := Some(queue[0]);
        queue := queue[1..];
      } else {
        assert s.after == Pb().(startedAt := now, playing := true);
      }
      startedAt := now;
      playing := true;
      Broadcast(StateAt(now));
      out := Ok;
    }

    method Pause(now: Time) returns (out: Outcome)
      requires Valid()
      modifies this, subscribers.Values
      ensures Valid()
      ensures Did(old(subscribers), Transitions.Pause(old(Pb()), now), now, out)
    {
      ghost var s := Transitions.Pause(Pb(), now);
      if !playing {
        return Ok;
      }
      if current.None? {
        return Ok;
      }
      assert s.after == Pb().(basePos := basePos + (now - startedAt), startedAt := now, playing := false);
      var pos := basePos + (now - startedAt);
      basePos := pos;
      startedAt := now;
      playing := false;
      Broadcast(StateAt(now));
      out := Ok;
    }

    method Next(now: Time) returns (out: Outcome)
      requires Valid()
      modifies this, subscribers.Values
      ensures Valid()
      ensures Did(old(subscribers), Transitions.Next(old(Pb()), now), now, out)
    {
      ghost var s := Transitions.Next(Pb(), now);
      if |queue| == 0 {
        assert s.after == Pb().(basePos := 0.0, current := None, startedAt := now, playing := false);
        basePos := 0.0;
        current := None;
        startedAt := now;
        playing := false;
        Broadcast(StateAt(now));
        return Ok;
      }
      assert s.after == Pb().(basePos := 0.0, current := Some(queue[0]), queue := queue[1..],
                              startedAt := now, playing := true);
      basePos := 0.0;
      current := Some(queue[0]);
      queue := queue[1..];
      startedAt := now;
      playing := true;
      Broadcast(StateAt(now));
      out := Ok;
    }

    method AddVideo(video: Video, now: Time) returns (out: Outcome)
      requires Valid()
      modifies this, subscribers.Values
      ensures Valid()
      ensures Did(old(subscribers), Enqueue(old(Pb()), video), now, out)
    {
      assert Enqueue(Pb(), video).after == Pb().(queue := queue + [video]);
      queue := queue + [video];
      Broadcast(StateAt(now));
      out := Ok;
    }

    method DeleteVideo(idx: int, now: Time) returns (out: Outcome)
      requires Valid()
      modifies this, subscribers.Values
      ensures Valid()
      ensures Did(old(subscribers), RemoveAt(old(Pb()), idx), now, out)
    {
      if idx < 0 || idx >= |queue| {
        return Err(IndexOutOfRange);
      }
      assert RemoveAt(Pb(), idx).after == Pb().(queue := queue[..idx] + queue[idx + 1..]);
      queue := queue[..idx] + queue[idx + 1..];
      Broadcast(StateAt(now));
      out := Ok;
    }

    method Seek(pos: real, now: Time) returns (out: Outcome)
      requires Valid()
      modifies this, subscribers.Values
      ensures Valid()
      ensures Did(old(subscribers), Transitions.Seek(old(Pb()), pos, now), now, out)
    {
      if current.None? {
        return Err(NoCurrentTrack);
      }
      ghost var s := Transitions.Seek(Pb(), pos, now);
      var target := pos;
      if target < 0.0 {
        target := 0.0;
      }
      if target > current.value.duration as real {
        target := current.value.duration as real;
      }
      assert target == Clamp(pos, current.value.duration);
      assert s.after == if playing then Pb().(basePos := target, startedAt := now) else Pb().(basePos := target);
      basePos := target;
      if playing {
        startedAt := now;
      }
      Broadcast(StateAt(now));
      out := Ok;
    }
  }
}
