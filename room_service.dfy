/** The room registry (internal/service/room/room_service.go): a map from
    room ids to rooms, and the service calls that look a room up and act on
    it. Every call runs as one atomic step; the clock reading `now` and the
    fresh room id are parameters. */
module Registry {
  import opened Dto
  import opened Transitions
  import opened Rooms

  class ServiceRoom {
    var rooms: map<RoomId, Room>

    /** Every channel of every registered room. */
    ghost function Channels(): set<Channel>
      reads this, rooms.Values
    {
      set id, c | id in rooms && c in rooms[id].subscribers.Values :: c
    }

    /** Each room is filed under its own id and keeps its own invariant. Two
        ids never share a room, since the room records its id, and two rooms
        never share a channel, since a channel records its room. */
    ghost predicate Valid()
      reads this, rooms.Values, Channels()
    {
      Filed() && forall id :: id in rooms ==> rooms[id].Valid()
    }

    /** Each room is filed under its own id. */
    ghost predicate Filed()
      reads this
    {
      forall id :: id in rooms ==> rooms[id].id == id
    }

    /** What a call on room `id` may change: that room and its channels. */
    ghost function Footprint(id: RoomId): set<object>
      reads this, rooms.Values
    {
      if id in rooms then {rooms[id] as object} + rooms[id].subscribers.Values else {}
    }

    /** The empty registry. The cleanup goroutine it starts is not part of
        this model. */
    constructor ()
      ensures rooms == map[] && Valid()
    {
      rooms := map[];
    }

    /** Register a new room under the fresh id `id`, standing for the uuid
        the service draws. */
    method CreateRoom(id: RoomId, now: Time) returns (created: RoomId)
      requires Valid() && id !in rooms
      modifies this
      ensures Valid()
      ensures created == id && id in rooms && fresh(rooms[id])
      ensures rooms == old(rooms)[id := rooms[id]]
      ensures rooms[id].Pb() == Fresh && rooms[id].subscribers == map[] && rooms[id].nextSubID == 1
      ensures rooms[id].createAt == now
    {
      var room := new Room(id, now);
      rooms := rooms[id := room];
      created := id;
    }

    /** Look a room up: the room and no error, or no room and "room does
        not exist". */
    function GetRoom(id: RoomId): (r: (Room?, Outcome))
      reads this
      ensures r.1 == Ok <==> id in rooms
      ensures id in rooms ==> r.0 == rooms[id]
      ensures id !in rooms ==> r.0 == null && r.1 == Err(RoomNotFound) && Message(r.1.error) == "room does not exist"
    {
      if id in rooms then (rooms[id], Ok) else (null, Err(RoomNotFound))
    }

    /** Drop room `id` from the registry, then empty its subscriber map,
        closing every channel. An unknown id is left alone, so removing twice
        is the same as removing once. */
    method RemoveRoom(id: RoomId)
      requires Valid()
      modifies this, Footprint(id)
      ensures Valid()
      ensures id !in old(rooms) ==> rooms == old(rooms)
      ensures id in old(rooms) ==>
        && rooms == old(rooms) - {id}
        && (forall k :: k !in old(rooms[id]).subscribers)
        && (forall k :: k in old(rooms[id].subscribers) ==>
              old(rooms[id].subscribers)[k].closed
              && old(rooms[id].subscribers)[k].buffer == old(rooms[id].subscribers[k].buffer))
    {
      if id !in rooms {
        return;
      }
      var room := rooms[id];
      rooms := rooms - {id};
      room.CloseAll();
    }

    /** Subscribe to room `id`: a fresh subscriber id and a new channel that
        already holds the current snapshot. An unknown room yields -1 and no
        channel. */
    method ConnectToTheRoom(id: RoomId, now: Time) returns (userID: int, ch: Channel?, out: Outcome)
      requires Valid()
      modifies if id in rooms then {rooms[id]} else {}
      ensures Valid()
      ensures id !in rooms ==> userID == -1 && ch == null && out == Err(RoomNotFound)
      ensures id in rooms ==>
        var room := rooms[id];
        && out == Ok && userID == old(room.nextSubID) && room.nextSubID == userID + 1
        && userID !in old(room.subscribers)
        && ch != null && fresh(ch) && room.subscribers == old(room.subscribers)[userID := ch]
        && ch.buffer == [room.StateAt(now)] && !ch.closed && ch.capacity == Capacity
        && room.Pb() == old(room.Pb())
    {
      var (room, err) := GetRoom(id);
      if room == null {
        return -1, null, err;
      }
      userID, ch := room.Subscribe(now);
      out := Ok;
    }

    /** Unsubscribe `userID` from room `id` and close its channel. When the
        room is left without subscribers the service starts removing it;
        `removeScheduled` reports that. */
    method DisconnectUser(id: RoomId, userID: int) returns (out: Outcome, removeScheduled: bool)
      requires Valid()
      modifies if id in rooms then
                 {rooms[id] as object}
                 + (if userID in rooms[id].subscribers then {rooms[id].subscribers[userID] as object} else {})
               else {}
      ensures Valid()
      ensures id !in rooms ==> out == Err(RoomNotFound) && !removeScheduled
      ensures id in rooms ==>
        var room := rooms[id];
        && room.Pb() == old(room.Pb()) && room.nextSubID == old(room.nextSubID)
        && (userID !in old(room.subscribers) ==>
              out == Err(UserNotFound) && !removeScheduled && room.subscribers == old(room.subscribers))
        && (userID in old(room.subscribers) ==>
              && out == Ok
              && room.subscribers == old(room.subscribers) - {userID}
              && old(room.subscribers[userID]).closed
              && old(room.subscribers[userID]).buffer == old(room.subscribers[userID].buffer)
              && (removeScheduled <==> room.subscribers == map[]))
    {
      var (room, err) := GetRoom(id);
      if room == null {
        return err, false;
      }
      var empty;
      out, empty := room.Unsubscribe(userID);
      removeScheduled := out == Ok && empty;
    }

    method Play(id: RoomId, now: Time) returns (out: Outcome)
      requires Valid()
      modifies Footprint(id)
      ensures Valid()
      ensures id !in rooms ==> out == Err(RoomNotFound)
      ensures id in rooms ==>
        rooms[id].Did(old(rooms[id].subscribers), Transitions.Play(old(rooms[id].Pb()), now), now, out)
    {
      var (room, err) := GetRoom(id);
      if room == null {
        return err;
      }
      out := room.Play(now);
    }

    method Pause(id: RoomId, now: Time) returns (out: Outcome)
      requires Valid()
      modifies Footprint(id)
      ensures Valid()
      ensures id !in rooms ==> out == Err(RoomNotFound)
      ensures id in rooms ==>
        rooms[id].Did(old(rooms[id].subscribers), Transitions.Pause(old(rooms[id].Pb()), now), now, out)
    {
      var (room, err) := GetRoom(id);
      if room == null {
        return err;
      }
      out := room.Pause(now);
    }

    method Next(id: RoomId, now: Time) returns (out: Outcome)
      requires Valid()
      modifies Footprint(id)
      ensures Valid()
      ensures id !in rooms ==> out == Err(RoomNotFound)
      ensures id in rooms ==>
        rooms[id].Did(old(rooms[id].subscribers), Transitions.Next(old(rooms[id].Pb()), now), now, out)
    {
      var (room, err) := GetRoom(id);
      if room == null {
        return err;
      }
      out := room.Next(now);
    }

    method AddVideoInQueue(id: RoomId, video: Video, now: Time) returns (out: Outcome)
      requires Valid()
      modifies Footprint(id)
      ensures Valid()
      ensures id !in rooms ==> out == Err(RoomNotFound)
      ensures id in rooms ==>
        rooms[id].Did(old(rooms[id].subscribers), Enqueue(old(rooms[id].Pb()), video), now, out)
    {
      var (room, err) := GetRoom(id);
      if room == null {
        return err;
      }
      out := room.AddVideo(video, now);
    }

    method DeleteVideoInQueue(id: RoomId, idx: int, now: Time) returns (out: Outcome)
      requires Valid()
      modifies Footprint(id)
      ensures Valid()
      ensures id !in rooms ==> out == Err(RoomNotFound)
      ensures id in rooms ==>
        rooms[id].Did(old(rooms[id].subscribers), RemoveAt(old(rooms[id].Pb()), idx), now, out)
    {
      var (room, err) := GetRoom(id);
      if room == null {
        return err;
      }
      out := room.DeleteVideo(idx, now);
    }

    method Seek(id: RoomId, pos: real, now: Time) returns (out: Outcome)
      requires Valid()
      modifies Footprint(id)
      ensures Valid()
      ensures id !in rooms ==> out == Err(RoomNotFound)
      ensures id in rooms ==>
        rooms[id].Did(old(rooms[id].subscribers), Transitions.Seek(old(rooms[id].Pb()), pos, now), now, out)
    {
      var (room, err) := GetRoom(id);
      if room == null {
        return err;
      }
      out := room.Seek(pos, now);
    }

    /** The first half of the listing: every registered room, in map order,
        together with the ids they are filed under. */
    method CollectRooms() returns (list: seq<Room>, ghost ids: seq<RoomId>)
      ensures |list| == |ids|
      ensures forall i :: 0 <= i < |ids| ==> ids[i] in rooms && list[i] == rooms[ids[i]]
      ensures forall i, j :: 0 <= i < j < |ids| ==> ids[i] != ids[j]
      ensures forall id :: id in rooms ==> id in ids
    {
      list, ids := [], [];
      var todo := rooms.Keys;
      var done := false;
      while !done
        invariant forall id :: id in todo ==> id in rooms
        invariant |list| == |ids|
        invariant forall i :: 0 <= i < |ids| ==> ids[i] in rooms && ids[i] !in todo && list[i] == rooms[ids[i]]
        invariant forall i, j :: 0 <= i < j < |ids| ==> ids[i] != ids[j]
        invariant forall id :: id in rooms && id !in todo ==> id in ids
        invariant done ==> forall id :: id !in todo
        decreases |todo|, !done
      {
        if id :| id in todo {
          list := list + [rooms[id]];
          ids := ids + [id];
          todo := todo - {id};
        } else {
          done := true;
        }
      }
    }

    /** The room listing: one summary per registered room, each taken from
        the room's fields. */
    method GetAllRoomsInfo() returns (infos: seq<RoomInfo>)
      requires Filed()
      ensures forall i :: 0 <= i < |infos| ==> infos[i].id in rooms && infos[i] == rooms[infos[i].id].Info()
      ensures forall i, j :: 0 <= i < j < |infos| ==> infos[i].id != infos[j].id
      ensures forall id :: id in rooms ==> exists i :: 0 <= i < |infos| && infos[i].id == id
    {
      var list;
      ghost var ids;
      list, ids := CollectRooms();
      infos := [];
      var i := 0;
      while i < |list|
        invariant 0 <= i <= |list|
        invariant |infos| == i
        invariant forall j :: 0 <= j < i ==> infos[j] == list[j].Info()
      {
        infos := infos + [list[i].Info()];
        i := i + 1;
      }
      forall id | id in rooms
        ensures exists j :: 0 <= j < |infos| && infos[j].id == id
      {
        var j :| 0 <= j < |ids| && ids[j] == id;
        assert infos[j].id == id;
      }
    }

    /** The first half of a reaper tick: the ids of the rooms that have
        expired at `now`, in map order, each once. */
    method ExpiredIds(now: Time, idle: real) returns (ids: seq<RoomId>)
      ensures forall i :: 0 <= i < |ids| ==> ids[i] in rooms && rooms[ids[i]].Expired(now, idle)
      ensures forall i, j :: 0 <= i < j < |ids| ==> ids[i] != ids[j]
      ensures forall id :: id in rooms && rooms[id].Expired(now, idle) ==> id in ids
    {
      ids := [];
      var todo := rooms.Keys;
      var done := false;
      while !done
        invariant forall id :: id in todo ==> id in rooms
        invariant forall i :: 0 <= i < |ids| ==> ids[i] in rooms && ids[i] !in todo && rooms[ids[i]].Expired(now, idle)
        invariant forall i, j :: 0 <= i < j < |ids| ==> ids[i] != ids[j]
        invariant forall id :: id in rooms && id !in todo && rooms[id].Expired(now, idle) ==> id in ids
        invariant done ==> forall id :: id !in todo
        decreases |todo|, !done
      {
        if id :| id in todo {
          var room := rooms[id];
          var empty := |room.subscribers| == 0;
          var idleTooLong := now - room.createAt > idle;
          if empty && idleTooLong {
            ids := ids + [id];
          }
          todo := todo - {id};
        } else {
          done := true;
        }
      }
    }

    /** One tick of the reaper: remove every room that has expired at `now`
        and leave every other room as it was. */
    method CleanupRooms(now: Time, idle: real)
      requires Valid()
      modifies this, rooms.Values
      ensures Valid()
      ensures forall id :: id in rooms <==> id in old(rooms) && !old(rooms[id].Expired(now, idle))
      ensures forall id :: id in rooms ==>
        rooms[id] == old(rooms[id]) && rooms[id].subscribers == old(rooms[id].subscribers)
        && rooms[id].Pb() == old(rooms[id].Pb()) && rooms[id].nextSubID == old(rooms[id].nextSubID)
    {
      var ids := ExpiredIds(now, idle);
      var i := 0;
      while i < |ids|
        invariant 0 <= i <= |ids|
        invariant Valid()
        invariant forall id :: id in rooms <==> id in old(rooms) && id !in ids[..i]
        invariant forall id :: id in rooms ==>
          rooms[id] == old(rooms[id]) && rooms[id].subscribers == old(rooms[id].subscribers)
          && rooms[id].Pb() == old(rooms[id].Pb()) && rooms[id].nextSubID == old(rooms[id].nextSubID)
      {
        RemoveRoom(ids[i]);
        i := i + 1;
      }
    }
  }
}
