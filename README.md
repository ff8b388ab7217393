# Watch-room registry and room state machine

This project is a Dafny model of the in-memory core of a "watch together" music service. A **room** holds:
- a FIFO queue of videos, an optional current video and a play/pause flag;
- a timing anchor (`basePos`, `startedAt`) from which every snapshot derives the playback position;
- a map from subscriber ids to bounded snapshot channels, and the counter that hands out subscriber ids.

Every playback or queue command that changes the room broadcasts a fresh snapshot to its subscribers; subscribing and unsubscribing change the subscriber map without a broadcast. A subscriber whose buffer is full is evicted: it is removed from the map and its channel is closed. The **registry** maps room ids to rooms and handles:
- creating and removing rooms;
- connecting and disconnecting subscribers;
- passing the playback and queue commands on to a room;
- listing room summaries;
- running one reaper tick that removes idle rooms nobody watches.

The model has four modules, one per concern:

- `Dto` (`dto.dfy`): the records clients see (`Video`, the `State` snapshot, the `RoomInfo` summary) and the service's error kinds with their messages.
- `Transitions` (`transitions.dfy`): the playback state machine on values. Each command is a function from the playback fields to a `Step`. A step changes the fields (and so broadcasts), skips silently, or fails with an error. This module also holds the lemmas about runs of commands: the room invariant, the position never going back under play and pause, and enqueues landing in lock order.
- `Rooms` (`room.dfy`): the `Channel` class, a bounded buffer with a `closed` flag and capacity 10, and the `Room` class with the fields of the Go `Room`. Its methods update those fields in place. Each command method is proved to perform exactly the step `Transitions` prescribes and then to fan out the snapshot (the twostate predicate `Did`). `Broadcast` is a loop over the subscriber map that try-sends or evicts.
- `Registry` (`room_service.dfy`): the `ServiceRoom` class holding `rooms: map<RoomId, Room>`; its methods follow the service calls one for one.

Each service call runs as one atomic step, as if the room and registry locks were held throughout. The clock reading is a parameter `now` (a `real` number of seconds), and so is the fresh room id that stands for the uuid the service draws. The room invariant `Room.Valid` says:
- with nothing loaded, nothing plays and the stored position is zero;
- every subscriber id is below `nextSubID`, so new ids are never reused;
- every registered channel is open, has capacity 10 and holds at most 10 snapshots;
- no channel is registered twice, and no channel belongs to two rooms.

Every method preserves this invariant. So a channel is closed only at the moment it leaves the map, and it is never closed twice (`Channel.Close` requires an open channel, as Go panics otherwise).

A subscriber's receive is modelled by `Channel.Receive`: snapshots come out in the order they were sent, and a closed, drained channel reports its end.

`Pause`, and `Next` on an empty queue, also set `startedAt := now`. Neither changes a reported position, because the room is paused afterwards.

## Model

| member | source | states |
|---|---|---|
| Transitions.OutcomeOf | internal/service/room/room_service.go:109-327 | A command returns an error exactly when its step fails, and then the step's error; skipped and changing steps return nil. |
| Transitions.Play | internal/service/room/room_service.go:118-133 | Skips exactly when already playing. Fails with EmptyQueue ("queue is empty") exactly when nothing is loaded and the queue is empty. Otherwise ends playing from `now` with an item loaded. With nothing loaded it pops the queue head and starts at 0. Items are neither lost nor duplicated. A resumed item continues from the position it was paused at. |
| Transitions.Pause | internal/service/room/room_service.go:149-162 | Never fails. Changes the room exactly when it is playing with an item loaded. It then stops playback, keeps the item and the queue, and freezes the position at the value it had at `now`, for every later reading. |
| Transitions.Next | internal/service/room/room_service.go:179-199 | Always changes the room and keeps the invariant. With an empty queue it unloads and stops. Otherwise it loads the old head, keeps the old tail and plays from `now`. The new position at `now` is 0, and exactly the previously loaded item is dropped. |
| Transitions.Enqueue | internal/service/room/room_service.go:215 | Never fails. The queue grows by one, with the old queue as prefix and the new video last. Current, playing and every position reading are unchanged, and the item multiset gains exactly the video. |
| Transitions.RemoveAt | internal/service/room/room_service.go:278-282 | Fails with IndexOutOfRange ("index out of range") exactly when `idx` is outside `[0, len(queue))`. Otherwise the queue is one shorter: elements before `idx` stay, later ones shift down by one, and exactly `queue[idx]` is dropped. Playback is untouched. |
| Transitions.Clamp | internal/service/room/room_service.go:305-310 | For a non-negative duration the result lies in `[0, duration]`. A target already in range is kept, one above is lowered to the duration, and one below zero is raised to 0. |
| Transitions.Seek | internal/service/room/room_service.go:300-320 | Fails with NoCurrentTrack ("no current track") exactly when nothing is loaded. Otherwise the item, the queue and the playing flag stay, and the position at `now` is the clamped target. A paused room keeps its anchor, and its position stays frozen at that value. |
| Transitions.PositionMonotone | internal/service/room/room.go:39-42 | A snapshot taken later never reports a smaller position, and while paused it reports the same position. |
| Transitions.ApplyConsistent | internal/service/room/room_service.go:118-320 | Every command keeps the invariant that nothing plays and the position is 0 when nothing is loaded. |
| Transitions.RunConsistent | internal/service/room/room_service.go:118-320 | Any sequence of commands keeps that invariant. |
| Transitions.ApplyEnqueue | internal/service/room/room_service.go:215 | An enqueue appends the video to the queue and changes no other field. |
| Transitions.OnlyEnqueuesTail | internal/service/room/room_service.go:215 | Dropping the first event of a run of enqueues leaves a run of enqueues. |
| Transitions.EnqueuesAppend | internal/service/room/room_service.go:207-222 | Any run of enqueues appends the videos at the tail in the order they took the lock, none lost or duplicated, and leaves everything else as it was. |
| Transitions.PositionNeverGoesBack | internal/service/room/room_service.go:118-162 | Across any run of play and pause commands in clock order, the position read at the end is at least the one read at the start. |
| Transitions.PauseThenPlay | internal/service/room/room_service.go:149-162 | Pausing at `t1` and resuming at `t2` continues from the position reached at `t1`, plus the time played since `t2`. |
| Transitions.ScenarioStart | internal/service/room/room_service.go:118-133 | Enqueueing A and B and playing loads A with B queued. Ten seconds later the position is 10. |
| Transitions.ScenarioSeek | internal/service/room/room_service.go:305-320 | In that room, a seek to 200 s on a 30 s item sets the position to 30 and keeps playing. |
| Transitions.ScenarioNext | internal/service/room/room_service.go:193-199 | Then next loads B from 0 and leaves the queue empty. |
| Rooms.Channel.constructor | internal/service/room/room_service.go:69 | A new channel has the given capacity, is open and is empty. |
| Rooms.Channel.Send | internal/service/room/room_service.go:78 | A send into a channel with room appends the snapshot behind the buffered ones. |
| Rooms.Channel.TrySend | internal/service/room/room.go:29-31 | A non-blocking send succeeds exactly when the buffer has room. It then appends the snapshot; otherwise the buffer is unchanged. |
| Rooms.Channel.Close | internal/service/room/room.go:33 | Closing marks the channel closed and keeps its buffered snapshots. |
| Rooms.Channel.Receive | internal/transport/ws/handler.go:71-74 | A receive yields the oldest buffered snapshot first (FIFO), also after close. On an empty channel it yields end-of-stream if the channel is closed, and nothing if it is open. |
| Rooms.Room.constructor | internal/service/room/room_service.go:27-33 | A new room has an empty queue, nothing loaded, is paused at 0, has no subscribers, nextSubID 1, the creation time `now`, and satisfies the invariant. |
| Rooms.Room.StateAt | internal/service/room/room.go:38-55 | The snapshot copies id, current, queue and playing, and carries `updatedAt = now`. Its position is `basePos` when paused and `basePos + (now - startedAt)` when playing. Being a function, it changes nothing. |
| Rooms.Room.Info | internal/service/room/room_service.go:251-260 | The summary copies id, queue, current and playing, and counts the subscribers. |
| Rooms.Room.FanOut | internal/service/room/room.go:28-35 | The broadcast loop visits every subscriber once, in any order, and ends with each one either served or evicted. |
| Rooms.Room.Fanned | internal/service/room/room.go:27-36 | After the loop, the subscribers that stayed are open and within capacity, so the room invariant holds again. |
| Rooms.Room.Offer | internal/service/room/room.go:29-33 | One round of the broadcast: subscriber `k` either gets the snapshot appended or, when full, is removed and closed. The loop invariant is kept for the remaining subscribers. |
| Rooms.Room.Broadcast | internal/service/room/room.go:27-36 | Afterwards the subscribers are a subset of those before. A subscriber stays exactly when its buffer had room, and then has the snapshot appended behind its earlier ones. A full subscriber is removed and its channel closed with its buffer intact. Playback fields and nextSubID are unchanged, and the invariant holds, so no buffer exceeds capacity. |
| Rooms.Room.Subscribe | internal/service/room/room_service.go:63-80 | Returns the old nextSubID, which was not in use, and increments the counter. Registers a fresh open channel of capacity 10 holding exactly the current snapshot. |
| Rooms.Room.Unsubscribe | internal/service/room/room_service.go:94-104 | An unknown subscriber yields "user does not exist" and nothing changes. Otherwise exactly that entry is removed and its channel closed, and the removal signal is raised exactly when the map became empty. |
| Rooms.Room.CloseAll | internal/service/room/room_service.go:49-53 | Empties the subscriber map and closes every former channel, leaving its buffered snapshots for the consumer; the room invariant holds afterwards. |
| Rooms.Room.Drop | internal/service/room/room_service.go:51-52 | One round of the closing loop: exactly that subscriber leaves the map and its channel is closed, and the loop invariant is kept. |
| Rooms.Room.Play | internal/service/room/room_service.go:118-137 | Performs exactly the `Transitions.Play` step in place and returns its outcome. When the step changes the room, it broadcasts the new snapshot; otherwise it touches nothing. |
| Rooms.Room.Pause | internal/service/room/room_service.go:149-167 | Performs exactly the `Transitions.Pause` step, broadcasting only when the room changed. |
| Rooms.Room.Next | internal/service/room/room_service.go:179-204 | Performs exactly the `Transitions.Next` step and always broadcasts. |
| Rooms.Room.AddVideo | internal/service/room/room_service.go:215-221 | Performs exactly the `Transitions.Enqueue` step and broadcasts. |
| Rooms.Room.DeleteVideo | internal/service/room/room_service.go:278-288 | Performs exactly the `Transitions.RemoveAt` step. On a bad index it fails without any change; otherwise it broadcasts. |
| Rooms.Room.Seek | internal/service/room/room_service.go:300-326 | Performs exactly the `Transitions.Seek` step. Without a current track it fails without any change; otherwise it broadcasts. |
| Registry.ServiceRoom.constructor | internal/service/room/room_service.go:16-21 | A new registry is empty. |
| Registry.ServiceRoom.CreateRoom | internal/service/room/room_service.go:23-35 | Inserts a fresh room under the fresh id and returns that id. The room is empty, paused at 0, with no subscribers, nextSubID 1 and creation time `now`. Every other room stays filed as before. |
| Registry.ServiceRoom.GetRoom | internal/service/room/room_service.go:224-233 | Yields the registered room and no error exactly when the id is registered. Otherwise it yields no room and "room does not exist". |
| Registry.ServiceRoom.RemoveRoom | internal/service/room/room_service.go:37-55 | An unknown id changes nothing, so removal is idempotent. Otherwise exactly that id leaves the map, the removed room ends with no subscribers, and every former channel is closed with its buffer intact. |
| Registry.ServiceRoom.ConnectToTheRoom | internal/service/room/room_service.go:57-81 | An unknown room yields -1, no channel and "room does not exist". Otherwise it has Subscribe's effect, and playback is unchanged. Only the room is written, so every existing subscriber's channel keeps its buffer and its open state. |
| Registry.ServiceRoom.DisconnectUser | internal/service/room/room_service.go:83-107 | An unknown room yields "room does not exist", and an unknown subscriber yields "user does not exist"; neither changes anything. Otherwise exactly that channel is removed and closed; only the room and that channel are written, so every other subscriber's channel is untouched. Room removal is scheduled exactly when the room became empty. |
| Registry.ServiceRoom.Play | internal/service/room/room_service.go:109-138 | An unknown room fails with "room does not exist". Otherwise the room performs the play step with its broadcast. |
| Registry.ServiceRoom.Pause | internal/service/room/room_service.go:140-168 | An unknown room fails with "room does not exist". Otherwise the room performs the pause step. |
| Registry.ServiceRoom.Next | internal/service/room/room_service.go:170-205 | An unknown room fails with "room does not exist". Otherwise the room performs the next step. |
| Registry.ServiceRoom.AddVideoInQueue | internal/service/room/room_service.go:207-222 | An unknown room fails with "room does not exist". Otherwise the room performs the enqueue step. |
| Registry.ServiceRoom.DeleteVideoInQueue | internal/service/room/room_service.go:269-289 | An unknown room fails with "room does not exist". Otherwise the room performs the remove-at step. |
| Registry.ServiceRoom.Seek | internal/service/room/room_service.go:291-327 | An unknown room fails with "room does not exist". Otherwise the room performs the seek step. |
| Registry.ServiceRoom.CollectRooms | internal/service/room/room_service.go:237-242 | Lists every registered room exactly once, each paired with the id it is filed under. |
| Registry.ServiceRoom.GetAllRoomsInfo | internal/service/room/room_service.go:235-267 | Gives one summary per registered room, with no id listed twice and none missing. Each summary equals the room's own fields. |
| Registry.ServiceRoom.ExpiredIds | internal/service/room/room_service.go:346-356 | Lists, each once, exactly the registered rooms that have no subscribers and were created more than `idle` seconds before `now`. |
| Registry.ServiceRoom.CleanupRooms | internal/service/room/room_service.go:341-362 | One reaper tick. A room is still registered afterwards exactly when it was registered and had not expired. Every surviving room is the same object with the same subscribers, playback fields and counter. The invariant is kept. |

## Left out

- Mutexes, the two-level locking and goroutines: every call is one atomic step. Per-room consistency is what the locks give, and that is what the model states.
- The `go rs.RemoveRoom(id)` in `DisconnectUser` is modelled as the returned `removeScheduled` flag. The interleavings it allows are not modelled, for instance a subscriber joining in between, whose room is then removed after all.
- The reaper collects ids under the read lock and removes them later. A subscriber that joins in between is not modelled: `CleanupRooms` runs both halves as one step.
- `StartCleanupWorker`, an endless loop on a ticker, is left out. `CleanupRooms` models one tick; the TTL of cmd/server/main.go:36 is its `idle` parameter, and the tick interval (main.go:35) is not modelled.
- `time.Now()` is passed in as `now`. Durations are `real` seconds rather than `time.Duration` nanoseconds.
- `float64` arithmetic is modelled as exact `real` arithmetic. A NaN seek target, which passes both comparisons of the clamp, cannot arise.
- `int` overflow of `nextSubID` and of the video duration is not modelled: integers are unbounded.
- Room ids stand for `uuid.New()`: `CreateRoom` takes a fresh id as a parameter and requires that it is unused.
- Registry.ServiceRoom.CreateRoom: the Go method also returns an always-nil error, which the model leaves out.
- The initial queue capacity of 100 is an allocation hint with no observable effect, and is left out.
- `AddVideoInQueue` takes a `*dto.Video` and would accept a nil pointer, which `Play` could then load, leaving `current == nil` while playing. `Video` is a value here, so nil cannot be enqueued; the only caller, internal/transport/http/handlers.go:91, passes the address of a decoded video, never nil.
- Videos are shared by pointer in the service and are never mutated. They are modelled as values, so the copied queue of a snapshot is the room's queue as a value.
- Registry.ServiceRoom.GetAllRoomsInfo: states per-room summaries only, as the service takes no consistent view across rooms. Its length equals the number of rooms only through "each id once, none missing".
- The websocket handler, the HTTP handlers, JSON encoding, routing and the API layer are not part of this model.
- internal/service/audio/audio.go (a YouTube client), cmd/server/main.go and internal/config/config.go are not part of this model.
