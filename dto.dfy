/** The plain data records shared by the room service and its clients
    (internal/dto/dto.go), plus the error kinds the service reports. */
module Dto {

  /** A point on the server's clock, in seconds. */
  type Time = real

  /** A room identifier. The service draws these from a random uuid
      generator; the model only needs them to be comparable keys. */
  type RoomId = int

  datatype Option<+T> = None | Some(value: T)

  /** A media item. Immutable once created, so sharing it between the queue,
      `current` and every snapshot is the same as copying it. */
  datatype Video = Video(url: string, title: string, duration: int)

  /** The snapshot pushed to subscribers: what plays, what is queued, and the
      playback position computed at `updatedAt`. */
  datatype State = State(
    id: RoomId,
    current: Option<Video>,
    queue: seq<Video>,
    playing: bool,
    position: real,
    updatedAt: Time)

  /** One line of the room listing. */
  datatype RoomInfo = RoomInfo(
    id: RoomId,
    queue: seq<Video>,
    current: Option<Video>,
    playing: bool,
    subscribers: nat)

  /** The errors the room service returns. */
  datatype Error = RoomNotFound | UserNotFound | EmptyQueue | IndexOutOfRange | NoCurrentTrack

  /** The text the service puts into each error. */
  function Message(e: Error): string {
    match e
    case RoomNotFound => "room does not exist"
    case UserNotFound => "user does not exist"
    case EmptyQueue => "queue is empty"
    case IndexOutOfRange => "index out of range"
    case NoCurrentTrack => "no current track"
  }

  /** The `error` result of a service call: nil or one error. */
  datatype Outcome = Ok | Err(error: Error)
}
