/** Values shared by the services: video rows, object keys, message payloads. */
module Domain {

  datatype Option<+T> = None | Some(value: T)

  type Uuid = nat

  /** Bytes of an uploaded video or of one extracted frame. */
  type Bytes = string

  datatype Status = Pending | Processing | Done | Failed {
    predicate Terminal() { Done? || Failed? }
  }

  /** The texts a row's `error_message` can hold: '' and the two messages the worker sends. */
  datatype Reason = NoReason | SourceUnavailable | NotProcessable

  /** Object-store keys. `NoKey` is the column default ''. */
  datatype Key =
    | NoKey
    | SourceKey(owner: Uuid, name: Uuid, ext: string)
    | ZipKey(video: Uuid)

  datatype Frame = Frame(name: string, image: Bytes)

  datatype Blob = SourceVideo(content: Bytes) | Archive(frames: seq<Frame>)

  datatype Video = Video(
    user: Uuid, originalName: string, sourceKey: Key,
    status: Status, zipKey: Key, frameCount: int, error: Reason, createdAt: nat)

  datatype VideoJob = VideoJob(
    videoId: Uuid, user: Uuid, email: string, sourceKey: Key, originalName: string)

  /** One lifecycle event; the constructor stands for the routing key it is published under. */
  datatype Event =
    | ProcessingEvent(videoId: Uuid)
    | DoneEvent(videoId: Uuid, zipKey: Key, frameCount: int)
    | FailedEvent(videoId: Uuid, user: Uuid, email: string, originalName: string, reason: Reason)
  {
    predicate Terminal() { DoneEvent? || FailedEvent? }
  }

  /** The queues a service consumes. */
  datatype QueueName = JobsQueue | StatusQueue | NotificationsQueue

  /** What an effect on a remote system did. `Ambiguous`: it took place, but the caller sees an error. */
  datatype Effect = Works | Fails | Ambiguous {
    predicate Landed() { Works? || Ambiguous? }
  }
}
