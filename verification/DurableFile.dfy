/**
 One private file that is replaced as a whole: what programs see, and what a
 power loss would leave. AtomicWriteFile can fail before its rename, fail after
 it because the directory could not be synced, or delete the file it has just
 published because that file did not keep private permissions.
 */
module DurableFile {
  import opened Base

  datatype WriteOutcome = Written | NotPublished | Unsynced | Erased

  datatype Disk<+T> = Disk(visible: Option<T>, durable: Option<T>)

  function Publish<T>(disk: Disk<T>, content: T, outcome: WriteOutcome): Disk<T> {
    match outcome
    case Written => Disk(Some(content), Some(content))
    case NotPublished => disk
    case Unsynced => disk.(visible := Some(content))
    case Erased => disk.(visible := None)
  }

  /** The operating system may write out what is visible at any time. */
  function Settle<T>(disk: Disk<T>): Disk<T> {
    Disk(disk.visible, disk.visible)
  }

  function LosePower<T>(disk: Disk<T>): Disk<T> {
    Disk(disk.durable, disk.durable)
  }
}
