/**
 * The raw notifications the handler receives from the `notify` library, as
 * plain values. Only the shape of the kinds matters to the handler; the
 * sub-kinds it never looks into (data and metadata changes, access modes) are
 * collapsed into one constructor each.
 */
module Notify {
  import opened Wrappers
  import opened Paths

  datatype CreateKind = CreateAny | CreateFile | CreateFolder | CreateOther

  datatype RenameMode = RenameAny | RenameTo | RenameFrom | RenameBoth | RenameOther

  datatype ModifyKind = ModifyAny | ModifyData | ModifyMetadata | ModifyName(rename: RenameMode) | ModifyOther

  datatype RemoveKind = RemoveAny | RemoveFile | RemoveFolder | RemoveOther

  datatype EventKind =
    | AnyKind
    | Access
    | Create(createKind: CreateKind)
    | Modify(modifyKind: ModifyKind)
    | Remove(removeKind: RemoveKind)
    | OtherKind

  /** A raw notification: a coarse kind and the paths it concerns. */
  datatype Event = Event(kind: EventKind, paths: seq<Path>)

  /** A `notify::Error`, reduced to its text. */
  datatype NotifyError = NotifyError(message: string)

  /** What the watcher hands to the handler: an event or the watcher's own error. */
  type Notification = Result<Event, NotifyError>

  datatype RecursiveMode = Recursive | NonRecursive
}
