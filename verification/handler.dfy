/**
 * `FsEventHandler` (src/handler.rs): owns the filter, the metadata store and
 * the sending end of the output channel. The channel is the field `sent`,
 * which only ever grows: sending never fails observably.
 *
 * The filesystem is not part of the model. A call that stats paths receives
 * the stat results as a `Stat` oracle, and the baseline scan receives the
 * directory tree it walks as a `Listing`.
 */
module Handler {
  import opened Wrappers
  import opened Paths
  import opened Metadata
  import opened Filter
  import opened HandlerSpec
  import opened RemoveSpec
  import opened ScanSpec
  import Notify

  class EventHandler {
    const filter: MessageFilter
    const store: MetadataStore
    var sent: seq<Message>

    /** Only paths the filter admits are ever stored. */
    ghost predicate Valid()
      reads this, store
    {
      AllAdmitted(filter, store.data)
    }

    ghost function State(): Snapshot
      reads this, store
    {
      Snapshot(store.data, sent)
    }

    /** `FsEventHandler::new`: an empty store and nothing sent yet. */
    constructor (filter: MessageFilter)
      ensures this.filter == filter
      ensures fresh(store) && store.data == map[] && sent == []
      ensures Valid()
    {
      this.filter := filter;
      store := new MetadataStore();
      sent := [];
    }

    /**
     * `init`: the baseline scan of the watched root. Only `Created` events for
     * admitted paths below the root are sent, each parent before its entries;
     * the store records exactly those paths; a scan that succeeds reported
     * every admitted entry of the tree, and one that fails did so with the
     * error of a listing or stat it reached.
     */
    method Init(root: Path, dir: Result<Listing, IoError>, mode: Notify.RecursiveMode, stat: Stat)
      returns (r: Result<(), IoError>)
      requires Valid()
      modifies this, store
      ensures Valid()
      ensures ScanResult(State(), r) == Scan(filter, stat, old(State()), root, dir, mode)
      ensures ScanSegment(filter, stat, root, mode, old(State()), State())
      ensures r.Ok? ==> Covered(filter, stat, root, dir, mode, Reported(sent[|old(sent)|..]))
      ensures r.Err? ==> FailsWith(filter, stat, root, dir, mode, r.error)
    {
      r := ScanDir(root, dir, mode, stat);
      ScanIsSegment(filter, stat, old(State()), root, dir, mode);
      ScanCovers(filter, stat, old(State()), root, dir, mode);
      ScanFails(filter, stat, old(State()), root, dir, mode);
    }

    /**
     * `handle`: routes an event to the per-path routine its kind selects, and
     * turns a watcher error into one `Error` message without touching the store.
     */
    method Handle(n: Notify.Notification, stat: Stat)
      requires Valid()
      modifies this, store
      ensures Valid()
      ensures n.Err? ==> store.data == old(store.data) && sent == old(sent) + [Error(n.error.message)]
      ensures n.Ok? && Route(n.value.kind) == Ignore ==> store.data == old(store.data) && sent == old(sent)
      ensures n.Ok? && Route(n.value.kind) == CreateEntries ==>
        State() == CreateAll(filter, stat, old(State()), n.value.paths)
      ensures n.Ok? && Route(n.value.kind) == ModifyEntries ==>
        State() == ModifyAll(filter, stat, old(State()), n.value.paths)
      ensures n.Ok? && Route(n.value.kind) == RemoveEntries ==>
        State() in RemoveOutcomes(filter, old(store.data), old(sent), n.value.paths)
    {
      match n
      case Err(e) =>
        sent := sent + [Error(e.message)];
      case Ok(event) =>
        match Route(event.kind)
        case CreateEntries =>
          CreateEntry(event.paths, stat);
        case ModifyEntries =>
          ModifyEntry(event.paths, stat);
        case RemoveEntries =>
          forall q | q in event.paths
            ensures |Subtree(store.data, q)| < |store.data| + 1
          {
            SubsetCard(Subtree(store.data, q), store.data.Keys);
          }
          RemoveEntry(event.paths, |store.data| + 1);
        case Ignore =>
    }

    /**
     * `create_entry`: for each admitted path, re-stat and record it, then send
     * `Created` with the fresh metadata, or the stat's error.
     */
    method CreateEntry(paths: seq<Path>, stat: Stat)
      requires Valid()
      modifies this, store
      ensures Valid()
      ensures State() == CreateAll(filter, stat, old(State()), paths)
    {
      for i := 0 to |paths|
        invariant Valid()
        invariant State() == CreateAll(filter, stat, old(State()), paths[..i])
      {
        var p := paths[i];
        assert paths[..i + 1][..i] == paths[..i];
        if filter.IsMatch(p) {
          var added := store.Add(p, stat);
          match added
          case Ok(m) =>
            sent := sent + [Event(Created, p, Some(m))];
          case Err(e) =>
            sent := sent + [Error(e.message)];
        }
      }
      assert paths[..|paths|] == paths;
    }

    /**
     * `remove_entry`: each admitted path is removed after everything stored
     * below it, if it is a stored directory.
     *
     * `bound` is a proof device only: it exceeds the number of stored paths
     * at or below any path of the batch, which bounds the depth of cascading.
     */
    method RemoveEntry(paths: seq<Path>, ghost bound: nat)
      requires Valid()
      requires forall q :: q in paths ==> |Subtree(store.data, q)| < bound
      modifies this, store
      decreases bound, 1
      ensures Valid()
      ensures State() in RemoveOutcomes(filter, old(store.data), old(sent), paths)
    {
      ghost var S, M := store.data, sent;
      RemoveOutcomeEmpty(filter, S, M);
      for i := 0 to |paths|
        invariant Valid()
        invariant State() in RemoveOutcomes(filter, S, M, paths[..i])
      {
        RemoveNext(paths[i], S, M, paths[..i], paths[..i + 1], bound);
      }
      assert paths[..|paths|] == paths;
    }

    /**
     * One iteration of `remove_entry`'s loop: the batch `ps` handled so far
     * from store `S` with `M` sent, extended by `p` to `next`.
     */
    method RemoveNext(p: Path, ghost S: map<Path, FsMetadata>, ghost M: seq<Message>, ghost ps: seq<Path>,
                      ghost next: seq<Path>, ghost bound: nat)
      requires Valid()
      requires State() in RemoveOutcomes(filter, S, M, ps)
      requires |Subtree(S, p)| < bound && next == ps + [p]
      modifies this, store
      decreases bound, 0
      ensures Valid()
      ensures State() in RemoveOutcomes(filter, S, M, next)
    {
      ghost var before, cur := sent, store.data;
      RemoveOutcomeShrinks(filter, S, M, ps, store.data, sent, p);
      RemovePath(p);
      RemoveOutcomeStep(filter, S, M, ps, p, next, cur, before, store.data, sent);
      TraceStep(filter, S, M, ps, p, next, cur, before, store.data, sent);
    }

    /**
     * One admitted path of `remove_entry`: its stored descendants are removed
     * first (only when it is stored as a directory), then the path itself, and
     * the `Removed` event for it is sent last, carrying whatever the store held
     * for it, possibly nothing.
     */
    method RemovePath(p: Path)
      requires Valid()
      modifies this, store
      decreases |Subtree(store.data, p)|, 2
      ensures Valid()
      ensures PathRemoved(filter, old(store.data), old(sent), p, store.data, sent)
    {
      if filter.IsMatch(p) {
        ghost var S, M := store.data, sent;
        var children := store.ChildPaths(p);
        if children != [] {
          assert children[0] in children;
          forall c | c in children
            ensures |Subtree(store.data, c)| < |Subtree(store.data, p)|
          {
            SubtreeShrinks(store.data, p, c);
          }
          RemoveEntry(children, |Subtree(store.data, p)|);
        }
        RemovePathOutcome(filter, S, M, p, children, store.data, sent);
        var last := store.Remove(p);
        sent := sent + [Event(Removed, p, last)];
      } else {
        assert sent[|sent|..] == [];
        EntryLogEmpty(store.data);
      }
    }

    /**
     * `modify_entry`: for each admitted path, remember the stored modification
     * time (the epoch if none), re-stat and record the path, and send
     * `Modified` only if the fresh time is later; a failed stat sends its error.
     */
    method ModifyEntry(paths: seq<Path>, stat: Stat)
      requires Valid()
      modifies this, store
      ensures Valid()
      ensures State() == ModifyAll(filter, stat, old(State()), paths)
    {
      for i := 0 to |paths|
        invariant Valid()
        invariant State() == ModifyAll(filter, stat, old(State()), paths[..i])
      {
        var p := paths[i];
        assert paths[..i + 1][..i] == paths[..i];
        if filter.IsMatch(p) {
          var prior := store.Get(p);
          var before := match prior case Some(m) => m.modified case None => UnixEpoch;
          var added := store.Add(p, stat);
          match added
          case Ok(m) =>
            if m.modified > before {
              sent := sent + [Event(Modified, p, Some(m))];
            }
          case Err(e) =>
            sent := sent + [Error(e.message)];
        }
      }
      assert paths[..|paths|] == paths;
    }

    /**
     * `scan_dir`: lists `path` (`dir` is what the listing returns), and for each
     * readable entry the filter admits, records it, sends `Created`, and in
     * recursive mode descends into it if it is a directory. A failed listing or
     * stat ends the whole scan with that error; unreadable entries are skipped.
     */
    method ScanDir(path: Path, dir: Result<Listing, IoError>, mode: Notify.RecursiveMode, stat: Stat)
      returns (r: Result<(), IoError>)
      requires Valid()
      modifies this, store
      decreases dir
      ensures Valid()
      ensures ScanResult(State(), r) == Scan(filter, stat, old(State()), path, dir, mode)
    {
      match dir
      case Err(e) =>
        return Err(e);
      case Ok(listing) =>
        for i := 0 to |listing.entries|
          invariant Valid()
          invariant Scan(filter, stat, old(State()), path, dir, mode)
                 == ScanEntries(filter, stat, State(), path, listing, i, mode)
        {
          match listing.entries[i]
          case Unreadable(_) =>
          case Entry(name, contents) =>
            var child := path + [name];
            if filter.IsMatch(child) {
              var added := store.Add(child, stat);
              if added.Err? {
                return Err(added.error);
              }
              var m := added.value;
              sent := sent + [Event(Created, child, Some(m))];
              if mode == Notify.Recursive && m.isDir {
                assert listing.entries[i] in listing.entries;
                var sub := ScanDir(child, contents, mode, stat);
                if sub.Err? {
                  return sub;
                }
              }
            }
        }
        return Ok(());
    }
  }
}
