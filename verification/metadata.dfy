/**
 * The metadata cache: what the watcher last learned about each path by
 * statting it (src/metadata.rs).
 */
module Metadata {
  import opened Wrappers
  import opened Paths

  /** `SystemTime::UNIX_EPOCH`, with timestamps counted from it. */
  const UnixEpoch: int := 0

  /** `FsMetadata`: the snapshot the store keeps and the messages carry. */
  datatype FsMetadata = FsMetadata(isDir: bool, created: int, modified: int)

  /**
   * What the operating system reports for a path (`std::fs::Metadata`).
   * Creation and modification times may be unavailable on a platform.
   */
  datatype OsMetadata = OsMetadata(isDir: bool, created: Option<int>, modified: Option<int>)

  /** An `io::Error`; only its text reaches the output. */
  datatype IoError = IoError(message: string)

  /**
   * A live `stat` of the filesystem as seen during one handler call: for each
   * path, either its metadata or the I/O error the stat raised.
   */
  type Stat = Path -> Result<OsMetadata, IoError>

  /** `From<Metadata> for FsMetadata`: a time the platform cannot give becomes the epoch. */
  function FromOs(m: OsMetadata): (r: FsMetadata)
    ensures r.isDir == m.isDir
    ensures m.created.None? ==> r.created == UnixEpoch
    ensures m.created.Some? ==> r.created == m.created.value
    ensures m.modified.None? ==> r.modified == UnixEpoch
    ensures m.modified.Some? ==> r.modified == m.modified.value
  {
    var created := match m.created case Some(t) => t case None => UnixEpoch;
    var modified := match m.modified case Some(t) => t case None => UnixEpoch;
    FsMetadata(m.isDir, created, modified)
  }

  /** `FsMetadataStore`: a path-keyed map that the handler updates in place. */
  class MetadataStore {
    var data: map<Path, FsMetadata>

    constructor ()
      ensures data == map[]
    {
      data := map[];
    }

    /** A read-only lookup. */
    function Get(p: Path): (r: Option<FsMetadata>)
      reads this
      ensures r.Some? <==> p in data
      ensures r.Some? ==> r.value == data[p]
    {
      if p in data then Some(data[p]) else None
    }

    /**
     * Re-stats `p` and records the fresh metadata, overwriting any earlier
     * entry. A failed stat changes nothing.
     */
    method Add(p: Path, stat: Stat) returns (r: Result<FsMetadata, IoError>)
      modifies this
      ensures r.Ok? <==> stat(p).Ok?
      ensures r.Ok? ==> r.value == FromOs(stat(p).value)
      ensures r.Ok? ==> data == old(data)[p := r.value] && data.Keys == old(data.Keys) + {p}
      ensures r.Err? ==> r.error == stat(p).error && data == old(data)
    {
      match stat(p)
      case Err(e) =>
        r := Err(e);
      case Ok(os) =>
        var m := FromOs(os);
        data := data[p := m];
        r := Ok(m);
    }

    /** Deletes the entry for `p` and hands back what it held, if anything. */
    method Remove(p: Path) returns (r: Option<FsMetadata>)
      modifies this
      ensures r == old(Get(p))
      ensures p !in data
      ensures data == old(data) - {p}
    {
      r := Get(p);
      data := data - {p};
    }

    /**
     * Every stored key strictly below `p`, provided `p` itself is stored as a
     * directory; nothing otherwise. The keys are visited in an order the model
     * leaves open, as the map's iteration order is.
     */
    method ChildPaths(p: Path) returns (r: seq<Path>)
      ensures forall k :: k in r <==> p in data && data[p].isDir && k in data && StrictlyUnder(k, p)
      ensures forall i, j :: 0 <= i < j < |r| ==> r[i] != r[j]
    {
      r := [];
      var current := Get(p);
      if current.Some? && current.value.isDir {
        var keys := data.Keys;
        while keys != {}
          invariant keys <= data.Keys
          invariant forall k :: k in r <==> k in data && k !in keys && StrictlyUnder(k, p)
          invariant forall i, j :: 0 <= i < j < |r| ==> r[i] != r[j]
          decreases keys
        {
          var key :| key in keys;
          if StrictlyUnder(key, p) {
            r := r + [key];
          }
          keys := keys - {key};
        }
      }
    }
  }
}
