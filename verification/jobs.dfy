/** The entities every component shares: job records, storage keys and the bytes behind them. */
module Jobs {

  import opened Wrappers
  import opened Timestamps

  type Id = string

  datatype Status = Uploading | Validating | Pending | Processing | Completed | Failed

  predicate Terminal(s: Status) {
    s == Completed || s == Failed
  }

  /** Accepted by the complete endpoint and not finished yet. */
  predicate InFlight(s: Status) {
    s == Validating || s == Pending || s == Processing
  }

  function Rank(s: Status): nat {
    match s
    case Uploading => 0
    case Validating => 1
    case Pending => 2
    case Processing => 3
    case Completed => 4
    case Failed => 4
  }

  datatype Kind = MP4 | HLS

  /** One object in storage: the uploaded original, an .mp4 rendition, or a file of the HLS tree. */
  datatype Key = Raw(id: Id, name: string) | Rendition(id: Id, name: string) | TreeFile(id: Id, path: string)

  /** What uploaded bytes determine: their size, whether they have sound, the renditions that are planned for
      them and the files that the HLS packager writes for them. */
  datatype Content = Content(size: int, hasAudio: bool, renditions: seq<string>, tree: seq<string>)

  const MASTER := "master.m3u8"
  const AUDIO := "audio/playlist.m3u8"

  /** The playlist of a rendition, by the name the record lists it under. */
  function PlaylistOf(name: string): string {
    name + "/playlist.m3u8"
  }

  /** The plan is never empty, and the packager's tree holds the master playlist, the playlist of every
      rendition and, where there is sound, that of the audio. */
  predicate Packaged(c: Content) {
    && c.renditions != []
    && MASTER in c.tree
    && (c.hasAudio ==> AUDIO in c.tree)
    && forall i :: 0 <= i < |c.renditions| ==> PlaylistOf(HlsDir(c.renditions[i])) in c.tree
  }

  type Video = c: Content | Packaged(c)
    witness Content(0, false, ["source"], [MASTER, PlaylistOf(HlsDir("source"))])

  datatype Record = Record(id: Id, kind: Kind, status: Status, progress: int, rawKey: Key,
                           masterKey: Option<Key>, outputs: seq<string>, createdAt: Instant)

  /** a and b are records of the same upload session: the fields no writer changes agree. */
  predicate SameSession(a: Record, b: Record) {
    a.id == b.id && a.kind == b.kind && a.rawKey == b.rawKey && a.createdAt == b.createdAt
  }

  /** The renditions of an HLS job are named after their directory, where "source" becomes "native". */
  function HlsDir(name: string): string {
    if name == "source" then "native" else name
  }

  /** The keys a worker uploads for a video, in upload order. */
  function Uploads(kind: Kind, id: Id, v: Video): (keys: seq<Key>)
    ensures forall k :: k in keys ==> k.id == id && !k.Raw?
  {
    match kind
    case MP4 => seq(|v.renditions|, i requires 0 <= i < |v.renditions| => Rendition(id, v.renditions[i]))
    case HLS => seq(|v.tree|, i requires 0 <= i < |v.tree| => TreeFile(id, v.tree[i]))
  }

  function OutputNames(kind: Kind, v: Video): seq<string> {
    match kind
    case MP4 => v.renditions
    case HLS => seq(|v.renditions|, i requires 0 <= i < |v.renditions| => HlsDir(v.renditions[i]))
  }

  function MasterKey(kind: Kind, id: Id): Option<Key> {
    match kind
    case MP4 => None
    case HLS => Some(TreeFile(id, MASTER))
  }
}
