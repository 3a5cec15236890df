/**
 * `download_file`: one GET whose reply is streamed into a local file. The
 * network is an oracle: the `Response` a GET of a URL gets.
 */
module Fetch {
  import opened Optional
  import opened FileSystem

  /**
   * What `requests.get(url, stream=True)` yields: it raises a
   * `RequestException` (connection error, bad URL, ...), or a reply with a
   * status and the body in chunks; `broken` says the stream raised after
   * delivering those chunks.
   */
  datatype Response = RequestFailed | Reply(status: int, chunks: seq<Bytes>, broken: bool)

  /** `raise_for_status` raises for client and server error statuses. */
  predicate IsHttpError(status: int)
  {
    400 <= status < 600
  }

  /** The reply passes the status check and its body arrives whole. */
  predicate Delivered(resp: Response)
  {
    resp.Reply? && !IsHttpError(resp.status) && !resp.broken
  }

  /** The body as written, chunk after chunk. */
  function Concat(chunks: seq<Bytes>): Bytes
  {
    if chunks == [] then [] else Concat(chunks[..|chunks| - 1]) + chunks[|chunks| - 1]
  }

  /** `open(target, 'wb')` succeeds: the parent directory exists and `target` is not a directory. */
  predicate Writable(dirs: set<Path>, target: Path)
  {
    target != [] && Parent(target) in dirs && target !in dirs
  }

  /** The result of one `download_file`: its return value and what it left in `target`, if it opened it. */
  datatype Transfer = Transfer(ok: bool, saved: Option<Bytes>)

  /**
   * `download_file(url, target)` once the GET for `url` got `resp`: it
   * returns True exactly when the reply passed the status check, the file
   * could be opened and the whole body was written; every failure returns
   * False and raises nothing.
   */
  function Download(dirs: set<Path>, target: Path, resp: Response): (t: Transfer)
    ensures t.ok <==> Delivered(resp) && Writable(dirs, target)
    ensures t.saved.Some? <==> resp.Reply? && !IsHttpError(resp.status) && Writable(dirs, target)
    ensures t.saved.Some? ==> t.saved.value == Concat(resp.chunks)
  {
    if resp.RequestFailed? || IsHttpError(resp.status) || !Writable(dirs, target) then Transfer(false, None)
    else Transfer(!resp.broken, Some(Concat(resp.chunks)))
  }

  /** The filesystem after a transfer into `target`. */
  function Store(d: Disk, target: Path, t: Transfer): Disk
  {
    if t.saved.Some? then d.(files := d.files[target := t.saved.value]) else d
  }

  /**
   * What one `download_file` does to the filesystem: no directory changes,
   * no file other than `target` appears or changes, and a call that
   * returns True leaves `target` holding exactly the reply body, whatever
   * was there before (`'wb'` truncates). A well-formed filesystem stays
   * well formed.
   */
  lemma StoreOfDownload(d: Disk, target: Path, resp: Response)
    ensures var s := Store(d, target, Download(d.dirs, target, resp));
            && s.dirs == d.dirs
            && s.files.Keys <= d.files.Keys + {target}
            && (forall f | f in d.files && f != target :: f in s.files && s.files[f] == d.files[f])
            && (Download(d.dirs, target, resp).ok ==> target in s.files && s.files[target] == Concat(resp.chunks))
            && (WellFormed(d) ==> WellFormed(s))
  {
  }
}
