/**
 * The byte quota of one browser session (apps/app-desktop/src/browser-files.ts).  Downloads and
 * uploads are numbered in the order they were accepted; `disposed` empties the `entries` map, but a
 * download's handlers keep their `info`.
 */
module BrowserFilesState {
  const DOWNLOAD_LIMIT := 33_554_432
  const UPLOAD_LIMIT := 4_194_304
  const SESSION_LIMIT := 134_217_728
  const MAX_ENTRIES := 20
  const MAX_UPLOADS := 20
  const DOWNLOAD_CHUNK := 262_144

  datatype DownloadState = Progressing | Completed | Cancelled | Interrupted
  datatype Download = Download(size: nat, state: DownloadState)
  datatype UploadState = Writing | Staged | RolledBack
  datatype Upload = Upload(bytes: nat, state: UploadState)

  datatype Files = Files(disposed: bool, downloads: seq<Download>, uploads: seq<Upload>, uploadBytes: int, uploadCount: int)

  const EMPTY := Files(false, [], [], 0, 0)

  /** `this.entries`. */
  function Entries(f: Files): seq<Download> {
    if f.disposed then [] else f.downloads
  }

  /** What one entry counts for in `reserved`. */
  function Cost(d: Download): nat {
    if d.state.Progressing? then DOWNLOAD_LIMIT else d.size
  }

  function SumCost(ds: seq<Download>): nat {
    if ds == [] then 0 else Cost(ds[0]) + SumCost(ds[1..])
  }

  /** `reserved`: the `reduce` that starts from `uploadBytes`. */
  function Reserved(f: Files): int {
    f.uploadBytes + SumCost(Entries(f))
  }

  /** `capture`; `total` is what the server announced. */
  function Capture(f: Files, total: int): Files {
    if f.disposed || |f.downloads| >= MAX_ENTRIES || total > DOWNLOAD_LIMIT || Reserved(f) + DOWNLOAD_LIMIT > SESSION_LIMIT then f
    else f.(downloads := f.downloads + [Download(0, Progressing)])
  }

  function SetDownload(f: Files, i: nat, d: Download): Files
    requires i < |f.downloads|
  {
    f.(downloads := f.downloads[i := d])
  }

  /** `fail`. */
  function Fail(f: Files, i: nat): Files
    requires i < |f.downloads|
  {
    if f.downloads[i].state.Progressing? then SetDownload(f, i, Download(0, Cancelled)) else f
  }

  /** The `updated` handler. */
  function OnUpdated(f: Files, i: nat, received: nat, interrupted: bool): Files
    requires i < |f.downloads|
  {
    if f.disposed || !f.downloads[i].state.Progressing? then f
    else
      var n := SetDownload(f, i, Download(received, Progressing));
      if received > DOWNLOAD_LIMIT || interrupted then Fail(n, i) else n
  }

  /** The `done` handler. */
  function OnDone(f: Files, i: nat, received: nat, state: DownloadState): Files
    requires i < |f.downloads|
  {
    if f.disposed || !f.downloads[i].state.Progressing? || state.Progressing? then f
    else if received > DOWNLOAD_LIMIT then Fail(SetDownload(f, i, Download(received, Progressing)), i)
    else SetDownload(f, i, Download(received, state))
  }

  /** `stageUpload` up to its write. */
  function StartUpload(f: Files, bytes: nat): Files {
    if f.disposed || bytes > UPLOAD_LIMIT || f.uploadCount >= MAX_UPLOADS || Reserved(f) + bytes > SESSION_LIMIT then f
    else f.(uploads := f.uploads + [Upload(bytes, Writing)], uploadBytes := f.uploadBytes + bytes, uploadCount := f.uploadCount + 1)
  }

  /** The write ends; a failure, or a disposal meanwhile, rolls the reservation back. */
  function EndUpload(f: Files, i: nat, ok: bool): Files
    requires i < |f.uploads|
  {
    var u := f.uploads[i];
    if ok && !f.disposed then f.(uploads := f.uploads[i := u.(state := Staged)])
    else f.(uploads := f.uploads[i := u.(state := RolledBack)], uploadBytes := f.uploadBytes - u.bytes, uploadCount := f.uploadCount - 1)
  }

  datatype Event =
    | DownloadStarts(total: int)
    | Updated(download: nat, received: nat, interrupted: bool)
    | Finished(download: nat, received: nat, state: DownloadState)
    | TimedOut(download: nat)
    | UploadStarts(bytes: nat)
    | UploadEnds(upload: nat, ok: bool)
    | Disposed

  function Step(f: Files, e: Event): Files {
    match e
    case DownloadStarts(total) => Capture(f, total)
    case Updated(i, received, interrupted) => if i < |f.downloads| then OnUpdated(f, i, received, interrupted) else f
    case Finished(i, received, state) => if i < |f.downloads| then OnDone(f, i, received, state) else f
    case TimedOut(i) => if i < |f.downloads| && !f.disposed then Fail(f, i) else f
    case UploadStarts(bytes) => StartUpload(f, bytes)
    case UploadEnds(i, ok) => if i < |f.uploads| && f.uploads[i].state.Writing? then EndUpload(f, i, ok) else f
    case Disposed => f.(disposed := true)
  }

  function Exec(f: Files, es: seq<Event>): Files
    decreases |es|
  {
    if es == [] then f else Exec(Step(f, es[0]), es[1..])
  }

  // ---------------------------------------------------------------- what every step keeps

  function HeldBytes(us: seq<Upload>): nat {
    if us == [] then 0 else (if us[0].state.RolledBack? then 0 else us[0].bytes) + HeldBytes(us[1..])
  }

  function HeldCount(us: seq<Upload>): nat {
    if us == [] then 0 else (if us[0].state.RolledBack? then 0 else 1) + HeldCount(us[1..])
  }

  ghost predicate Inv(f: Files) {
    && f.uploadBytes == HeldBytes(f.uploads) && f.uploadCount == HeldCount(f.uploads) <= MAX_UPLOADS
    && |f.downloads| <= MAX_ENTRIES
    && (forall d <- f.downloads :: d.size <= DOWNLOAD_LIMIT)
    && f.uploadBytes + SumCost(f.downloads) <= SESSION_LIMIT
  }
}
