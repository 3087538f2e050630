/** The quota proved over every interleaving, and the session as the object it is. */
module BrowserFiles {
  import opened BrowserFilesState

  // ---------------------------------------------------------------- sums

  lemma {:induction false} SumAppend(ds: seq<Download>, d: Download)
    ensures SumCost(ds + [d]) == SumCost(ds) + Cost(d)
  {
    if ds == [] {
      assert ds + [d] == [d] && [d][1..] == [];
    } else {
      assert (ds + [d])[1..] == ds[1..] + [d];
      SumAppend(ds[1..], d);
    }
  }

  lemma {:induction false} SumUpdate(ds: seq<Download>, i: nat, d: Download)
    requires i < |ds|
    ensures SumCost(ds[i := d]) == SumCost(ds) - Cost(ds[i]) + Cost(d)
  {
    if i > 0 {
      assert ds[i := d][1..] == ds[1..][i - 1 := d];
      SumUpdate(ds[1..], i - 1, d);
    } else {
      assert ds[0 := d][1..] == ds[1..];
    }
  }

  lemma {:induction false} HeldAppend(us: seq<Upload>, u: Upload)
    requires !u.state.RolledBack?
    ensures HeldBytes(us + [u]) == HeldBytes(us) + u.bytes && HeldCount(us + [u]) == HeldCount(us) + 1
  {
    if us == [] {
      assert us + [u] == [u] && [u][1..] == [];
    } else {
      assert (us + [u])[1..] == us[1..] + [u];
      HeldAppend(us[1..], u);
    }
  }

  lemma {:induction false} HeldUpdate(us: seq<Upload>, i: nat, u: Upload)
    requires i < |us| && !us[i].state.RolledBack? && u.bytes == us[i].bytes
    ensures HeldBytes(us[i := u]) == HeldBytes(us) - if u.state.RolledBack? then u.bytes else 0
    ensures HeldCount(us[i := u]) == HeldCount(us) - if u.state.RolledBack? then 1 else 0
  {
    if i > 0 {
      assert us[i := u][1..] == us[1..][i - 1 := u];
      HeldUpdate(us[1..], i - 1, u);
    } else {
      assert us[0 := u][1..] == us[1..];
    }
  }

  // ---------------------------------------------------------------- the quota

  lemma CaptureKeeps(f: Files, total: int)
    requires Inv(f)
    ensures Inv(Capture(f, total))
  {
    SumAppend(f.downloads, Download(0, Progressing));
  }

  /** A download's cost never grows: while it progresses it already counts for the limit. */
  lemma DownloadKeeps(f: Files, i: nat, received: nat, interrupted: bool, state: DownloadState)
    requires Inv(f) && i < |f.downloads|
    ensures Inv(OnUpdated(f, i, received, interrupted)) && Inv(OnDone(f, i, received, state)) && Inv(Fail(f, i))
  {
    SumUpdate(f.downloads, i, Download(received, Progressing));
    SumUpdate(f.downloads, i, Download(0, Cancelled));
    SumUpdate(f.downloads, i, Download(received, state));
    assert f.downloads[i := Download(received, Progressing)][i := Download(0, Cancelled)] == f.downloads[i := Download(0, Cancelled)];
    hide SumCost, HeldBytes, HeldCount;
    assert f.downloads[i] in f.downloads;
  }

  lemma UploadKeeps(f: Files, bytes: nat, i: nat, ok: bool)
    requires Inv(f)
    ensures Inv(StartUpload(f, bytes))
    ensures i < |f.uploads| && f.uploads[i].state.Writing? ==> Inv(EndUpload(f, i, ok))
  {
    HeldAppend(f.uploads, Upload(bytes, Writing));
    if i < |f.uploads| && f.uploads[i].state.Writing? {
      HeldUpdate(f.uploads, i, f.uploads[i].(state := Staged));
      HeldUpdate(f.uploads, i, f.uploads[i].(state := RolledBack));
    }
    hide SumCost, HeldBytes, HeldCount;
  }

  lemma StepKeeps(f: Files, e: Event)
    requires Inv(f)
    ensures Inv(Step(f, e))
  {
    hide Capture, OnUpdated, OnDone, Fail, StartUpload, EndUpload;
    match e {
      case DownloadStarts(total) => CaptureKeeps(f, total);
      case Updated(i, received, interrupted) => if i < |f.downloads| { DownloadKeeps(f, i, received, interrupted, Completed); }
      case Finished(i, received, state) => if i < |f.downloads| { DownloadKeeps(f, i, received, false, state); }
      case TimedOut(i) => if i < |f.downloads| { DownloadKeeps(f, i, 0, false, Completed); }
      case UploadStarts(bytes) => UploadKeeps(f, bytes, 0, false);
      case UploadEnds(i, ok) => UploadKeeps(f, 0, i, ok);
      case Disposed =>
    }
  }

  lemma {:induction false} ExecKeeps(f: Files, es: seq<Event>)
    requires Inv(f)
    ensures Inv(Exec(f, es))
    decreases |es|
  {
    hide Inv, Step;
    if es != [] {
      StepKeeps(f, es[0]);
      ExecKeeps(Step(f, es[0]), es[1..]);
    }
  }

  /** The downloads that progress, by number. */
  function InProgress(ds: seq<Download>): set<nat> {
    set i: nat | i < |ds| && ds[i].state.Progressing?
  }

  lemma {:induction false} ManyCost(ds: seq<Download>)
    ensures SumCost(ds) >= 33_554_432 * |InProgress(ds)|
    decreases |ds|
  {
    if ds == [] {
      assert InProgress(ds) == {};
    } else {
      var n := |ds| - 1;
      ManyCost(ds[..n]);
      assert ds == ds[..n] + [ds[n]];
      SumAppend(ds[..n], ds[n]);
      assert InProgress(ds) == InProgress(ds[..n]) + if ds[n].state.Progressing? then {n} else {};
    }
  }

  /**
   * After any interleaving: uploaded bytes, 32 MiB for every progressing download and the recorded
   * sizes of the others together never exceed 128 MiB, so at most four downloads progress at once.
   */
  lemma QuotaHolds(es: seq<Event>)
    ensures
      var f := Exec(EMPTY, es);
      && Reserved(f) <= 134_217_728
      && 0 <= f.uploadBytes == HeldBytes(f.uploads) && 0 <= f.uploadCount == HeldCount(f.uploads) <= 20
      && |Entries(f)| <= 20 && |InProgress(Entries(f))| <= 4
      && forall d <- Entries(f) :: d.size <= 33_554_432
  {
    hide Exec;
    assert Inv(EMPTY);
    ExecKeeps(EMPTY, es);
    var f := Exec(EMPTY, es);
    ManyCost(Entries(f));
    EmptyCost();
  }

  lemma EmptyCost()
    ensures SumCost([]) == 0
  {
  }

  lemma TerminalStep(f: Files, e: Event, i: nat)
    requires i < |f.downloads|
    ensures i < |Step(f, e).downloads|
    ensures !f.downloads[i].state.Progressing? ==> Step(f, e).downloads[i] == f.downloads[i]
  {
  }

  /** A download that has left `progressing` never changes again, whatever its handlers still receive. */
  lemma {:induction false} TerminalDownloadsAreFinal(f: Files, es: seq<Event>, i: nat)
    requires i < |f.downloads| && !f.downloads[i].state.Progressing?
    ensures i < |Exec(f, es).downloads| && Exec(f, es).downloads[i] == f.downloads[i]
    decreases |es|
  {
    hide Step;
    if es != [] {
      TerminalStep(f, es[0], i);
      TerminalDownloadsAreFinal(Step(f, es[0]), es[1..], i);
    }
  }

  // ---------------------------------------------------------------- the fate of a download

  /** An event that ends the i-th download, or the session it belongs to. */
  ghost predicate Ends(e: Event, i: nat) {
    match e
    case Updated(k, received, interrupted) => k == i && (received > 33_554_432 || interrupted)
    case Finished(k, _, state) => k == i && !state.Progressing?
    case TimedOut(k) => k == i
    case Disposed => true
    case _ => false
  }

  /** What such an event leaves of a download that is progressing. */
  ghost function EndedBy(e: Event, d: Download): Download {
    match e
    case Finished(_, received, state) => if received <= 33_554_432 then Download(received, state) else Download(0, Cancelled)
    case Disposed => d
    case _ => Download(0, Cancelled)
  }

  /** What has been received of it: as many bytes as its last progress event said. */
  ghost predicate LastReceived(es: seq<Event>, i: nat, size: nat, start: nat) {
    || (size == start && forall k | 0 <= k < |es| :: !(es[k].Updated? && es[k].download == i))
    || exists k | 0 <= k < |es| ::
         && es[k].Updated? && es[k].download == i && es[k].received == size
         && forall j | k < j < |es| :: !(es[j].Updated? && es[j].download == i)
  }

  lemma FateStep(f: Files, e: Event, i: nat)
    requires i < |f.downloads| && f.downloads[i].state.Progressing? && !f.disposed
    ensures i < |Step(f, e).downloads|
    ensures Ends(e, i) ==> Step(f, e).downloads[i] == EndedBy(e, f.downloads[i])
    ensures Ends(e, i) ==> Step(f, e).disposed || !Step(f, e).downloads[i].state.Progressing?
    ensures !Ends(e, i) ==>
      && !Step(f, e).disposed
      && Step(f, e).downloads[i] == Download(if e.Updated? && e.download == i then e.received else f.downloads[i].size, Progressing)
  {
    hide Reserved;
  }

  /** Until an event ends it, a download is progressing and has the size last reported. */
  lemma {:induction false} StaysProgressing(f: Files, es: seq<Event>, i: nat)
    requires i < |f.downloads| && f.downloads[i].state.Progressing? && !f.disposed
    requires forall k | 0 <= k < |es| :: !Ends(es[k], i)
    ensures
      var g := Exec(f, es);
      && i < |g.downloads| && g.downloads[i].state.Progressing? && !g.disposed
      && LastReceived(es, i, g.downloads[i].size, f.downloads[i].size)
    decreases |es|
  {
    hide Step, Ends;
    if es != [] {
      FateStep(f, es[0], i);
      var h := Step(f, es[0]);
      StaysProgressing(h, es[1..], i);
      LastReceivedAfter(es, i, Exec(f, es).downloads[i].size, f.downloads[i].size, h.downloads[i].size);
    }
  }

  lemma LastReceivedAfter(es: seq<Event>, i: nat, size: nat, start: nat, next: nat)
    requires es != [] && LastReceived(es[1..], i, size, next)
    requires next == if es[0].Updated? && es[0].download == i then es[0].received else start
    ensures LastReceived(es, i, size, start)
  {
    if k :| 0 <= k < |es| - 1
            && es[1..][k].Updated? && es[1..][k].download == i && es[1..][k].received == size
            && forall j | k < j < |es| - 1 :: !(es[1..][j].Updated? && es[1..][j].download == i) {
      assert es[k + 1] == es[1..][k];
      forall j | k + 1 < j < |es| ensures !(es[j].Updated? && es[j].download == i) {
        assert es[j] == es[1..][j - 1];
      }
    } else {
      forall j | 1 <= j < |es| ensures !(es[j].Updated? && es[j].download == i) {
        assert es[j] == es[1..][j - 1];
      }
    }
  }

  lemma EndedStays(f: Files, e: Event, i: nat)
    requires f.disposed && i < |f.downloads|
    ensures Step(f, e).disposed && i < |Step(f, e).downloads| && Step(f, e).downloads[i] == f.downloads[i]
  {
    hide Reserved;
  }

  lemma {:induction false} ClosedStays(f: Files, es: seq<Event>, i: nat)
    requires f.disposed && i < |f.downloads|
    ensures i < |Exec(f, es).downloads| && Exec(f, es).downloads[i] == f.downloads[i]
    decreases |es|
  {
    hide Step;
    if es != [] {
      EndedStays(f, es[0], i);
      ClosedStays(Step(f, es[0]), es[1..], i);
    }
  }

  lemma {:induction false} ExecSplit(f: Files, a: seq<Event>, b: seq<Event>)
    ensures Exec(f, a + b) == Exec(Exec(f, a), b)
    decreases |a|
  {
    hide Step;
    if a == [] {
      assert a + b == b;
    } else {
      assert (a + b)[1..] == a[1..] + b;
      ExecSplit(Step(f, a[0]), a[1..], b);
    }
  }

  /**
   * The first event that ends a download decides what is recorded of it for good: what arrived and the
   * state reported if it is done and fits 32 MiB, nothing and `cancelled` if it outgrew that, was
   * interrupted or timed out, and what it had when the session was closed.
   */
  lemma DownloadFate(f: Files, before: seq<Event>, e: Event, after: seq<Event>, i: nat)
    requires i < |f.downloads| && f.downloads[i] == Download(0, Progressing) && !f.disposed
    requires Ends(e, i) && forall k | 0 <= k < |before| :: !Ends(before[k], i)
    ensures
      var g := Exec(f, before + [e] + after);
      && i < |g.downloads|
      && exists size: nat :: LastReceived(before, i, size, 0) && g.downloads[i] == EndedBy(e, Download(size, Progressing))
  {
    hide Step, Ends, EndedBy, LastReceived;
    StaysProgressing(f, before, i);
    var g := Exec(f, before);
    FateStep(g, e, i);
    ExecSplit(f, before + [e], after);
    ExecSplit(f, before, [e]);
    assert Exec(g, [e]) == Step(g, e) by { assert [e][1..] == []; }
    if Step(g, e).disposed {
      ClosedStays(Step(g, e), after, i);
    } else {
      TerminalDownloadsAreFinal(Step(g, e), after, i);
    }
  }

  // ---------------------------------------------------------------- uploads

  lemma {:induction false} HeldSplit(us: seq<Upload>, i: nat)
    requires i < |us|
    ensures HeldBytes(us) == HeldBytes(us[..i]) + (if us[i].state.RolledBack? then 0 else us[i].bytes) + HeldBytes(us[i + 1..])
    ensures HeldCount(us) == HeldCount(us[..i]) + (if us[i].state.RolledBack? then 0 else 1) + HeldCount(us[i + 1..])
  {
    if i > 0 {
      assert us[..i][1..] == us[1..][..i - 1] && us[1..][i - 1 + 1..] == us[i + 1..];
      HeldSplit(us[1..], i - 1);
    } else {
      assert us[..0] == [];
    }
  }

  lemma UploadStep(f: Files, e: Event, i: nat)
    requires i < |f.uploads|
    ensures i < |Step(f, e).uploads| && Step(f, e).uploads[i].bytes == f.uploads[i].bytes
  {
    hide Capture, OnUpdated, OnDone, Fail, Reserved;
    match e {
      case DownloadStarts(total) => DownloadsLeaveUploads(f, 0, 0, false, Completed, total);
      case Updated(k, received, interrupted) => DownloadsLeaveUploads(f, k, received, interrupted, Completed, 0);
      case Finished(k, received, state) => DownloadsLeaveUploads(f, k, received, false, state, 0);
      case TimedOut(k) => DownloadsLeaveUploads(f, k, 0, false, Completed, 0);
      case _ =>
    }
  }

  /** What happens to downloads leaves uploads and their reservation alone. */
  lemma DownloadsLeaveUploads(f: Files, k: nat, received: nat, interrupted: bool, state: DownloadState, total: int)
    ensures Capture(f, total).uploads == f.uploads && Capture(f, total).uploadBytes == f.uploadBytes
    ensures k < |f.downloads| ==> OnUpdated(f, k, received, interrupted).uploads == f.uploads && OnDone(f, k, received, state).uploads == f.uploads
    ensures k < |f.downloads| ==> Fail(f, k).uploads == f.uploads
  {
    hide Reserved;
  }

  lemma {:induction false} UploadStays(f: Files, es: seq<Event>, i: nat)
    requires i < |f.uploads|
    ensures i < |Exec(f, es).uploads| && Exec(f, es).uploads[i].bytes == f.uploads[i].bytes
    decreases |es|
  {
    hide Step;
    if es != [] {
      UploadStep(f, es[0], i);
      UploadStays(Step(f, es[0]), es[1..], i);
    }
  }

  /** Bytes and count held by the uploads other than the i-th. */
  function HeldByOthers(us: seq<Upload>, i: nat): (nat, nat)
    requires i < |us|
  {
    (HeldBytes(us[..i]) + HeldBytes(us[i + 1..]), HeldCount(us[..i]) + HeldCount(us[i + 1..]))
  }

  /**
   * An upload that fails, or outlives its session, gives back exactly what it took when it started,
   * whatever uploads and downloads did meanwhile: what remains reserved is what the others hold.
   */
  lemma RollbackRestores(before: seq<Event>, bytes: nat, meanwhile: seq<Event>, ok: bool)
    requires var f := Exec(EMPTY, before); StartUpload(f, bytes) != f
    requires
      var f := Exec(EMPTY, before);
      var g := Exec(StartUpload(f, bytes), meanwhile);
      |f.uploads| < |g.uploads| && g.uploads[|f.uploads|].state.Writing? && (!ok || g.disposed)
    ensures
      var f := Exec(EMPTY, before);
      var i := |f.uploads|;
      var g := Exec(StartUpload(f, bytes), meanwhile);
      var undone := Step(g, UploadEnds(i, ok));
      && undone.uploadBytes == g.uploadBytes - bytes && undone.uploadCount == g.uploadCount - 1
      && (undone.uploadBytes, undone.uploadCount) == HeldByOthers(g.uploads, i)
      && Reserved(undone) == Reserved(g) - bytes && undone.downloads == g.downloads
      && |undone.uploads| == |g.uploads| && forall k | 0 <= k < |g.uploads| && k != i :: undone.uploads[k] == g.uploads[k]
  {
    hide Exec, Inv, Step, StartUpload, HeldByOthers, Reserved;
    EmptyInv();
    ExecKeeps(EMPTY, before);
    var f := Exec(EMPTY, before);
    UploadKeeps(f, bytes, 0, false);
    Reserves(f, bytes);
    var started := StartUpload(f, bytes);
    ExecKeeps(started, meanwhile);
    UploadStays(started, meanwhile, |f.uploads|);
    var g := Exec(started, meanwhile);
    RollbackMeans(g, |f.uploads|, ok);
  }

  lemma EmptyInv()
    ensures Inv(EMPTY)
  {
  }

  /** An accepted upload is the last one, and takes its bytes. */
  lemma Reserves(f: Files, bytes: nat)
    requires StartUpload(f, bytes) != f
    ensures StartUpload(f, bytes).uploads == f.uploads + [Upload(bytes, Writing)]
  {
    hide Reserved;
  }

  /** What is left after a rollback: every other upload and download as it was, and what they hold. */
  lemma RollbackMeans(g: Files, i: nat, ok: bool)
    requires Inv(g) && i < |g.uploads| && g.uploads[i].state.Writing? && (!ok || g.disposed)
    ensures
      var undone := Step(g, UploadEnds(i, ok));
      && undone.uploadBytes == g.uploadBytes - g.uploads[i].bytes && undone.uploadCount == g.uploadCount - 1
      && (undone.uploadBytes, undone.uploadCount) == HeldByOthers(g.uploads, i)
      && Reserved(undone) == Reserved(g) - g.uploads[i].bytes && undone.downloads == g.downloads
      && |undone.uploads| == |g.uploads| && forall k | 0 <= k < |g.uploads| && k != i :: undone.uploads[k] == g.uploads[k]
  {
    HeldSplit(g.uploads, i);
    hide HeldBytes, HeldCount, SumCost;
  }

  // ---------------------------------------------------------------- reading a download

  /** What `read` returns for an offset within the file. */
  function Chunk(content: seq<bv8>, offset: nat): (r: seq<bv8>)
    requires offset <= |content|
    ensures |r| <= DOWNLOAD_CHUNK && (offset < |content| ==> r != [])
  {
    var n := if |content| - offset < DOWNLOAD_CHUNK then |content| - offset else DOWNLOAD_CHUNK;
    content[offset..offset + n]
  }

  /** Reading from each offset the previous answer leads to gives back the file. */
  method ReadAll(content: seq<bv8>) returns (data: seq<bv8>)
    ensures data == content
  {
    data := [];
    while |data| < |content|
      invariant |data| <= |content| && data == content[..|data|]
    {
      data := data + Chunk(content, |data|);
    }
  }

  // ---------------------------------------------------------------- the object

  class BrowserFiles {
    var disposed: bool
    var downloads: seq<Download>
    var uploadBytes: int
    var uploadCount: int
    var uploads: seq<Upload>

    ghost function Model(): Files
      reads this
    {
      Files(disposed, downloads, uploads, uploadBytes, uploadCount)
    }

    ghost predicate Valid()
      reads this
    {
      Inv(Model())
    }

    constructor ()
      ensures Valid() && Model() == EMPTY
    {
      disposed, downloads, uploads, uploadBytes, uploadCount := false, [], [], 0, 0;
    }

    /** The `reduce` over `entries.values()`. */
    method ReservedBytes() returns (sum: int)
      ensures sum == Reserved(Model())
    {
      sum := uploadBytes;
      if disposed { return; }
      for i := 0 to |downloads|
        invariant sum == uploadBytes + SumCost(downloads[..i])
      {
        assert downloads[..i + 1] == downloads[..i] + [downloads[i]];
        SumAppend(downloads[..i], downloads[i]);
        sum := sum + if downloads[i].state.Progressing? then DOWNLOAD_LIMIT else downloads[i].size;
      }
      assert downloads[..|downloads|] == downloads;
    }

    /** `capture`: whether the download is allowed to proceed. */
    method CaptureItem(total: int) returns (accepted: bool)
      requires Valid()
      modifies this
      ensures Valid() && Model() == Step(old(Model()), DownloadStarts(total))
      ensures accepted <==> old(!disposed && |downloads| < 20 && total <= 33_554_432 && Reserved(Model()) + 33_554_432 <= 134_217_728)
      ensures Model() == if accepted then old(Model()).(downloads := old(downloads) + [Download(0, Progressing)]) else old(Model())
    {
      StepKeeps(Model(), DownloadStarts(total));
      var reserved := ReservedBytes();
      if disposed || |downloads| >= MAX_ENTRIES || total > DOWNLOAD_LIMIT || reserved + DOWNLOAD_LIMIT > SESSION_LIMIT {
        return false;
      }
      downloads := downloads + [Download(0, Progressing)];
      return true;
    }

    /** `fail`. */
    method FailItem(i: nat)
      requires i < |downloads|
      modifies `downloads
      ensures Model() == Fail(old(Model()), i)
    {
      if downloads[i].state.Progressing? {
        downloads := downloads[i := Download(0, Cancelled)];
      }
    }

    /** The `updated` handler. */
    method ItemUpdated(i: nat, received: nat, interrupted: bool)
      requires Valid() && i < |downloads|
      modifies this
      ensures Valid() && Model() == Step(old(Model()), Updated(i, received, interrupted))
    {
      StepKeeps(Model(), Updated(i, received, interrupted));
      hide Inv;
      if disposed || !downloads[i].state.Progressing? { return; }
      downloads := downloads[i := Download(received, Progressing)];
      if received > DOWNLOAD_LIMIT { FailItem(i); return; }
      if interrupted { FailItem(i); }
    }

    /** The `done` handler. */
    method ItemDone(i: nat, received: nat, state: DownloadState)
      requires Valid() && i < |downloads| && !state.Progressing?
      modifies this
      ensures Valid() && Model() == Step(old(Model()), Finished(i, received, state))
    {
      StepKeeps(Model(), Finished(i, received, state));
      hide Inv;
      if disposed || !downloads[i].state.Progressing? { return; }
      ghost var before := downloads;
      downloads := downloads[i := Download(received, Progressing)];
      if received > DOWNLOAD_LIMIT { FailItem(i); return; }
      downloads := downloads[i := Download(received, state)];
      assert downloads == before[i := Download(received, state)];
    }

    /** `stageUpload` up to its write: whether the reservation was made. */
    method BeginUpload(bytes: nat) returns (accepted: bool)
      requires Valid()
      modifies this
      ensures Valid() && Model() == Step(old(Model()), UploadStarts(bytes))
      ensures accepted <==> old(!disposed && bytes <= 4_194_304 && uploadCount < 20 && Reserved(Model()) + bytes <= 134_217_728)
      ensures accepted ==> uploads == old(uploads) + [Upload(bytes, Writing)] && downloads == old(downloads)
      ensures accepted ==> uploadBytes == old(uploadBytes) + bytes && uploadCount == old(uploadCount) + 1
      ensures !accepted ==> Model() == old(Model())
    {
      StepKeeps(Model(), UploadStarts(bytes));
      var reserved := ReservedBytes();
      if disposed || bytes > UPLOAD_LIMIT || uploadCount >= MAX_UPLOADS || reserved + bytes > SESSION_LIMIT { return false; }
      uploads := uploads + [Upload(bytes, Writing)];
      uploadBytes := uploadBytes + bytes;
      uploadCount := uploadCount + 1;
      return true;
    }

    /** `stageUpload` after its write. */
    method FinishUpload(i: nat, ok: bool)
      requires Valid() && i < |uploads| && uploads[i].state.Writing?
      modifies this
      ensures Valid() && Model() == Step(old(Model()), UploadEnds(i, ok))
      ensures uploads == old(uploads)[i := old(uploads[i]).(state := if ok && !disposed then Staged else RolledBack)]
      ensures disposed == old(disposed) && downloads == old(downloads)
      ensures ok && !disposed ==> uploadBytes == old(uploadBytes) && uploadCount == old(uploadCount)
      ensures !(ok && !disposed) ==> uploadBytes == old(uploadBytes) - old(uploads[i]).bytes && uploadCount == old(uploadCount) - 1
    {
      StepKeeps(Model(), UploadEnds(i, ok));
      hide SumCost, HeldBytes, HeldCount;
      var upload := uploads[i];
      if ok && !disposed {
        uploads := uploads[i := upload.(state := Staged)];
      } else {
        uploads := uploads[i := upload.(state := RolledBack)];
        uploadBytes := uploadBytes - upload.bytes;
        uploadCount := uploadCount - 1;
      }
    }

    /** `dispose`. */
    method Dispose()
      requires Valid()
      modifies this
      ensures Valid() && Model() == Step(old(Model()), Disposed)
    {
      disposed := true;
    }
  }
}
