/** DownloadManager: per-package download tasks. It creates downloaders with
    the configured concurrency and retry budget, keeps the downloaders that are
    running in an active list, forwards their progress and error reports as
    task events, and pauses, resumes or cancels every active downloader at once. */
module Download {
  import opened Common
  import opened Settings
  import opened Library

  /** The library's `DownloadUpdateData` handed to a downloader's update callback. */
  datatype UpdateData = UpdateData(totalDownloadCount: int, currentDownloadCount: int,
                                   totalDownloadBytes: int, currentDownloadBytes: int)

  /** The library's `DownloadErrorData` handed to a downloader's error callback. */
  datatype ErrorData = ErrorData(fileName: string, errorInfo: string)

  /** One callback a running downloader makes, in the order it makes them. */
  datatype Report = UpdateReport(update: UpdateData) | ErrorReport(error: ErrorData)

  /** The wrapper's `DownloadProgress`. */
  datatype DownloadProgress = DownloadProgress(totalCount: int, currentCount: int, totalBytes: int, currentBytes: int)

  /** An event a download manager raises: `OnTaskProgress`, `OnTaskComplete`, `OnTaskError`. */
  datatype TaskEvent =
    | TaskProgress(taskId: string, progress: DownloadProgress)
    | TaskComplete(taskId: string)
    | TaskError(taskId: string, message: string)

  /** The progress record built from the library's update data: the four
      counters, copied unchanged. */
  function ProgressOf(data: UpdateData): (p: DownloadProgress)
    ensures p.totalCount == data.totalDownloadCount && p.currentCount == data.currentDownloadCount
    ensures p.totalBytes == data.totalDownloadBytes && p.currentBytes == data.currentDownloadBytes
  {
    DownloadProgress(data.totalDownloadCount, data.currentDownloadCount, data.totalDownloadBytes, data.currentDownloadBytes)
  }

  /** The error text raised for a failed file: `"{fileName}: {errorInfo}"`. */
  function ErrorLine(fileName: string, errorInfo: string): string {
    fileName + ": " + errorInfo
  }

  /** Lemma: the error text determines the file and the error whenever the
      file name holds no ':' (the first ':' ends the file name). */
  lemma ErrorLineInjective(f1: string, e1: string, f2: string, e2: string)
    requires ':' !in f1 && ':' !in f2
    requires ErrorLine(f1, e1) == ErrorLine(f2, e2)
    ensures f1 == f2 && e1 == e2
  {
    var line := ErrorLine(f1, e1);
    FirstColon(f1, e1);
    FirstColon(f2, e2);
    assert |f1| == |f2|;
    assert f1 == line[..|f1|] == f2;
    assert e1 == line[|f1| + 2..] == e2;
  }

  /** In the error text of a file name without ':', the first ':' is the one
      right after the file name. */
  lemma FirstColon(f: string, e: string)
    requires ':' !in f
    ensures |ErrorLine(f, e)| > |f| && ErrorLine(f, e)[|f|] == ':'
    ensures forall i :: 0 <= i < |f| ==> ErrorLine(f, e)[i] != ':'
  {
    assert forall i :: 0 <= i < |f| ==> ErrorLine(f, e)[i] == f[i];
  }

  /** The event a report of task `taskId` raises. */
  function ReportEvent(taskId: string, r: Report): (e: TaskEvent)
    ensures e.taskId == taskId && !e.TaskComplete?
    ensures r.UpdateReport? <==> e.TaskProgress?
    ensures r.UpdateReport? ==> e.progress == ProgressOf(r.update)
    ensures r.ErrorReport? ==> e == TaskError(taskId, ErrorLine(r.error.fileName, r.error.errorInfo))
  {
    match r
    case UpdateReport(data) => TaskProgress(taskId, ProgressOf(data))
    case ErrorReport(data) => TaskError(taskId, ErrorLine(data.fileName, data.errorInfo))
  }

  /** The events a run of reports raises, one per report, in order. */
  function ReportEvents(taskId: string, reports: seq<Report>): (es: seq<TaskEvent>)
    ensures |es| == |reports|
    ensures forall i :: 0 <= i < |es| ==> es[i] == ReportEvent(taskId, reports[i])
  {
    seq(|reports|, i requires 0 <= i < |reports| => ReportEvent(taskId, reports[i]))
  }

  /** Every event `ExecuteDownload` raises for a downloader that finds
      `totalCount` files, reports `reports` and finishes with `outcome`. */
  function ExecuteEvents(taskId: string, totalCount: int, reports: seq<Report>, outcome: Op): seq<TaskEvent> {
    if totalCount == 0 then [TaskComplete(taskId)]
    else ReportEvents(taskId, reports) + (if outcome.Succeeded? then [TaskComplete(taskId)] else [])
  }

  /** Lemma: a task completes, exactly once and as the last event, precisely
      when there was nothing to download or the download succeeded; every
      event belongs to the download task. */
  lemma ExecuteEventsComplete(taskId: string, totalCount: int, reports: seq<Report>, outcome: Op)
    ensures var es := ExecuteEvents(taskId, totalCount, reports, outcome);
      (TaskComplete(taskId) in es <==> totalCount == 0 || outcome.Succeeded?)
    ensures var es := ExecuteEvents(taskId, totalCount, reports, outcome);
      (totalCount == 0 || outcome.Succeeded?) ==>
        es[|es| - 1] == TaskComplete(taskId) && forall i :: 0 <= i < |es| - 1 ==> !es[i].TaskComplete?
    ensures var es := ExecuteEvents(taskId, totalCount, reports, outcome);
      forall i :: 0 <= i < |es| ==> es[i].taskId == taskId
  {
    var es := ExecuteEvents(taskId, totalCount, reports, outcome);
    if totalCount != 0 {
      var rs := ReportEvents(taskId, reports);
      assert forall i :: 0 <= i < |rs| ==> !rs[i].TaskComplete?;
    }
  }

  /** An event of the `IDownloadMonitor` interface: `OnProgressChanged`,
      `OnDownloadError`, `OnDownloadComplete`. */
  datatype MonitorEvent = ProgressChanged(progress: DownloadProgress) | DownloadError(message: string) | DownloadComplete

  /** The monitor event the progress or error callback raises for one report. */
  function MonitorEventOf(r: Report): (e: MonitorEvent)
    ensures r.UpdateReport? <==> e.ProgressChanged?
    ensures r.UpdateReport? ==> e.progress == ProgressOf(r.update)
    ensures r.ErrorReport? ==> e == DownloadError(ErrorLine(r.error.fileName, r.error.errorInfo))
  {
    match r
    case UpdateReport(data) => ProgressChanged(ProgressOf(data))
    case ErrorReport(data) => DownloadError(ErrorLine(data.fileName, data.errorInfo))
  }

  /** The monitor events a run of reports raises, one per report, in order;
      none of them is a completion. */
  function MonitorEvents(reports: seq<Report>): (es: seq<MonitorEvent>)
    ensures |es| == |reports|
    ensures forall i :: 0 <= i < |es| ==> es[i] == MonitorEventOf(reports[i]) && !es[i].DownloadComplete?
  {
    seq(|reports|, i requires 0 <= i < |reports| => MonitorEventOf(reports[i]))
  }

  /** `CurrentProgress` after a run of reports: the progress of the last update
      report, or `p` when there is none. */
  function LastProgress(p: DownloadProgress, reports: seq<Report>): (r: DownloadProgress)
    ensures (forall i :: 0 <= i < |reports| ==> !reports[i].UpdateReport?) ==> r == p
    decreases |reports|
  {
    if reports == [] then p
    else
      var n := |reports| - 1;
      if reports[n].UpdateReport? then ProgressOf(reports[n].update)
      else
        assert forall i :: 0 <= i < n ==> reports[..n][i] == reports[i];
        LastProgress(p, reports[..n])
  }

  /** Lemma: after a run of reports, the progress is that of the last update
      report among them. */
  lemma {:induction false} LastProgressIsLastUpdate(p: DownloadProgress, reports: seq<Report>, k: nat)
    requires k < |reports| && reports[k].UpdateReport?
    requires forall j :: k < j < |reports| ==> !reports[j].UpdateReport?
    ensures LastProgress(p, reports) == ProgressOf(reports[k].update)
    decreases |reports|
  {
    var n := |reports| - 1;
    if k < n {
      assert forall j :: k < j < n ==> reports[..n][j] == reports[j];
      LastProgressIsLastUpdate(p, reports[..n], k);
    }
  }

  /** The position of the first occurrence of `d` in `s`. */
  function FirstIndex(s: seq<Downloader>, d: Downloader): (k: nat)
    requires d in s
    ensures k < |s| && s[k] == d && d !in s[..k]
    decreases |s|
  {
    if s[0] == d then 0
    else
      var k := FirstIndex(s[1..], d) + 1;
      assert s[..k] == [s[0]] + s[1..][..k - 1];
      k
  }

  /** `List.Remove(d)`: the list without the first occurrence of `d`, or the
      list itself when `d` is not in it. */
  function RemoveFirst(s: seq<Downloader>, d: Downloader): (r: seq<Downloader>)
    ensures d !in s ==> r == s
    ensures d in s ==> |r| == |s| - 1
    ensures multiset(r) == multiset(s) - multiset{d}
    decreases |s|
  {
    if s == [] then []
    else
      assert s == [s[0]] + s[1..];
      if s[0] == d then s[1..]
      else [s[0]] + RemoveFirst(s[1..], d)
  }

  /** Lemma: `List.Remove(d)` deletes exactly the first occurrence of `d` and
      keeps every other downloader in its order. */
  lemma {:induction false} RemoveFirstDeletesFirst(s: seq<Downloader>, d: Downloader)
    requires d in s
    ensures RemoveFirst(s, d) == s[..FirstIndex(s, d)] + s[FirstIndex(s, d) + 1..]
    decreases |s|
  {
    var t := s[1..];
    if s[0] == d {
      assert s[..0] + s[1..] == t;
    } else {
      assert d in t by { assert s == [s[0]] + t; }
      var k := FirstIndex(t, d);
      assert FirstIndex(s, d) == k + 1;
      assert RemoveFirst(t, d) == t[..k] + t[k + 1..] by { RemoveFirstDeletesFirst(t, d); }
      SlicesOfTail(s, k);
      AppendAssoc([s[0]], t[..k], t[k + 1..]);
    }
  }

  /** Slicing the tail of a list, written as slices of the list itself. */
  lemma SlicesOfTail<T>(s: seq<T>, k: nat)
    requires k + 2 <= |s|
    ensures s[..k + 1] == [s[0]] + s[1..][..k] && s[k + 2..] == s[1..][k + 1..]
  {
  }

  /** Lemma: removing a downloader just appended to a list it was not in gives
      back the list as it was before. */
  lemma {:induction false} RemoveFirstOfAppended(s: seq<Downloader>, d: Downloader)
    requires d !in s
    ensures RemoveFirst(s + [d], d) == s
    decreases |s|
  {
    if s == [] {
      assert [] + [d] == [d];
    } else {
      assert (s + [d])[0] == s[0];
      assert (s + [d])[1..] == s[1..] + [d];
      RemoveFirstOfAppended(s[1..], d);
      assert s == [s[0]] + s[1..];
    }
  }

  class DownloadManager {
    const lib: YooAssets
    const package: string
    const settings: YooAssetSettings
    /** `_activeDownloaders`. */
    var active: seq<Downloader>
    /** The download-task events raised so far. */
    var events: seq<TaskEvent>

    constructor (lib: YooAssets, package: string, settings: YooAssetSettings)
      ensures this.lib == lib && this.package == package && this.settings == settings
      ensures active == [] && events == []
    {
      this.lib := lib;
      this.package := package;
      this.settings := settings;
      active := [];
      events := [];
    }

    /** `HasActiveDownloads`. */
    function HasActiveDownloads(): (r: bool)
      reads this
      ensures r <==> active != []
    {
      |active| > 0
    }

    /** `DownloadByTagsAsync` / `DownloadByPathsAsync`: a downloader with the
        configured concurrency and retries, run as a task. The new downloader
        is not active afterwards, whatever the outcome. */
    method Download(taskId: string, selection: Selection, scan: Scan, reports: seq<Report>, outcome: Op)
      returns (ok: bool)
      requires selection.ByTags? || selection.ByPaths?
      modifies this, lib
      ensures ok <==> scan.count == 0 || outcome.Succeeded?
      ensures active == old(active)
      ensures events == old(events) + ExecuteEvents(taskId, scan.count, reports, outcome)
      ensures lib.created == old(lib.created) + 1
      ensures lib.trace == old(lib.trace)
                + [CreateCall(old(lib.created), package, selection, DownloadingMaxNum(settings), FailedTryAgain(settings))]
                + (if scan.count == 0 then [] else [BeginCall(old(lib.created))])
      ensures scan.count == 0 ==> lib.finished == old(lib.finished)
      ensures scan.count != 0 ==> lib.finished == old(lib.finished) + {old(lib.created)}
      ensures lib.initialized == old(lib.initialized) && lib.packages == old(lib.packages)
      ensures lib.defaultPackage == old(lib.defaultPackage)
    {
      var d := lib.NewDownloader(package, selection, DownloadingMaxNum(settings), FailedTryAgain(settings), scan);
      ok := ExecuteDownload(taskId, d, reports, outcome);
      if d.totalCount != 0 {
        RemoveFirstOfAppended(old(active), d);
      }
    }

    /** `ExecuteDownload(taskId, downloader)`: nothing to fetch completes the download task
        at once; otherwise the downloader is active from before it begins until
        it is done, and the download task completes only on success. */
    method ExecuteDownload(taskId: string, d: Downloader, reports: seq<Report>, outcome: Op) returns (ok: bool)
      modifies this, lib
      ensures ok <==> d.totalCount == 0 || outcome.Succeeded?
      ensures events == old(events) + ExecuteEvents(taskId, d.totalCount, reports, outcome)
      ensures d.totalCount == 0 ==> active == old(active) && lib.trace == old(lib.trace) && lib.finished == old(lib.finished)
      ensures d.totalCount != 0 ==>
                active == RemoveFirst(old(active) + [d], d)
                && lib.trace == old(lib.trace) + [BeginCall(d.id)]
                && lib.finished == old(lib.finished) + {d.id}
      ensures lib.initialized == old(lib.initialized) && lib.packages == old(lib.packages)
      ensures lib.defaultPackage == old(lib.defaultPackage) && lib.created == old(lib.created)
    {
      if d.totalCount == 0 {
        events := events + [TaskComplete(taskId)];
        return true;
      }
      Begin(d);
      ok := Finish(taskId, d, reports, outcome);
    }

    /** The first half of `ExecuteDownload`, up to its await: the downloader
        joins the active list, then begins. */
    method Begin(d: Downloader)
      modifies this, lib
      ensures active == old(active) + [d] && d in active
      ensures events == old(events)
      ensures lib.trace == old(lib.trace) + [BeginCall(d.id)]
      ensures lib.initialized == old(lib.initialized) && lib.packages == old(lib.packages)
      ensures lib.defaultPackage == old(lib.defaultPackage) && lib.created == old(lib.created)
      ensures lib.finished == old(lib.finished)
    {
      active := active + [d];
      lib.Begin(d);
    }

    /** The second half of `ExecuteDownload`: the downloader's reports while it
        runs, then, once it is done, it leaves the active list and the download task
        completes if it succeeded. */
    method Finish(taskId: string, d: Downloader, reports: seq<Report>, outcome: Op) returns (ok: bool)
      modifies this, lib
      ensures ok <==> outcome.Succeeded?
      ensures active == RemoveFirst(old(active), d)
      ensures events == old(events) + ReportEvents(taskId, reports) + (if ok then [TaskComplete(taskId)] else [])
      ensures lib.finished == old(lib.finished) + {d.id}
      ensures lib.trace == old(lib.trace)
      ensures lib.initialized == old(lib.initialized) && lib.packages == old(lib.packages)
      ensures lib.defaultPackage == old(lib.defaultPackage) && lib.created == old(lib.created)
    {
      events := events + ReportEvents(taskId, reports);
      var status := lib.AwaitDownload(d, outcome);
      active := RemoveFirst(active, d);
      ok := status.Succeeded?;
      if ok {
        events := events + [TaskComplete(taskId)];
      }
    }

    /** `GetDownloadSizeBy*` / `GetDownloadCountBy*`: a probe downloader with
        concurrency and retries 1, never begun; the download task list is untouched. */
    method Query(selection: Selection, scan: Scan) returns (count: int, bytes: int)
      requires selection.ByTags? || selection.ByPaths?
      modifies lib
      ensures count == scan.count && bytes == scan.bytes
      ensures lib.created == old(lib.created) + 1
      ensures lib.trace == old(lib.trace) + [CreateCall(old(lib.created), package, selection, 1, 1)]
      ensures lib.initialized == old(lib.initialized) && lib.packages == old(lib.packages)
      ensures lib.defaultPackage == old(lib.defaultPackage) && lib.finished == old(lib.finished)
    {
      var d := lib.NewDownloader(package, selection, 1, 1, scan);
      count, bytes := d.totalCount, d.totalBytes;
    }

    /** The `foreach` of `PauseAll`, `ResumeAll` and `CancelAll`: the call to every
        active downloader, in list order. */
    method Broadcast(kind: ControlKind)
      modifies lib
      ensures lib.trace == old(lib.trace) + Each(active, kind)
      ensures lib.initialized == old(lib.initialized) && lib.packages == old(lib.packages)
      ensures lib.defaultPackage == old(lib.defaultPackage) && lib.created == old(lib.created)
      ensures lib.finished == old(lib.finished)
    {
      var i := 0;
      while i < |active|
        invariant 0 <= i <= |active|
        invariant lib.trace == old(lib.trace) + Each(active[..i], kind)
        invariant lib.initialized == old(lib.initialized) && lib.packages == old(lib.packages)
        invariant lib.defaultPackage == old(lib.defaultPackage) && lib.created == old(lib.created)
        invariant lib.finished == old(lib.finished)
      {
        lib.Control(kind, active[i]);
        assert Each(active[..i + 1], kind) == Each(active[..i], kind) + [ControlCall(kind, active[i])];
        i := i + 1;
      }
      assert active[..|active|] == active;
    }

    /** `PauseAll`: every active downloader is paused; the list is unchanged. */
    method PauseAll()
      modifies lib
      ensures lib.trace == old(lib.trace) + Each(active, Pause)
      ensures lib.initialized == old(lib.initialized) && lib.packages == old(lib.packages)
      ensures lib.defaultPackage == old(lib.defaultPackage) && lib.created == old(lib.created)
      ensures lib.finished == old(lib.finished)
    {
      Broadcast(Pause);
    }

    /** `ResumeAll`: every active downloader is resumed; the list is unchanged. */
    method ResumeAll()
      modifies lib
      ensures lib.trace == old(lib.trace) + Each(active, Resume)
      ensures lib.initialized == old(lib.initialized) && lib.packages == old(lib.packages)
      ensures lib.defaultPackage == old(lib.defaultPackage) && lib.created == old(lib.created)
      ensures lib.finished == old(lib.finished)
    {
      Broadcast(Resume);
    }

    /** `CancelAll`: every active downloader is cancelled, then the list is
        cleared, so no download is active afterwards. */
    method CancelAll()
      modifies this, lib
      ensures lib.trace == old(lib.trace) + Each(old(active), Cancel)
      ensures active == [] && !HasActiveDownloads()
      ensures events == old(events)
      ensures lib.initialized == old(lib.initialized) && lib.packages == old(lib.packages)
      ensures lib.defaultPackage == old(lib.defaultPackage) && lib.created == old(lib.created)
      ensures lib.finished == old(lib.finished)
    {
      Broadcast(Cancel);
      active := [];
    }
  }
}
