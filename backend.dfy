/**
 * The back end (backend/app.py): the quality-to-format table, the output file
 * name, the progress hook, and the two job tables `PROGRESS` and `JOB_FILES`
 * that the route handlers and the download worker read and write.
 */
module Backend {
  import opened Wrappers
  import Sanitize

  // ---------------------------------------------------------------------------
  // Format selection and the output file name (download_video_job)
  // ---------------------------------------------------------------------------

  /** The yt-dlp format selector for each known quality. */
  const Formats: map<string, string> := map[
    "best" := "bestvideo+bestaudio/best",
    "high" := "bestvideo[height<=?720]+bestaudio/best[height<=?720]",
    "medium" := "bestvideo[height<=?480]+bestaudio/best[height<=?480]",
    "low" := "bestvideo[height<=?360]+bestaudio/best[height<=?360]",
    "audio" := "bestaudio/best"
  ]

  /** The selector used for a quality the table does not know. */
  const DefaultFormat: string := "bestvideo+bestaudio/best"

  /** `{...}.get(quality, "bestvideo+bestaudio/best")`: the entry of a known quality,
      the entry of "best" for any other; only "audio" gets the audio-only selector. */
  function FormatFor(quality: string): (r: string)
    ensures r in Formats.Values
    ensures quality in Formats ==> r == Formats[quality]
    ensures quality !in Formats ==> r == Formats["best"]
    ensures r == Formats["audio"] <==> quality == "audio"
  {
    assert Formats.Keys == {"best", "high", "medium", "low", "audio"};
    assert |Formats["audio"]| == 14 && |DefaultFormat| == 24;
    if quality in Formats then Formats[quality] else DefaultFormat
  }

  /** What `extract_info` reports about the video: `title` and `ext`, each possibly absent. */
  datatype Info = Info(title: Option<string>, ext: Option<string>)

  /** `safe_title(info.get('title', 'video'))`: the reported title, or `video`, sanitised;
      a clean reported title is kept as it is. */
  function TitleFor(info: Info): (r: string)
    ensures forall c :: c in Sanitize.Removed ==> c !in r
    ensures r != [] ==> !Sanitize.IsSpace(r[0]) && !Sanitize.IsSpace(r[|r| - 1])
    ensures |r| <= |info.title.GetOr("video")|
    ensures info.title.Some? && Sanitize.Clean(info.title.value) ==> r == info.title.value
  {
    var title := info.title.GetOr("video");
    Sanitize.SafeTitleFixedPoint(title);
    Sanitize.SafeTitleOf(title)
  }

  /** `'mp3' if quality == 'audio' else info.get('ext', 'mp4')`. */
  function ExtFor(quality: string, info: Info): (r: string)
    ensures quality == "audio" ==> r == "mp3"
    ensures quality != "audio" && info.ext.Some? ==> r == info.ext.value
    ensures quality != "audio" && info.ext.None? ==> r == "mp4"
  {
    if quality == "audio" then "mp3" else info.ext.GetOr("mp4")
  }

  /** `f"{title}.{ext}"`: never empty, the title first, then a dot, then the extension. */
  function FilenameFor(quality: string, info: Info): (r: string)
    ensures |r| == |TitleFor(info)| + 1 + |ExtFor(quality, info)|
    ensures r != [] && r[|TitleFor(info)|] == '.'
    ensures r[..|TitleFor(info)|] == TitleFor(info) && r[|TitleFor(info)| + 1..] == ExtFor(quality, info)
  {
    TitleFor(info) + "." + ExtFor(quality, info)
  }

  /** Index of the last '.' of s, or -1 when there is none. */
  function LastDot(s: string): (k: int)
    ensures -1 <= k < |s|
    ensures k >= 0 ==> s[k] == '.'
    ensures forall j :: k < j < |s| ==> s[j] != '.'
  {
    if s == [] then -1
    else if s[|s| - 1] == '.' then |s| - 1
    else LastDot(s[..|s| - 1])
  }

  /** Splits a file name at its last '.' into stem and extension. */
  function SplitExt(name: string): (r: (string, string))
    ensures '.' !in name ==> r == (name, "")
    ensures '.' in name ==> name == r.0 + "." + r.1 && '.' !in r.1
  {
    var k := LastDot(name);
    assert k >= 0 ==> name == name[..k] + "." + name[k + 1..];
    assert k < 0 ==> '.' !in name;
    if k < 0 then (name, "") else (name[..k], name[k + 1..])
  }

  /** A stem and an extension without '.' are recovered from the joined name. */
  lemma JoinSplit(stem: string, ext: string)
    requires '.' !in ext
    ensures SplitExt(stem + "." + ext) == (stem, ext)
  {
    var name := stem + "." + ext;
    assert name[|stem|] == '.';
    forall j | |stem| < j < |name| ensures name[j] != '.' {
      assert name[j] == ext[j - |stem| - 1];
    }
    assert name[..|stem|] == stem;
    assert name[|stem| + 1..] == ext;
  }

  /** The output file is the sanitised title with the extension the quality chooses:
      'mp3' exactly for the quality "audio", otherwise the extension reported (default 'mp4'). */
  lemma FilenameParts(quality: string, info: Info)
    requires quality != "audio" ==> '.' !in info.ext.GetOr("mp4")
    ensures SplitExt(FilenameFor(quality, info)).0 == TitleFor(info)
    ensures quality == "audio" ==> SplitExt(FilenameFor(quality, info)).1 == "mp3"
    ensures quality != "audio" ==> SplitExt(FilenameFor(quality, info)).1 == info.ext.GetOr("mp4")
  {
    JoinSplit(TitleFor(info), ExtFor(quality, info));
  }

  // ---------------------------------------------------------------------------
  // The progress hook (update_progress_hook)
  // ---------------------------------------------------------------------------

  /** The fields of the dictionary yt-dlp passes to a progress hook. */
  datatype Hook = Hook(
    status: string,
    totalBytes: Option<nat>,
    totalBytesEstimate: Option<nat>,
    downloadedBytes: Option<nat>)

  /** `d.get('total_bytes') or d.get('total_bytes_estimate')`, where an absent value
      and 0 are both false; 0 stands for "no usable total". */
  function TotalOf(d: Hook): (t: nat)
    ensures t == 0 <==> d.totalBytes.GetOr(0) == 0 && d.totalBytesEstimate.GetOr(0) == 0
    ensures d.totalBytes.GetOr(0) != 0 ==> t == d.totalBytes.value
    ensures d.totalBytes.GetOr(0) == 0 ==> t == d.totalBytesEstimate.GetOr(0)
  {
    if d.totalBytes.Some? && d.totalBytes.value != 0 then d.totalBytes.value
    else d.totalBytesEstimate.GetOr(0)
  }

  /** `min(int(downloaded / total * 100), 100)`, on integers. */
  function DownloadPercent(downloaded: nat, total: nat): (p: int)
    requires total > 0
    ensures 0 <= p <= 100
    ensures p == 100 <==> downloaded >= total
    ensures downloaded < total ==> p * total <= downloaded * 100 < (p + 1) * total
  {
    QuotientBounds(downloaded * 100, total);
    ReachesHundred(downloaded, total);
    var q := downloaded * 100 / total;
    if q < 100 then q else 100
  }

  /** The percentage grows with the byte count. */
  lemma DownloadPercentMonotone(d1: nat, d2: nat, total: nat)
    requires total > 0 && d1 <= d2
    ensures DownloadPercent(d1, total) <= DownloadPercent(d2, total)
  {
    MulMonotone(d1, d2, 100);
    var q1, q2 := d1 * 100 / total, d2 * 100 / total;
    QuotientBounds(d1 * 100, total);
    QuotientBounds(d2 * 100, total);
    assert q1 * total < (q2 + 1) * total;
    MulCancel(q1, q2 + 1, total);
  }

  lemma MulMonotone(a: int, b: int, n: nat)
    requires a <= b
    ensures a * n <= b * n
  {
  }

  lemma MulCancel(a: int, b: int, n: nat)
    ensures a * n < b * n ==> a < b
  {
    if a >= b {
      MulMonotone(b, a, n);
    }
  }

  lemma QuotientBounds(x: nat, n: nat)
    requires n > 0
    ensures (x / n) * n <= x < (x / n + 1) * n
  {
  }

  /** The integer percentage reaches 100 exactly when the whole total is downloaded. */
  lemma ReachesHundred(downloaded: nat, total: nat)
    requires total > 0
    ensures downloaded >= total <==> downloaded * 100 / total >= 100
  {
    var x := downloaded * 100;
    var q := x / total;
    QuotientBounds(x, total);
    if downloaded >= total {
      MulMonotone(total, downloaded, 100);
      assert 100 * total < (q + 1) * total;
      MulCancel(100, q + 1, total);
    } else {
      MulMonotone(downloaded + 1, total, 100);
      assert q * total < 100 * total;
      MulCancel(q, 100, total);
    }
  }

  /** The value the hook writes to `PROGRESS[job_id]`, or None when it writes nothing. */
  function HookWrite(d: Hook): (r: Option<int>)
    ensures r.Some? ==> 0 <= r.value <= 100
    ensures d.status == "finished" ==> r == Some(100)
    ensures d.status != "downloading" && d.status != "finished" ==> r == None
    ensures d.status == "downloading" ==> (r.Some? <==> TotalOf(d) != 0)
    ensures d.status == "downloading" && r.Some? ==>
      (r.value == 100 <==> d.downloadedBytes.GetOr(0) >= TotalOf(d))
  {
    if d.status == "downloading" then
      (if TotalOf(d) != 0 then Some(DownloadPercent(d.downloadedBytes.GetOr(0), TotalOf(d))) else None)
    else if d.status == "finished" then Some(100)
    else None
  }

  // ---------------------------------------------------------------------------
  // The job tables and the handlers
  // ---------------------------------------------------------------------------

  /** The JSON body of `POST /start-download`: `url` and `quality`, each possibly absent. */
  datatype StartBody = StartBody(url: Option<string>, quality: Option<string>)

  /** A job handed to the worker thread. */
  datatype Job = Job(url: string, quality: string, id: string)

  /** Reply of `POST /start-download`: `{"job_id": id}`, or status 400 `{"error": "No URL provided"}`. */
  datatype StartReply = Started(job: Job) | NoUrl

  /** Reply of `GET /get-file`: the file as an attachment, or status 400 "File not ready". */
  datatype FileReply = SendFile(filename: string) | NotReady

  /** What happened to the two yt-dlp calls of the worker. */
  datatype Outcome =
    | InfoFailed                 // extract_info raised
    | DownloadFailed(info: Info) // extract_info returned info, download raised
    | Downloaded(info: Info)     // both returned

  /** The options the worker passes to the downloading yt-dlp instance. */
  datatype Plan = Plan(format: string, outtmpl: string)

  /** The process-wide tables `PROGRESS` and `JOB_FILES`. */
  class Server {
    var progress: map<string, int>
    var jobFiles: map<string, string>

    /** Every file entry belongs to a started job, and every stored percentage is
        the failure mark -1 or lies in [0, 100]. */
    ghost predicate Valid()
      reads this
    {
      && jobFiles.Keys <= progress.Keys
      && forall id :: id in progress ==> -1 <= progress[id] <= 100
    }

    constructor ()
      ensures Valid()
      ensures progress == map[] && jobFiles == map[]
    {
      progress := map[];
      jobFiles := map[];
    }

    /** `POST /start-download`; `freshId` is the value of `uuid.uuid4()`. The started
        worker thread is the returned job. */
    method StartDownload(body: StartBody, freshId: string) returns (reply: StartReply)
      requires Valid()
      requires freshId != "" && freshId !in progress
      modifies this
      ensures Valid()
      ensures body.url.None? || body.url.value == "" ==>
        reply == NoUrl && progress == old(progress) && jobFiles == old(jobFiles)
      ensures body.url.Some? && body.url.value != "" ==>
        && reply == Started(Job(body.url.value, body.quality.GetOr("best"), freshId))
        && progress == old(progress)[freshId := 0]
        && jobFiles == old(jobFiles)
    {
      if body.url.None? || body.url.value == "" {
        return NoUrl;
      }
      var quality := body.quality.GetOr("best");
      progress := progress[freshId := 0];
      reply := Started(Job(body.url.value, quality, freshId));
    }

    /** `update_progress_hook(d, job_id)`. */
    method UpdateProgressHook(d: Hook, jobId: string)
      requires Valid()
      modifies this
      ensures Valid()
      ensures HookWrite(d).Some? ==> progress == old(progress)[jobId := HookWrite(d).value]
      ensures HookWrite(d).None? ==> progress == old(progress)
      ensures jobFiles == old(jobFiles)
    {
      if d.status == "downloading" {
        var total := TotalOf(d);
        var downloaded := d.downloadedBytes.GetOr(0);
        if total != 0 {
          var percent := DownloadPercent(downloaded, total);
          progress := progress[jobId := percent];
        }
      }
      if d.status == "finished" {
        progress := progress[jobId := 100];
      }
    }

    /** `download_video_job(url, quality, job_id)`: chooses the format, names the file
        after the reported title, downloads, and records the file and 100 on success
        or -1 when either yt-dlp call raised. Returns the download options when the
        info extraction succeeded. The hook calls made while yt-dlp downloads are
        separate calls of `UpdateProgressHook` before this one returns. */
    method DownloadVideoJob(job: Job, outcome: Outcome) returns (plan: Option<Plan>)
      requires Valid()
      modifies this
      ensures Valid()
      ensures plan.Some? <==> !outcome.InfoFailed?
      ensures plan.Some? ==>
        plan.value == Plan(FormatFor(job.quality), FilenameFor(job.quality, outcome.info))
      ensures outcome.Downloaded? ==>
        && jobFiles == old(jobFiles)[job.id := FilenameFor(job.quality, outcome.info)]
        && progress == old(progress)[job.id := 100]
      ensures !outcome.Downloaded? ==>
        jobFiles == old(jobFiles) && progress == old(progress)[job.id := -1]
    {
      var format := FormatFor(job.quality);
      if outcome.InfoFailed? {
        progress := progress[job.id := -1];
        return None;
      }
      var info := outcome.info;
      var title := Sanitize.SafeTitle(info.title.GetOr("video"));
      var ext := if job.quality == "audio" then "mp3" else info.ext.GetOr("mp4");
      var filename := title + "." + ext;
      plan := Some(Plan(format, filename));
      if outcome.DownloadFailed? {
        progress := progress[job.id := -1];
        return;
      }
      jobFiles := jobFiles[job.id := filename];
      progress := progress[job.id := 100];
    }

    /** `GET /progress`: the stored percentage, 0 for a missing or unknown id. */
    method Progress(jobId: Option<string>) returns (percent: int)
      requires Valid()
      ensures -1 <= percent <= 100
      ensures jobId.Some? && jobId.value in progress ==> percent == progress[jobId.value]
      ensures jobId.None? || jobId.value !in progress ==> percent == 0
    {
      percent := if jobId.Some? && jobId.value in progress then progress[jobId.value] else 0;
    }

    /** `GET /get-file`; `onDisk` holds the names `os.path.exists` accepts. The removal
        of the file five seconds later is not part of this model. */
    method GetFile(jobId: Option<string>, onDisk: set<string>) returns (reply: FileReply)
      ensures reply.SendFile? <==>
        jobId.Some? && jobId.value in jobFiles && jobFiles[jobId.value] != ""
        && jobFiles[jobId.value] in onDisk
      ensures reply.SendFile? ==> reply.filename == jobFiles[jobId.value]
    {
      var filename := if jobId.Some? && jobId.value in jobFiles then Some(jobFiles[jobId.value]) else None;
      if filename.Some? && filename.value != "" && filename.value in onDisk {
        reply := SendFile(filename.value);
      } else {
        reply := NotReady;
      }
    }
  }

  /** A freshly started job has no file yet, so `/get-file` for it is refused until
      its worker completes. */
  lemma FreshJobHasNoFile(s: Server, id: string)
    requires s.Valid() && id !in s.progress
    ensures id !in s.jobFiles
  {
  }
}
