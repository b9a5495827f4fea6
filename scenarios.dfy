/**
 * Runs of the model: the front end alone, the back end alone, and the two
 * together. Each returns what an observer would see, and its postcondition
 * states what that is. They use nothing but the contracts of the operations.
 */
module Scenarios {
  import opened Wrappers
  import Sanitize
  import Backend
  import Frontend

  /** Submit, the job id "42" arrives, polls report 0, 25, 60 and 100, the grace
      timer fires: the browser is sent to the file of job "42". */
  method HappyPath() returns (sent: Option<Frontend.StartRequest>, target: string, phase: Frontend.Phase)
    ensures sent == Some(Frontend.StartRequest("https://youtu.be/abc", "best"))
    ensures target == Frontend.FileUrl("42")
    ensures phase == Frontend.Done
  {
    var app := new Frontend.App();
    app.SetUrl("https://youtu.be/abc");
    sent := app.HandleStart();
    app.StartReply(Some("42"));
    var reports := [0, 25, 60, 100];
    var k := 0;
    while k < |reports|
      invariant 0 <= k <= |reports|
      invariant app.Valid() && app.jobId == "42" && app.inflight == []
      invariant k < |reports| ==> app.Phase() == Frontend.Polling && app.timers == []
      invariant k == |reports| ==> app.Phase() == Frontend.Done && app.timers == ["42"]
    {
      var _ := app.PollTick();
      app.PollReply(0, reports[k]);
      k := k + 1;
    }
    target := app.GraceTimerFires();
    phase := app.Phase();
  }

  /** The first poll reports -1: the front end fails at once, schedules no
      redirect and lets the user refresh. */
  method FailureMark() returns (phase: Frontend.Phase, downloading: bool, redirects: nat)
    ensures phase == Frontend.Failed && !downloading && redirects == 0
  {
    var app := new Frontend.App();
    app.SetUrl("https://youtu.be/abc");
    var _ := app.HandleStart();
    app.StartReply(Some("42"));
    var _ := app.PollTick();
    app.PollReply(0, -1);
    phase, downloading, redirects := app.Phase(), app.downloading, |app.timers|;
  }

  /** With an empty url the browser refuses to submit the form: nothing is sent. */
  method EmptyUrl() returns (sent: Option<Frontend.StartRequest>, phase: Frontend.Phase)
    ensures sent == None && phase == Frontend.Idle
  {
    var app := new Frontend.App();
    sent := app.HandleStart();
    phase := app.Phase();
  }

  /** A start reply without a job id (the back end's 400, or a body without
      `job_id`) leaves the front end submitting until a refresh. */
  method StartRejected() returns (phaseBefore: Frontend.Phase, phaseAfter: Frontend.Phase, polling: bool)
    ensures phaseBefore == Frontend.Submitting && !polling && phaseAfter == Frontend.Idle
  {
    var app := new Frontend.App();
    app.SetUrl("https://youtu.be/abc");
    var _ := app.HandleStart();
    app.StartReply(None);
    phaseBefore, polling := app.Phase(), app.pollingActive;
    app.HandleRefresh();
    phaseAfter := app.Phase();
  }

  /** A refresh while job "7" is polled clears its interval: no further query
      can be issued for it. */
  method RefreshMidPoll() returns (phase: Frontend.Phase, polling: bool)
    ensures phase == Frontend.Idle && !polling
  {
    var app := new Frontend.App();
    app.SetUrl("https://youtu.be/abc");
    var _ := app.HandleStart();
    app.StartReply(Some("7"));
    var _ := app.PollTick();
    app.PollReply(0, 30);
    app.HandleRefresh();
    phase, polling := app.Phase(), app.pollingActive;
  }

  /** Replies are not matched against the current job: a query for job "7" still
      in flight when the user refreshes and starts job "8" overwrites the percent
      of job "8" when it arrives, and a reply of 100 for it schedules a redirect
      to the file of job "7", while job "8" is still polled. */
  method StaleReply() returns (jobId: string, progress: int, polling: bool, target: string)
    ensures jobId == "8" && progress == 100 && polling
    ensures target == Frontend.FileUrl("7")
  {
    var app := new Frontend.App();
    app.SetUrl("https://youtu.be/abc");
    var _ := app.HandleStart();
    app.StartReply(Some("7"));
    var _ := app.PollTick();
    app.HandleRefresh();
    app.SetUrl("https://youtu.be/def");
    var _ := app.HandleStart();
    app.StartReply(Some("8"));
    app.PollReply(0, 100);
    jobId, progress, polling := app.jobId, app.progress, app.pollingActive;
    target := app.GraceTimerFires();
  }

  /** A start request that fails after the user refreshed and started again does
      not disturb the later job: submit, refresh, submit, the second reply sets
      job "9", then the first request rejects; job "9" is still polled. */
  method LateStartFault() returns (phase: Frontend.Phase, jobId: string, query: string)
    ensures phase == Frontend.Polling && jobId == "9"
    ensures query == Frontend.ProgressUrl("9")
  {
    var app := new Frontend.App();
    app.SetUrl("https://youtu.be/abc");
    var _ := app.HandleStart();
    app.HandleRefresh();
    app.SetUrl("https://youtu.be/def");
    var _ := app.HandleStart();
    app.StartReply(Some("9"));
    app.StartFault();
    phase, jobId := app.Phase(), app.jobId;
    query := app.PollTick();
  }

  /** A start reply without a job id sets the id to '' whatever it was: submit,
      refresh, submit, the second reply sets job "9", then the reply to the first
      request arrives without `job_id`; job "9" is no longer polled and the form
      shows a download being submitted again. */
  method LateReplyWithoutId() returns (phase: Frontend.Phase, jobId: string, polling: bool)
    ensures phase == Frontend.Submitting && jobId == "" && !polling
  {
    var app := new Frontend.App();
    app.SetUrl("https://youtu.be/abc");
    var _ := app.HandleStart();
    app.HandleRefresh();
    app.SetUrl("https://youtu.be/def");
    var _ := app.HandleStart();
    app.StartReply(Some("9"));
    app.StartReply(None);
    phase, jobId, polling := app.Phase(), app.jobId, app.pollingActive;
  }

  /** Single flight does not hold across jobs: the grace timer of job "7", still
      pending when the user refreshes and submits again, clears `downloading`
      while the new start request awaits its reply, so the button is enabled
      and a second start request is sent. */
  method StaleTimerSecondStart() returns (second: Option<Frontend.StartRequest>, pending: nat)
    ensures second.Some? && pending == 2
  {
    var app := new Frontend.App();
    app.SetUrl("https://youtu.be/abc");
    var _ := app.HandleStart();
    app.StartReply(Some("7"));
    var _ := app.PollTick();
    app.PollReply(0, 100);
    app.HandleRefresh();
    app.SetUrl("https://youtu.be/def");
    var _ := app.HandleStart();
    var _ := app.GraceTimerFires();
    second := app.HandleStart();
    pending := app.startsPending;
  }

  /** The same with a stale failure mark: a query of job "7" still in flight when
      the user refreshes and submits again answers -1, which clears `downloading`
      during the new submission, and a second start request is sent. */
  method StaleFailureSecondStart() returns (second: Option<Frontend.StartRequest>, pending: nat)
    ensures second.Some? && pending == 2
  {
    var app := new Frontend.App();
    app.SetUrl("https://youtu.be/abc");
    var _ := app.HandleStart();
    app.StartReply(Some("7"));
    var _ := app.PollTick();
    app.HandleRefresh();
    app.SetUrl("https://youtu.be/def");
    var _ := app.HandleStart();
    app.PollReply(0, -1);
    second := app.HandleStart();
    pending := app.startsPending;
  }

  /** Two queries of the same job in flight, answered out of order: the percent
      falls back after the interval stopped, and the phase shows it. */
  method ReorderedReplies() returns (phase: Frontend.Phase, progress: int)
    ensures phase == Frontend.Stopped && progress == 60
  {
    var app := new Frontend.App();
    app.SetUrl("https://youtu.be/abc");
    var _ := app.HandleStart();
    app.StartReply(Some("42"));
    var _ := app.PollTick();
    var _ := app.PollTick();
    app.PollReply(1, 100);
    app.PollReply(0, 60);
    phase, progress := app.Phase(), app.progress;
  }

  /** The hook marks a job 100 when yt-dlp reports a finished download, before the
      worker records the file: for that time `/progress` reports 100 while
      `/get-file` refuses, whatever files exist on disk. */
  method FinishedBeforeRecorded(onDisk: set<string>) returns (percent: int, reply: Backend.FileReply)
    ensures percent == 100 && reply == Backend.NotReady
  {
    var server := new Backend.Server();
    var started := server.StartDownload(Backend.StartBody(Some("https://youtu.be/abc"), None), "42");
    server.UpdateProgressHook(Backend.Hook("finished", None, None, None), "42");
    percent := server.Progress(Some("42"));
    reply := server.GetFile(Some("42"), onDisk);
  }

  /** An empty url is refused with 400 and both tables stay empty. */
  method NoUrl() returns (reply: Backend.StartReply, percent: int)
    ensures reply == Backend.NoUrl && percent == 0
  {
    var server := new Backend.Server();
    reply := server.StartDownload(Backend.StartBody(Some(""), Some("high")), "42");
    percent := server.Progress(Some("42"));
  }

  /** One poll of the front end answered by the back end: the interval fires,
      `/progress` is asked for the current job id, and the reply arrives. */
  method PollOnce(app: Frontend.App, server: Backend.Server) returns (percent: int)
    requires app.Valid() && server.Valid()
    requires app.Phase() == Frontend.Polling && app.inflight == []
    modifies app
    ensures app.Valid() && app.inflight == [] && app.jobId == old(app.jobId)
    ensures percent == (if app.jobId in server.progress then server.progress[app.jobId] else 0)
    ensures app.Phase() == (if percent >= 100 then Frontend.Done
                            else if percent == -1 then Frontend.Failed else Frontend.Polling)
    ensures app.timers == old(app.timers) + if percent >= 100 then [app.jobId] else []
  {
    var _ := app.PollTick();
    percent := server.Progress(Some(app.jobId));
    app.PollReply(0, percent);
  }

  /** A progress hook of the worker of job "42": 100 of 400 bytes downloaded. */
  method QuarterDone(server: Backend.Server)
    requires server.Valid() && "42" in server.progress
    modifies server
    ensures server.Valid()
    ensures server.progress == old(server.progress)["42" := 25] && server.jobFiles == old(server.jobFiles)
  {
    server.UpdateProgressHook(Backend.Hook("downloading", Some(400), None, Some(100)), "42");
  }

  /** The worker of job "42" downloads a video whose title needs no sanitising. */
  method DownloadClean(server: Backend.Server, job: Backend.Job, title: string, ext: string)
    requires server.Valid() && job.quality == "best" && job.id == "42"
    requires Sanitize.Clean(title)
    modifies server
    ensures server.Valid()
    ensures server.progress == old(server.progress)["42" := 100]
    ensures server.jobFiles == old(server.jobFiles)["42" := title + "." + ext]
  {
    var info := Backend.Info(Some(title), Some(ext));
    assert Backend.TitleFor(info) == title;
    assert Backend.FilenameFor("best", info) == title + "." + ext;
    var _ := server.DownloadVideoJob(job, Backend.Downloaded(info));
  }

  /** The form is submitted, the back end starts job "42" for the request sent,
      and its reply reaches the front end, which starts polling. */
  method StartJob(app: Frontend.App, server: Backend.Server) returns (job: Backend.Job)
    requires app.Valid() && server.Valid()
    requires app.Phase() == Frontend.Idle && app.url == "https://youtu.be/abc" && app.quality == "best"
    requires app.inflight == [] && app.timers == [] && "42" !in server.progress
    modifies app, server
    ensures app.Valid() && server.Valid()
    ensures job == Backend.Job("https://youtu.be/abc", "best", "42")
    ensures app.jobId == "42" && app.Phase() == Frontend.Polling
    ensures app.inflight == [] && app.timers == []
    ensures server.progress == old(server.progress)["42" := 0] && server.jobFiles == old(server.jobFiles)
  {
    var sent := app.HandleStart();
    var started := server.StartDownload(Backend.StartBody(Some(sent.value.url), Some(sent.value.quality)), "42");
    job := started.job;
    app.StartReply(Some(job.id));
  }

  /** Front end and back end together: the request the form sends starts job "42",
      the worker downloads a video with a clean title, with a progress hook on the
      way, the front end polls until 100 and is sent to the file, which the
      back end serves under that title. */
  method EndToEnd(title: string, ext: string) returns (target: string, reply: Backend.FileReply)
    requires Sanitize.Clean(title)
    ensures target == Frontend.FileUrl("42")
    ensures reply == Backend.SendFile(title + "." + ext)
  {
    var app := new Frontend.App();
    var server := new Backend.Server();
    app.SetUrl("https://youtu.be/abc");
    var job := StartJob(app, server);
    var p := PollOnce(app, server);
    assert p == 0;
    QuarterDone(server);
    p := PollOnce(app, server);
    assert p == 25;

    DownloadClean(server, job, title, ext);
    p := PollOnce(app, server);
    assert p == 100 && app.timers == ["42"];

    target := app.GraceTimerFires();
    var filename := title + "." + ext;
    assert server.jobFiles["42"] == filename && |filename| > 0;
    reply := server.GetFile(Some("42"), {filename});
  }
}
