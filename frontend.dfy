/**
 * The job lifecycle of the front end (frontend/src/App.jsx, component `App`):
 * its React state, the form-submit handler, the polling effect with its
 * interval, grace timer and cleanup, and the refresh handler. Each event the
 * browser delivers is one method; the network replies and timer expiries are
 * events of their own, in the order they happen, not in real time.
 */
module Frontend {
  import opened Wrappers

  /** The address the component sends its requests to. */
  const BackendUrl: string := "https://0e1f8e87-6221-4451-8ba4-bdf531d7699a-00-39solq6fsydy3.riker.repl.co:3003"

  /** The address polled for a job's percent: the back end's address, then the
      job id as the last part. */
  function ProgressUrl(id: string): (u: string)
    ensures |u| > |BackendUrl| + |id|
    ensures u[..|BackendUrl|] == BackendUrl && u[|u| - |id|..] == id
  {
    BackendUrl + "/progress?job_id=" + id
  }

  /** The address of a job's file: the back end's address, then the job id as the
      last part. */
  function FileUrl(id: string): (u: string)
    ensures |u| > |BackendUrl| + |id|
    ensures u[..|BackendUrl|] == BackendUrl && u[|u| - |id|..] == id
  {
    BackendUrl + "/get-file?job_id=" + id
  }

  /** Different jobs are queried and redirected to at different addresses. */
  lemma UrlsTellJobsApart(a: string, b: string)
    ensures ProgressUrl(a) == ProgressUrl(b) ==> a == b
    ensures FileUrl(a) == FileUrl(b) ==> a == b
  {
    if |a| == |b| {
      assert |ProgressUrl(a)| == |ProgressUrl(b)|;
      assert |FileUrl(a)| == |FileUrl(b)|;
    }
  }

  /** The values the quality `<select>` offers. */
  const QualityOptions: set<string> := {"best", "high", "medium", "low", "audio"}

  /** The phases a user can tell apart, derived from the state. */
  datatype Phase =
    | Idle        // no job id and not downloading: the form can be submitted
    | Submitting  // downloading, the reply carrying the job id has not set one
    | Polling     // a job id is set and its interval is running
    | Done        // the interval stopped on a percent of 100 or more
    | Failed      // the interval stopped on the failure mark -1
    | Stopped     // the interval stopped, then a later reply overwrote the percent

  /** The body of `POST /start-download`. */
  datatype StartRequest = StartRequest(url: string, quality: string)

  /** A progress query in flight: the run of the polling effect that issued it,
      and the job id that run captured. */
  datatype PollRequest = PollRequest(run: nat, job: string)

  /** s without its element at index i. */
  function RemoveAt<T>(s: seq<T>, i: nat): (r: seq<T>)
    requires i < |s|
    ensures |r| == |s| - 1
    ensures forall x :: x in r ==> x in s
  {
    assert forall x :: x in s[..i] ==> x in s;
    assert forall x :: x in s[i + 1..] ==> x in s;
    s[..i] + s[i + 1..]
  }

  class App {
    // the state of the component
    var url: string
    var quality: string
    var jobId: string          // '' also stands for the `undefined` a reply without job_id sets
    var progress: int
    var downloading: bool
    // what the browser keeps on the component's behalf
    var pollingActive: bool    // the interval of the latest effect run is registered
    var run: nat               // how many times the effect on [jobId] has run
    var inflight: seq<PollRequest>
    var timers: seq<string>    // pending grace timers, in firing order, by the job id they redirect to
    var startsPending: nat     // start requests whose reply has not arrived

    /** The interval only runs for a non-empty job id, and a query issued by the
        latest effect run carries the current job id. */
    ghost predicate Valid()
      reads this
    {
      && quality in QualityOptions
      && (pollingActive ==> jobId != "")
      && forall p :: p in inflight ==> p.run <= run && (p.run == run ==> p.job == jobId)
    }

    function Phase(): (p: Phase)
      reads this
    {
      if jobId == "" then (if downloading then Submitting else Idle)
      else if pollingActive then Polling
      else if progress >= 100 then Done
      else if progress == -1 then Failed
      else Stopped
    }

    /** The submit button's `disabled={downloading || jobId}`, negated. */
    function SubmitEnabled(): (enabled: bool)
      reads this
      ensures enabled <==> Phase() == Idle
    {
      !downloading && jobId == ""
    }

    /** The state `handleRefresh` leaves. */
    predicate IsReset()
      reads this
    {
      url == "" && quality == "best" && jobId == "" && progress == 0 && !downloading
    }

    /** The initial state: the `useState` defaults. */
    constructor ()
      ensures Valid() && IsReset() && Phase() == Idle
      ensures !pollingActive && run == 0 && inflight == [] && timers == [] && startsPending == 0
    {
      url, quality, jobId, progress, downloading := "", "best", "", 0, false;
      pollingActive, run, inflight, timers, startsPending := false, 0, [], [], 0;
    }

    /** The url input's `onChange`. */
    method SetUrl(value: string)
      requires Valid()
      modifies this`url
      ensures Valid() && url == value
    {
      url := value;
    }

    /** The quality select's `onChange`. */
    method SetQuality(value: string)
      requires Valid() && value in QualityOptions
      modifies this`quality
      ensures Valid() && quality == value
    {
      quality := value;
    }

    /** `setJobId(value)` and what the effect on [jobId] then does: when the value
        changed, the cleanup clears the interval of the old run, and the new run
        registers an interval when the new id is not empty. */
    method SetJobId(value: string)
      requires Valid()
      modifies this`jobId, this`pollingActive, this`run
      ensures Valid() && jobId == value
      ensures value == old(jobId) ==> pollingActive == old(pollingActive) && run == old(run)
      ensures value != old(jobId) ==> pollingActive == (value != "") && run == old(run) + 1
    {
      if value != jobId {
        jobId := value;
        run := run + 1;
        pollingActive := value != "";
      }
    }

    /** Submitting the form: `handleStart` up to its `await`. The browser submits only
        when the button is enabled and the `required` url field is not empty. The
        request sent, if any, is returned. */
    method HandleStart() returns (sent: Option<StartRequest>)
      requires Valid()
      modifies this
      ensures Valid()
      ensures sent.Some? <==> old(SubmitEnabled()) && old(url) != ""
      ensures sent.Some? ==>
        && sent.value == StartRequest(url, quality)
        && progress == 0 && jobId == "" && downloading
        && startsPending == old(startsPending) + 1
        && Phase() == Submitting
      ensures sent.None? ==>
        && progress == old(progress) && jobId == old(jobId) && downloading == old(downloading)
        && startsPending == old(startsPending)
      ensures url == old(url) && quality == old(quality)
      ensures pollingActive == old(pollingActive) && run == old(run)
      ensures inflight == old(inflight) && timers == old(timers)
    {
      if !(SubmitEnabled() && url != "") {
        return None;
      }
      progress := 0;
      SetJobId("");
      downloading := true;
      startsPending := startsPending + 1;
      sent := Some(StartRequest(url, quality));
    }

    /** The reply to a start request arrives: `setJobId(data.job_id)`. A reply
        without a job id leaves the id empty, so no polling starts. */
    method StartReply(replyJobId: Option<string>)
      requires Valid() && startsPending > 0
      modifies this
      ensures Valid()
      ensures jobId == replyJobId.GetOr("")
      ensures startsPending == old(startsPending) - 1
      ensures jobId == old(jobId) ==> pollingActive == old(pollingActive) && run == old(run)
      ensures jobId != old(jobId) ==> pollingActive == (jobId != "") && run == old(run) + 1
      ensures old(Phase()) == Submitting ==> Phase() == if jobId == "" then Submitting else Polling
      ensures url == old(url) && quality == old(quality)
      ensures progress == old(progress) && downloading == old(downloading)
      ensures inflight == old(inflight) && timers == old(timers)
    {
      SetJobId(replyJobId.GetOr(""));
      startsPending := startsPending - 1;
    }

    /** The start request fails: `fetch` rejects or the reply is not JSON. The
        handler throws before `setJobId`, so only the pending count changes. */
    method StartFault()
      requires Valid() && startsPending > 0
      modifies this`startsPending
      ensures Valid() && startsPending == old(startsPending) - 1
      ensures Phase() == old(Phase())
    {
      startsPending := startsPending - 1;
    }

    /** The interval fires: a progress query for the captured job id is sent. */
    method PollTick() returns (query: string)
      requires Valid() && pollingActive
      modifies this`inflight
      ensures Valid()
      ensures query == ProgressUrl(jobId)
      ensures inflight == old(inflight) + [PollRequest(run, jobId)]
    {
      query := ProgressUrl(jobId);
      inflight := inflight + [PollRequest(run, jobId)];
    }

    /** The reply `{percent}` to the in-flight query i arrives and the interval
        callback resumes. The percent is stored whatever run issued the query;
        `clearInterval(poll)` stops the running interval only when the query
        came from the latest run; a percent of 100 or more schedules a grace
        timer for the job id that run captured; -1 ends the download. */
    method PollReply(i: nat, percent: int)
      requires Valid() && i < |inflight|
      modifies this
      ensures Valid()
      ensures progress == percent
      ensures inflight == RemoveAt(old(inflight), i)
      ensures pollingActive ==
        (old(pollingActive) && !(old(inflight[i]).run == run && (percent >= 100 || percent == -1)))
      ensures timers == old(timers) + if percent >= 100 then [old(inflight[i]).job] else []
      ensures downloading == (old(downloading) && percent != -1)
      ensures old(inflight[i]).run == run && old(Phase()) == Polling ==>
        Phase() == (if percent >= 100 then Done else if percent == -1 then Failed else Polling)
      ensures old(inflight[i]).run == run && percent >= 100 ==> timers[|timers| - 1] == jobId
      ensures url == old(url) && quality == old(quality) && jobId == old(jobId)
      ensures run == old(run) && startsPending == old(startsPending)
    {
      var request := inflight[i];
      inflight := RemoveAt(inflight, i);
      progress := percent;
      if percent >= 100 {
        if request.run == run {
          pollingActive := false;
        }
        timers := timers + [request.job];
      }
      if percent == -1 {
        if request.run == run {
          pollingActive := false;
        }
        downloading := false;
      }
    }

    /** The in-flight query i fails (the fetch or the JSON parse rejects): the
        callback ends and nothing else happens; the interval keeps running. */
    method PollFault(i: nat)
      requires Valid() && i < |inflight|
      modifies this`inflight
      ensures Valid()
      ensures inflight == RemoveAt(old(inflight), i)
    {
      inflight := RemoveAt(inflight, i);
    }

    /** The oldest grace timer fires: the browser is sent to the file of the job id
        it captured, and the download display ends. */
    method GraceTimerFires() returns (target: string)
      requires Valid() && timers != []
      modifies this`timers, this`downloading
      ensures Valid()
      ensures target == FileUrl(old(timers)[0])
      ensures timers == old(timers)[1..]
      ensures !downloading
    {
      target := FileUrl(timers[0]);
      timers := timers[1..];
      downloading := false;
    }

    /** The refresh button: `handleRefresh`. The interval of an old job id is cleared
        (through the effect cleanup); pending grace timers and in-flight queries
        are not. A refresh of a reset state changes nothing. */
    method HandleRefresh()
      requires Valid()
      modifies this
      ensures Valid()
      ensures IsReset() && !pollingActive && Phase() == Idle
      ensures run == if old(jobId) == "" then old(run) else old(run) + 1
      ensures inflight == old(inflight) && timers == old(timers)
      ensures startsPending == old(startsPending)
      ensures old(IsReset()) ==>
        && url == old(url) && quality == old(quality) && jobId == old(jobId)
        && progress == old(progress) && downloading == old(downloading)
        && pollingActive == old(pollingActive) && run == old(run)
    {
      url := "";
      quality := "best";
      SetJobId("");
      progress := 0;
      downloading := false;
    }
  }
}
