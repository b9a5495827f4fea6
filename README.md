# Job lifecycle of a video downloader, modelled in Dafny

The system lets a user paste a media URL, pick a quality and receive the
downloaded file. Two small pieces carry its behaviour:

* the React component `App` (frontend/src/App.jsx), a state machine over five
  state variables (`url`, `quality`, `jobId`, `progress`, `downloading`) driven
  by the form submit, the start reply, a one-second polling interval, a
  one-second grace timer and the refresh button;
* the Flask back end (backend/app.py): the title sanitiser `safe_title`, the
  quality-to-format table, the output file name, the progress hook, and the two
  process-wide tables `PROGRESS` (job id to percent) and `JOB_FILES` (job id to
  file name) written by `start_download`, the hook and the worker, and read by
  `/progress` and `/get-file`.

Files:

* `wrappers.dfy` — `Option`, for absent JSON keys and `undefined`.
* `sanitize.dfy` — `safe_title` as a loop over its fourteen-character literal,
  proved equal to `Strip(DeleteAll(title, Removed))`; `Keep` is an independent
  filter definition it is proved against. `IsSpace` is exactly the set of code
  points Python's `str.isspace()` accepts, which is what `str.strip()` removes.
* `backend.dfy` — pure helpers, then the class `Server` whose map fields are
  `PROGRESS` and `JOB_FILES`; each route handler and the worker is a method.
  `uuid.uuid4()` is a parameter `freshId` assumed not yet in `PROGRESS`.
* `frontend.dfy` — the class `App`. Besides the five state variables it holds
  what the browser keeps for the component: whether the interval of the
  latest effect run is registered (`pollingActive`), how often the effect on
  `[jobId]` ran (`run`, which identifies an interval), the progress queries in
  flight (each tagged with the run that issued it and the job id it captured),
  the pending grace timers (the job ids they will redirect to, in firing order)
  and the number of start requests awaiting a reply. Every browser event is one
  method. `Phase()` derives Idle, Submitting, Polling, Done, Failed, or
  Stopped (polling ended, then a later reply overwrote the percent).
* `scenarios.dfy` — runs of the model built from the contracts alone: the
  happy path, an immediate failure, an empty URL, a start without job id, a
  refresh during polling, a stale reply, a start request failing after a
  newer job started, a late start reply without job id clearing a newer
  job, a stale grace timer or failure mark letting a second start request
  through, replies out of order, the back end's 100 before the file exists,
  and a run of both halves together.

The model follows the code, including these behaviours a user may not expect:

* A start reply without `job_id` does not lead to a failed state: `jobId`
  stays empty, `downloading` stays true and no polling starts until refresh
  (`Scenarios.StartRejected`). Such a reply for an earlier request that
  arrives after a newer job started sets `jobId` back to empty, which stops
  the newer job's polling (`Scenarios.LateReplyWithoutId`).
* Replies are not checked against the current job. A reply for an old job that
  arrives after a refresh still sets `progress`, and a reply of 100 still
  schedules a redirect to the old job's file (`Scenarios.StaleReply`).
* Several queries of one job can be in flight. Each reply of 100 schedules a
  grace timer, and a reply answered out of order can lower the percent after
  polling stopped (`Scenarios.ReorderedReplies`).
* Refresh clears the interval but not a pending grace timer.
* Single flight holds only within one job. A grace timer, or a `-1` reply,
  from an earlier job clears `downloading` whatever job is current. During a
  newer job's submission this re-enables the button, so a second start
  request can be sent while the first awaits its reply
  (`Scenarios.StaleTimerSecondStart`, `Scenarios.StaleFailureSecondStart`).
  Phase Idle therefore does not mean that no start request is in flight.
* Two jobs whose sanitised titles and extensions agree get the same file
  name, so the removal five seconds after one job's `/get-file` also removes
  the file the other job's `JOB_FILES` entry names. The model leaves which
  files exist to the `onDisk` parameter of `GetFile`.
* A failed poll request is dropped and polling goes on; there is no retry limit.
* An empty URL never reaches the network: the URL field is `required`
  (frontend/src/App.jsx:155), so the browser does not submit. The back end
  refuses one with status 400 all the same.
* The back end accepts any quality and uses the format of `best` for one it
  does not know.
* The hook writes 100 when yt-dlp reports `finished`, before the worker records
  the file. For that time `/progress` reports 100 while `/get-file` refuses
  (`Scenarios.FinishedBeforeRecorded`). The one-second grace delay narrows this
  window but does not close it.

## Model

| member | source | states |
|---|---|---|
| Sanitize.IsSpaceListed | backend/app.py:18 | the white space `strip()` removes is exactly the 29 code points of Python's `str.isspace()` |
| Sanitize.Delete | backend/app.py:17 | `replace(ch, '')`: the result holds exactly the characters of the input other than `ch`, and is no longer |
| Sanitize.DeleteAll | backend/app.py:16-17 | after the loop no character of the list remains, every other character is kept, the title does not grow |
| Sanitize.DeleteAllIsKeep | backend/app.py:16-17 | deleting the listed characters one after another equals filtering the title by the set of them |
| Sanitize.DeleteAllAbsent | backend/app.py:16-17 | a title without any listed character passes the loop unchanged |
| Sanitize.TrimStart | backend/app.py:18 | removes the longest prefix of white space (Python's definition) and nothing else |
| Sanitize.TrimEnd | backend/app.py:18 | removes the longest suffix of white space and nothing else |
| Sanitize.Strip | backend/app.py:18 | `strip()`: no leading or trailing white space, no new characters, never longer |
| Sanitize.SafeTitleOf | backend/app.py:15-18 | what `safe_title` returns: none of the listed characters, no leading or trailing white space, only characters of the title, never longer |
| Sanitize.StripIdempotent | backend/app.py:18 | stripping twice equals stripping once |
| Sanitize.SafeTitle | backend/app.py:15-18 | the loop computes `Strip(DeleteAll(title, Removed))`; the result has none of the twelve characters backslash, slash, colon, asterisk, question mark, double quote, less-than, greater-than, vertical bar, hash, right single quotation mark and apostrophe, no surrounding white space, and is never longer than the title |
| Sanitize.SafeTitleIdempotent | backend/app.py:15-18 | sanitising a sanitised title changes nothing |
| Sanitize.SafeTitleFixedPoint | backend/app.py:15-18 | sanitising leaves a title unchanged exactly when it holds none of the listed characters and has no leading or trailing white space |
| Sanitize.SafeTitleFilters | backend/app.py:15-18 | the sanitised title is the title with the twelve distinct characters filtered out, then stripped |
| Backend.FormatFor | backend/app.py:22-28 | a known quality gets its table entry, any other quality the entry of `best`; only `audio` gets the audio-only selector |
| Backend.TitleFor | backend/app.py:33 | the reported title, or `video` when absent, sanitised: no listed character, no surrounding white space, no longer than that title; a clean reported title is kept as it is |
| Backend.ExtFor | backend/app.py:34 | `mp3` for quality `audio`; otherwise the reported extension, or `mp4` when none is reported |
| Backend.FilenameFor | backend/app.py:35 | the sanitised title, one dot, then the extension, and nothing else |
| Backend.JoinSplit | backend/app.py:35 | a name joined from a stem and a dot-free extension splits back into the two at its last dot |
| Backend.FilenameParts | backend/app.py:33-35 | the file name is the sanitised title (default `video`) and, after the last dot, `mp3` for `audio` and the reported extension (default `mp4`) otherwise |
| Backend.TotalOf | backend/app.py:61 | `total_bytes` when present and non-zero, else `total_bytes_estimate`; 0 (no usable total) exactly when neither is present and non-zero |
| Backend.DownloadPercent | backend/app.py:64-65 | the percent lies in [0, 100], is 100 exactly when everything is downloaded, and is otherwise the floor of downloaded*100/total |
| Backend.DownloadPercentMonotone | backend/app.py:64-65 | for the same total, more downloaded bytes never give a smaller percent |
| Backend.ReachesHundred | backend/app.py:64-65 | the integer percent reaches 100 exactly when downloaded >= total |
| Backend.HookWrite | backend/app.py:59-68 | `downloading` writes a value in [0, 100] exactly when the total is usable; `finished` writes 100; any other status writes nothing |
| Backend.Server.constructor | backend/app.py:12-13 | both tables start empty |
| Backend.Server.StartDownload | backend/app.py:71-81 | a missing or empty url gives 400 and changes no table; otherwise the fresh id's percent is 0, the job carries the url and the quality (default `best`), and `JOB_FILES` is unchanged |
| Backend.Server.UpdateProgressHook | backend/app.py:59-68 | `PROGRESS` changes at most at the hook's job id, to the value `HookWrite` gives; `JOB_FILES` never changes |
| Backend.Server.DownloadVideoJob | backend/app.py:20-56 | the download options use `FormatFor` and `FilenameFor`; success records the file name and 100 for the job; a failure of either yt-dlp call records -1 and no file; other keys unchanged |
| Backend.Server.Progress | backend/app.py:84-87 | the stored percent, or 0 for a missing or unknown id; always in [-1, 100] |
| Backend.Server.GetFile | backend/app.py:90-100 | the file is sent exactly when the id has a non-empty file name in `JOB_FILES` and that file exists; otherwise 400 |
| Backend.FreshJobHasNoFile | backend/app.py:77-78 | an id not yet in `PROGRESS` has no file entry, so a new job's file is refused until its worker completes |
| Frontend.ProgressUrl | frontend/src/App.jsx:62 | the polled address starts with the back end's address and ends with the job id |
| Frontend.FileUrl | frontend/src/App.jsx:68 | the redirect address starts with the back end's address and ends with the job id |
| Frontend.UrlsTellJobsApart | frontend/src/App.jsx:62-68 | two different job ids are polled at, and redirected to, two different addresses |
| Frontend.App.constructor | frontend/src/App.jsx:34-38 | url '', quality `best`, jobId '', progress 0, not downloading: phase Idle |
| Frontend.App.SubmitEnabled | frontend/src/App.jsx:200 | the submit button is enabled exactly in phase Idle (`!downloading && jobId == ''`); phase Idle does not mean no start request is in flight (`Scenarios.StaleTimerSecondStart`) |
| Frontend.App.SetUrl | frontend/src/App.jsx:153 | the url input sets `url` and nothing else |
| Frontend.App.SetQuality | frontend/src/App.jsx:180-197 | the select sets `quality` to one of its five options and nothing else |
| Frontend.App.SetJobId | frontend/src/App.jsx:59-79 | a changed job id clears the old interval and registers a new one exactly when the new id is not empty; an unchanged id changes nothing |
| Frontend.App.HandleStart | frontend/src/App.jsx:45-54 | sends `{url, quality}` exactly when submit is enabled and the url is not empty; then progress 0, jobId '', downloading, phase Submitting, url and quality unchanged; otherwise nothing changes |
| Frontend.App.StartReply | frontend/src/App.jsx:55-56 | jobId becomes the returned id, or becomes '' without one, whatever it was before (`setJobId(undefined)`); from Submitting the phase becomes Polling with an id and stays Submitting (downloading) without; a late reply without id for an earlier request clears a newer job's id and stops its polling (`Scenarios.LateReplyWithoutId`) |
| Frontend.App.StartFault | frontend/src/App.jsx:50-56 | a start request whose fetch rejects or whose body is not JSON throws before `setJobId`: only the count of pending starts drops, the phase and every state variable stay |
| Frontend.App.PollTick | frontend/src/App.jsx:61-62 | only while the interval runs; queries `/progress?job_id=<jobId>` and records the query as in flight |
| Frontend.App.PollReply | frontend/src/App.jsx:63-76 | progress becomes exactly the reported percent; for a reply to a query of the latest effect run, >= 100 stops the interval and queues a grace timer for the current job id, and -1 stops it and ends downloading without a redirect; a reply to an older run's query stops nothing and queues the timer for the job id that run captured; any other percent leaves interval, jobId and downloading alone; from Polling the phase becomes Done, Failed or stays Polling |
| Frontend.App.PollFault | frontend/src/App.jsx:62-63 | a failed query only leaves the in-flight set; the interval keeps running |
| Frontend.App.GraceTimerFires | frontend/src/App.jsx:67-70 | the oldest timer redirects to `/get-file?job_id=<its job id>` and ends downloading |
| Frontend.App.HandleRefresh | frontend/src/App.jsx:81-87 | url '', quality `best`, jobId '', progress 0, not downloading, interval cleared, phase Idle; from a reset state it changes nothing (idempotent) |
| Scenarios.HappyPath | frontend/src/App.jsx:45-76 | submit, id 42, polls 0, 25, 60, 100, timer: redirect to job 42's file, phase Done |
| Scenarios.FailureMark | frontend/src/App.jsx:72-75 | a first reply of -1 gives phase Failed, not downloading, no redirect |
| Scenarios.EmptyUrl | frontend/src/App.jsx:149-155 | with an empty url nothing is sent and the phase stays Idle |
| Scenarios.StartRejected | frontend/src/App.jsx:55-60 | a start reply without id leaves phase Submitting and no polling until refresh gives Idle |
| Scenarios.RefreshMidPoll | frontend/src/App.jsx:77-87 | refresh during polling gives Idle with the interval cleared, so no further query is issued |
| Scenarios.StaleReply | frontend/src/App.jsx:61-70 | a reply of 100 for job 7 arriving during job 8 sets job 8's progress, leaves job 8's interval running and schedules a redirect to job 7's file |
| Scenarios.LateStartFault | frontend/src/App.jsx:45-62 | submit, refresh, submit; the second reply sets job 9, then the first request fails: job 9 is still polled at its own address |
| Scenarios.LateReplyWithoutId | frontend/src/App.jsx:55-79 | submit, refresh, submit; the second reply sets job 9, then the first reply arrives without `job_id`: jobId becomes '', job 9's interval is cleared and the phase is Submitting again |
| Scenarios.StaleTimerSecondStart | frontend/src/App.jsx:45-87 | job 7 reaches 100, refresh, submit; job 7's grace timer then fires and clears `downloading`, so the button (:200) is enabled again and a second start request is sent with two awaiting replies |
| Scenarios.StaleFailureSecondStart | frontend/src/App.jsx:45-87 | a query of job 7 in flight, refresh, submit; the query answers -1, clears `downloading`, and a second start request is sent with two awaiting replies |
| Scenarios.ReorderedReplies | frontend/src/App.jsx:61-76 | replies out of order lower the percent after polling stopped: phase Stopped |
| Scenarios.FinishedBeforeRecorded | backend/app.py:59-100 | after a `finished` hook, `/progress` reports 100 while `/get-file` refuses, whatever files exist on disk, because `JOB_FILES` has no entry yet |
| Scenarios.NoUrl | backend/app.py:71-76 | an empty url is refused and `/progress` for the id still reports 0 |
| Scenarios.PollOnce | frontend/src/App.jsx:61-76 | one interval tick answered by `/progress`: Done at 100 or more, Failed at -1, otherwise still Polling |
| Scenarios.StartJob | backend/app.py:71-81 | the request the form sends starts job 42 with the form's url and quality, its percent is 0, and the front end takes the id and starts polling |
| Scenarios.QuarterDone | backend/app.py:59-68 | a `downloading` hook with 100 of 400 bytes sets job 42's percent to 25 and records no file |
| Scenarios.DownloadClean | backend/app.py:20-56 | a successful worker with quality `best` and a title that needs no sanitising records `<title>.<ext>` and 100 for job 42 |
| Scenarios.EndToEnd | backend/app.py:20-100 | for any title without listed characters or surrounding white space (`Sanitize.Clean`): the form's request starts job 42, polls see 0, 25 and 100, the front end is sent to job 42's file and the back end serves `<title>.<ext>` |

## Left out

- Styling, themes, the dark-mode toggle and all layout are presentational.
- `fetch`, JSON encoding and parsing, and navigation through `window.location` are I/O. Request bodies and URLs are returned; replies are method parameters.
- A start reply that parses but carries no `job_id` is `StartReply(None)`. A start fetch that rejects, or a start reply that is not JSON, throws before `setJobId` and is `StartFault`, which leaves the state alone. A poll that fails either way is `PollFault`.
- `undefined` for a missing `job_id` is modelled as the empty string; both are false for the component.
- React's render batching and scheduling are not modelled. The state changes of one event apply together, and the effect on `[jobId]` runs at the end of the event that changed `jobId`.
- Real time is not modelled, only the order of events. Grace timers fire in the order they were set, since they all have the same one-second delay.
- Flask routing, CORS, `send_file` and `print` are not modelled. `os.path.exists` is the parameter `onDisk`.
- The thread that removes a served file after five seconds is not modelled. Its effect on a later `/get-file` is covered by `onDisk`.
- The worker thread and the hook run as sequential method calls. The interleaving of their table writes with other requests, including the moment between the `JOB_FILES` and `PROGRESS` writes of a completed job, is not modelled.
- yt-dlp is not modelled. `extract_info` and `download` are reduced to the three outcomes of `Outcome`. The hooks it calls during `download` are separate `UpdateProgressHook` calls.
- The options passed to yt-dlp are modelled only as the format selector and the output template. `noplaylist`, `quiet`, the hook list and the HTTP headers are left out.
- `uuid.uuid4()` is the parameter `freshId`, assumed non-empty and not yet in `PROGRESS`.
- Values of other JSON or Python types are not represented: the url, the quality, the reported title and the reported extension are strings or absent in the model. In the code:
  - a request body that is not a JSON object makes `start_download` raise;
  - a hook dictionary without `status` makes `update_progress_hook` raise at `d['status']` inside the worker's download, and the worker records -1;
  - a truthy url that is not a string (a number, a list) passes `if not url` and starts a job;
  - a quality that is a number, a boolean or null gets the `best` selector and the reported extension; a list or object quality is unhashable, so the worker raises and records -1;
  - a title that is not a string makes `title.replace` raise in the worker, which records -1;
  - an extension that is not a string is formatted into the name as it is, so `None` gives `<title>.None`.
- DownloadPercent: byte counts are natural numbers, and the percent is the exact floor of downloaded*100/total. Python computes `int(downloaded / total * 100)` in floating point, which can give one less at exact multiples: for 29 of 100 bytes Python gives 28, the model 29. A float `total_bytes_estimate` is not modelled. The [0, 100] bound holds in both.
