/**
 * `App`: the job lifecycle of the page. Submitting a screenplay starts a generation job, a
 * recurring status poll copies the job's progress into the page and stops itself on a terminal
 * status, and a completed job's scenes are fetched.
 *
 * Timers, HTTP requests and toasts are not modelled; their outcomes arrive as the `Event`s below,
 * and each handler says which toast it shows and which request it issues next.
 */
module App {
  import opened Wrappers
  import opened Text
  import opened Screenplay

  /** A toast. */
  datatype Notice = Success(text: string) | Failure(text: string)

  /** The body of one `GET /job/{id}` response. */
  datatype JobStatus = JobStatus(
    progress: int,
    status: string,
    exportInfo: Option<ExportInfo>,
    generationDuration: Option<real>,
    error: Option<string>)

  /** The page's job state; `polling` holds the jobs whose status interval is still running. */
  datatype JobState = JobState(
    isGenerating: bool,
    jobId: Option<string>,
    progress: int,
    status: string,
    exportInfo: Option<ExportInfo>,
    scenes: seq<Scene>,
    startTime: Option<int>,
    generationDuration: Option<real>,
    polling: set<string>,
    errorText: Option<string>)

  /**
   * What the page sees happen: a click, a tick of a job's status interval, or a request's outcome.
   * A status response is handled whenever it arrives, also when the interval that sent its
   * request was cleared while it was in flight.
   */
  datatype Event =
    | Submit(screenplay: string, now: int)
    | StartOk(id: string)
    | StartFailed
    | Tick(id: string)
    | Status(id: string, response: JobStatus)
    | PollError(id: string)
    | Scenes(sceneList: Option<seq<Scene>>, sceneExport: Option<ExportInfo>)

  /** The request a handler issues next. */
  datatype Request = NoRequest | PostGenerate | GetStatus(id: string) | FetchScenes(id: string)

  datatype Outcome = Outcome(state: JobState, notice: Option<Notice>, request: Request)

  const BlankText: string := "Bitte geben Sie ein Drehbuch ein"
  const StartedText: string := "Filmgenerierung gestartet!"
  const StartFailedText: string := "Fehler beim Starten der Generierung"
  const CompletedText: string := "Film erfolgreich generiert!"
  const FailedPrefix: string := "Filmgenerierung fehlgeschlagen: "
  const UnknownError: string := "Unbekannter Fehler"

  /** `jobData.error || 'Unbekannter Fehler'`: a missing or empty reason is replaced. */
  function Reason(error: Option<string>): string {
    if error.Some? && error.value != "" then error.value else UnknownError
  }

  /** The state the page starts with. */
  const Initial: JobState := JobState(false, None, 0, "", None, [], None, None, {}, None)

  /**
   * How the page reacts to one event. Only a running interval ticks and sends a status request;
   * `clearInterval` does not stop a request already sent, so every status response is handled.
   */
  function Step(s: JobState, e: Event): Outcome {
    match e
    case Submit(text, now) =>
      if TrimJs(text) == "" then Outcome(s, Some(Failure(BlankText)), NoRequest)
      else Outcome(s.(isGenerating := true, progress := 0, exportInfo := None, scenes := [],
                      generationDuration := None, startTime := Some(now)), None, PostGenerate)
    case StartOk(id) =>
      Outcome(s.(jobId := Some(id), polling := s.polling + {id}), Some(Success(StartedText)), NoRequest)
    case StartFailed =>
      Outcome(s.(isGenerating := false), Some(Failure(StartFailedText)), NoRequest)
    case Tick(id) =>
      Outcome(s, None, if id in s.polling then GetStatus(id) else NoRequest)
    case Status(id, r) =>
      var t := s.(progress := r.progress, status := r.status);
      if r.status == "completed" then
        Outcome(t.(polling := s.polling - {id}, isGenerating := false, exportInfo := r.exportInfo,
                   generationDuration := r.generationDuration),
                Some(Success(CompletedText)), FetchScenes(id))
      else if r.status == "failed" then
        Outcome(t.(polling := s.polling - {id}, isGenerating := false, errorText := Some(FailedPrefix + Reason(r.error))),
                Some(Failure(FailedPrefix + Reason(r.error))), NoRequest)
      else Outcome(t, None, NoRequest)
    case PollError(_) => Outcome(s, None, NoRequest)
    case Scenes(list, info) =>
      Outcome(s.(scenes := list.GetOr([]), exportInfo := if info.Some? then info else s.exportInfo), None, NoRequest)
  }

  /** A status is terminal when it stops the poll. */
  predicate Terminal(status: string) {
    status == "completed" || status == "failed"
  }

  /**
   * A blank screenplay shows a toast and changes nothing; any other one resets the results,
   * marks the page as generating and sends the start request, leaving running intervals alone.
   */
  lemma SubmitFacts(s: JobState, text: string, now: int)
    ensures var o := Step(s, Submit(text, now));
      && ((forall m :: 0 <= m < |text| ==> IsJsSpace(text[m])) <==> o.request == NoRequest)
      && (o.request == NoRequest ==> o.state == s && o.notice == Some(Failure(BlankText)))
      && (o.request != NoRequest ==>
            && o.request == PostGenerate
            && o.state.isGenerating && o.state.progress == 0 && o.state.exportInfo == None
            && o.state.scenes == [] && o.state.generationDuration == None
            && o.state.startTime == Some(now) && o.state.polling == s.polling)
  {
    TrimFacts(text, JsSpaces);
  }

  /** A failed start request ends the generating state and starts no poll. */
  lemma StartFailedFacts(s: JobState)
    ensures var o := Step(s, StartFailed);
      !o.state.isGenerating && o.state.polling == s.polling && o.notice == Some(Failure(StartFailedText))
  {
  }

  /** A tick changes nothing, and sends the status request exactly when the job's interval runs. */
  lemma TickFacts(s: JobState, id: string)
    ensures Step(s, Tick(id)).state == s && Step(s, Tick(id)).notice == None
    ensures Step(s, Tick(id)).request == GetStatus(id) <==> id in s.polling
    ensures Step(s, Tick(id)).request == NoRequest <==> id !in s.polling
  {
  }

  /**
   * A status response overwrites progress and status, whether or not its job's interval still
   * runs; a terminal one stops that job's poll and ends the generating state, a completed one
   * takes its export record and duration and fetches the scenes, a failed one reports its
   * reason, and any other keeps the poll as it was with nothing else changed.
   */
  lemma StatusFacts(s: JobState, id: string, r: JobStatus)
    ensures var o := Step(s, Status(id, r));
      && o.state.progress == r.progress && o.state.status == r.status
      && o.state.jobId == s.jobId && o.state.scenes == s.scenes && o.state.startTime == s.startTime
      && (id in o.state.polling <==> id in s.polling && !Terminal(r.status))
      && (o.request.FetchScenes? <==> r.status == "completed")
      && (Terminal(r.status) ==> !o.state.isGenerating && o.state.polling == s.polling - {id})
      && (r.status == "completed" ==>
            o.state.exportInfo == r.exportInfo && o.state.generationDuration == r.generationDuration
            && o.request == FetchScenes(id) && o.notice == Some(Success(CompletedText)))
      && (r.status == "failed" ==>
            o.state.errorText == Some(FailedPrefix + Reason(r.error))
            && o.notice == Some(Failure(FailedPrefix + Reason(r.error))))
      && (!Terminal(r.status) ==> o.state == s.(progress := r.progress, status := r.status) && o.notice == None)
  {
  }

  /** The failure reason is the response's error when it is non-empty, and "Unbekannter Fehler" otherwise. */
  lemma ReasonFacts(error: Option<string>)
    ensures Reason(error) != ""
    ensures error.Some? && error.value != "" ==> Reason(error) == error.value
    ensures error.None? || error.value == "" ==> Reason(error) == UnknownError
  {
  }

  /** The scenes response sets the scenes, and replaces the export record only when it carries one. */
  lemma ScenesFacts(s: JobState, list: Option<seq<Scene>>, info: Option<ExportInfo>)
    ensures var o := Step(s, Scenes(list, info));
      && (list.Some? ==> o.state.scenes == list.value)
      && (list.None? ==> o.state.scenes == [])
      && (info.Some? ==> o.state.exportInfo == info)
      && (info.None? ==> o.state.exportInfo == s.exportInfo)
      && o.state.polling == s.polling && o.state.isGenerating == s.isGenerating
  {
  }

  /** The state after the status responses `rs` of job `id` arrive one tick after another. */
  function Ticks(s: JobState, id: string, rs: seq<JobStatus>): JobState {
    if |rs| == 0 then s else Step(Ticks(s, id, rs[..|rs| - 1]), Status(id, rs[|rs| - 1])).state
  }

  /** While no terminal status has arrived the job keeps polling, and the last response is shown. */
  lemma {:induction false} TicksPolling(s: JobState, id: string, rs: seq<JobStatus>)
    requires id in s.polling
    requires forall j :: 0 <= j < |rs| ==> !Terminal(rs[j].status)
    ensures id in Ticks(s, id, rs).polling
    ensures |rs| > 0 ==> Ticks(s, id, rs).progress == rs[|rs| - 1].progress
                         && Ticks(s, id, rs).status == rs[|rs| - 1].status
  {
    if |rs| > 0 {
      var front := rs[..|rs| - 1];
      assert forall j :: 0 <= j < |front| ==> front[j] == rs[j];
      TicksPolling(s, id, front);
    }
  }

  /**
   * The poll stops itself at the first terminal status: after the responses up to and including
   * it, the page shows that response's progress and status, is no longer generating, and the
   * job's next tick sends no request.
   */
  lemma PollStopsAtTerminal(s: JobState, id: string, rs: seq<JobStatus>)
    requires id in s.polling
    requires |rs| > 0 && Terminal(rs[|rs| - 1].status)
    requires forall j :: 0 <= j < |rs| - 1 ==> !Terminal(rs[j].status)
    ensures var t := Ticks(s, id, rs);
      && id !in t.polling && !t.isGenerating
      && t.progress == rs[|rs| - 1].progress && t.status == rs[|rs| - 1].status
      && Step(t, Tick(id)) == Outcome(t, None, NoRequest)
  {
    var front := rs[..|rs| - 1];
    assert forall j :: 0 <= j < |front| ==> front[j] == rs[j];
    TicksPolling(s, id, front);
    StatusFacts(Ticks(s, id, front), id, rs[|rs| - 1]);
  }

  /** The state after the events `es` happen one after another. */
  function Run(s: JobState, es: seq<Event>): JobState {
    if |es| == 0 then s else Step(Run(s, es[..|es| - 1]), es[|es| - 1]).state
  }

  /** Only the start of the same job starts its interval again: no other event adds it to `polling`. */
  lemma {:induction false} StaysStopped(s: JobState, id: string, es: seq<Event>)
    requires id !in s.polling
    requires forall j :: 0 <= j < |es| ==> es[j] != StartOk(id)
    ensures id !in Run(s, es).polling
  {
    if |es| > 0 {
      var front := es[..|es| - 1];
      assert forall j :: 0 <= j < |front| ==> front[j] == es[j];
      StaysStopped(s, id, front);
    }
  }

  /**
   * `clearInterval` stops every later tick: once the job's poll has stopped, no tick of it sends
   * a request again unless the same job is started anew. Responses already in flight are still
   * handled (`StatusFacts` holds whether or not the interval runs).
   */
  lemma TicksSilentAfterStop(s: JobState, id: string, es: seq<Event>)
    requires id !in s.polling
    requires forall j :: 0 <= j < |es| ==> es[j] != StartOk(id)
    ensures forall j :: 0 <= j < |es| && es[j] == Tick(id) ==> Step(Run(s, es[..j]), es[j]).request == NoRequest
  {
    forall j | 0 <= j < |es| && es[j] == Tick(id)
      ensures Step(Run(s, es[..j]), es[j]).request == NoRequest
    {
      var front := es[..j];
      assert forall i :: 0 <= i < |front| ==> front[i] == es[i];
      StaysStopped(s, id, front);
    }
  }

  /**
   * A late response still counts: a `completed` response of a job whose poll has already
   * stopped toasts the success again and fetches the scenes again, and a late non-terminal one
   * overwrites the progress and status shown.
   */
  lemma LateResponse(s: JobState, id: string, r: JobStatus)
    requires id !in s.polling
    ensures r.status == "completed" ==>
      Step(s, Status(id, r)).notice == Some(Success(CompletedText)) && Step(s, Status(id, r)).request == FetchScenes(id)
    ensures !Terminal(r.status) ==> Step(s, Status(id, r)).state == s.(progress := r.progress, status := r.status)
    ensures id !in Step(s, Status(id, r)).state.polling
  {
  }

  /** The page's job state, which the event handlers update in place. */
  class JobTracker {
    var isGenerating: bool
    var jobId: Option<string>
    var progress: int
    var status: string
    var exportInfo: Option<ExportInfo>
    var scenes: seq<Scene>
    var startTime: Option<int>
    var generationDuration: Option<real>
    var polling: set<string>
    var errorText: Option<string>

    /** The fields as one value. */
    function Snapshot(): JobState
      reads this
    {
      JobState(isGenerating, jobId, progress, status, exportInfo, scenes, startTime, generationDuration, polling, errorText)
    }

    constructor ()
      ensures Snapshot() == Initial
    {
      isGenerating, jobId, progress, status := false, None, 0, "";
      exportInfo, scenes, startTime, generationDuration := None, [], None, None;
      polling, errorText := {}, None;
    }

    /** `handleGenerate` up to the start request. */
    method OnSubmit(screenplay: string, now: int) returns (notice: Option<Notice>, request: Request)
      modifies this
      ensures Step(old(Snapshot()), Submit(screenplay, now)) == Outcome(Snapshot(), notice, request)
    {
      if TrimJs(screenplay) == "" {
        return Some(Failure(BlankText)), NoRequest;
      }
      isGenerating := true;
      progress := 0;
      exportInfo := None;
      scenes := [];
      generationDuration := None;
      startTime := Some(now);
      notice, request := None, PostGenerate;
    }

    /** The start request succeeded: the job id is kept and its status interval starts. */
    method OnStartOk(id: string) returns (notice: Option<Notice>)
      modifies this
      ensures Step(old(Snapshot()), StartOk(id)) == Outcome(Snapshot(), notice, NoRequest)
    {
      jobId := Some(id);
      notice := Some(Success(StartedText));
      polling := polling + {id};
    }

    /** The start request failed. */
    method OnStartFailed() returns (notice: Option<Notice>)
      modifies this
      ensures Step(old(Snapshot()), StartFailed) == Outcome(Snapshot(), notice, NoRequest)
    {
      notice := Some(Failure(StartFailedText));
      isGenerating := false;
    }

    /** The interval of job `id` fires: it sends the status request only while it runs. */
    method OnTick(id: string) returns (request: Request)
      ensures Step(Snapshot(), Tick(id)) == Outcome(Snapshot(), None, request)
    {
      request := if id in polling then GetStatus(id) else NoRequest;
    }

    /** A status response of job `id` arrives, whether or not its interval still runs. */
    method OnStatus(id: string, r: JobStatus) returns (notice: Option<Notice>, request: Request)
      modifies this
      ensures Step(old(Snapshot()), Status(id, r)) == Outcome(Snapshot(), notice, request)
    {
      progress := r.progress;
      status := r.status;
      notice, request := None, NoRequest;
      if r.status == "completed" {
        polling := polling - {id};
        isGenerating := false;
        exportInfo := r.exportInfo;
        generationDuration := r.generationDuration;
        notice, request := Some(Success(CompletedText)), FetchScenes(id);
      } else if r.status == "failed" {
        polling := polling - {id};
        isGenerating := false;
        errorText := Some(FailedPrefix + Reason(r.error));
        notice := Some(Failure(FailedPrefix + Reason(r.error)));
      }
    }

    /** A status request of job `id` failed: the error is only logged and the poll goes on. */
    method OnPollError(id: string)
      ensures Step(Snapshot(), PollError(id)) == Outcome(Snapshot(), None, NoRequest)
    {
    }

    /** `fetchScenes` succeeded with the response's `scenes` and `export_info`. */
    method OnScenes(list: Option<seq<Scene>>, info: Option<ExportInfo>)
      modifies this
      ensures Step(old(Snapshot()), Scenes(list, info)) == Outcome(Snapshot(), None, NoRequest)
    {
      scenes := list.GetOr([]);
      if info.Some? {
        exportInfo := info;
      }
    }
  }
}
