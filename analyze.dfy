/**
 * Job submission and the analysis pipeline: a request enqueues one
 * `"process"` job, and the queue worker runs capture, audio extraction,
 * transcription and scoring in order, saving the assembled record only
 * when every stage has succeeded.
 */
module Analyze {
  import opened Wrappers
  import Transcription
  import BrowserSession
  import Storage

  /** The payload of a queued job. */
  datatype JobData = JobData(youtubeUrl: string, jobId: string)

  /** An entry of the analysis queue: the job's name and its payload. */
  datatype QueuedJob = QueuedJob(name: string, data: JobData)

  const PROCESS_JOB := "process"

  /** The classifier call for segment `i` and its text, as the transcription service makes it. */
  type Classifier = (nat, string) -> Option<real>

  /**
   * The outcomes of the pipeline's collaborators: the browser capture for
   * a URL and job, the audio extraction for a URL and job, the
   * speech-to-text response for an audio path, the GPTZero classifier when
   * a key is configured, the outcome of writing the result file, and the
   * clock's ISO timestamp.
   */
  datatype Collaborators = Collaborators(
    capture: (string, string) -> Result<BrowserSession.Capture, Fault>,
    audio: (string, string) -> Result<string, Fault>,
    speechToText: string -> Result<Transcription.Transcription, Fault>,
    classifier: Option<Classifier>,
    writeError: Option<Fault>,
    now: string)

  /** The stages of `handleAnalysis`, in the order it runs them. */
  datatype PipelineStage = CaptureStage | AudioStage | TranscribeStage | ScoreStage | SaveStage

  const PIPELINE: seq<PipelineStage> := [CaptureStage, AudioStage, TranscribeStage, ScoreStage, SaveStage]

  /** The transcription stage: the speech-to-text response, normalized into segments. */
  function Transcribed(job: JobData, c: Collaborators): Result<Transcription.Transcription, Fault>
    requires c.audio(job.youtubeUrl, job.jobId).Success?
  {
    match c.speechToText(c.audio(job.youtubeUrl, job.jobId).value)
    case Failure(e) => Failure(e)
    case Success(t) => Success(Transcription.Normalized(t))
  }

  /** The stages `handleAnalysis` enters: up to the first that fails, or all of them. */
  function PipelineStagesRun(job: JobData, c: Collaborators): seq<PipelineStage> {
    if c.capture(job.youtubeUrl, job.jobId).Failure? then PIPELINE[..1]
    else if c.audio(job.youtubeUrl, job.jobId).Failure? then PIPELINE[..2]
    else if Transcribed(job, c).Failure? then PIPELINE[..3]
    else PIPELINE
  }

  /** The error `handleAnalysis` rethrows: that of the first failing stage, the save included. */
  function PipelineError(job: JobData, c: Collaborators): Option<Fault> {
    var capture := c.capture(job.youtubeUrl, job.jobId);
    if capture.Failure? then Some(capture.error)
    else
      var audio := c.audio(job.youtubeUrl, job.jobId);
      if audio.Failure? then Some(audio.error)
      else if Transcribed(job, c).Failure? then Some(Transcribed(job, c).error)
      else c.writeError
  }

  /**
   * The stages run strictly in order: the run is a prefix of the pipeline,
   * each stage in it is entered only when every earlier stage succeeded,
   * and the save is reached exactly when capture, audio and transcription
   * all succeeded.
   */
  lemma PipelineOrder(job: JobData, c: Collaborators)
    ensures var run := PipelineStagesRun(job, c);
      && 0 < |run| && run <= PIPELINE
      && (AudioStage in run ==> c.capture(job.youtubeUrl, job.jobId).Success?)
      && (TranscribeStage in run ==> c.capture(job.youtubeUrl, job.jobId).Success? && c.audio(job.youtubeUrl, job.jobId).Success?)
      && (SaveStage in run <==>
            c.capture(job.youtubeUrl, job.jobId).Success? && c.audio(job.youtubeUrl, job.jobId).Success?
            && Transcribed(job, c).Success?)
      && (SaveStage !in run ==> PipelineError(job, c).Some?)
  {
    var run := PipelineStagesRun(job, c);
    assert PIPELINE[..1] == [CaptureStage];
    assert PIPELINE[..2] == [CaptureStage, AudioStage];
    assert PIPELINE[..3] == [CaptureStage, AudioStage, TranscribeStage];
  }

  /** The transcription handed to scoring always has segments. */
  lemma TranscribedHasSegments(job: JobData, c: Collaborators)
    requires c.audio(job.youtubeUrl, job.jobId).Success? && Transcribed(job, c).Success?
    ensures Transcribed(job, c).value.segments.Some?
  {
  }

  /** `AnalyzeProcessor`: the queue worker, writing to the result store. */
  class AnalyzeProcessor {
    const store: Storage.ResultStore

    constructor(store: Storage.ResultStore)
      ensures this.store == store
    {
      this.store := store;
    }

    /**
     * `handleAnalysis`: runs the stages in order, assembles the record from
     * the payload, the capture and the scored transcription, saves it under
     * the job id and returns it. Any failure is rethrown, and then nothing
     * has been saved.
     */
    method HandleAnalysis(job: JobData, c: Collaborators) returns (r: Result<Storage.AnalysisResult, Fault>, stages: seq<PipelineStage>)
      modifies store
      ensures stages == PipelineStagesRun(job, c)
      ensures r.Failure? <==> PipelineError(job, c).Some?
      ensures r.Failure? ==> r.error == PipelineError(job, c).value && store.files == old(store.files)
      ensures r.Success? ==>
        var capture := c.capture(job.youtubeUrl, job.jobId).value;
        && r.value.jobId == job.jobId && r.value.youtubeUrl == job.youtubeUrl
        && r.value.videoInfo == capture.videoInfo
        && r.value.screenshotPath == Some(capture.screenshotPath)
        && r.value.createdAt == c.now
        && Transcription.ScoredFrom(r.value.transcription, Transcribed(job, c).value, c.classifier)
        && store.files == old(store.files)[Storage.ResultFile(job.jobId) := Storage.Parsed(r.value)]
      ensures store.screenshots == old(store.screenshots)
    {
      stages := [CaptureStage];
      var capture := c.capture(job.youtubeUrl, job.jobId);
      if capture.Failure? {
        return Failure(capture.error), stages;
      }
      stages := stages + [AudioStage];
      var audioPath := c.audio(job.youtubeUrl, job.jobId);
      if audioPath.Failure? {
        return Failure(audioPath.error), stages;
      }
      stages := stages + [TranscribeStage];
      var response := c.speechToText(audioPath.value);
      if response.Failure? {
        return Failure(response.error), stages;
      }
      var transcription := Transcription.NormalizeTranscription(response.value);
      stages := stages + [ScoreStage];
      var analyzed := Transcription.AnalyzeWithGPTZero(transcription, c.classifier);
      var result := Storage.AnalysisResult(job.jobId, job.youtubeUrl, capture.value.videoInfo,
                                           Some(capture.value.screenshotPath), analyzed, c.now);
      stages := stages + [SaveStage];
      var thrown := store.SaveResult(job.jobId, result, c.writeError);
      if thrown.Some? {
        return Failure(thrown.value), stages;
      }
      r := Success(result);
    }
  }

  /** `AnalyzeService`: the analysis queue and the result store it reads from. */
  class AnalyzeService {
    var queue: seq<QueuedJob>
    const store: Storage.ResultStore

    constructor(store: Storage.ResultStore)
      ensures this.store == store && queue == []
    {
      this.store := store;
      queue := [];
    }

    /**
     * `createAnalysisJob`: enqueues exactly one `"process"` job carrying the
     * URL and the new id, and returns that id. `freshId` stands for the
     * random UUID.
     */
    method CreateAnalysisJob(youtubeUrl: string, freshId: string) returns (jobId: string)
      modifies this
      ensures jobId == freshId
      ensures queue == old(queue) + [QueuedJob(PROCESS_JOB, JobData(youtubeUrl, jobId))]
    {
      jobId := freshId;
      queue := queue + [QueuedJob(PROCESS_JOB, JobData(youtubeUrl, jobId))];
    }

    /** `getAnalysisResult`: exactly what the store's `getResult` yields. */
    method GetAnalysisResult(jobId: string) returns (r: Result<Storage.AnalysisResult, Fault>)
      ensures r == Storage.LookupResult(store.files, store.screenshots, jobId)
    {
      r := store.GetResult(jobId);
    }
  }

  /**
   * Submitting a request and polling at once: the store is untouched, so a
   * new id (one without a result file) is reported as not found.
   */
  method SubmitThenPoll(service: AnalyzeService, youtubeUrl: string, freshId: string) returns (jobId: string, r: Result<Storage.AnalysisResult, Fault>)
    requires Storage.ResultFile(freshId) !in service.store.files
    modifies service
    ensures jobId == freshId
    ensures |service.queue| == |old(service.queue)| + 1
    ensures r == Failure(NewError(Storage.NOT_FOUND_MESSAGE))
  {
    jobId := service.CreateAnalysisJob(youtubeUrl, freshId);
    r := service.GetAnalysisResult(jobId);
  }

  /**
   * A job run to completion and then looked up: the saved record comes
   * back with every field but `screenshotPath` as returned by the worker.
   */
  method ProcessThenPoll(processor: AnalyzeProcessor, service: AnalyzeService, job: JobData, c: Collaborators)
    returns (saved: Result<Storage.AnalysisResult, Fault>, fetched: Result<Storage.AnalysisResult, Fault>)
    requires processor.store == service.store
    modifies processor.store
    ensures saved.Success? ==> fetched.Success? && fetched.value.(screenshotPath := saved.value.screenshotPath) == saved.value
  {
    var stages;
    saved, stages := processor.HandleAnalysis(job, c);
    fetched := service.GetAnalysisResult(job.jobId);
    if saved.Success? {
      Storage.SaveThenGet(old(processor.store.files), processor.store.screenshots, job.jobId, saved.value);
    }
  }
}
