/**
 * The result store: one JSON file per job under `results/`, read back with
 * the public screenshot URL filled in from the `screenshots/` directory.
 * Paths are relative to the working directory.
 */
module Storage {
  import opened Wrappers
  import BrowserSession
  import Transcription

  /** The record the pipeline saves for a job. */
  datatype AnalysisResult = AnalysisResult(
    jobId: string,
    youtubeUrl: string,
    videoInfo: BrowserSession.VideoInfo,
    screenshotPath: Option<string>,
    transcription: Transcription.Transcription,
    createdAt: string)

  /**
   * A file of the results directory: a record (writing and parsing JSON is
   * treated as the identity), or a file whose read or parse fails.
   */
  datatype StoredFile = Parsed(record: AnalysisResult) | ReadFails(readError: Fault) | ParseFails(parseError: Fault)

  const NOT_FOUND_MESSAGE := "Result not found"

  /** The result file of a job. */
  function ResultFile(jobId: string): string {
    "results/" + jobId + ".json"
  }

  /** Different jobs have different result files. */
  lemma ResultFileInjective(j1: string, j2: string)
    requires ResultFile(j1) == ResultFile(j2)
    ensures j1 == j2
  {
    var f1, f2 := ResultFile(j1), ResultFile(j2);
    assert |f1| == 8 + |j1| + 5 && |f2| == 8 + |j2| + 5;
    assert f1[8..8 + |j1|] == j1;
    assert f2[8..8 + |j2|] == j2;
  }

  /** The only screenshot file the store looks for: the job's PNG. */
  function CheckedScreenshot(jobId: string): string {
    BrowserSession.ScreenshotFile(jobId, BrowserSession.Png)
  }

  /** The URL under which the screenshot is served. */
  function PublicScreenshotPath(jobId: string): string {
    "/screenshots/" + jobId + ".png"
  }

  /**
   * What `getResult` yields for a job, given the results and the existing
   * screenshot files: "Result not found" without a file, the read or parse
   * error for a bad one, and otherwise the record with `screenshotPath`
   * replaced according to the PNG's existence.
   */
  function LookupResult(files: map<string, StoredFile>, screenshots: set<string>, jobId: string): Result<AnalysisResult, Fault> {
    var file := ResultFile(jobId);
    if file !in files then Failure(NewError(NOT_FOUND_MESSAGE))
    else
      match files[file]
      case ReadFails(e) => Failure(e)
      case ParseFails(e) => Failure(e)
      case Parsed(record) =>
        Success(record.(screenshotPath :=
          if CheckedScreenshot(jobId) in screenshots then Some(PublicScreenshotPath(jobId)) else None))
  }

  /**
   * Reading back a saved record gives it with every field but
   * `screenshotPath` unchanged; that one is the public PNG URL exactly when
   * the PNG exists, whatever was saved.
   */
  lemma SaveThenGet(files: map<string, StoredFile>, screenshots: set<string>, jobId: string, record: AnalysisResult)
    ensures var r := LookupResult(files[ResultFile(jobId) := Parsed(record)], screenshots, jobId);
      && r.Success?
      && r.value.(screenshotPath := record.screenshotPath) == record
      && (r.value.screenshotPath == Some(PublicScreenshotPath(jobId)) <==> CheckedScreenshot(jobId) in screenshots)
      && (r.value.screenshotPath.None? <==> CheckedScreenshot(jobId) !in screenshots)
  {
  }

  /** Saving one job's record leaves every other job's lookup as it was. */
  lemma OtherJobsUnaffected(files: map<string, StoredFile>, screenshots: set<string>, saved: string, record: AnalysisResult, other: string)
    requires other != saved
    ensures LookupResult(files[ResultFile(saved) := Parsed(record)], screenshots, other) == LookupResult(files, screenshots, other)
  {
    if ResultFile(other) == ResultFile(saved) {
      ResultFileInjective(other, saved);
    }
  }

  /** A job that was never saved is not found. */
  lemma UnsavedIsNotFound(files: map<string, StoredFile>, screenshots: set<string>, jobId: string)
    requires ResultFile(jobId) !in files
    ensures LookupResult(files, screenshots, jobId).Failure?
    ensures LookupResult(files, screenshots, jobId).error.message == Some(NOT_FOUND_MESSAGE)
  {
  }

  /** A JPEG screenshot of the job does not count: only the PNG file is looked for. */
  lemma JpegScreenshotIgnored(files: map<string, StoredFile>, screenshots: set<string>, jobId: string)
    ensures LookupResult(files, screenshots + {BrowserSession.ScreenshotFile(jobId, BrowserSession.Jpeg)}, jobId)
      == LookupResult(files, screenshots, jobId)
  {
    if BrowserSession.ScreenshotFile(jobId, BrowserSession.Jpeg) == CheckedScreenshot(jobId) {
      BrowserSession.ScreenshotFileInjective(jobId, BrowserSession.Jpeg, jobId, BrowserSession.Png);
    }
  }

  /**
   * `StorageService`: the files of the results directory, keyed by path,
   * and the names of the files in the screenshots directory.
   */
  class ResultStore {
    var files: map<string, StoredFile>
    var screenshots: set<string>

    constructor(files: map<string, StoredFile>, screenshots: set<string>)
      ensures this.files == files && this.screenshots == screenshots
    {
      this.files := files;
      this.screenshots := screenshots;
    }

    /**
     * `saveResult`: writes the record to the job's file, replacing any
     * earlier one, unless the write fails (`writeError`), which it then
     * rejects with.
     */
    method SaveResult(jobId: string, record: AnalysisResult, writeError: Option<Fault>) returns (thrown: Option<Fault>)
      modifies this
      ensures thrown == writeError
      ensures files == if writeError.None? then old(files)[ResultFile(jobId) := Parsed(record)] else old(files)
      ensures screenshots == old(screenshots)
    {
      if writeError.Some? {
        return writeError;
      }
      files := files[ResultFile(jobId) := Parsed(record)];
      return None;
    }

    /** `getResult`: only reads the store. */
    method GetResult(jobId: string) returns (r: Result<AnalysisResult, Fault>)
      ensures r == LookupResult(files, screenshots, jobId)
    {
      var file := ResultFile(jobId);
      if file !in files {
        return Failure(NewError(NOT_FOUND_MESSAGE));
      }
      match files[file] {
        case ReadFails(e) => return Failure(e);
        case ParseFails(e) => return Failure(e);
        case Parsed(record) =>
          var result := record;
          if CheckedScreenshot(jobId) in screenshots {
            result := result.(screenshotPath := Some(PublicScreenshotPath(jobId)));
          } else {
            result := result.(screenshotPath := None);
          }
          return Success(result);
      }
    }
  }
}
