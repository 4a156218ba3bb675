/**
 * Audio extraction for a job: the YouTube audio track transcoded to a
 * 16 kHz mono 16-bit WAV file named after the job. The primary extractor
 * is the ytdl-core stream; the yt-dlp binary is the fallback, used only for
 * the errors that signal YouTube's signature scrambling.
 *
 * The URL check of ytdl-core, the transcoder run and the yt-dlp process are
 * abstract outcomes; the host records the files written and the processes
 * spawned.
 */
module AudioExtraction {
  import opened Wrappers
  import opened Strings

  const INVALID_URL_MESSAGE := "Invalid YouTube URL"
  const NO_STDOUT_MESSAGE := "yt-dlp did not provide stdout stream"
  const BOTH_FAILED_PREFIX := "Both ytdl-core and yt-dlp failed: "
  const FFMPEG_MISSING_MESSAGE := "FFmpeg not found. Please install FFmpeg on your system."

  /** The two lower-case fragments of a primary error that call for the fallback. */
  const EXTRACT_FUNCTIONS := "could not extract functions"
  const SIGNATURE := "signature"

  /** The transcoder settings: input read at native rate, 16 kHz, one channel, 16-bit PCM, WAV. */
  datatype TranscodeConfig = TranscodeConfig(inputOptions: seq<string>, frequency: nat, channels: nat, codec: string, container: string)

  const WAV_CONFIG := TranscodeConfig(["-re"], 16000, 1, "pcm_s16le", "wav")

  /** Where the transcoder reads from: the ytdl-core audio stream or the stdout of yt-dlp. */
  datatype Source = YtdlStream(url: string) | YtDlpStdout(args: seq<string>)

  /** One transcoder run: its input, its settings and the file it saves to. */
  datatype Attempt = Attempt(source: Source, config: TranscodeConfig, output: string)

  /** The arguments yt-dlp is spawned with: best audio, written to stdout, no playlist expansion. */
  function YtDlpArgs(url: string): (args: seq<string>)
    ensures |args| == 6 && args[5] == url
  {
    ["-f", "bestaudio", "-o", "-", "--no-playlist", url]
  }

  /**
   * The collaborators of `downloadAndProcessAudio`: ytdl-core's URL check,
   * the outcome of one transcoder run (`None` when it reaches its end
   * event), and whether the spawned yt-dlp process has a stdout stream.
   */
  datatype Extractors = Extractors(
    validateUrl: string -> bool,
    transcode: Attempt -> Option<Fault>,
    ytDlpHasStdout: bool)

  /** The output file: `audio/<jobId>.wav` below the working directory. */
  function OutputPath(cwd: string, jobId: string): string {
    cwd + "/audio/" + jobId + ".wav"
  }

  /** Different jobs write different audio files. */
  lemma OutputPathInjective(cwd: string, j1: string, j2: string)
    requires OutputPath(cwd, j1) == OutputPath(cwd, j2)
    ensures j1 == j2
  {
    var p1, p2 := OutputPath(cwd, j1), OutputPath(cwd, j2);
    var n := |cwd| + 7;
    assert |p1| == n + |j1| + 4 && |p2| == n + |j2| + 4;
    assert p1[n..n + |j1|] == j1;
    assert p2[n..n + |j2|] == j2;
  }

  /**
   * Whether a primary failure calls for the fallback: its message, read as
   * "" when missing and lower-cased, contains one of the two fragments.
   */
  predicate FallbackTriggered(e: Fault) {
    var msg := ToLower(e.message.GetOr(""));
    Contains(msg, EXTRACT_FUNCTIONS) || Contains(msg, SIGNATURE)
  }

  /** An error without a message never calls for the fallback. */
  lemma MissingMessageNeverTriggers(shown: string)
    ensures !FallbackTriggered(Fault(None, shown))
  {
    assert ToLower("") == "";
  }

  /** The test ignores case: "SIGNATURE" anywhere in the message calls for the fallback. */
  lemma UpperCaseSignatureTriggers(before: string, after: string, shown: string)
    ensures FallbackTriggered(Fault(Some(before + "SIGNATURE" + after), shown))
  {
    var m := before + "SIGNATURE" + after;
    var msg := ToLower(m);
    var i := |before|;
    forall k | 0 <= k < |SIGNATURE| ensures msg[i + k] == SIGNATURE[k] {
      assert m[i + k] == "SIGNATURE"[k];
    }
    assert msg[i..i + |SIGNATURE|] == SIGNATURE;
    assert OccursAt(msg, SIGNATURE, i);
  }

  /** The error the fallback throws, embedding the rendering of the fallback's own error. */
  function BothFailed(fallbackError: Fault): Fault {
    NewError(BOTH_FAILED_PREFIX + fallbackError.shown)
  }

  /** The primary attempt: the ytdl-core stream into the WAV transcoder. */
  function PrimaryAttempt(url: string, cwd: string, jobId: string): Attempt {
    Attempt(YtdlStream(url), WAV_CONFIG, OutputPath(cwd, jobId))
  }

  /** The fallback attempt: yt-dlp's stdout into the same transcoder and file. */
  function FallbackAttempt(url: string, cwd: string, jobId: string): Attempt {
    Attempt(YtDlpStdout(YtDlpArgs(url)), WAV_CONFIG, OutputPath(cwd, jobId))
  }

  /** Whether the fallback's yt-dlp process is spawned. */
  predicate FallbackSpawned(url: string, cwd: string, jobId: string, x: Extractors) {
    && x.validateUrl(url)
    && x.transcode(PrimaryAttempt(url, cwd, jobId)).Some?
    && FallbackTriggered(x.transcode(PrimaryAttempt(url, cwd, jobId)).value)
  }

  /** The transcoder runs `downloadAndProcessAudio` starts, in order. */
  function Attempts(url: string, cwd: string, jobId: string, x: Extractors): seq<Attempt> {
    if !x.validateUrl(url) then []
    else if !FallbackSpawned(url, cwd, jobId, x) then [PrimaryAttempt(url, cwd, jobId)]
    else if !x.ytDlpHasStdout then [PrimaryAttempt(url, cwd, jobId)]
    else [PrimaryAttempt(url, cwd, jobId), FallbackAttempt(url, cwd, jobId)]
  }

  /** What `downloadAndProcessAudio` resolves with or rejects with. */
  function AudioOutcome(url: string, cwd: string, jobId: string, x: Extractors): Result<string, Fault> {
    if !x.validateUrl(url) then Failure(NewError(INVALID_URL_MESSAGE))
    else
      match x.transcode(PrimaryAttempt(url, cwd, jobId))
      case None => Success(OutputPath(cwd, jobId))
      case Some(primaryError) =>
        if !FallbackTriggered(primaryError) then Failure(primaryError)
        else if !x.ytDlpHasStdout then Failure(BothFailed(NewError(NO_STDOUT_MESSAGE)))
        else
          match x.transcode(FallbackAttempt(url, cwd, jobId))
          case None => Success(OutputPath(cwd, jobId))
          case Some(fallbackError) => Failure(BothFailed(fallbackError))
  }

  /**
   * Whichever extractor succeeds, the result is the job's WAV file; every
   * transcoder run uses the WAV settings and writes that file.
   */
  lemma OutputIsJobWav(url: string, cwd: string, jobId: string, x: Extractors)
    ensures AudioOutcome(url, cwd, jobId, x).Success? ==> AudioOutcome(url, cwd, jobId, x).value == OutputPath(cwd, jobId)
    ensures forall a :: a in Attempts(url, cwd, jobId, x) ==> a.config == WAV_CONFIG && a.output == OutputPath(cwd, jobId)
  {
  }

  /** An invalid URL is rejected before any extractor runs. */
  lemma InvalidUrlRejectedFirst(url: string, cwd: string, jobId: string, x: Extractors)
    requires !x.validateUrl(url)
    ensures AudioOutcome(url, cwd, jobId, x) == Failure(NewError(INVALID_URL_MESSAGE))
    ensures Attempts(url, cwd, jobId, x) == [] && !FallbackSpawned(url, cwd, jobId, x)
  {
  }

  /**
   * The primary error decides the path: success needs no fallback, an
   * error without the two fragments is rethrown unchanged, and a
   * fallback that fails, or has no stdout, is reported under the combined
   * prefix.
   */
  lemma FallbackRule(url: string, cwd: string, jobId: string, x: Extractors)
    requires x.validateUrl(url)
    ensures var primary := x.transcode(PrimaryAttempt(url, cwd, jobId));
      var r := AudioOutcome(url, cwd, jobId, x);
      && (primary.None? ==> r == Success(OutputPath(cwd, jobId)) && Attempts(url, cwd, jobId, x) == [PrimaryAttempt(url, cwd, jobId)])
      && (primary.Some? && !FallbackTriggered(primary.value) ==> r == Failure(primary.value) && |Attempts(url, cwd, jobId, x)| == 1)
      && (FallbackSpawned(url, cwd, jobId, x) && r.Failure? ==>
            r.error.message.Some? && StartsWith(r.error.message.value, BOTH_FAILED_PREFIX))
  {
    var r := AudioOutcome(url, cwd, jobId, x);
    if FallbackSpawned(url, cwd, jobId, x) && r.Failure? {
      assert r.error.message.value[..|BOTH_FAILED_PREFIX|] == BOTH_FAILED_PREFIX;
    }
  }

  /** A missing yt-dlp stdout is reported with the rendering of its own error. */
  lemma MissingStdoutMessage(url: string, cwd: string, jobId: string, x: Extractors)
    requires FallbackSpawned(url, cwd, jobId, x) && !x.ytDlpHasStdout
    ensures AudioOutcome(url, cwd, jobId, x).Failure?
    ensures AudioOutcome(url, cwd, jobId, x).error.message
      == Some(BOTH_FAILED_PREFIX + "Error: " + NO_STDOUT_MESSAGE)
  {
    assert AudioOutcome(url, cwd, jobId, x) == Failure(BothFailed(NewError(NO_STDOUT_MESSAGE)));
    assert BOTH_FAILED_PREFIX + ("Error: " + NO_STDOUT_MESSAGE) == BOTH_FAILED_PREFIX + "Error: " + NO_STDOUT_MESSAGE;
  }

  /** The host the extraction runs on: the files written so far and the processes spawned. */
  class AudioHost {
    var files: set<string>
    var spawned: seq<seq<string>>

    constructor()
      ensures files == {} && spawned == []
    {
      files := {};
      spawned := [];
    }
  }

  /**
   * `checkFfmpegAvailability`, run when the utility is constructed:
   * `versionRuns` is whether `ffmpeg -version` exits normally.
   */
  method CheckFfmpegAvailability(versionRuns: bool) returns (thrown: Option<Fault>)
    ensures thrown.None? <==> versionRuns
    ensures thrown.Some? ==> thrown.value.message == Some(FFMPEG_MISSING_MESSAGE)
  {
    if !versionRuns {
      return Some(NewError(FFMPEG_MISSING_MESSAGE));
    }
    return None;
  }

  /**
   * `downloadAndProcessAudio`: validates the URL, runs the primary
   * extractor and, when its error calls for it, spawns yt-dlp and runs the
   * transcoder on its stdout. A successful run leaves the WAV file behind.
   */
  method DownloadAndProcessAudio(host: AudioHost, url: string, cwd: string, jobId: string, x: Extractors)
    returns (r: Result<string, Fault>, attempts: seq<Attempt>)
    modifies host
    ensures r == AudioOutcome(url, cwd, jobId, x)
    ensures attempts == Attempts(url, cwd, jobId, x)
    ensures host.files == old(host.files) + (if r.Success? then {OutputPath(cwd, jobId)} else {})
    ensures host.spawned == old(host.spawned) + (if FallbackSpawned(url, cwd, jobId, x) then [["yt-dlp"] + YtDlpArgs(url)] else [])
  {
    var outputPath := OutputPath(cwd, jobId);
    attempts := [];
    if !x.validateUrl(url) {
      return Failure(NewError(INVALID_URL_MESSAGE)), attempts;
    }
    var primary := PrimaryAttempt(url, cwd, jobId);
    attempts := attempts + [primary];
    var primaryError := x.transcode(primary);
    if primaryError.None? {
      host.files := host.files + {outputPath};
      return Success(outputPath), attempts;
    }
    if !FallbackTriggered(primaryError.value) {
      return Failure(primaryError.value), attempts;
    }
    var args := YtDlpArgs(url);
    host.spawned := host.spawned + [["yt-dlp"] + args];
    if !x.ytDlpHasStdout {
      return Failure(BothFailed(NewError(NO_STDOUT_MESSAGE))), attempts;
    }
    var fallback := FallbackAttempt(url, cwd, jobId);
    attempts := attempts + [fallback];
    var fallbackError := x.transcode(fallback);
    if fallbackError.Some? {
      return Failure(BothFailed(fallbackError.value)), attempts;
    }
    host.files := host.files + {outputPath};
    r := Success(outputPath);
  }
}
