# YouTube analysis pipeline — a Dafny model

This project models the core of a NestJS service that analyses a YouTube
video. A client submits a URL and receives a job id, and the job goes on a
queue. A worker then runs five stages in order:

1. A headless browser opens the page. It gets past CAPTCHA and cookie banners, starts playback, takes a screenshot and reads the title and channel.
2. The audio is extracted to a 16 kHz mono WAV. The primary extractor is ytdl-core, with a yt-dlp fallback.
3. The audio is transcribed, and the word list is regrouped into speaker segments.
4. Every segment is scored with GPTZero's AI probability.
5. The record is saved as `results/<jobId>.json`.

A poll returns the saved record with the public screenshot URL filled in.

The modules follow the source files:

| module | file | source |
|---|---|---|
| `Wrappers` | `wrappers.dfy` | `Option`, `Result` and `Fault` (a JavaScript `Error`: its `message`, and how it prints in a template string) |
| `Strings` | `strings.dfy` | the JavaScript string operations the code relies on: `trim`, `toLowerCase`, `includes`, `join` |
| `Transcription` | `transcription.dfy` | `transcription.service.ts` |
| `BrowserSession` | `browser_session.dfy` | `puppeteer.utils.ts` |
| `AudioExtraction` | `audio_extraction.dfy` | `ffmpeg.utils.ts` |
| `Storage` | `storage.dfy` | `storage.service.ts` |
| `Analyze` | `analyze.dfy` | `analyze.processor.ts` and `analyze.service.ts` |
| `RequestValidation` | `request_validation.dfy` | the `@Matches` rule of `analyze-request.dto.ts` |

The code changes state step by step in several places. Those places are modelled imperatively:

- **Normalisation.** The word loop of `normalizeTranscription` is a `while` loop. It is proved equal to a specification function. That function cuts the words into maximal equal-speaker runs, and the runs are proved to be the unique such partition.
- **Scoring.** The scoring loop of `analyzeWithGPTZero` is a `for` loop.
- **Storage.** `StorageService` is a class, `ResultStore`. Its `files` field maps result paths to file contents, and its `screenshots` field holds the names of the screenshot files.
- **The job queue.** It is a `seq` field of `AnalyzeService`.
- **The browser page.** It is a `Page` object:
  - the page content is one fixed `Snapshot`: what each selector lookup yields, and how navigation, the `<body>` wait, in-page scripts and the screenshot turn out;
  - the mutable part is the log of clicked selectors, the CAPTCHA response field, and a ghost log of the task stages that have acted on the page, which the operations append to.

Outside collaborators become parameters:

- the browser's answers;
- `ytdl.validateURL`;
- the transcoder's outcome for each attempt;
- the speech-to-text response;
- the GPTZero call;
- the 2Captcha solver;
- whether the result file can be written;
- the clock.

## Model

| member | source | states |
|---|---|---|
| Transcription.RunsArePartition | src/modules/transcription/transcription.service.ts:56-72 | The runs the loop builds are a partition of the words: flattened they give back every word in order. No run is empty, each run has a single speaker, and neighbouring runs have different speakers. |
| Transcription.RunsUnique | src/modules/transcription/transcription.service.ts:56-72 | Any partition of the words into maximal equal-speaker runs is exactly the one the loop builds. |
| Transcription.RunCount | src/modules/transcription/transcription.service.ts:57 | A non-empty word list has one run more than it has neighbouring pairs whose speakers differ under `!==`. |
| Transcription.SegmentsFollowMaximalRuns | src/modules/transcription/transcription.service.ts:56-81 | For any maximal-run partition, there is one segment per run. Segment `i` has run `i`'s speaker and its words' texts joined by single spaces. |
| Transcription.SegmentBoundaries | src/modules/transcription/transcription.service.ts:54-80 | Each segment after the first starts where the previous one ends. That shared time is the start of the first word of the segment's own speaker run. The last segment ends at the last word's end. The first segment starts at the first word's start, unless that word's speaker is `null`: then its start stays `null`. |
| Transcription.SegmentLink | src/modules/transcription/transcription.service.ts:60-68 | When the speaker changes at run `i`, the closed segment ends, and the new one starts, at the start of run `i`'s first word. |
| Transcription.OuterSegmentTimes | src/modules/transcription/transcription.service.ts:54-80 | The first segment starts at the first word's start (`null` when that word's speaker is `null`), and the last ends at the last word's end. |
| Transcription.SegmentCount | src/modules/transcription/transcription.service.ts:56-81 | A non-empty word list yields speaker changes + 1 segments. |
| Transcription.SegmentWords | src/modules/transcription/transcription.service.ts:51-81 | The word loop, with its open-segment state, produces exactly the segments of the maximal speaker runs. |
| Transcription.NormalizeTranscription | src/modules/transcription/transcription.service.ts:46-87 | A transcription that already has `segments` is returned unchanged. Otherwise `segments` is set to the segmentation of `words` (empty when `words` is missing), and nothing else changes. |
| Transcription.AnalyzeWithGPTZero | src/modules/transcription/transcription.service.ts:89-130 | Every segment keeps all its fields except `ai_probability`, and order and count are preserved. With a key, the score is the classifier's answer for that segment, or `null` when the call fails. Without a key, it is a number in [0, 1). Words and other fields are unchanged. |
| Transcription.ScoresIsolated | src/modules/transcription/transcription.service.ts:92-123 | A failed or different classifier answer for one segment changes no other segment's score. |
| Strings.Trim | src/shared/utils/puppeteer.utils.ts:300 | `trim()` removes exactly the leading and trailing JavaScript white space and keeps the middle. |
| Strings.ToLower | src/shared/utils/ffmpeg.utils.ts:102 | `toLowerCase()` keeps the length and maps each ASCII capital to its lower-case letter. |
| BrowserSession.FirstClickableIsFirst | src/shared/utils/puppeteer.utils.ts:155-177 | A click scan clicks the first selector in list order whose element exists and whose click succeeds. It clicks nothing only when no selector of the list qualifies. |
| BrowserSession.MediaPlaying | src/shared/utils/puppeteer.utils.ts:206-224 | A `<video>` element decides alone: it is playing when it is not paused and its `readyState` is `HAVE_FUTURE_DATA` or `HAVE_ENOUGH_DATA`. Without one, the player API must report state 1. |
| BrowserSession.PauseButtonMeansPlaying | src/shared/utils/puppeteer.utils.ts:199-204 | A pause button found before any lookup throws means the video counts as playing. |
| BrowserSession.FailedPauseLookupMeansNotPlaying | src/shared/utils/puppeteer.utils.ts:227-230 | A pause-button lookup that throws before any button is found means the video does not count as playing. |
| BrowserSession.NoPauseButtonMeansMediaDecides | src/shared/utils/puppeteer.utils.ts:199-226 | With no pause button, the in-page media check decides. A failing script means the video is not playing. |
| BrowserSession.ScreenshotOptionsRule | src/shared/utils/puppeteer.utils.ts:243-255 | The path is `<cwd>/screenshots/<jobId>.jpg` for JPEG and `.png` otherwise. Quality 80 is set only for JPEG, and only the viewport is captured. |
| BrowserSession.ScreenshotFileInjective | src/shared/utils/puppeteer.utils.ts:243-244 | Different jobs or formats never share a screenshot file. |
| BrowserSession.ScreenshotOutcome | src/shared/utils/puppeteer.utils.ts:233-264 | The screenshot path is returned exactly when the capture succeeds. Otherwise the capture's error is rethrown. |
| BrowserSession.TextSearchFindsFirstText | src/shared/utils/puppeteer.utils.ts:297-303 | When no lookup before it throws, the scan yields the trimmed text of the first element whose text is non-empty. Later lookups do not matter. |
| BrowserSession.TextSearchSucceeds | src/shared/utils/puppeteer.utils.ts:297-312 | A scan in which no lookup throws does not fail. |
| BrowserSession.TextSearchFindsNothing | src/shared/utils/puppeteer.utils.ts:293-303 | When no element has text, the scan finds nothing, and the sentinel stays. |
| BrowserSession.TextSearchFailsOnFault | src/shared/utils/puppeteer.utils.ts:297-324 | A lookup that throws before any text is found aborts the whole script. |
| BrowserSession.WhitespaceTitleIsEmpty | src/shared/utils/puppeteer.utils.ts:299-300 | A title element whose text is only white space ends the scan with the empty title. Only missing elements may come before it, and the channel scan must not throw. |
| BrowserSession.CaptchaGuards | src/shared/utils/puppeteer.utils.ts:362-381 | With no solver, `solveCaptcha` throws the "no 2Captcha API key" error. With no CAPTCHA iframe, it throws "CAPTCHA iframe not found". With an empty or missing site key, it succeeds without calling the solver. |
| BrowserSession.CaptureStages | src/shared/utils/puppeteer.utils.ts:68-125 | The task fails exactly when navigation, the `<body>` wait or the screenshot fails. On failure, the stages run are a prefix ending in the failed stage, and the error carries the task prefix. On success, all stages ran in order (CAPTCHA before consent), and the screenshot is `<cwd>/screenshots/<jobId>.png`. |
| BrowserSession.CaptureErrorMessage | src/shared/utils/puppeteer.utils.ts:118-124 | The task's error is "Failed to analyze YouTube video: " followed by the first failure's message. |
| BrowserSession.PuppeteerUtils.IsVideoPlaying | src/shared/utils/puppeteer.utils.ts:182-231 | The pause-button scan and then the media script give `VideoPlaying`. Any exception gives `false`. |
| BrowserSession.PuppeteerUtils.ClickFirst | src/shared/utils/puppeteer.utils.ts:155-177 | Clicks the first clickable selector. It appends exactly that selector to the click log and changes nothing else. |
| BrowserSession.PuppeteerUtils.PlayVideo | src/shared/utils/puppeteer.utils.ts:134-180 | Clicks nothing when the video already plays. Otherwise it clicks the first clickable play selector. It records the play stage in the page's stage log. |
| BrowserSession.PuppeteerUtils.HandleCookieConsent | src/shared/utils/puppeteer.utils.ts:406-435 | Clicks the first clickable consent selector, or nothing. It records the consent stage in the stage log. |
| BrowserSession.PuppeteerUtils.DetectCaptcha | src/shared/utils/puppeteer.utils.ts:336-359 | True exactly when some CAPTCHA marker's lookup finds an element. Lookups that throw are skipped. It records the CAPTCHA stage in the stage log and clicks nothing. |
| BrowserSession.PuppeteerUtils.SolveCaptcha | src/shared/utils/puppeteer.utils.ts:361-404 | Throws exactly the guard, site-key or solver error. Otherwise it writes the solution into the response field when that field exists, and clicks nothing. |
| BrowserSession.PuppeteerUtils.FindText | src/shared/utils/puppeteer.utils.ts:297-312 | The scan loop computes the first-text search. |
| BrowserSession.PuppeteerUtils.TakeScreenshot | src/shared/utils/puppeteer.utils.ts:233-264 | Returns `ScreenshotOutcome`: the path on success, the capture's error otherwise. It records the screenshot stage in the stage log. |
| BrowserSession.PuppeteerUtils.GetVideoInfo | src/shared/utils/puppeteer.utils.ts:266-325 | Title and channel come from their own scans. Either sentinel stays when its scan finds nothing, and any failure gives both sentinels. It records the info stage in the stage log. |
| BrowserSession.PuppeteerUtils.PreparePage | src/shared/utils/puppeteer.utils.ts:90-108 | A CAPTCHA is solved only when one is detected, and its failure is swallowed. Then consent and play clicks happen, in that order. The stage log gains CAPTCHA, consent and play, in that order. |
| BrowserSession.PuppeteerUtils.VisitPage | src/shared/utils/puppeteer.utils.ts:71-117 | The `try` block's result is `VisitOutcome`. The operations it calls append to the page's stage log exactly `StagesRun`: the prefix of the task order up to the failed stage. The page's clicks and CAPTCHA field are untouched when navigation or the `<body>` wait fails. |
| BrowserSession.PuppeteerUtils.CaptureTask | src/shared/utils/puppeteer.utils.ts:68-125 | The result is `CaptureOutcome`, with any error wrapped by the `catch`. The stage log and the page change as in `VisitPage`. |
| AudioExtraction.YtDlpArgs | src/shared/utils/ffmpeg.utils.ts:111-118 | The fallback's six arguments end with the URL. |
| AudioExtraction.OutputPathInjective | src/shared/utils/ffmpeg.utils.ts:42-43 | Different jobs never share an audio output file. |
| AudioExtraction.MissingMessageNeverTriggers | src/shared/utils/ffmpeg.utils.ts:102-106 | An error without a message never triggers the fallback. |
| AudioExtraction.UpperCaseSignatureTriggers | src/shared/utils/ffmpeg.utils.ts:102-106 | The trigger is case-insensitive: "SIGNATURE" anywhere in the message triggers the fallback. |
| AudioExtraction.OutputIsJobWav | src/shared/utils/ffmpeg.utils.ts:53-79 | Success returns `<cwd>/audio/<jobId>.wav`. Every transcoder run uses `-re`, 16000 Hz, 1 channel, `pcm_s16le`, `wav` and that path. |
| AudioExtraction.InvalidUrlRejectedFirst | src/shared/utils/ffmpeg.utils.ts:49-51 | An invalid URL throws "Invalid YouTube URL" before any download or spawn. |
| AudioExtraction.FallbackRule | src/shared/utils/ffmpeg.utils.ts:82-135 | Primary success needs no fallback. A non-signature error is rethrown unchanged after one attempt. A failing fallback reports "Both ytdl-core and yt-dlp failed: …". |
| AudioExtraction.MissingStdoutMessage | src/shared/utils/ffmpeg.utils.ts:123-131 | A yt-dlp process without stdout fails with "Both ytdl-core and yt-dlp failed: Error: yt-dlp did not provide stdout stream". |
| AudioExtraction.CheckFfmpegAvailability | src/shared/utils/ffmpeg.utils.ts:21-32 | Throws the "FFmpeg not found" error exactly when `ffmpeg -version` fails. |
| AudioExtraction.DownloadAndProcessAudio | src/shared/utils/ffmpeg.utils.ts:38-136 | Result and attempts are `AudioOutcome` and `Attempts`. The completed WAV file is added to the host's files exactly on success. `yt-dlp` is spawned once, with its arguments, only on the fallback path. |
| Storage.ResultFileInjective | src/modules/storage/storage.service.ts:17 | Different jobs have different result files. |
| Storage.SaveThenGet | src/modules/storage/storage.service.ts:29-61 | Reading back a saved record gives the record. Only `screenshotPath` changes: it is `/screenshots/<jobId>.png` exactly when the PNG exists, and `null` otherwise. |
| Storage.OtherJobsUnaffected | src/modules/storage/storage.service.ts:16-27 | Saving one job's record leaves every other job's lookup unchanged. |
| Storage.UnsavedIsNotFound | src/modules/storage/storage.service.ts:34-37 | A job without a result file is rejected with "Result not found". |
| Storage.JpegScreenshotIgnored | src/modules/storage/storage.service.ts:31 | Only the PNG screenshot is looked for: a JPEG of the job changes nothing. |
| Storage.ResultStore.SaveResult | src/modules/storage/storage.service.ts:16-27 | Writes or replaces the job's file unless the write fails, and then rejects with the write error. The screenshots are untouched. |
| Storage.ResultStore.GetResult | src/modules/storage/storage.service.ts:29-61 | Yields not-found, the read error, the parse error, or the record with its screenshot URL, without changing the store. |
| Analyze.PipelineOrder | src/modules/analyze/analyze.processor.ts:27-61 | The stages run are a non-empty prefix of capture, audio, transcribe, score, save. Each stage runs only after all earlier stages succeeded. The save is reached exactly when capture, audio and transcription succeed. |
| Analyze.TranscribedHasSegments | src/modules/transcription/transcription.service.ts:37 | The transcription handed to scoring always has segments. |
| Analyze.AnalyzeProcessor.HandleAnalysis | src/modules/analyze/analyze.processor.ts:23-66 | On success, the record has the payload's id and URL, the capture's info and screenshot path, the scored normalised transcription and the clock's time. It is saved under the job id. Otherwise the first stage error is rethrown and nothing is saved. |
| Analyze.AnalyzeService.CreateAnalysisJob | src/modules/analyze/analyze.service.ts:15-25 | Enqueues exactly one `"process"` job with the URL and the fresh id, and returns that id. |
| Analyze.AnalyzeService.GetAnalysisResult | src/modules/analyze/analyze.service.ts:27-29 | Yields exactly the store's lookup. |
| Analyze.SubmitThenPoll | src/modules/analyze/analyze.service.ts:15-29 | Polling a just-submitted job whose result file does not exist yields "Result not found". |
| Analyze.ProcessThenPoll | src/modules/analyze/analyze.processor.ts:58 | After a successful run, polling returns the record that was saved. Only `screenshotPath` may differ. |
| RequestValidation.Validate | src/modules/analyze/dto/analyze-request.dto.ts:6-8 | No error exactly when the pattern matches. The error is "URL must be a valid YouTube URL". |
| RequestValidation.MatchesIffPattern | src/modules/analyze/dto/analyze-request.dto.ts:6 | The left-to-right matcher accepts exactly the strings spelled by optional `http://`/`https://`, optional `www.`, a host `youtube.com`, `youtu.be` or `youtube`, a `/`, and one or more characters other than line terminators. |
| RequestValidation.MatchesSound | src/modules/analyze/dto/analyze-request.dto.ts:6 | The matcher accepts only strings the pattern describes. |
| RequestValidation.MatchesComplete | src/modules/analyze/dto/analyze-request.dto.ts:6 | The matcher accepts every string the pattern describes. |
| RequestValidation.ChoicesForced | src/modules/analyze/dto/analyze-request.dto.ts:6 | Whichever alternatives spell out the front of a string, the matcher takes the same ones. |
| RequestValidation.BareHostRejected | src/modules/analyze/dto/analyze-request.dto.ts:6 | A URL that ends right after the host's `/` is rejected. |
| RequestValidation.LineBreakRejected | src/modules/analyze/dto/analyze-request.dto.ts:6 | A line terminator after the host's `/` makes the URL invalid. |
| RequestValidation.OtherSubdomainRejected | src/modules/analyze/dto/analyze-request.dto.ts:6 | A subdomain other than `www.` (for example `m.`) is rejected. |
| RequestValidation.WatchAndShortLinksAccepted | src/modules/analyze/dto/analyze-request.dto.ts:6 | `https://www.youtube.com/watch?v=<id>` and `https://youtu.be/<id>` are accepted. |
| RequestValidation.BareYoutubeHostAccepted | src/modules/analyze/dto/analyze-request.dto.ts:6 | The optional dot also admits a bare `youtube` host, as in `http://youtube/<path>`. |

## Left out

- **Two behaviours of the code, modelled as written:**
  - the capture task handles a CAPTCHA before the cookie banner (`puppeteer.utils.ts:90-108`);
  - the combined audio-extraction error embeds only the fallback's error, `${ytErr}` (`ffmpeg.utils.ts:130`); the primary error is not part of the message.
- AudioExtraction.DownloadAndProcessAudio: `host.files` records completed outputs only. ffmpeg's `.save(outputPath)` (`ffmpeg.utils.ts:74`) may leave a partial WAV at the output path when a run fails, and that partial file is not modelled.
- BrowserSession.CaptureStages: the stage order is derived from the operations for the CAPTCHA, consent, play, screenshot and info stages, each of which appends to the page's stage log. Navigation, the `<body>` wait and the settle delay are inline steps of the task, and the task itself records them.
- **Timing.** Browser launch, pool settings, viewport and user agent, timeouts and settle delays are not modelled. A timed-out wait is one of the failure outcomes.
- **The `Page` snapshot.** It is fixed for the whole task:
  - a click does not change the page;
  - playVideo's re-check after clicking is only logged, so it is left out;
  - the consent scan's `waitForSelector` is read as an immediate lookup.
- **CAPTCHA evaluation.** Failures of the in-frame `evaluate` that writes the CAPTCHA solution are not modelled. Such a failure is swallowed by the task in any case.
- **File paths.** Directory creation is left out. `path.join` is modelled as plain `/` concatenation of a working-directory string. Storage paths are relative to the working directory.
- **JSON.** `JSON.stringify` and `JSON.parse` are treated as inverse. A stored file is either a record, a read failure or a parse failure. A failed write is modelled as leaving the earlier contents, not a partial file.
- **Transcription input.** `transcribeAudio` is modelled only through its outcome. The file read and the ElevenLabs call are one speech-to-text response, after which the normalisation modelled here is applied.
- **Collaborator outcomes are parameters:**
  - `ytdl.validateURL`;
  - ytdl-core's stream, ffmpeg and yt-dlp, as the transcoder's outcome per attempt;
  - `execSync`;
  - the 2Captcha, GPTZero and ElevenLabs calls;
  - `randomUUID`, as a fresh id argument whose uniqueness is not modelled;
  - the clock, as an ISO string.
- **`Math.random()`.** It is modelled as an arbitrary number in [0, 1).
- Strings.ToLower: lowers only the ASCII capitals; JavaScript's `toLowerCase` also maps non-ASCII capitals, which the fallback trigger's check could in principle see.
- **Request validation.** `@IsUrl()` and `@IsString()` on the request body are not modelled. Only the `@Matches` pattern is.
- **Out of scope:**
  - logging and the NestJS module wiring;
  - the screenshot controller and the cluster's `execute`, which are plain delegation;
  - the older copy of the storage service in the file named with a leading space, which `analyze.module.ts` imports;
  - the model follows the `storage.service.ts` the processor and service import.
- **Concurrency.** Concurrency across jobs and the queue's delivery, retry and backoff are not modelled. Each operation is one sequential run.
