/**
 * The headless-browser side of an analysis: the capture task that opens a
 * YouTube watch page, deals with a CAPTCHA and a cookie banner, starts
 * playback, takes a screenshot and reads the title and channel.
 *
 * The page is an abstract snapshot of what the browser would answer: for
 * each CSS selector, whether a lookup finds an element, finds nothing or
 * throws; the `<video>` element's state; the YouTube player API; and
 * whether navigation, the wait for `<body>`, `page.evaluate` and
 * `page.screenshot` fail. Clicks and the injected CAPTCHA answer are the
 * effects the task has on the page.
 */
module BrowserSession {
  import opened Wrappers
  import opened Strings

  // ---------------------------------------------------------------------------
  // Page snapshot
  // ---------------------------------------------------------------------------

  /**
   * The content of the CAPTCHA iframe: what `$eval(".g-recaptcha", …)`
   * yields for the `data-sitekey` attribute (a failure when there is no
   * such element), and whether a `#g-recaptcha-response` element exists.
   */
  datatype Frame = Frame(sitekey: Result<Option<string>, Fault>, responseField: bool)

  /**
   * An element a selector finds: its `textContent`, the error its
   * `click()` throws if any, and its `contentFrame()` (only iframes have one).
   */
  datatype Element = Element(text: string, clickFault: Option<Fault>, frame: Option<Frame>)

  /** What looking a selector up yields: an element, nothing (`null`), or an exception. */
  datatype Lookup = Found(element: Element) | Missing | Throws(fault: Fault)

  /** The media ready states of the HTML Living Standard, section 4.8.11.7 ("Ready states"). */
  const HAVE_NOTHING := 0
  const HAVE_METADATA := 1
  const HAVE_CURRENT_DATA := 2
  const HAVE_FUTURE_DATA := 3
  const HAVE_ENOUGH_DATA := 4

  type ReadyState = r: int | HAVE_NOTHING <= r <= HAVE_ENOUGH_DATA

  /** The first `<video>` element: its `paused` flag and `readyState`. */
  datatype Video = Video(paused: bool, readyState: ReadyState)

  /** `getPlayerState()` of the YouTube player API means "playing" when it returns 1. */
  const YT_PLAYING := 1

  /**
   * The YouTube player object: absent or without `getPlayerState`, present
   * and reporting a state, or throwing when it is called.
   */
  datatype PlayerApi = NoPlayerApi | PlayerReports(state: int) | PlayerThrows

  /** The page as the browser would answer every query of the task. */
  datatype Snapshot = Snapshot(
    url: string,
    navigation: Option<Fault>,
    body: Option<Fault>,
    lookups: map<string, Lookup>,
    evaluation: Option<Fault>,
    video: Option<Video>,
    player: PlayerApi,
    screenshot: Option<Fault>)

  /** A selector the snapshot does not list finds nothing. */
  function Probe(v: Snapshot, selector: string): Lookup {
    if selector in v.lookups then v.lookups[selector] else Missing
  }

  /**
   * A browser page: the snapshot it answers queries from, the selectors
   * clicked so far, the text put into the CAPTCHA response field, and the
   * stages of the capture task that have acted on it, in order.
   */
  class Page {
    const view: Snapshot
    var clicks: seq<string>
    var captchaResponse: Option<string>
    ghost var log: seq<Stage>

    constructor(view: Snapshot)
      ensures this.view == view && clicks == [] && captchaResponse == None && log == []
    {
      this.view := view;
      clicks := [];
      captchaResponse := None;
      log := [];
    }
  }

  // ---------------------------------------------------------------------------
  // Priority lists of selectors
  // ---------------------------------------------------------------------------

  const PLAY_SELECTORS: seq<string> := [
    ".ytp-play-button",
    "button.ytp-play-button",
    ".ytp-large-play-button",
    "button.ytp-large-play-button",
    ".ytp-play-button[aria-label^='Play'], .ytp-play-button[aria-label^='Ph\U{00E1}t']",
    ".ytp-play-button[title^='Play'], .ytp-play-button[title^='Ph\U{00E1}t']",
    "#movie_player"
  ]

  const PAUSE_SELECTORS: seq<string> := [
    ".ytp-play-button[title=\"Pause\"]",
    ".ytp-play-button[aria-label=\"Pause\"]",
    ".ytp-play-button[title^=\"Pause\"]",
    ".ytp-play-button[aria-label^=\"Pause\"]",
    ".ytp-play-button[title=\"T\U{1EA1}m d\U{1EEB}ng\"]",
    ".ytp-play-button[aria-label=\"T\U{1EA1}m d\U{1EEB}ng\"]",
    ".ytp-play-button[title^=\"T\U{1EA1}m d\U{1EEB}ng\"]",
    ".ytp-play-button[aria-label^=\"T\U{1EA1}m d\U{1EEB}ng\"]",
    ".ytp-play-button[title=\"Pausar\"]",
    ".ytp-play-button[title=\"Pausa\"]"
  ]

  const TITLE_SELECTORS: seq<string> := [
    "h1.ytd-watch-metadata",
    "h1.title",
    "h1 yt-formatted-string",
    ".title.style-scope.ytd-video-primary-info-renderer",
    "#container > h1",
    "ytd-watch-metadata h1",
    "ytd-watch-flexy h1"
  ]

  const CHANNEL_SELECTORS: seq<string> := [
    "ytd-channel-name #container #text",
    ".ytd-channel-name a",
    "#owner-container a",
    "#channel-name a",
    "ytd-video-owner-renderer a",
    ".ytd-channel-name yt-formatted-string",
    "#owner-sub-container a"
  ]

  const CAPTCHA_SELECTORS: seq<string> := [
    "#captcha",
    "iframe[src*=\"captcha\"]",
    "div[class*=\"captcha\"]",
    "div[data-captcha]"
  ]

  const CAPTCHA_IFRAME := "iframe[src*=\"captcha\"]"

  const CONSENT_SELECTORS: seq<string> := [
    "button[aria-label=\"Accept all\"]",
    "button.yt-spec-button-shape-next--call-to-action",
    "form[action=\"https://consent.youtube.com/s\"] button",
    "button[aria-label=\"Accept the use of cookies and other data\"]",
    "ytd-button-renderer ytd-consent-bump-v2-lightbox paper-button",
    "#content > div.body-wrapper > div.eom-buttons > ytd-button-renderer:nth-child(2) > a"
  ]

  const UNKNOWN_TITLE := "Unknown title"
  const UNKNOWN_CHANNEL := "Unknown channel"

  // ---------------------------------------------------------------------------
  // First match in list order
  // ---------------------------------------------------------------------------

  /** The index of the first `true`, or `|hits|` when there is none. */
  function FirstHit(hits: seq<bool>): (k: nat)
    ensures k <= |hits|
    ensures k < |hits| ==> hits[k]
    ensures forall j :: 0 <= j < k ==> !hits[j]
  {
    if |hits| == 0 then 0
    else if hits[0] then 0
    else 1 + FirstHit(hits[1..])
  }

  /** The tests a scan over a selector list stops at. */
  datatype Stop =
    | AnyAnswer   // the pause-button scan: an element, or an exception that ends the check
    | Clickable   // the click scans: an element whose click succeeds
    | TextOrFault // the text scans: an element with non-empty text, or an exception

  predicate StopsAt(l: Lookup, stop: Stop) {
    match stop
    case AnyAnswer => !l.Missing?
    case Clickable => l.Found? && l.element.clickFault.None?
    case TextOrFault => l.Throws? || (l.Found? && |l.element.text| > 0)
  }

  /** For each selector of the list, whether the scan stops at it. */
  function StopMask(v: Snapshot, sels: seq<string>, stop: Stop): (m: seq<bool>)
    ensures |m| == |sels|
  {
    seq(|sels|, i requires 0 <= i < |sels| => StopsAt(Probe(v, sels[i]), stop))
  }

  /** The first selector of the list whose element exists and can be clicked. */
  function FirstClickable(v: Snapshot, sels: seq<string>): Option<string> {
    var k := FirstHit(StopMask(v, sels, Clickable));
    if k < |sels| then Some(sels[k]) else None
  }

  /**
   * The clicked selector is the first clickable one in list order, and
   * nothing is clicked only when no selector of the list is clickable.
   */
  lemma FirstClickableIsFirst(v: Snapshot, sels: seq<string>)
    ensures var r := FirstClickable(v, sels);
      && (r.None? <==> forall j :: 0 <= j < |sels| ==> !StopsAt(Probe(v, sels[j]), Clickable))
      && (r.Some? ==> exists k :: 0 <= k < |sels| && sels[k] == r.value && StopsAt(Probe(v, sels[k]), Clickable)
                        && forall j :: 0 <= j < k ==> !StopsAt(Probe(v, sels[j]), Clickable))
  {
    var m := StopMask(v, sels, Clickable);
    var k := FirstHit(m);
    if k < |sels| {
      assert StopsAt(Probe(v, sels[k]), Clickable) by { assert m[k]; }
      forall j | 0 <= j < k ensures !StopsAt(Probe(v, sels[j]), Clickable) {
        assert !m[j];
      }
    } else {
      forall j | 0 <= j < |sels| ensures !StopsAt(Probe(v, sels[j]), Clickable) {
        assert !m[j];
      }
    }
  }

  // ---------------------------------------------------------------------------
  // isVideoPlaying
  // ---------------------------------------------------------------------------

  /**
   * What the in-page script reports: a `<video>` element decides by itself
   * (`!paused && readyState > 2`); without one, the player API decides
   * (state 1); otherwise, and when the API throws, `false`.
   */
  function MediaPlaying(v: Snapshot): (playing: bool)
    ensures v.video.Some? ==>
      (playing <==> !v.video.value.paused && v.video.value.readyState in {HAVE_FUTURE_DATA, HAVE_ENOUGH_DATA})
    ensures v.video.None? ==> (playing <==> v.player == PlayerReports(YT_PLAYING))
  {
    match v.video
    case Some(m) => !m.paused && m.readyState > HAVE_CURRENT_DATA
    case None =>
      match v.player
      case PlayerReports(state) => state == YT_PLAYING
      case NoPlayerApi => false
      case PlayerThrows => false
  }

  /**
   * The answer of `isVideoPlaying`: the pause-button scan ends at the first
   * selector that finds an element (playing) or throws (the check fails,
   * so not playing); when every pause selector finds nothing, the in-page
   * script decides, and a failing `evaluate` means not playing.
   */
  function VideoPlaying(v: Snapshot): bool {
    var k := FirstHit(StopMask(v, PAUSE_SELECTORS, AnyAnswer));
    if k < |PAUSE_SELECTORS| then Probe(v, PAUSE_SELECTORS[k]).Found?
    else v.evaluation.None? && MediaPlaying(v)
  }

  /** A pause button that is found before any pause lookup throws means the video plays. */
  lemma PauseButtonMeansPlaying(v: Snapshot, k: int)
    requires 0 <= k < |PAUSE_SELECTORS| && Probe(v, PAUSE_SELECTORS[k]).Found?
    requires forall j :: 0 <= j < k ==> !Probe(v, PAUSE_SELECTORS[j]).Throws?
    ensures VideoPlaying(v)
  {
    var m := StopMask(v, PAUSE_SELECTORS, AnyAnswer);
    assert m[k];
    var first := FirstHit(m);
    assert first <= k;
    assert m[first];
  }

  /** A pause lookup that throws before any pause button is found ends the check with `false`. */
  lemma FailedPauseLookupMeansNotPlaying(v: Snapshot, k: int)
    requires 0 <= k < |PAUSE_SELECTORS| && Probe(v, PAUSE_SELECTORS[k]).Throws?
    requires forall j :: 0 <= j < k ==> Probe(v, PAUSE_SELECTORS[j]).Missing?
    ensures !VideoPlaying(v)
  {
    var m := StopMask(v, PAUSE_SELECTORS, AnyAnswer);
    assert m[k];
    assert forall j :: 0 <= j < k ==> !m[j];
  }

  /** Without any pause button the media state decides, unless the script itself fails. */
  lemma NoPauseButtonMeansMediaDecides(v: Snapshot)
    requires forall j :: 0 <= j < |PAUSE_SELECTORS| ==> Probe(v, PAUSE_SELECTORS[j]).Missing?
    ensures VideoPlaying(v) == (v.evaluation.None? && MediaPlaying(v))
  {
    var m := StopMask(v, PAUSE_SELECTORS, AnyAnswer);
    assert forall j :: 0 <= j < |m| ==> !m[j];
  }

  // ---------------------------------------------------------------------------
  // Screenshot file
  // ---------------------------------------------------------------------------

  datatype ImageFormat = Png | Jpeg

  /** `takeScreenshot` is called without a format, which defaults to PNG. */
  const DEFAULT_FORMAT := Png

  /** The options passed to `page.screenshot`. */
  datatype ScreenshotOptions = ScreenshotOptions(path: string, fullPage: bool, format: ImageFormat, quality: Option<int>)

  function Extension(format: ImageFormat): string {
    if format == Jpeg then "jpg" else "png"
  }

  /** The screenshot's path below the working directory. */
  function ScreenshotFile(jobId: string, format: ImageFormat): string {
    "screenshots/" + jobId + "." + Extension(format)
  }

  /** The absolute screenshot path: the working directory joined with the file. */
  function ScreenshotPath(cwd: string, jobId: string, format: ImageFormat): string {
    cwd + "/" + ScreenshotFile(jobId, format)
  }

  function ScreenshotOptionsFor(cwd: string, jobId: string, format: ImageFormat): ScreenshotOptions {
    ScreenshotOptions(ScreenshotPath(cwd, jobId, format), false, format,
                      if format == Jpeg then Some(80) else None)
  }

  /**
   * The screenshot options: the path ends in ".jpg" exactly for JPEG and in
   * ".png" otherwise, quality 80 is set only for JPEG, and only the
   * viewport is captured.
   */
  lemma ScreenshotOptionsRule(cwd: string, jobId: string, format: ImageFormat)
    ensures var o := ScreenshotOptionsFor(cwd, jobId, format);
      && o.fullPage == false
      && o.format == format
      && (o.quality.Some? <==> format == Jpeg)
      && (o.quality.Some? ==> o.quality.value == 80)
      && o.path == cwd + "/" + ScreenshotFile(jobId, format)
      && ScreenshotFile(jobId, format) == "screenshots/" + jobId + (if format == Jpeg then ".jpg" else ".png")
  {
    assert "." + Extension(format) == (if format == Jpeg then ".jpg" else ".png");
  }

  /** Different jobs or formats never share a screenshot file. */
  lemma {:induction false} ScreenshotFileInjective(j1: string, f1: ImageFormat, j2: string, f2: ImageFormat)
    requires ScreenshotFile(j1, f1) == ScreenshotFile(j2, f2)
    ensures j1 == j2 && f1 == f2
  {
    var s1, s2 := ScreenshotFile(j1, f1), ScreenshotFile(j2, f2);
    assert |s1| == 12 + |j1| + 4 && |s2| == 12 + |j2| + 4;
    assert s1[12..12 + |j1|] == j1;
    assert s2[12..12 + |j2|] == j2;
    assert s1[|s1| - 3..] == Extension(f1);
    assert s2[|s2| - 3..] == Extension(f2);
  }

  /** The outcome of `takeScreenshot`: the path of the saved file, or the error of `page.screenshot`, rethrown. */
  function ScreenshotOutcome(v: Snapshot, cwd: string, jobId: string, format: ImageFormat): (r: Result<string, Fault>)
    ensures r.Success? <==> v.screenshot.None?
    ensures r.Success? ==> r.value == ScreenshotOptionsFor(cwd, jobId, format).path
    ensures r.Failure? ==> r.error == v.screenshot.value
  {
    match v.screenshot
    case None => Success(ScreenshotOptionsFor(cwd, jobId, format).path)
    case Some(f) => Failure(f)
  }

  // ---------------------------------------------------------------------------
  // getVideoInfo
  // ---------------------------------------------------------------------------

  datatype VideoInfo = VideoInfo(title: string, channel: string)

  const UNKNOWN_INFO := VideoInfo(UNKNOWN_TITLE, UNKNOWN_CHANNEL)

  /**
   * One text scan of the in-page script: the trimmed text of the first
   * selector whose element has non-empty text (`None` when there is none),
   * or the exception of a `querySelector` met first, which aborts the script.
   */
  function TextSearch(v: Snapshot, sels: seq<string>): Result<Option<string>, Fault> {
    var k := FirstHit(StopMask(v, sels, TextOrFault));
    if k == |sels| then Success(None)
    else
      var l := Probe(v, sels[k]);
      if l.Throws? then Failure(l.fault) else Success(Some(Trim(l.element.text)))
  }

  /** `getVideoInfo`: title and channel found independently; any failure gives both sentinels. */
  function VideoInfoOf(v: Snapshot): VideoInfo {
    if v.evaluation.Some? then UNKNOWN_INFO
    else
      var title, channel := TextSearch(v, TITLE_SELECTORS), TextSearch(v, CHANNEL_SELECTORS);
      if title.Failure? || channel.Failure? then UNKNOWN_INFO
      else VideoInfo(title.value.GetOr(UNKNOWN_TITLE), channel.value.GetOr(UNKNOWN_CHANNEL))
  }

  /**
   * When no earlier lookup throws, the scan yields the trimmed text of the
   * first element with non-empty text, whatever the later lookups do; the
   * emptiness test comes before the trim, so whitespace-only text still
   * ends the scan.
   */
  lemma TextSearchFindsFirstText(v: Snapshot, sels: seq<string>, k: int)
    requires 0 <= k < |sels| && Probe(v, sels[k]).Found? && |Probe(v, sels[k]).element.text| > 0
    requires forall j :: 0 <= j < k ==>
      !Probe(v, sels[j]).Throws? && !(Probe(v, sels[j]).Found? && |Probe(v, sels[j]).element.text| > 0)
    ensures TextSearch(v, sels) == Success(Some(Trim(Probe(v, sels[k]).element.text)))
  {
    var m := StopMask(v, sels, TextOrFault);
    assert m[k];
    forall j | 0 <= j < k ensures !m[j] {
      assert m[j] == StopsAt(Probe(v, sels[j]), TextOrFault);
    }
    assert FirstHit(m) == k;
  }

  /** When no lookup throws and no element has text, the scan finds nothing. */
  lemma TextSearchFindsNothing(v: Snapshot, sels: seq<string>)
    requires forall j :: 0 <= j < |sels| ==> !Probe(v, sels[j]).Throws?
    requires forall j :: 0 <= j < |sels| ==> !(Probe(v, sels[j]).Found? && |Probe(v, sels[j]).element.text| > 0)
    ensures TextSearch(v, sels) == Success(None)
  {
    var m := StopMask(v, sels, TextOrFault);
    assert forall j :: 0 <= j < |sels| ==> !m[j];
  }

  /** When no lookup of the list throws, the scan does not fail. */
  lemma TextSearchSucceeds(v: Snapshot, sels: seq<string>)
    requires forall j :: 0 <= j < |sels| ==> !Probe(v, sels[j]).Throws?
    ensures TextSearch(v, sels).Success?
  {
    var m := StopMask(v, sels, TextOrFault);
    var k := FirstHit(m);
    if k < |sels| {
      assert m[k];
    }
  }

  /** A lookup that throws before any text is found makes the whole scan fail. */
  lemma TextSearchFailsOnFault(v: Snapshot, sels: seq<string>, k: int)
    requires 0 <= k < |sels| && Probe(v, sels[k]).Throws?
    requires forall j :: 0 <= j < k ==> !StopsAt(Probe(v, sels[j]), TextOrFault)
    ensures TextSearch(v, sels) == Failure(Probe(v, sels[k]).fault)
  {
    var m := StopMask(v, sels, TextOrFault);
    assert m[k];
    forall j | 0 <= j < k ensures !m[j] {
      assert m[j] == StopsAt(Probe(v, sels[j]), TextOrFault);
    }
    assert FirstHit(m) == k;
  }

  /**
   * With a working script, a title element whose text is only whitespace
   * yields the empty title rather than a later selector or the sentinel.
   */
  lemma WhitespaceTitleIsEmpty(v: Snapshot, k: int)
    requires v.evaluation.None?
    requires forall j :: 0 <= j < |CHANNEL_SELECTORS| ==> !Probe(v, CHANNEL_SELECTORS[j]).Throws?
    requires 0 <= k < |TITLE_SELECTORS| && Probe(v, TITLE_SELECTORS[k]).Found?
    requires var t := Probe(v, TITLE_SELECTORS[k]).element.text;
      |t| > 0 && forall c :: 0 <= c < |t| ==> IsJsSpace(t[c])
    requires forall j :: 0 <= j < k ==> Probe(v, TITLE_SELECTORS[j]).Missing?
    ensures VideoInfoOf(v).title == ""
  {
    TextSearchFindsFirstText(v, TITLE_SELECTORS, k);
    TextSearchSucceeds(v, CHANNEL_SELECTORS);
  }

  // ---------------------------------------------------------------------------
  // CAPTCHA
  // ---------------------------------------------------------------------------

  /** The 2Captcha `recaptcha` call for a page URL and a site key: the solution, or an error. */
  type Solver = (string, string) -> Result<string, Fault>

  const NO_SOLVER_MESSAGE := "CAPTCHA detected but no 2Captcha API key provided"
  const NO_IFRAME_MESSAGE := "CAPTCHA iframe not found"
  const NO_FRAME_MESSAGE := "Cannot access CAPTCHA iframe content"

  /** `detectCaptcha`: whether some CAPTCHA marker is found (a lookup that throws counts as not found). */
  predicate CaptchaPresent(v: Snapshot) {
    exists i :: 0 <= i < |CAPTCHA_SELECTORS| && Probe(v, CAPTCHA_SELECTORS[i]).Found?
  }

  /**
   * `solveCaptcha`: the solution obtained (`None` when the widget has no
   * site key, in which case nothing is done), or the error it throws.
   */
  function CaptchaSolution(v: Snapshot, solver: Option<Solver>): Result<Option<string>, Fault> {
    if solver.None? then Failure(NewError(NO_SOLVER_MESSAGE))
    else
      match Probe(v, CAPTCHA_IFRAME)
      case Throws(f) => Failure(f)
      case Missing => Failure(NewError(NO_IFRAME_MESSAGE))
      case Found(iframe) =>
        match iframe.frame
        case None => Failure(NewError(NO_FRAME_MESSAGE))
        case Some(frame) =>
          match frame.sitekey
          case Failure(f) => Failure(f)
          case Success(key) =>
            if key.None? || |key.value| == 0 then Success(None)
            else
              match solver.value(v.url, key.value)
              case Failure(f) => Failure(f)
              case Success(solution) => Success(Some(solution))
  }

  /** The CAPTCHA response field after `solveCaptcha`: the solution when one was obtained and the field exists. */
  function ResponseAfterSolve(v: Snapshot, solver: Option<Solver>, before: Option<string>): Option<string> {
    var r := CaptchaSolution(v, solver);
    if r.Success? && r.value.Some? && Probe(v, CAPTCHA_IFRAME).Found?
       && Probe(v, CAPTCHA_IFRAME).element.frame.Some?
       && Probe(v, CAPTCHA_IFRAME).element.frame.value.responseField
    then r.value
    else before
  }

  /**
   * The guards of `solveCaptcha`: without a solver, and without a CAPTCHA
   * iframe, it throws the corresponding error; with a widget that has no
   * site key it succeeds without consulting the solver, whichever it is.
   */
  lemma CaptchaGuards(v: Snapshot, solver: Solver, other: Solver)
    ensures CaptchaSolution(v, None) == Failure(NewError(NO_SOLVER_MESSAGE))
    ensures Probe(v, CAPTCHA_IFRAME).Missing? ==> CaptchaSolution(v, Some(solver)) == Failure(NewError(NO_IFRAME_MESSAGE))
    ensures (&& Probe(v, CAPTCHA_IFRAME).Found?
             && Probe(v, CAPTCHA_IFRAME).element.frame.Some?
             && Probe(v, CAPTCHA_IFRAME).element.frame.value.sitekey in {Success(None), Success(Some(""))})
      ==> CaptchaSolution(v, Some(solver)) == Success(None) == CaptchaSolution(v, Some(other))
  {
  }

  // ---------------------------------------------------------------------------
  // The capture task
  // ---------------------------------------------------------------------------

  /** The stages of the capture task, in the order it runs them. */
  datatype Stage = Navigate | WaitForBody | Captcha | Consent | Play | Settle | Screenshot | ReadInfo

  const TASK_ORDER: seq<Stage> := [Navigate, WaitForBody, Captcha, Consent, Play, Settle, Screenshot, ReadInfo]

  const TASK_ERROR_PREFIX := "Failed to analyze YouTube video: "

  /** What the task hands back to the caller. */
  datatype Capture = Capture(screenshotPath: string, videoInfo: VideoInfo)

  /** The stages the task enters before it finishes or throws. */
  function StagesRun(v: Snapshot): seq<Stage> {
    if v.navigation.Some? then TASK_ORDER[..1]
    else if v.body.Some? then TASK_ORDER[..2]
    else if v.screenshot.Some? then TASK_ORDER[..7]
    else TASK_ORDER
  }



  /** The error the task throws for a failed stage. */
  function TaskError(f: Fault): Fault {
    NewError(TASK_ERROR_PREFIX + MessageText(f))
  }

  /**
   * The outcome of the task's `try` block: the screenshot path and the
   * video information, or the first failure of navigation, the wait for
   * `<body>` or the screenshot. The CAPTCHA solver is not an argument: its
   * failures never reach the result.
   */
  function VisitOutcome(v: Snapshot, cwd: string, jobId: string): Result<Capture, Fault> {
    if v.navigation.Some? then Failure(v.navigation.value)
    else if v.body.Some? then Failure(v.body.value)
    else
      match ScreenshotOutcome(v, cwd, jobId, DEFAULT_FORMAT)
      case Failure(f) => Failure(f)
      case Success(path) => Success(Capture(path, VideoInfoOf(v)))
  }

  /** The task's result: that of its `try` block, with any error wrapped in the task error by the `catch`. */
  function CaptureOutcome(v: Snapshot, cwd: string, jobId: string): Result<Capture, Fault> {
    match VisitOutcome(v, cwd, jobId)
    case Failure(f) => Failure(TaskError(f))
    case Success(c) => Success(c)
  }

  /**
   * The task fails exactly when navigation, the wait for `<body>` or the
   * screenshot fails; it then has run a proper prefix of the stages ending
   * in the failed one, and its error message carries the task prefix.
   * Otherwise it has run every stage in order, and the screenshot is a PNG
   * under `screenshots/` named after the job.
   */
  lemma CaptureStages(v: Snapshot, cwd: string, jobId: string)
    ensures var r, stages := CaptureOutcome(v, cwd, jobId), StagesRun(v);
      && (r.Failure? <==> v.navigation.Some? || v.body.Some? || v.screenshot.Some?)
      && stages <= TASK_ORDER
      && (r.Success? <==> stages == TASK_ORDER)
      && (r.Failure? ==> stages[|stages| - 1] in {Navigate, WaitForBody, Screenshot})
      && (r.Failure? ==> r.error.message.Some? && StartsWith(r.error.message.value, TASK_ERROR_PREFIX))
      && (r.Success? ==> r.value.screenshotPath == ScreenshotPath(cwd, jobId, Png))
  {
    var r, stages := CaptureOutcome(v, cwd, jobId), StagesRun(v);
    if r.Failure? {
      assert r.error.message.value[..|TASK_ERROR_PREFIX|] == TASK_ERROR_PREFIX;
    }
  }

  /** The error a failed task throws names the first failed stage's error after the prefix. */
  lemma CaptureErrorMessage(v: Snapshot, cwd: string, jobId: string)
    requires v.navigation.Some? || v.body.Some? || v.screenshot.Some?
    ensures var first := if v.navigation.Some? then v.navigation.value
                         else if v.body.Some? then v.body.value
                         else v.screenshot.value;
      CaptureOutcome(v, cwd, jobId) == Failure(NewError(TASK_ERROR_PREFIX + MessageText(first)))
  {
  }

  /** The selector list `o` contributes to the click log: its value, if any. */
  function Listed(o: Option<string>): seq<string> {
    if o.Some? then [o.value] else []
  }

  /** The operations of `PuppeteerUtils` over one page; `solver` is the 2Captcha client, if configured. */
  class PuppeteerUtils {
    const solver: Option<Solver>

    constructor(solver: Option<Solver>)
      ensures this.solver == solver
    {
      this.solver := solver;
    }

    /** `isVideoPlaying`: never fails; any error means not playing. */
    method IsVideoPlaying(page: Page) returns (playing: bool)
      ensures playing == VideoPlaying(page.view)
    {
      var v := page.view;
      ghost var m := StopMask(v, PAUSE_SELECTORS, AnyAnswer);
      for i := 0 to |PAUSE_SELECTORS|
        invariant forall j :: 0 <= j < i ==> !m[j]
      {
        var lookup := Probe(v, PAUSE_SELECTORS[i]);
        if lookup.Found? {
          assert m[i];
          return true;
        } else if lookup.Throws? {
          assert m[i];
          return false;
        }
      }
      if v.evaluation.Some? {
        return false;
      }
      playing := MediaPlaying(v);
    }

    /**
     * Clicks the first element of `sels` that is found and whose click
     * succeeds; a lookup or click that throws moves on to the next selector.
     */
    method ClickFirst(page: Page, sels: seq<string>) returns (clicked: Option<string>)
      modifies page
      ensures clicked == FirstClickable(page.view, sels)
      ensures page.clicks == old(page.clicks) + Listed(clicked)
      ensures page.captchaResponse == old(page.captchaResponse) && page.log == old(page.log)
    {
      var v := page.view;
      ghost var m := StopMask(v, sels, Clickable);
      for i := 0 to |sels|
        invariant forall j :: 0 <= j < i ==> !m[j]
        invariant page.clicks == old(page.clicks)
        invariant page.captchaResponse == old(page.captchaResponse) && page.log == old(page.log)
      {
        var lookup := Probe(v, sels[i]);
        if lookup.Found? && lookup.element.clickFault.None? {
          assert m[i];
          page.clicks := page.clicks + [sels[i]];
          return Some(sels[i]);
        }
        assert !m[i];
      }
      return None;
    }

    /**
     * `playVideo`: no click when the video already plays; otherwise at most
     * one click, on the first clickable play control. It never fails, and
     * whether playback then starts is only checked, not acted on.
     */
    method PlayVideo(page: Page) returns (clicked: Option<string>)
      modifies page
      ensures clicked == (if VideoPlaying(page.view) then None else FirstClickable(page.view, PLAY_SELECTORS))
      ensures page.clicks == old(page.clicks) + Listed(clicked)
      ensures page.captchaResponse == old(page.captchaResponse)
      ensures page.log == old(page.log) + [Play]
    {
      page.log := page.log + [Play];
      var playing := IsVideoPlaying(page);
      if playing {
        return None;
      }
      clicked := ClickFirst(page, PLAY_SELECTORS);
      if clicked.Some? {
        var nowPlaying := IsVideoPlaying(page);
      }
    }

    /** `handleCookieConsent`: at most one click, on the first consent button found; it never fails. */
    method HandleCookieConsent(page: Page) returns (clicked: Option<string>)
      modifies page
      ensures clicked == FirstClickable(page.view, CONSENT_SELECTORS)
      ensures page.clicks == old(page.clicks) + Listed(clicked)
      ensures page.captchaResponse == old(page.captchaResponse)
      ensures page.log == old(page.log) + [Consent]
    {
      page.log := page.log + [Consent];
      clicked := ClickFirst(page, CONSENT_SELECTORS);
    }

    /**
     * `detectCaptcha`, which opens the task's CAPTCHA stage: true exactly
     * when one of the four markers is found.
     */
    method DetectCaptcha(page: Page) returns (detected: bool)
      modifies page
      ensures detected <==> exists i :: 0 <= i < |CAPTCHA_SELECTORS| && Probe(page.view, CAPTCHA_SELECTORS[i]).Found?
      ensures page.clicks == old(page.clicks) && page.captchaResponse == old(page.captchaResponse)
      ensures page.log == old(page.log) + [Captcha]
    {
      page.log := page.log + [Captcha];
      var v := page.view;
      for i := 0 to |CAPTCHA_SELECTORS|
        invariant forall j :: 0 <= j < i ==> !Probe(v, CAPTCHA_SELECTORS[j]).Found?
      {
        if Probe(v, CAPTCHA_SELECTORS[i]).Found? {
          return true;
        }
      }
      return false;
    }

    /**
     * `solveCaptcha`: returns the error it throws, if any, and writes the
     * solution into the response field when there is one.
     */
    method SolveCaptcha(page: Page) returns (thrown: Option<Fault>)
      modifies page
      ensures thrown.Some? <==> CaptchaSolution(page.view, solver).Failure?
      ensures thrown.Some? ==> thrown.value == CaptchaSolution(page.view, solver).error
      ensures page.captchaResponse == ResponseAfterSolve(page.view, solver, old(page.captchaResponse))
      ensures page.clicks == old(page.clicks) && page.log == old(page.log)
    {
      var v := page.view;
      if solver.None? {
        return Some(NewError(NO_SOLVER_MESSAGE));
      }
      var iframe := Probe(v, CAPTCHA_IFRAME);
      if iframe.Throws? {
        return Some(iframe.fault);
      }
      if iframe.Missing? {
        return Some(NewError(NO_IFRAME_MESSAGE));
      }
      var frame := iframe.element.frame;
      if frame.None? {
        return Some(NewError(NO_FRAME_MESSAGE));
      }
      var sitekey := frame.value.sitekey;
      if sitekey.Failure? {
        return Some(sitekey.error);
      }
      if sitekey.value.Some? && |sitekey.value.value| > 0 {
        var answer := solver.value(v.url, sitekey.value.value);
        if answer.Failure? {
          return Some(answer.error);
        }
        if frame.value.responseField {
          page.captchaResponse := Some(answer.value);
        }
      }
      return None;
    }

    /** `getVideoInfo`'s scan of one selector list inside the in-page script. */
    method FindText(page: Page, sels: seq<string>) returns (r: Result<Option<string>, Fault>)
      ensures r == TextSearch(page.view, sels)
    {
      var v := page.view;
      ghost var m := StopMask(v, sels, TextOrFault);
      ghost var k := FirstHit(m);
      for i := 0 to |sels|
        invariant i <= k
      {
        var lookup := Probe(v, sels[i]);
        if lookup.Throws? {
          assert m[i] && k == i;
          return Failure(lookup.fault);
        }
        if lookup.Found? && |lookup.element.text| > 0 {
          assert m[i] && k == i;
          return Success(Some(Trim(lookup.element.text)));
        }
        assert !m[i];
      }
      return Success(None);
    }

    /** `takeScreenshot` with the given format. */
    method TakeScreenshot(page: Page, cwd: string, jobId: string, format: ImageFormat) returns (r: Result<string, Fault>)
      modifies page
      ensures r == ScreenshotOutcome(page.view, cwd, jobId, format)
      ensures page.clicks == old(page.clicks) && page.captchaResponse == old(page.captchaResponse)
      ensures page.log == old(page.log) + [Screenshot]
    {
      page.log := page.log + [Screenshot];
      var options := ScreenshotOptionsFor(cwd, jobId, format);
      if page.view.screenshot.Some? {
        return Failure(page.view.screenshot.value);
      }
      return Success(options.path);
    }

    /** `getVideoInfo`: never fails; a failing script yields both sentinels. */
    method GetVideoInfo(page: Page) returns (info: VideoInfo)
      modifies page
      ensures info == VideoInfoOf(page.view)
      ensures page.clicks == old(page.clicks) && page.captchaResponse == old(page.captchaResponse)
      ensures page.log == old(page.log) + [ReadInfo]
    {
      page.log := page.log + [ReadInfo];
      if page.view.evaluation.Some? {
        return UNKNOWN_INFO;
      }
      var title := FindText(page, TITLE_SELECTORS);
      if title.Failure? {
        return UNKNOWN_INFO;
      }
      var channel := FindText(page, CHANNEL_SELECTORS);
      if channel.Failure? {
        return UNKNOWN_INFO;
      }
      info := VideoInfo(title.value.GetOr(UNKNOWN_TITLE), channel.value.GetOr(UNKNOWN_CHANNEL));
    }

    /**
     * The stages of the task that cannot fail it: a CAPTCHA is solved when
     * one is detected, and a failure to solve it is only logged; then the
     * cookie banner is accepted and playback started.
     */
    method PreparePage(page: Page)
      modifies page
      ensures var v := page.view;
        page.clicks == old(page.clicks)
          + Listed(FirstClickable(v, CONSENT_SELECTORS))
          + Listed(if VideoPlaying(v) then None else FirstClickable(v, PLAY_SELECTORS))
      ensures page.captchaResponse ==
        if CaptchaPresent(page.view) then ResponseAfterSolve(page.view, solver, old(page.captchaResponse))
        else old(page.captchaResponse)
      ensures page.log == old(page.log) + [Captcha, Consent, Play]
    {
      var detected := DetectCaptcha(page);
      if detected {
        var ignored := SolveCaptcha(page);
      }
      var consent := HandleCookieConsent(page);
      var play := PlayVideo(page);
    }

    /**
     * The `try` block of the cluster task: navigate, wait for `<body>`,
     * detect and solve a CAPTCHA, accept cookies, start playback, settle,
     * take the screenshot and read the video information. CAPTCHA and
     * consent problems are logged and ignored; any other failure ends the
     * block.
     */
    method VisitPage(page: Page, cwd: string, jobId: string) returns (r: Result<Capture, Fault>)
      modifies page
      ensures r == VisitOutcome(page.view, cwd, jobId)
      ensures page.log == old(page.log) + StagesRun(page.view)
      ensures page.view.navigation.Some? || page.view.body.Some? ==>
        page.clicks == old(page.clicks) && page.captchaResponse == old(page.captchaResponse)
      ensures page.view.navigation.None? && page.view.body.None? ==>
        page.clicks == old(page.clicks)
          + Listed(FirstClickable(page.view, CONSENT_SELECTORS))
          + Listed(if VideoPlaying(page.view) then None else FirstClickable(page.view, PLAY_SELECTORS))
      ensures page.view.navigation.None? && page.view.body.None? ==>
        page.captchaResponse ==
          if CaptchaPresent(page.view) then ResponseAfterSolve(page.view, solver, old(page.captchaResponse))
          else old(page.captchaResponse)
    {
      var v := page.view;
      page.log := page.log + [Navigate];
      if v.navigation.Some? {
        assert page.log == old(page.log) + TASK_ORDER[..1];
        return Failure(v.navigation.value);
      }
      page.log := page.log + [WaitForBody];
      if v.body.Some? {
        assert page.log == old(page.log) + TASK_ORDER[..2];
        return Failure(v.body.value);
      }
      PreparePage(page);
      page.log := page.log + [Settle];
      var shot := TakeScreenshot(page, cwd, jobId, DEFAULT_FORMAT);
      if shot.Failure? {
        assert page.log == old(page.log) + TASK_ORDER[..7];
        return Failure(shot.error);
      }
      var info := GetVideoInfo(page);
      assert page.log == old(page.log) + TASK_ORDER;
      r := Success(Capture(shot.value, info));
    }

    /**
     * The cluster task for one job: the `try` block, whose failure is
     * rethrown with the task prefix.
     */
    method CaptureTask(page: Page, cwd: string, jobId: string) returns (r: Result<Capture, Fault>)
      modifies page
      ensures r == CaptureOutcome(page.view, cwd, jobId)
      ensures page.log == old(page.log) + StagesRun(page.view)
      ensures page.view.navigation.Some? || page.view.body.Some? ==>
        page.clicks == old(page.clicks) && page.captchaResponse == old(page.captchaResponse)
      ensures page.view.navigation.None? && page.view.body.None? ==>
        page.clicks == old(page.clicks)
          + Listed(FirstClickable(page.view, CONSENT_SELECTORS))
          + Listed(if VideoPlaying(page.view) then None else FirstClickable(page.view, PLAY_SELECTORS))
      ensures page.view.navigation.None? && page.view.body.None? ==>
        page.captchaResponse ==
          if CaptchaPresent(page.view) then ResponseAfterSolve(page.view, solver, old(page.captchaResponse))
          else old(page.captchaResponse)
    {
      r := VisitPage(page, cwd, jobId);
      if r.Failure? {
        r := Failure(TaskError(r.error));
      }
    }
  }
}
