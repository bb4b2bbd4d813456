/** The application's session record and one pure transition per handler.
    React's asynchronous state updates are taken to be atomic: each handler
    maps the session before the event to the session after it. */
module Session {
  import opened Types
  import Url
  import Calibration
  import Analysis

  const EmptyUrlMessage: string := "Por favor, introduce una URL válida."
  const InvalidUrlMessage: string := "La URL introducida no es válida. Asegúrate de que tenga el formato correcto."
  const CameraMessage: string := "No se pudo iniciar la cámara. Por favor, concede los permisos y recarga la página."

  /** What the gaze engine is doing: never begun or ended, running, or paused. */
  datatype Engine = Off | Running | Paused

  /** The application state. `calibration` holds the calibration screen's own
      state while that screen is mounted and is `None` otherwise.
      `engineSamples` are the calibration clicks handed to the gaze engine,
      which keeps them after the screen is gone. */
  datatype Session = Session(
    state: AppState,
    url: string,
    error: Option<string>,
    gazePoints: seq<GazePoint>,
    currentGaze: Option<GazePoint>,
    webgazerReady: bool,
    calibrationProgress: int,
    apiKey: string,
    analysis: Option<string>,
    analyzing: bool,
    engine: Engine,
    engineSamples: seq<Calibration.Sample>,
    calibration: Option<Calibration.Screen>)

  /** The session at page load. */
  function Initial(): (s: Session)
    ensures s.state == Idle && s.url == "" && s.error == None && s.gazePoints == [] && s.currentGaze == None
    ensures !s.webgazerReady && s.calibrationProgress == 0 && s.apiKey == "" && s.analysis == None && !s.analyzing
    ensures s.engine == Off && s.engineSamples == [] && s.calibration == None
  {
    Session(Idle, "", None, [], None, false, 0, "", None, false, Off, [], None)
  }

  /** Typing into the API key field. */
  function SetApiKey(s: Session, key: string): (r: Session)
    ensures r.apiKey == key && r.(apiKey := s.apiKey) == s
  {
    s.(apiKey := key)
  }

  /** What submitting the URL form did: the new session, and whether the
      engine start was requested. */
  datatype Submitted = Submitted(session: Session, startEngine: bool)

  /** The URL form handler. An empty input is rejected with an error. Any
      other input is formatted and handed to the URL parser `parses`; an
      accepted URL is stored formatted, the error cleared, and the engine
      start requested; a refused one sets an error and keeps the old URL.
      The screen state never changes here. */
  function SubmitUrl(s: Session, input: string, parses: string -> bool): (r: Submitted)
    ensures r.session.state == s.state
    ensures r.startEngine <==> input != "" && parses(Url.Format(input))
    ensures r.startEngine ==>
      r.session.url == Url.Format(input) && Url.HasScheme(r.session.url) && r.session.error == None
    ensures !r.startEngine ==> r.session.url == s.url && r.session.error.Some?
    ensures input == "" ==> r.session.error == Some(EmptyUrlMessage)
    ensures input != "" && !parses(Url.Format(input)) ==> r.session.error == Some(InvalidUrlMessage)
    ensures r.session.(url := s.url, error := s.error) == s
  {
    if input == "" then Submitted(s.(error := Some(EmptyUrlMessage)), false)
    else
      var formatted := Url.Format(input);
      if parses(formatted) then Submitted(s.(url := formatted, error := None), true)
      else Submitted(s.(error := Some(InvalidUrlMessage)), false)
  }

  /** Starting the gaze engine once it is loaded. `began` says whether
      installing the listener and beginning succeeded; a throw from either
      leads to the error screen. On success the
      engine runs, is marked ready, and calibration starts on a freshly
      mounted screen; otherwise the camera error is shown. The intermediate
      INITIALIZING state is overwritten within the same call. */
  function StartWebgazer(s: Session, began: bool): (r: Session)
    ensures began ==> (r.state == Calibrating && r.engine == Running && r.webgazerReady
                       && r.calibration == Some(Calibration.Mount()))
    ensures !began ==> r.state == Error && r.error == Some(CameraMessage)
    ensures began ==> r.(state := s.state, engine := s.engine, webgazerReady := s.webgazerReady,
                         calibration := s.calibration) == s
    ensures !began ==> r.(state := s.state, error := s.error) == s
  {
    var initializing := s.(state := Initializing);
    if began then
      initializing.(engine := Running, webgazerReady := true, state := Calibrating,
                    calibration := Some(Calibration.Mount()))
    else
      initializing.(error := Some(CameraMessage), state := Error)
  }

  /** The gaze listener. Every sample, `null` included, becomes the current
      gaze; a non-null sample is appended to the buffer when, and only when,
      the session is tracking. Nothing else changes. */
  function OnGaze(s: Session, sample: Option<GazePoint>): (r: Session)
    ensures r.currentGaze == sample
    ensures r.state == s.state
    ensures sample.Some? && s.state == Tracking ==> r.gazePoints == s.gazePoints + [sample.value]
    ensures !(sample.Some? && s.state == Tracking) ==> r.gazePoints == s.gazePoints
    ensures r.(currentGaze := s.currentGaze, gazePoints := s.gazePoints) == s
  {
    var withGaze := s.(currentGaze := sample);
    if sample.Some? && s.state == Tracking then withGaze.(gazePoints := s.gazePoints + [sample.value])
    else withGaze
  }

  /** The calibration screen's mount effect: the mounted screen gets the
      anchors of the viewport, keeping its count, target and samples, and the
      target button appears; without a mounted screen nothing happens. */
  function LoadAnchors(s: Session, width: int, height: int): (r: Session)
    ensures r.(calibration := s.calibration) == s
    ensures s.calibration.None? ==> r.calibration == None
    ensures s.calibration.Some? ==>
      var c := s.calibration.value;
      && r.calibration.Some?
      && r.calibration.value.anchors == Calibration.Anchors(width, height)
      && r.calibration.value.clickCount == c.clickCount
      && r.calibration.value.pointIndex == c.pointIndex
      && r.calibration.value.samples == c.samples
      && (c.pointIndex < Calibration.AnchorCount ==> CanClick(r))
  {
    match s.calibration
    case Some(c) => s.(calibration := Some(Calibration.LoadAnchors(c, width, height)))
    case None => s
  }

  /** Calibration finished: the prediction overlay is hidden (not modelled),
      the buffer is emptied and tracking begins; the calibration screen is
      unmounted, while the samples the engine recorded stay. */
  function CompleteCalibration(s: Session): (r: Session)
    ensures r.state == Tracking && r.gazePoints == [] && r.calibration == None
    ensures r.(state := s.state, gazePoints := s.gazePoints, calibration := s.calibration) == s
  {
    s.(gazePoints := [], state := Tracking, calibration := None)
  }

  /** A click on the calibration target is possible only while the screen
      shows its button. */
  predicate CanClick(s: Session)
  {
    s.calibration.Some? && Calibration.ButtonShown(s.calibration.value)
  }

  /** A click on the calibration target, at position `at`, with the engine's
      readiness as reported at that moment. An accepted click stores its
      progress in the session and, on the last click, completes calibration. */
  function CalibrationClick(s: Session, engineReady: bool, at: Calibration.Sample): (r: Session)
    requires CanClick(s)
    ensures !engineReady ==> r == s
    ensures engineReady ==>
      var c := s.calibration.value;
      var n := c.clickCount + 1;
      && r.calibrationProgress == 5 * n
      && r.engineSamples == s.engineSamples + [at]
      && (n >= Calibration.TotalClicks ==>
            && r.state == Tracking && r.gazePoints == [] && r.calibration == None
            && r.(state := s.state, gazePoints := s.gazePoints, calibration := s.calibration,
                  calibrationProgress := s.calibrationProgress, engineSamples := s.engineSamples) == s)
      && (n < Calibration.TotalClicks ==>
            && r.calibration.Some? && r.calibration.value.clickCount == n
            && r.calibration.value.samples == c.samples + [at]
            && r.calibration.value.pointIndex == (c.pointIndex + 1) % |c.anchors|
            && r.calibration.value.anchors == c.anchors
            && r.(calibration := s.calibration, calibrationProgress := s.calibrationProgress,
                  engineSamples := s.engineSamples) == s)
  {
    match Calibration.Click(s.calibration.value, engineReady, at)
    case Ignored => s
    case Accepted(c, progress, completed) =>
      var counted := s.(calibration := Some(c), calibrationProgress := progress,
                        engineSamples := s.engineSamples + [at]);
      if completed then CompleteCalibration(counted) else counted
  }

  /** What finishing tracking did: the new session and the request sent, if
      any. */
  datatype Finished = Finished(session: Session, request: Option<Analysis.Request>)

  /** The finish handler's synchronous part: pause the engine, show the
      results, and apply the decision table. A settled decision becomes the
      analysis result at once; a request marks the session as analysing with
      no result yet. */
  function FinishTracking(s: Session): (r: Finished)
    ensures r.session.state == ViewingResults
    ensures r.session.engine == (if s.engine == Off then Off else Paused)
    ensures r.session.(state := s.state, engine := s.engine, analysis := s.analysis, analyzing := s.analyzing) == s
    ensures s.apiKey == "" ==>
      r.session.analysis == Some(Analysis.SkipMessage) && r.request == None && r.session.analyzing == s.analyzing
    ensures s.apiKey != "" && |s.gazePoints| < Analysis.MinPoints ==>
      r.session.analysis == Some(Analysis.InsufficientMessage) && r.request == None && r.session.analyzing == s.analyzing
    ensures s.apiKey != "" && |s.gazePoints| >= Analysis.MinPoints ==>
      && r.session.analyzing && r.session.analysis == None
      && r.request.Some? && r.request.value.url == s.url && r.request.value.apiKey == s.apiKey
      && |r.request.value.points| == Analysis.Min(Analysis.SummaryLimit, |s.gazePoints|)
      && (forall i :: 0 <= i < |r.request.value.points| ==> r.request.value.points[i] == RoundPoint(s.gazePoints[i]))
  {
    var shown := s.(engine := if s.engine == Off then Off else Paused, state := ViewingResults);
    match Analysis.Decide(s.url, s.apiKey, s.gazePoints)
    case Settled(message) => Finished(shown.(analysis := Some(message)), None)
    case Send(request) => Finished(shown.(analyzing := true, analysis := None), Some(request))
  }

  /** The request's outcome arriving: whatever the session is by then, the
      result text replaces the analysis and the analysing flag is cleared. */
  function ResolveAnalysis(s: Session, resp: Analysis.Response): (r: Session)
    ensures !r.analyzing && r.analysis.Some? && r.analysis.value != ""
    ensures resp.Answered? && resp.content.Some? && resp.content.value != "" ==> r.analysis == Some(resp.content.value)
    ensures resp.Answered? && (resp.content.None? || resp.content.value == "") ==> r.analysis == Some(Analysis.EmptyResponseMessage)
    ensures !resp.Answered? ==> Analysis.DetailOf(r.analysis.value) == Some(Analysis.FailureDetail(resp))
    ensures r.(analysis := s.analysis, analyzing := s.analyzing) == s
  {
    s.(analysis := Some(Analysis.ResultText(resp)), analyzing := false)
  }

  /** The restart handler: end the engine and reset every field of the
      application, whatever the state was. The engine's own recorded samples
      are its business and are left as they are. */
  function Restart(s: Session): (r: Session)
    ensures r.state == Idle && r.url == "" && r.gazePoints == [] && r.currentGaze == None && r.error == None
    ensures !r.webgazerReady && r.calibrationProgress == 0 && r.apiKey == "" && r.analysis == None && !r.analyzing
    ensures r.engine == Off && r.calibration == None
    ensures r.engineSamples == s.engineSamples
  {
    Initial().(engineSamples := s.engineSamples)
  }
}
