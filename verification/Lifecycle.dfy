/** The session controller as a state machine driven by user and engine
    events, with the invariant every reachable session satisfies. The world
    adds to the session the number of analysis requests still in flight,
    since their responses arrive whatever the session has become. */
module Lifecycle {
  import opened Types
  import Url
  import Calibration
  import Analysis
  import opened Session

  datatype Event =
    | EditApiKey(key: string)
    | SubmitUrlForm(input: string, began: bool)
    | Gaze(sample: Option<GazePoint>)
    | MountEffect(width: int, height: int)
    | TargetClick(engineReady: bool, at: Calibration.Sample)
    | FinishClick
    | ResponseArrives(resp: Analysis.Response)
    | RestartClick

  datatype World = World(session: Session, pending: nat)

  function Start(): World
  {
    World(Initial(), 0)
  }

  /** Which events can happen in a world: the URL form exists only when
      idle, the engine calls the listener only while running, the mount
      effect runs once on a mounted calibration screen, the target can be
      clicked only when shown, the finish button exists only while tracking,
      a response needs a request in flight, and the restart button is shown
      in every state but IDLE. */
  predicate Enabled(w: World, e: Event)
  {
    var s := w.session;
    match e
    case EditApiKey(_) => s.state == Idle
    case SubmitUrlForm(_, _) => s.state == Idle
    case Gaze(_) => s.engine == Running
    case MountEffect(_, _) => s.calibration.Some? && s.calibration.value.anchors == []
    case TargetClick(_, _) => CanClick(s)
    case FinishClick => s.state == Tracking
    case ResponseArrives(_) => w.pending > 0
    case RestartClick => s.state != Idle
  }

  /** One event, handled by the handler the application binds to it. The URL
      parser is the parameter `parses`. */
  function Step(w: World, e: Event, parses: string -> bool): World
    requires Enabled(w, e)
  {
    var s := w.session;
    match e
    case EditApiKey(key) => w.(session := SetApiKey(s, key))
    case SubmitUrlForm(input, began) =>
      var sub := SubmitUrl(s, input, parses);
      w.(session := if sub.startEngine then StartWebgazer(sub.session, began) else sub.session)
    case Gaze(sample) => w.(session := OnGaze(s, sample))
    case MountEffect(width, height) => w.(session := LoadAnchors(s, width, height))
    case TargetClick(ready, at) => w.(session := CalibrationClick(s, ready, at))
    case FinishClick =>
      var f := FinishTracking(s);
      World(f.session, w.pending + if f.request.Some? then 1 else 0)
    case ResponseArrives(resp) => World(ResolveAnalysis(s, resp), w.pending - 1)
    case RestartClick => w.(session := Restart(s))
  }

  /** A sequence of events; an event that cannot happen in the world it
      meets is not delivered. */
  function Run(w: World, es: seq<Event>, parses: string -> bool): World
    decreases |es|
  {
    if es == [] then w
    else Run(if Enabled(w, es[0]) then Step(w, es[0], parses) else w, es[1..], parses)
  }

  /** The calibration screen's state while mounted: below the quota, the
      target at the count modulo nine, one sample per click, and the anchor
      list either not yet computed (before any click) or complete. */
  predicate CalibrationInv(c: Calibration.Screen)
  {
    && c.clickCount < Calibration.TotalClicks
    && c.pointIndex == c.clickCount % Calibration.AnchorCount
    && |c.samples| == c.clickCount
    && (|c.anchors| == 0 || |c.anchors| == Calibration.AnchorCount)
    && (|c.anchors| == 0 ==> c.clickCount == 0)
  }

  /** The engine has recorded the screen's samples, as its latest ones. */
  predicate EngineHolds(engine: seq<Calibration.Sample>, screen: seq<Calibration.Sample>)
  {
    |screen| <= |engine| && engine[|engine| - |screen|..] == screen
  }

  /** What holds of every reachable world. */
  predicate Inv(w: World, parses: string -> bool)
  {
    var s := w.session;
    && 0 <= s.calibrationProgress <= 100
    && (s.analyzing ==> s.state == ViewingResults && w.pending > 0)
    && (s.calibration.Some? <==> s.state == Calibrating)
    && s.state != Initializing
    && (s.state == Idle ==>
          s.url == "" && s.gazePoints == [] && s.currentGaze == None && s.calibrationProgress == 0
          && s.engine == Off && !s.webgazerReady)
    && (s.state != Idle ==> Url.HasScheme(s.url) && parses(s.url))
    && (s.state == Calibrating ==>
          s.engine == Running && s.webgazerReady && s.gazePoints == []
          && CalibrationInv(s.calibration.value)
          && s.calibrationProgress == 5 * s.calibration.value.clickCount
          && EngineHolds(s.engineSamples, s.calibration.value.samples))
    && (s.state == Tracking ==> s.engine == Running && s.webgazerReady && s.calibrationProgress == 100)
    && (s.state == ViewingResults ==> s.engine == Paused && s.calibrationProgress == 100)
    && (s.state == Error ==> s.engine == Off && s.error == Some(CameraMessage) && s.calibrationProgress == 0)
  }

  lemma StartInv(parses: string -> bool)
    ensures Inv(Start(), parses)
  {
  }

  /** Submitting the URL form keeps the invariant. */
  lemma SubmitPreservesInv(w: World, input: string, began: bool, parses: string -> bool)
    requires Inv(w, parses) && Enabled(w, SubmitUrlForm(input, began))
    ensures Inv(Step(w, SubmitUrlForm(input, began), parses), parses)
  {
  }

  /** A click on the calibration target keeps the invariant. */
  lemma ClickPreservesInv(w: World, ready: bool, at: Calibration.Sample, parses: string -> bool)
    requires Inv(w, parses) && Enabled(w, TargetClick(ready, at))
    ensures Inv(Step(w, TargetClick(ready, at), parses), parses)
  {
  }

  /** Finishing tracking keeps the invariant, shows the results and sends at
      most one request. */
  lemma FinishPreservesInv(w: World, parses: string -> bool)
    requires Inv(w, parses) && Enabled(w, FinishClick)
    ensures Inv(Step(w, FinishClick, parses), parses)
    ensures Step(w, FinishClick, parses).session.state == ViewingResults
    ensures Step(w, FinishClick, parses).pending <= w.pending + 1
  {
  }

  /** Every enabled event keeps the invariant. */
  lemma StepPreservesInv(w: World, e: Event, parses: string -> bool)
    requires Inv(w, parses) && Enabled(w, e)
    ensures Inv(Step(w, e, parses), parses)
  {
    match e
    case SubmitUrlForm(input, began) => SubmitPreservesInv(w, input, began, parses);
    case TargetClick(ready, at) => ClickPreservesInv(w, ready, at, parses);
    case FinishClick => FinishPreservesInv(w, parses);
    case _ =>
  }

  /** Runs keep the invariant, so every world reachable from page load
      satisfies it. */
  lemma {:induction false} RunPreservesInv(w: World, es: seq<Event>, parses: string -> bool)
    requires Inv(w, parses)
    ensures Inv(Run(w, es, parses), parses)
    decreases |es|
  {
    if es != [] {
      var next := if Enabled(w, es[0]) then Step(w, es[0], parses) else w;
      if Enabled(w, es[0]) {
        StepPreservesInv(w, es[0], parses);
      }
      RunPreservesInv(next, es[1..], parses);
    }
  }

  /** Consequences for the calibration screen in any reachable world: the
      remaining-clicks count shown is positive, and once the anchors are
      loaded the target button is shown, so the modulus of the index update
      is nine and never zero. Calibration is only left for tracking with a
      full progress bar. */
  lemma ReachableCalibration(es: seq<Event>, parses: string -> bool)
    ensures var s := Run(Start(), es, parses).session;
      && (s.state == Calibrating <==> s.calibration.Some?)
      && (s.calibration.Some? ==> Calibration.Remaining(s.calibration.value) > 0)
      && (s.calibration.Some? && s.calibration.value.anchors != [] ==>
            CanClick(s) && |s.calibration.value.anchors| == Calibration.AnchorCount)
      && (s.state == Tracking || s.state == ViewingResults ==> s.calibrationProgress == 100)
      && 0 <= s.calibrationProgress <= 100
  {
    StartInv(parses);
    RunPreservesInv(Start(), es, parses);
  }

  /** The non-null samples of a sequence of listener calls, in order. */
  function NonNull(xs: seq<Option<GazePoint>>): (r: seq<GazePoint>)
    ensures forall p :: p in r <==> Some(p) in xs
  {
    if xs == [] then []
    else (if xs[0].Some? then [xs[0].value] else []) + NonNull(xs[1..])
  }

  /** Successive listener calls. */
  function GazeAll(s: Session, xs: seq<Option<GazePoint>>): Session
    decreases |xs|
  {
    if xs == [] then s else GazeAll(OnGaze(s, xs[0]), xs[1..])
  }

  /** Over any sequence of listener calls the screen state stays put and the
      current gaze is the last sample delivered. */
  lemma {:induction false} GazeAllKeepsState(s: Session, xs: seq<Option<GazePoint>>)
    ensures GazeAll(s, xs).state == s.state
    ensures xs != [] ==> GazeAll(s, xs).currentGaze == xs[|xs| - 1]
    ensures xs == [] ==> GazeAll(s, xs).currentGaze == s.currentGaze
    decreases |xs|
  {
    if xs != [] {
      GazeAllKeepsState(OnGaze(s, xs[0]), xs[1..]);
      if |xs| > 1 {
        assert xs[1..][|xs[1..]| - 1] == xs[|xs| - 1];
      }
    }
  }

  /** Over any sequence of listener calls the buffer grows by exactly the
      non-null samples, in arrival order, when tracking, and not at all
      otherwise. */
  lemma {:induction false} GazeAllBuffers(s: Session, xs: seq<Option<GazePoint>>)
    ensures GazeAll(s, xs).gazePoints == s.gazePoints + if s.state == Tracking then NonNull(xs) else []
    decreases |xs|
  {
    if xs != [] {
      var t := OnGaze(s, xs[0]);
      GazeAllBuffers(t, xs[1..]);
      if s.state == Tracking {
        assert NonNull(xs) == (if xs[0].Some? then [xs[0].value] else []) + NonNull(xs[1..]);
      }
    }
  }

  /** Nothing guards against stale responses: a response to a request of a
      session that has since been restarted still sets that new, idle
      session's analysis result. */
  lemma StaleResponseIsApplied(w: World, resp: Analysis.Response, parses: string -> bool)
    requires w.session.state != Idle && w.pending > 0
    ensures var restarted := Step(w, RestartClick, parses);
      && restarted.session.state == Idle && restarted.session.analysis == None
      && Enabled(restarted, ResponseArrives(resp))
      && Step(restarted, ResponseArrives(resp), parses).session.state == Idle
      && Step(restarted, ResponseArrives(resp), parses).session.analysis == Some(Analysis.ResultText(resp))
  {
  }

  /** Finishing from a reachable tracking world sends a request exactly when
      there is a key and at least twenty points, and leaves the analysing
      flag set exactly when it does. */
  lemma FinishDecidesRequest(w: World, parses: string -> bool)
    requires Inv(w, parses) && w.session.state == Tracking
    ensures var after := Step(w, FinishClick, parses);
      && after.session.state == ViewingResults
      && (after.pending == w.pending + 1 <==> w.session.apiKey != "" && |w.session.gazePoints| >= Analysis.MinPoints)
      && (after.pending == w.pending <==> !(w.session.apiKey != "" && |w.session.gazePoints| >= Analysis.MinPoints))
      && (after.session.analyzing <==> after.pending == w.pending + 1)
      && !Enabled(after, FinishClick)
  {
  }

  /** Once the results are shown, every event up to the next restart keeps
      them shown and sends no request: the number of requests in flight only
      falls. */
  lemma {:induction false} ResultsHoldUntilRestart(w: World, es: seq<Event>, parses: string -> bool)
    requires Inv(w, parses) && w.session.state == ViewingResults
    requires forall i :: 0 <= i < |es| ==> !es[i].RestartClick?
    ensures Run(w, es, parses).session.state == ViewingResults
    ensures Run(w, es, parses).pending <= w.pending
    decreases |es|
  {
    if es != [] {
      var next := if Enabled(w, es[0]) then Step(w, es[0], parses) else w;
      if Enabled(w, es[0]) {
        StepPreservesInv(w, es[0], parses);
      }
      ResultsHoldUntilRestart(next, es[1..], parses);
    }
  }

  /** Between finishing and the next restart at most one request is sent:
      whatever follows the finish click, the number in flight never exceeds
      the number before it plus one. */
  lemma OneRequestPerSession(w: World, es: seq<Event>, parses: string -> bool)
    requires Inv(w, parses) && w.session.state == Tracking
    requires forall i :: 0 <= i < |es| ==> !es[i].RestartClick?
    ensures Run(Step(w, FinishClick, parses), es, parses).session.state == ViewingResults
    ensures Run(Step(w, FinishClick, parses), es, parses).pending <= w.pending + 1
  {
    FinishPreservesInv(w, parses);
    ResultsHoldUntilRestart(Step(w, FinishClick, parses), es, parses);
  }

  /** The click that completes calibration leaves the engine holding all
      twenty calibration samples, in click order, as tracking starts. */
  lemma CalibrationHandsOverSamples(w: World, at: Calibration.Sample, parses: string -> bool)
    requires Inv(w, parses) && CanClick(w.session)
    requires w.session.calibration.value.clickCount == Calibration.TotalClicks - 1
    ensures var s := Step(w, TargetClick(true, at), parses).session;
      && s.state == Tracking
      && EngineHolds(s.engineSamples, w.session.calibration.value.samples + [at])
      && |w.session.calibration.value.samples + [at]| == Calibration.TotalClicks
  {
    var e := w.session.engineSamples;
    var c := w.session.calibration.value;
    assert (e + [at])[|e + [at]| - |c.samples + [at]|..] == e[|e| - |c.samples|..] + [at];
  }
}
