# UX-Analyzer session controller, in Dafny

UX-Analyzer is a browser tool. It shows an external web page in a frame and tracks where the user looks, using a camera-based gaze engine. Afterwards it draws a heatmap and can ask a language model for a usability critique. Underneath the React markup sits a small session controller, and this project models it as pure functions over an immutable session record:

- the six screens (`AppState`) and the transitions between them;
- normalisation of the URL the user types;
- the gaze listener's buffering rule: only non-null samples that arrive while tracking are kept;
- the calibration screen. It has nine anchors and a quota of twenty clicks. The target cycles over the anchors and the progress bar fills by five percent per click;
- the analysis decision table, run when tracking finishes:
  - with no API key, a skip message;
  - with fewer than twenty points, an insufficient-data message;
  - otherwise, one request carrying the first 250 points with rounded coordinates;
- the mapping from that request's outcome to the text shown;
- restart.

Modules:

- `Types` covers the state enum, gaze points and JavaScript's `Math.round`.
- `Url` covers the scheme test and URL formatting.
- `Calibration` covers the anchors and the click handler.
- `Analysis` covers the decision table, the summary and the outcome text.
- `Session` holds the session record and one function per handler.
- `Lifecycle` is the event-driven state machine. It defines which events each screen allows and proves an invariant that holds in every reachable world.

Coordinates are `real`. `Math.round(x)` is `(x + 0.5).Floor`, which rounds halves towards positive infinity, as JavaScript does for finite numbers.

Facts about the code that shape the model:

- The code has no guard against a stale analysis response. `Lifecycle.StaleResponseIsApplied` proves that a response arriving after a restart sets the new idle session's result.
- INITIALIZING is set and then overwritten within one synchronous call (App.tsx:37,49). So `Session.StartWebgazer` goes straight to CALIBRATING or ERROR, and `Lifecycle.Inv` shows that no reachable world rests in INITIALIZING.
- "No API key" means the empty string, because the code tests the key for falsiness (App.tsx:92).
- Empty response content is detected by a falsiness test (App.tsx:159). The API's error message is tested the same way before the status-text fallback is used (App.tsx:154).

Each asynchronous handler is treated as atomic. The analysis handler is split at its `await`:

- `Session.FinishTracking` is the synchronous part. It returns the request it would send.
- `Session.ResolveAnalysis` applies the response.

`Lifecycle.World` counts the requests still in flight.

## Model

| member | source | states |
|---|---|---|
| Types.Round | App.tsx:105 | the result is the integer within half a unit of x, with halves rounding up |
| Types.RoundUnique | App.tsx:105 | only one integer satisfies the rounding contract |
| Types.RoundExamples | App.tsx:105 | integers are unchanged, and n+0.5 rounds to n+1 and n-0.5 to n, also for negative n |
| Types.RoundPoint | App.tsx:105 | each rounded coordinate is within half a unit of the original |
| Url.LowerMatchesLetter | App.tsx:67 | a lower-case letter is matched, ignoring case, by itself and its ASCII capital and by no other character |
| Url.HasSchemeMeansPrefix | App.tsx:67 | the regular expression holds exactly when the input starts with http:// or https:// in any letter case |
| Url.Format | App.tsx:66-69 | the result always has the scheme; an input that has it is unchanged, and any other input gains https:// |
| Url.FormatKeepsInput | App.tsx:66-69 | the input is the tail of the result, and the part added is https:// or nothing |
| Url.FormatIdempotent | App.tsx:66-69 | formatting twice equals formatting once |
| Url.FormatExamples | App.tsx:67-68 | mixed-case schemes are kept; a bare host, a scheme without slashes and ftp:// all gain https:// |
| Calibration.Anchors | components/CalibrationScreen.tsx:16-33 | nine anchors in a fixed clockwise order: the top edge left to right, then the right edge, the bottom edge right to left and the left edge's midpoint, then the centre. Opposite border anchors mirror through the centre, and the border anchors lie on the rectangle inset by 50 |
| Calibration.AnchorsDistinctAndInside | components/CalibrationScreen.tsx:18-30 | on a viewport wider and taller than 100, all anchors are pairwise distinct and inside the inset rectangle |
| Calibration.Mount | components/CalibrationScreen.tsx:12-14 | a new screen starts with zero clicks, target index 0, no anchors and no samples |
| Calibration.LoadAnchors | components/CalibrationScreen.tsx:16-33 | the mount effect installs the nine anchors for the given viewport, and the count, target index and samples are unchanged |
| Calibration.ProgressIsFivePerClick | components/CalibrationScreen.tsx:44-45 | progress after k clicks is 5k; up to the quota it stays in 0..100, and it is 100 exactly at the twentieth click |
| Calibration.Click | components/CalibrationScreen.tsx:35-54 | a click is ignored exactly when the engine is not ready. An accepted click records one sample and adds one to the count. It signals completion exactly when the count reaches 20, and then the target stays where it is; otherwise the target moves to (i+1) mod the number of anchors |
| Calibration.ClickAllCycles | components/CalibrationScreen.tsx:41-53 | below the quota, after k clicks the target is k mod 9 and every sample is kept; a run signals completion on exactly the click that reaches 20 |
| Calibration.FreshScreenCycle | components/CalibrationScreen.tsx:41-53 | from a new screen, after k<20 clicks the target is anchor k mod 9 and progress is 5k; the twentieth click completes at 100 and records the first twenty samples |
| Analysis.RoundAll | App.tsx:105 | element i of the result is point i rounded, and the length is unchanged |
| Analysis.Summarize | App.tsx:105 | the summary has length min(250, n), and element i is buffer point i rounded |
| Analysis.SummaryIgnoresLatePoints | App.tsx:105 | points after the first 250 do not change the summary |
| Analysis.SummaryOfWholePoints | App.tsx:105 | whole-pixel points keep their coordinates in the summary |
| Analysis.Decide | App.tsx:92-105 | the rules apply in order: no key gives the skip message; a key with fewer than 20 points gives the insufficient-data message; otherwise exactly one request carries the URL, the key and the summary |
| Analysis.FailureDetail | App.tsx:152-155 | a thrown error yields its own message; a rejected response yields the API's message when it is present and non-empty, and otherwise the fixed prefix followed by the status text |
| Analysis.FailureTextRoundTrip | App.tsx:162 | the failure detail can be read back unchanged from the failure message |
| Analysis.ResultText | App.tsx:157-162 | non-empty content is shown verbatim, and missing or empty content gives the empty-response message; for a failure, the detail can be read back from the message. The text is never empty |
| Session.Initial | App.tsx:17-26 | the session at page load is idle, with every field at its default value, the engine off and no samples recorded |
| Session.SetApiKey | App.tsx:276-277 | only the key changes |
| Session.SubmitUrl | App.tsx:60-77 | the screen never changes. The engine starts exactly when the input is non-empty and its formatted form parses, and the URL is then stored formatted with the error cleared. Otherwise an error is set and the URL kept: an empty input gets the empty-URL message, and a non-empty one the parser refuses gets the invalid-URL message. Nothing else changes |
| Session.StartWebgazer | App.tsx:34-54 | success gives CALIBRATING with a running, ready engine and a newly mounted calibration screen; failure gives ERROR with the camera message. Every other field is unchanged |
| Session.OnGaze | App.tsx:39-44 | the current gaze becomes the sample, including null. The buffer grows by exactly that sample, at the end, when the sample is non-null and the state is TRACKING, and is unchanged otherwise. Nothing else changes |
| Session.LoadAnchors | components/CalibrationScreen.tsx:16-33 | a mounted calibration screen gets the anchors for the viewport, keeps its count, target index and samples, and becomes clickable when its index is below nine; without a screen nothing changes; no other field changes |
| Session.CompleteCalibration | App.tsx:79-83 | the buffer is emptied, the state becomes TRACKING and the calibration screen is gone; nothing else changes |
| Session.CalibrationClick | components/CalibrationScreen.tsx:35-54 | an unready engine changes nothing. An accepted click hands its position to the engine and sets progress to 5 times the new count. Below the quota the screen keeps its anchors, records the sample and moves the target to (i+1) mod the number of anchors. The twentieth click moves to TRACKING with an empty buffer and no screen. No other field changes |
| Session.FinishTracking | App.tsx:85-105 | the screen always becomes VIEWING_RESULTS and a running engine is paused. No key gives the skip message, and a key with fewer than 20 points gives the insufficient-data message; neither sends a request. Otherwise the session is marked analysing with no result, and one request carries min(250, n) rounded points. No other field changes |
| Session.ResolveAnalysis | App.tsx:152-165 | the analysing flag is cleared on every outcome; content, the empty-response message or a failure message carrying the detail becomes the result; nothing else changes |
| Session.Restart | App.tsx:168-182 | from any state, the session becomes IDLE with URL, buffer, current gaze, error, ready flag, progress, key, analysis and analysing flag reset, the engine ended and the calibration screen gone; the engine's recorded samples are left alone |
| Lifecycle.StartInv | App.tsx:17-26 | the page-load world satisfies the invariant |
| Lifecycle.SubmitPreservesInv | App.tsx:34-77 | submitting the URL form keeps the invariant, whether the engine starts or not |
| Lifecycle.ClickPreservesInv | components/CalibrationScreen.tsx:35-53 | a calibration click keeps the count below the quota, the target at the count mod 9, progress at 5 times the count and the screen's samples at the tail of the engine's, or moves to TRACKING at 100 |
| Lifecycle.FinishPreservesInv | App.tsx:85-105 | finishing keeps the invariant, always shows the results and adds at most one request in flight |
| Lifecycle.StepPreservesInv | App.tsx:34-182 | every event the current screen allows keeps the invariant |
| Lifecycle.RunPreservesInv | App.tsx:34-182 | every event sequence keeps the invariant, so it holds in every world reachable from page load |
| Lifecycle.ReachableCalibration | components/CalibrationScreen.tsx:47-75 | in reachable worlds: the remaining-clicks count is positive; once the anchors are loaded the button is shown over nine anchors, so the index modulus is never zero; tracking and results come with full progress; progress stays in 0..100 |
| Lifecycle.GazeAllKeepsState | App.tsx:39-44 | over any sequence of listener calls the state is kept, and the current gaze is the last sample, or unchanged when there is none |
| Lifecycle.GazeAllBuffers | App.tsx:39-44 | over any sequence of listener calls the buffer grows by exactly the non-null samples, in arrival order, while tracking, and not at all otherwise |
| Lifecycle.StaleResponseIsApplied | App.tsx:157-165 | a response that arrives after a restart still sets the new idle session's result |
| Lifecycle.FinishDecidesRequest | App.tsx:90-105 | finishing a reachable tracking session sends one request exactly when there is a key and at least 20 points, sets the analysing flag exactly then, and leaves a screen that cannot finish again |
| Lifecycle.ResultsHoldUntilRestart | App.tsx:85-105 | once results are shown, any sequence of events without a restart keeps them shown and sends no further request |
| Lifecycle.OneRequestPerSession | App.tsx:85-105 | from finishing a reachable tracking session up to the next restart, at most one request is sent, whatever events follow |
| Lifecycle.CalibrationHandsOverSamples | components/CalibrationScreen.tsx:39-49 | the click that completes calibration starts TRACKING with the engine holding all twenty click positions, in click order |

## Left out

- The gaze engine is a foreign library. Its estimation, `begin`, `pause`, `end`, `recordScreenPosition` and `isReady` are out of scope. The model keeps an engine status (off, running, paused), the click positions handed to the engine (`Session.engineSamples`, which outlive the calibration screen and stay with the engine through tracking), and readiness as an input to each click.
- Session.Restart: what the engine's `end()` does to its own recorded data is not modelled, so `engineSamples` is left unchanged by a restart.
- The readiness polling (`setTimeout`, App.tsx:55-56) is asynchronous retry plumbing. `Lifecycle.Step` starts the engine as soon as a URL is accepted, with the start outcome as input.
- The browser's URL parser (`new URL`) is the function parameter `parses`.
- The HTTP request, JSON parsing and prompt text (App.tsx:107-150) are network I/O and a text template. The request is modelled as URL, key and summary. The viewport size in the prompt, the model name and the temperature are left out. The response is an input: answered, rejected or failed.
- Video preview, prediction-point display and `console.error` change only presentation or logging.
- Floating point is not modelled: coordinates and viewport arithmetic are exact reals.
- Types.Round: NaN, infinities and negative zero are not modelled.
- Calibration.ProgressIsFivePerClick: proved over exact reals. Binary rounding in `k / 20 * 100` is not modelled.
- Session.StartWebgazer: a synchronous throw from `setGazeListener` or `begin` leads to ERROR (App.tsx:39-45, caught at :50). A throw from the preview calls at App.tsx:47, which would reach ERROR with the engine already running, is not modelled, and neither is a later rejection of the engine's start.
- React's batched state updates and the one-render lag of `appStateRef` (App.tsx:29-32) are not modelled. Each handler is an atomic transition on the current session, so a sample that arrives within that lag is filtered by the new state, not the old one.
- The heatmap overlay, the tracking view with its frame-error detection, and the URL form's markup are presentation only.
- A guard against stale analysis responses is not modelled, because the code has none (see `Lifecycle.StaleResponseIsApplied`).
