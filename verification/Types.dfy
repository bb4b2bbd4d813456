/** Shared vocabulary of the session controller: the screen states, gaze
    samples, and JavaScript's `Math.round`. */
module Types {

  /** A JavaScript value that may be `null`. */
  datatype Option<+T> = None | Some(value: T)

  /** The six screens of the application; IDLE is the initial one. */
  datatype AppState = Idle | Initializing | Calibrating | Tracking | ViewingResults | Error

  /** A gaze estimate in page pixels. Coordinates are arbitrary numbers and
      there is no timestamp: a buffer's order is its only notion of time. */
  datatype GazePoint = GazePoint(x: real, y: real)

  /** A gaze point with both coordinates rounded, as sent for analysis. */
  datatype IntPoint = IntPoint(x: int, y: int)

  /** JavaScript `Math.round` on a finite number: the nearest integer, with
      halves rounded towards positive infinity. */
  function Round(x: real): (r: int)
    ensures r as real - 0.5 <= x < r as real + 0.5
  {
    (x + 0.5).Floor
  }

  /** The integer satisfying Round's contract is unique, so that contract
      pins the function down completely. */
  lemma RoundUnique(x: real, n: int)
    requires n as real - 0.5 <= x < n as real + 0.5
    ensures Round(x) == n
  {
  }

  /** Rounding leaves integers alone, and a half rounds up, also below zero. */
  lemma RoundExamples(n: int)
    ensures Round(n as real) == n
    ensures Round(n as real + 0.5) == n + 1
    ensures Round(n as real - 0.5) == n
  {
    RoundUnique(n as real, n);
    RoundUnique(n as real + 0.5, n + 1);
    RoundUnique(n as real - 0.5, n);
  }

  function RoundPoint(p: GazePoint): (q: IntPoint)
    ensures q.x as real - 0.5 <= p.x < q.x as real + 0.5
    ensures q.y as real - 0.5 <= p.y < q.y as real + 0.5
  {
    IntPoint(Round(p.x), Round(p.y))
  }
}
