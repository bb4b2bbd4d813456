/** The calibration screen: nine anchors around and in the middle of the
    viewport, and a click handler that counts a fixed quota of twenty clicks,
    moving the target cyclically over the anchors. */
module Calibration {
  import opened Types

  const TotalClicks: nat := 20
  const AnchorCount: nat := 9
  const ScreenMargin: real := 50.0

  /** A target position in viewport pixels; midpoints may be half-pixels. */
  datatype Anchor = Anchor(x: real, y: real)

  /** A click position handed to the gaze engine as a calibration sample. */
  datatype Sample = Sample(x: real, y: real)

  /** The anchors for a viewport of the given size, clockwise from the
      top-left corner around the border inset by the margin, then the
      centre. */
  function Anchors(width: int, height: int): (r: seq<Anchor>)
    ensures |r| == AnchorCount
    ensures r[8] == Anchor(width as real / 2.0, height as real / 2.0)
    // opposite border anchors are point reflections of each other through the centre
    ensures forall i :: 0 <= i < 4 ==>
      r[i].x + r[i + 4].x == width as real && r[i].y + r[i + 4].y == height as real
    // every border anchor lies on the rectangle inset by the margin
    ensures forall i :: 0 <= i < 8 ==>
      r[i].x == ScreenMargin || r[i].x == width as real - ScreenMargin
      || r[i].y == ScreenMargin || r[i].y == height as real - ScreenMargin
    // the top-left corner comes first
    ensures r[0] == Anchor(ScreenMargin, ScreenMargin)
    // then clockwise: along the top edge, down the right edge, and the left
    // edge's midpoint last; the mirror clause above places the bottom edge
    ensures r[0].y == r[1].y == r[2].y == ScreenMargin
    ensures r[2].x == r[3].x == r[4].x == width as real - ScreenMargin
    ensures r[1].x == r[8].x && r[3].y == r[8].y
  {
    var w := width as real;
    var h := height as real;
    var m := ScreenMargin;
    [ Anchor(m, m), Anchor(w / 2.0, m), Anchor(w - m, m),
      Anchor(w - m, h / 2.0),
      Anchor(w - m, h - m), Anchor(w / 2.0, h - m), Anchor(m, h - m),
      Anchor(m, h / 2.0),
      Anchor(w / 2.0, h / 2.0) ]
  }

  /** On a viewport larger than twice the margin in both directions, all
      anchors lie inside the inset rectangle and no two coincide. */
  lemma AnchorsDistinctAndInside(width: int, height: int)
    requires width > 100 && height > 100
    ensures forall i :: 0 <= i < AnchorCount ==>
      ScreenMargin <= Anchors(width, height)[i].x <= width as real - ScreenMargin
      && ScreenMargin <= Anchors(width, height)[i].y <= height as real - ScreenMargin
    ensures forall i, j :: 0 <= i < j < AnchorCount ==> Anchors(width, height)[i] != Anchors(width, height)[j]
  {
  }

  /** The screen's local state: clicks so far, the index of the anchor
      shown, the anchor list (empty until the mount effect has run) and the
      samples handed to the engine. */
  datatype Screen = Screen(clickCount: nat, pointIndex: nat, anchors: seq<Anchor>, samples: seq<Sample>)

  /** The state of a freshly mounted screen, before its effect runs. */
  function Mount(): (c: Screen)
    ensures c.clickCount == 0 && c.pointIndex == 0 && c.anchors == [] && c.samples == []
  {
    Screen(0, 0, [], [])
  }

  /** The mount effect: compute the anchors from the viewport size. */
  function LoadAnchors(c: Screen, width: int, height: int): (r: Screen)
    ensures r.anchors == Anchors(width, height) && |r.anchors| == AnchorCount
    ensures r.clickCount == c.clickCount && r.pointIndex == c.pointIndex && r.samples == c.samples
  {
    c.(anchors := Anchors(width, height))
  }

  /** The target button is rendered, and so can be clicked, only when the
      anchor list is non-empty and the current index names an anchor. */
  predicate ButtonShown(c: Screen)
  {
    |c.anchors| > 0 && c.pointIndex < |c.anchors|
  }

  /** Clicks still to go, as shown to the user. */
  function Remaining(c: Screen): int
  {
    TotalClicks as int - c.clickCount as int
  }

  /** The progress percentage after `count` clicks, rounded as in JavaScript. */
  function Progress(count: nat): int
  {
    Round(count as real / TotalClicks as real * 100.0)
  }

  /** Each click is worth exactly five percent; the bar stays within 0..100
      during calibration and is full exactly on the last click. */
  lemma ProgressIsFivePerClick(count: nat)
    ensures Progress(count) == 5 * count
    ensures count <= TotalClicks ==> 0 <= Progress(count) <= 100
    ensures count <= TotalClicks ==> (Progress(count) == 100 <==> count == TotalClicks)
  {
  }

  /** What a click does. */
  datatype ClickResult =
    | Ignored
      /** The click counted: the new screen state, the progress value handed
          to the application, and whether completion was signalled. */
    | Accepted(screen: Screen, progress: int, completed: bool)

  /** The click handler. A click while the engine is missing or not ready is
      dropped. Otherwise it records one sample and counts one click; the
      click that reaches the quota signals completion and leaves the target
      where it is, any other moves the target to the next anchor, cyclically. */
  function Click(c: Screen, engineReady: bool, at: Sample): (r: ClickResult)
    requires ButtonShown(c)
    ensures r.Ignored? <==> !engineReady
    ensures r.Accepted? ==>
      && r.screen.clickCount == c.clickCount + 1
      && r.screen.samples == c.samples + [at]
      && r.screen.anchors == c.anchors
      && r.progress == 5 * r.screen.clickCount
      && (r.completed <==> r.screen.clickCount >= TotalClicks)
      && (r.completed ==> r.screen.pointIndex == c.pointIndex)
      && (!r.completed ==> r.screen.pointIndex == (c.pointIndex + 1) % |c.anchors|)
      && ButtonShown(r.screen)
  {
    if !engineReady then Ignored
    else
      var n := c.clickCount + 1;
      ProgressIsFivePerClick(n);
      if n >= TotalClicks then
        Accepted(c.(clickCount := n, samples := c.samples + [at]), Progress(n), true)
      else
        Accepted(c.(clickCount := n, samples := c.samples + [at],
                    pointIndex := (c.pointIndex + 1) % |c.anchors|), Progress(n), false)
  }

  /** A run of accepted clicks at the given positions, stopping at the click
      that signals completion (the screen is then unmounted). The second
      component tells whether completion was signalled. */
  function ClickAll(c: Screen, at: seq<Sample>): (Screen, bool)
    requires ButtonShown(c)
    decreases |at|
  {
    if at == [] then (c, false)
    else
      var r := Click(c, true, at[0]);
      if r.completed then (r.screen, true) else ClickAll(r.screen, at[1..])
  }

  /** Starting at any count below the quota with the target at that count
      modulo nine, a run of clicks either stays below the quota, with the
      target at the new count modulo nine and every click recorded, or
      signals completion exactly on the click that reaches twenty, recording
      the clicks up to that one and no more. */
  lemma {:induction false} ClickAllCycles(c: Screen, at: seq<Sample>)
    requires |c.anchors| == AnchorCount
    requires c.clickCount < TotalClicks && c.pointIndex == c.clickCount % AnchorCount
    ensures var (d, done) := ClickAll(c, at);
      var k := c.clickCount + |at|;
      && d.anchors == c.anchors
      && (k < TotalClicks ==> !done && d.clickCount == k && d.pointIndex == k % AnchorCount && d.samples == c.samples + at)
      && (k >= TotalClicks ==>
            var used := TotalClicks - c.clickCount;
            done && d.clickCount == TotalClicks && d.pointIndex == (TotalClicks - 1) % AnchorCount
            && d.samples == c.samples + at[..used])
    decreases |at|
  {
    if at != [] {
      var r := Click(c, true, at[0]);
      if r.completed {
        assert at[..TotalClicks - c.clickCount] == [at[0]];
      } else {
        ClickAllCycles(r.screen, at[1..]);
        var used := TotalClicks - c.clickCount;
        if c.clickCount + |at| >= TotalClicks {
          assert at[..used] == [at[0]] + at[1..][..used - 1];
        } else {
          assert at == [at[0]] + at[1..];
        }
      }
    }
  }

  /** From a freshly loaded screen: after k < 20 clicks the target is anchor
      k mod 9 (so anchor 0 returns at clicks 9 and 18) and progress is 5k;
      the twentieth click completes calibration at a full bar. */
  lemma FreshScreenCycle(width: int, height: int, at: seq<Sample>)
    ensures var (d, done) := ClickAll(LoadAnchors(Mount(), width, height), at);
      && (|at| < TotalClicks ==> !done && d.pointIndex == |at| % AnchorCount && d.samples == at && Progress(d.clickCount) == 5 * |at|)
      && (|at| >= TotalClicks ==> done && d.clickCount == TotalClicks && Progress(d.clickCount) == 100 && d.samples == at[..TotalClicks])
  {
    var c := LoadAnchors(Mount(), width, height);
    ClickAllCycles(c, at);
    ProgressIsFivePerClick(ClickAll(c, at).0.clickCount);
  }
}
