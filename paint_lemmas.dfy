/**
 * What the view's handlers promise beyond a single call: the smoothing
 * invariant of the pending path, the one-live-bitmap accounting, the redraw
 * count, the persistence of strokes across touches, and the concrete
 * behaviours that distinguish the per-axis test and the missing idle guard.
 */
module PaintLemmas {
  import opened Paint

  /** Appending the segment touchMove emits keeps the path smooth, now trailing the raw sample. */
  lemma {:induction false} SmoothExtends(path: Path, cx: real, cy: real, x: real, y: real)
    requires Smooth(path, cx, cy)
    ensures Smooth(path + [QuadTo(cx, cy, Mid(x, cx), Mid(y, cy))], x, y)
  {
    var q := QuadTo(cx, cy, Mid(x, cx), Mid(y, cy));
    var p := path + [q];
    forall i | 0 < i < |p|
      ensures p[i].QuadTo? && Trails(p[i - 1], p[i].cx, p[i].cy)
    {
      if i < |path| {
        assert p[i] == path[i] && p[i - 1] == path[i - 1];
      } else {
        assert p[i] == q && p[i - 1] == path[|path| - 1];
      }
    }
    assert p[|p| - 1] == q;
  }

  lemma InitWf(background: Color, tolerance: nat)
    ensures Wf(Init(background, tolerance))
  {
  }

  lemma SizeChangedWf(v: View, width: int, height: int)
    requires Wf(v)
    ensures Wf(SizeChanged(v, width, height))
  {
  }

  lemma {:induction false} TouchEventWf(v: View, e: Event)
    requires Wf(v) && CanHandle(v, e)
    ensures Wf(TouchEvent(v, e))
  {
    var s := Sampled(v, e);
    if e.action == Move && PastTolerance(s) {
      SmoothExtends(v.path, v.currentX, v.currentY, e.x, e.y);
    }
  }

  lemma {:induction false} StepWf(v: View, i: Input)
    requires Wf(v) && v.raster.Some?
    ensures Wf(Step(v, i))
  {
    match i
    case Touch(e) => TouchEventWf(v, e);
    case Resize(w, h) => SizeChangedWf(v, w, h);
  }

  /**
   * Whatever the host delivers once a bitmap exists, the path stays smooth,
   * the frame matches the bitmap, and exactly one bitmap is live: every one
   * created before the current one has been recycled.
   */
  lemma {:induction false} RunWf(v: View, inputs: seq<Input>)
    requires Wf(v) && v.raster.Some?
    ensures Wf(Run(v, inputs))
    ensures Run(v, inputs).created == Run(v, inputs).recycled + 1
    decreases |inputs|
  {
    if inputs != [] {
      StepWf(v, inputs[0]);
      RunWf(Step(v, inputs[0]), inputs[1..]);
    }
  }

  /** Every MOVE requests exactly one redraw, past the tolerance or not; nothing else requests one. */
  lemma {:induction false} RunCountsRedraws(v: View, inputs: seq<Input>)
    requires v.raster.Some?
    ensures Run(v, inputs).redraws == v.redraws + MoveCount(inputs)
    decreases |inputs|
  {
    if inputs != [] {
      RunCountsRedraws(Step(v, inputs[0]), inputs[1..]);
    }
  }

  predicate AllTouches(inputs: seq<Input>)
  {
    forall k :: 0 <= k < |inputs| ==> inputs[k].Touch?
  }

  /**
   * Touch events never erase or resize the bitmap: its size and fill stay,
   * and what was stroked before is still there, with new strokes after it.
   */
  lemma {:induction false} TouchesKeepStrokes(v: View, inputs: seq<Input>)
    requires v.raster.Some? && AllTouches(inputs)
    ensures var after := Run(v, inputs).raster.value;
      && after.width == v.raster.value.width
      && after.height == v.raster.value.height
      && after.fill == v.raster.value.fill
      && v.raster.value.strokes <= after.strokes
    decreases |inputs|
  {
    if inputs != [] {
      assert inputs[0].Touch?;
      TouchesKeepStrokes(Step(v, inputs[0]), inputs[1..]);
    }
  }

  /**
   * What onDraw shows keeps every stroke: after any touch events, the bitmap
   * it blits still holds, in order, the strokes it held before, and the frame
   * outline drawn over it is unchanged.
   */
  lemma {:induction false} PresentKeepsStrokes(v: View, inputs: seq<Input>)
    requires Wf(v) && v.raster.Some? && AllTouches(inputs)
    ensures Run(v, inputs).frame.Some?
    ensures var shown := Present(Run(v, inputs));
      && v.raster.value.strokes <= shown[0].raster.strokes
      && shown[1] == Outline(v.frame.value)
  {
    RunWf(v, inputs);
    TouchesKeepStrokes(v, inputs);
  }

  /**
   * Where two quadratic curves of a smooth path meet, the tangent is
   * continuous: the join lies midway between the two control points.
   */
  lemma TangentContinuous(path: Path, x: real, y: real, i: nat)
    requires Smooth(path, x, y)
    requires 0 < i < |path| && path[i - 1].QuadTo?
    ensures path[i].cx - path[i - 1].ex == path[i - 1].ex - path[i - 1].cx
    ensures path[i].cy - path[i - 1].ey == path[i - 1].ey - path[i - 1].cy
  {
    assert Trails(path[i - 1], path[i].cx, path[i].cy);
  }

  /**
   * After a MOVE that passes a positive tolerance the stroke ends one sample
   * behind the finger: the end of the path is not the current point.
   */
  lemma EndLagsSample(v: View, e: Event)
    requires CanHandle(v, e) && e.action == Move && PastTolerance(Sampled(v, e))
    requires v.tolerance > 0
    ensures var r := TouchEvent(v, e);
      r.path[|r.path| - 1].QuadTo? &&
      (r.path[|r.path| - 1].ex, r.path[|r.path| - 1].ey) != (r.currentX, r.currentY)
  {
  }

  /** UP then DOWN: the new path holds only the DOWN point, nothing of the previous stroke. */
  lemma RestartLeavesNoResidue(v: View, up: Event, down: Event)
    requires up.action == Up && down.action == Down
    ensures TouchEvent(TouchEvent(v, up), down).path == [MoveTo(down.x, down.y)]
  {
  }

  /**
   * There is no idle guard: a MOVE after UP still tests against the stale
   * current point and, past the tolerance, makes the empty path a single
   * curve whose control point is that stale point, and strokes it into the
   * bitmap.
   */
  lemma MoveAfterUpStillDraws(v: View, up: Event, move: Event)
    requires up.action == Up && move.action == Move && v.raster.Some?
    requires PastTolerance(Sampled(v, move))
    ensures var r := TouchEvent(TouchEvent(v, up), move);
      && r.path == [QuadTo(v.currentX, v.currentY, Mid(move.x, v.currentX), Mid(move.y, v.currentY))]
      && r.raster.value.strokes == v.raster.value.strokes + [r.path]
  {
  }

  /**
   * The tolerance test is per axis: once the tolerance is at least 4, a
   * diagonal step of tolerance - 1 on both axes is ignored although its
   * Euclidean length exceeds the tolerance.
   */
  lemma {:induction false} DiagonalJitterIgnored(v: View)
    requires v.tolerance >= 4
    ensures var t := v.tolerance as real - 1.0;
      var e := Event(Move, v.currentX + t, v.currentY + t);
      && CanHandle(v, e)
      && t * t + t * t > v.tolerance as real * v.tolerance as real
      && TouchEvent(v, e) == Sampled(v, e).(redraws := v.redraws + 1)
  {
    var n := v.tolerance as real;
    var t := n - 1.0;
    assert t * t + t * t - n * n == n * (n - 4.0) + 2.0;
    assert n * (n - 4.0) >= 0.0;
    var e := Event(Move, v.currentX + t, v.currentY + t);
    assert Abs(e.x - v.currentX) == t;
    assert Abs(e.y - v.currentY) == t;
  }

  /**
   * The session of a 100 x 100 view with tolerance 8: DOWN (10, 10), MOVE to
   * the same point, MOVE (30, 30), UP. Both moves request a redraw, only the
   * second extends and strokes the path, ending its curve at (20, 20) while the
   * current point becomes (30, 30); UP empties the path and keeps the stroke.
   */
  lemma Session(background: Color)
    ensures var v0 := SizeChanged(Init(background, 8), 100, 100);
      var v1 := TouchEvent(v0, Event(Down, 10.0, 10.0));
      var v2 := TouchEvent(v1, Event(Move, 10.0, 10.0));
      var v3 := TouchEvent(v2, Event(Move, 30.0, 30.0));
      var v4 := TouchEvent(v3, Event(Up, 30.0, 30.0));
      && v2.path == v1.path && v2.redraws == 1 && v2.raster == v0.raster
      && v3.path == [MoveTo(10.0, 10.0), QuadTo(10.0, 10.0, 20.0, 20.0)]
      && (v3.currentX, v3.currentY) == (30.0, 30.0) && v3.redraws == 2
      && v4.path == []
      && v4.raster == Some(Raster(100, 100, background, [v3.path]))
  {
    var v0 := SizeChanged(Init(background, 8), 100, 100);
    var v1 := TouchEvent(v0, Event(Down, 10.0, 10.0));
    assert v1.path == [MoveTo(10.0, 10.0)] && (v1.currentX, v1.currentY) == (10.0, 10.0);
    var v2 := TouchEvent(v1, Event(Move, 10.0, 10.0));
    assert !PastTolerance(Sampled(v1, Event(Move, 10.0, 10.0)));
    assert PastTolerance(Sampled(v2, Event(Move, 30.0, 30.0)));
    var v3 := TouchEvent(v2, Event(Move, 30.0, 30.0));
    var v4 := TouchEvent(v3, Event(Up, 30.0, 30.0));
    assert v0.raster.value.strokes + [v3.path] == [v3.path];
  }
}
