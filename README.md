# MiniPaint canvas view, modelled in Dafny

MiniPaint is a finger-painting view for Android, `MyCanvasView`. It turns
touch samples into a smoothed freehand stroke. That stroke goes into an
off-screen bitmap, which the view paints on every frame together with a
decorative frame rectangle. This project models the view's whole logic and
proves properties of it:

- the stroke tracker: `onTouchEvent` and the `touchStart`, `touchMove` and
  `touchUp` helpers it dispatches to;
- the surface bookkeeping: `onSizeChanged`, which recycles and replaces the
  bitmap and recomputes the frame, and `onDraw`.

Files:

- `paint.dfy` (module `Paint`): the view's state as one value, `View`. There
  is one function per handler, from the old state to the new one. `Run` feeds
  a sequence of host inputs (touch events and size changes) through them.
- `paint_lemmas.dfy` (module `PaintLemmas`): properties of those functions.
  - the smoothing invariant of the pending path (`Smooth`), and tangent
    continuity at every join;
  - exactly one live bitmap after any input sequence;
  - every MOVE requests exactly one redraw;
  - strokes persist across touches;
  - the one-sample lag of the stroke's end;
  - the per-axis tolerance test;
  - the missing idle guard;
  - a complete touch session.
- `canvas_view.dfy` (module `CanvasViews`): the view as a class with one
  method per handler. It has the Kotlin class's fields except `paint` (see
  Left out), plus a counter of `invalidate()` calls and a ghost set of the
  bitmaps it has recycled. Bitmap and Canvas are classes too, so recycling
  marks the old bitmap object itself. Every method keeps `Valid()`. Each
  state-changing method's `ensures` states that the new `State()` is the
  matching `Paint` function of the old one; `OnDraw` changes nothing and
  returns `Paint.Present` of the state.

Two behaviours of the view are worth stating outright:

- `invalidate()` runs on every MOVE, so a move below the tolerance still
  requests a redraw (`TouchMove`, `RunCountsRedraws`).
- Nothing guards against a MOVE after UP. Such a move is tested against the
  stale current point. Past the tolerance, it makes the empty path a single
  curve whose control point is that stale point, and strokes that curve into
  the bitmap (`MoveAfterUpStillDraws`).

The platform's `Canvas` and `Paint` are abstracted. A bitmap is its size,
the colour it was last filled with (`Canvas.drawColor`), and the list of paths
stroked over that fill since. Coordinates are `real`. The touch tolerance
(`scaledTouchSlop`) and the two colour resources are constructor parameters.
Redraw requests are a counter.

## Model

| member | source | states |
|---|---|---|
| `Paint.Init` | app/src/main/java/com/example/android/minipaint/MyCanvasView.kt:15-49 | A new view has an empty path, no bitmap or frame yet (both `lateinit`), zero counters, a sample and current point of (0, 0), and the given background colour and tolerance |
| `Paint.SizeChanged` | app/src/main/java/com/example/android/minipaint/MyCanvasView.kt:61-79 | The new bitmap is width x height, filled with the background and holds no strokes. The frame is (40, 40, width-40, height-40). One more bitmap is created. One more is recycled exactly when a bitmap existed. Nothing else changes |
| `Paint.TouchStart` | app/src/main/java/com/example/android/minipaint/MyCanvasView.kt:117-122 | The path becomes exactly [MoveTo(sample)] and the current point becomes the sample. The bitmap, the redraw count and everything else are unchanged |
| `Paint.TouchMove` | app/src/main/java/com/example/android/minipaint/MyCanvasView.kt:128-142 | Below the tolerance on both axes, only the redraw count changes (+1). Otherwise exactly one segment is appended, QuadTo(old current point, midpoint of sample and old current point), and earlier segments are kept. The current point becomes the raw sample. The whole new path is appended once to the bitmap's strokes, and the redraw count goes up by 1 |
| `Paint.TouchUp` | app/src/main/java/com/example/android/minipaint/MyCanvasView.kt:148-150 | The path becomes empty. The current point, the bitmap, its strokes and its size are unchanged |
| `Paint.TouchEvent` | app/src/main/java/com/example/android/minipaint/MyCanvasView.kt:101-112 | The sample is always cached. An action other than DOWN, MOVE or UP changes nothing else. Only MOVE requests a redraw (exactly one) and only MOVE can change the bitmap. The frame and the bitmap accounting never change |
| `Paint.PastTolerance` | app/src/main/java/com/example/android/minipaint/MyCanvasView.kt:129-131 | The move passes the tolerance exactly when the sample lies outside the open square of half-side `tolerance` centred on the current point: a per-axis test, not a Euclidean one |
| `Paint.Sampled` | app/src/main/java/com/example/android/minipaint/MyCanvasView.kt:102-103 | Caching an event sets the sample to the event's coordinates and changes nothing else |
| `Paint.CanHandle` | app/src/main/java/com/example/android/minipaint/MyCanvasView.kt:139 | A touch event can only fail for lack of a bitmap (the `lateinit` canvas of line 15) when it is a MOVE past the tolerance that arrives before the first onSizeChanged; any other event, and every event on a sized view, is handled |
| `Paint.Present` | app/src/main/java/com/example/android/minipaint/MyCanvasView.kt:86-94 | onDraw issues two commands: the stored bitmap at (0, 0), then the frame outline on top |
| `Paint.Abs` | app/src/main/java/com/example/android/minipaint/MyCanvasView.kt:129-130 | The distance per axis is non-negative and equals the difference or its negation |
| `PaintLemmas.SmoothExtends` | app/src/main/java/com/example/android/minipaint/MyCanvasView.kt:134-136 | Appending the segment touchMove emits keeps the path smooth. Each curve's control point is where the current point stood after the previous segment, and the new current point trails the last curve |
| `PaintLemmas.InitWf` | app/src/main/java/com/example/android/minipaint/MyCanvasView.kt:15-49 | The constructed view satisfies the view invariant `Wf` |
| `PaintLemmas.SizeChangedWf` | app/src/main/java/com/example/android/minipaint/MyCanvasView.kt:61-79 | onSizeChanged preserves `Wf`: one live bitmap, and the frame matches the bitmap's size |
| `PaintLemmas.TouchEventWf` | app/src/main/java/com/example/android/minipaint/MyCanvasView.kt:101-150 | Every touch event preserves `Wf`, in particular the smoothing invariant of the path |
| `PaintLemmas.StepWf` | app/src/main/java/com/example/android/minipaint/MyCanvasView.kt:61-150 | Every host input preserves `Wf` |
| `PaintLemmas.RunWf` | app/src/main/java/com/example/android/minipaint/MyCanvasView.kt:61-150 | After any input sequence starting from a sized view, the path is smooth and the frame matches the bitmap. Exactly one bitmap is live: bitmaps created = bitmaps recycled + 1 |
| `PaintLemmas.RunCountsRedraws` | app/src/main/java/com/example/android/minipaint/MyCanvasView.kt:141 | Over any input sequence, redraw requests grow by exactly the number of MOVE events, whether or not they passed the tolerance |
| `PaintLemmas.TouchesKeepStrokes` | app/src/main/java/com/example/android/minipaint/MyCanvasView.kt:139-150 | Touch events never change the bitmap's size or fill. Strokes drawn earlier stay as a prefix of the strokes after any sequence of touch events, UP included |
| `PaintLemmas.PresentKeepsStrokes` | app/src/main/java/com/example/android/minipaint/MyCanvasView.kt:86-94 | After any touch events on a sized view, what onDraw blits still holds every stroke it held before, in order, and the outline is the same frame |
| `PaintLemmas.TangentContinuous` | app/src/main/java/com/example/android/minipaint/MyCanvasView.kt:134 | Where two curves of a smooth path meet, the join is midway between their control points, so the tangent is continuous |
| `PaintLemmas.EndLagsSample` | app/src/main/java/com/example/android/minipaint/MyCanvasView.kt:134-136 | After a MOVE past a positive tolerance, the path ends at a curve whose end point is not the current point: the stroke lags one sample behind the finger |
| `PaintLemmas.RestartLeavesNoResidue` | app/src/main/java/com/example/android/minipaint/MyCanvasView.kt:117-122 | UP followed by DOWN (x, y) leaves exactly [MoveTo(x, y)] as the path, whatever the previous stroke was |
| `PaintLemmas.MoveAfterUpStillDraws` | app/src/main/java/com/example/android/minipaint/MyCanvasView.kt:128-150 | After UP, a MOVE past the tolerance (against the stale current point) makes the path a single QuadTo whose control point is that stale point (Android starts the curve at (0, 0), see Left out), and strokes it into the bitmap |
| `PaintLemmas.DiagonalJitterIgnored` | app/src/main/java/com/example/android/minipaint/MyCanvasView.kt:129-131 | With tolerance t >= 4, a diagonal step of t-1 on both axes has Euclidean length above t but is still ignored: only the redraw count changes |
| `PaintLemmas.Session` | app/src/main/java/com/example/android/minipaint/MyCanvasView.kt:61-150 | Take a 100 x 100 view with tolerance 8. DOWN (10,10), then MOVE (10,10): path unchanged, one redraw requested. Then MOVE (30,30): path [MoveTo(10,10), QuadTo(10,10,20,20)], current point (30,30). Then UP: path empty, and the bitmap holds exactly that one stroke |
| `CanvasViews.Bitmap.constructor` | app/src/main/java/com/example/android/minipaint/MyCanvasView.kt:71 | A created bitmap has the requested size, is transparent, holds no strokes and is not recycled |
| `CanvasViews.Bitmap.Recycle` | app/src/main/java/com/example/android/minipaint/MyCanvasView.kt:67 | Recycling marks the bitmap released and leaves its contents alone |
| `CanvasViews.Canvas.constructor` | app/src/main/java/com/example/android/minipaint/MyCanvasView.kt:73 | The new canvas draws into the given bitmap |
| `CanvasViews.Canvas.DrawColor` | app/src/main/java/com/example/android/minipaint/MyCanvasView.kt:74 | On a freshly created, transparent bitmap with no strokes (the only use, right after creation at line 71), filling makes every pixel the colour: the fill is the colour and no strokes remain |
| `CanvasViews.Canvas.DrawPath` | app/src/main/java/com/example/android/minipaint/MyCanvasView.kt:139 | Drawing a path appends it to the bitmap's strokes and keeps the fill |
| `CanvasViews.CanvasView.constructor` | app/src/main/java/com/example/android/minipaint/MyCanvasView.kt:12-49 | The constructed view is valid and its state is `Paint.Init` |
| `CanvasViews.CanvasView.OnSizeChanged` | app/src/main/java/com/example/android/minipaint/MyCanvasView.kt:61-79 | The view stays valid and its state becomes `Paint.SizeChanged` of the old state. Bitmap and canvas are fresh. The old bitmap, if any, is recycled and joins the retired set, which holds only recycled bitmaps |
| `CanvasViews.CanvasView.OnDraw` | app/src/main/java/com/example/android/minipaint/MyCanvasView.kt:86-94 | Needs a prior onSizeChanged. Issues the bitmap at (0, 0), then the frame outline, and changes nothing |
| `CanvasViews.CanvasView.OnTouchEvent` | app/src/main/java/com/example/android/minipaint/MyCanvasView.kt:101-112 | Returns true. The view stays valid and its state becomes `Paint.TouchEvent` of the old state. A MOVE that draws needs a prior onSizeChanged. The bitmap, the canvas and the set of retired bitmaps stay the same |
| `CanvasViews.CanvasView.TouchStart` | app/src/main/java/com/example/android/minipaint/MyCanvasView.kt:117-122 | State becomes `Paint.TouchStart` of the old state. Bitmap and canvas are the same objects |
| `CanvasViews.CanvasView.TouchMove` | app/src/main/java/com/example/android/minipaint/MyCanvasView.kt:128-142 | State becomes `Paint.TouchMove` of the old state, with the stroke drawn through the canvas into the live bitmap. The view stays valid, so the path stays smooth |
| `CanvasViews.CanvasView.TouchUp` | app/src/main/java/com/example/android/minipaint/MyCanvasView.kt:148-150 | State becomes `Paint.TouchUp` of the old state. The bitmap is untouched |

## Left out

- Pixel rasterisation is not modelled. This covers which pixels a quadratic curve or a rectangle covers, and the paint's colour, anti-alias, dither, stroke style, join, cap and width (lines 38-46). So the view's `paint` field is not a field of the class. A bitmap is kept as its fill colour plus the list of paths stroked over it. The view's `drawColor` field (line 29) is a constructor parameter, unused by the abstraction.
- `Canvas.DrawColor` requires a fresh bitmap: `Canvas.drawColor` blends its colour over what is already drawn (SRC_OVER), which the fill-plus-strokes abstraction cannot represent. The view only calls it on a bitmap it has just created.
- Android's `Path.quadTo` on an empty path first moves to (0, 0) implicitly. The model keeps only the segments the view adds.
- Colour resources (lines 28-29) and `ViewConfiguration.scaledTouchSlop` (line 32) are platform lookups. They are constructor parameters.
- Kotlin `Float` coordinates are `real`. IEEE rounding of the midpoint and of the distance test is not modelled.
- `invalidate()` scheduling and coalescing, the View lifecycle and the host thread are platform concerns. Only the number of requests is kept.
- `super.onSizeChanged` and `super.onDraw` are platform calls, so `oldWidth`/`oldHeight` are accepted and unused. `onDraw` returns the draw commands it would issue instead of drawing on a platform canvas.
- Bitmap allocation failure (out of memory) is not modelled, nor is the rejection of a non-positive size by `Bitmap.createBitmap`. Both are platform exceptions.
- Reading a `lateinit` field before `onSizeChanged` throws in Kotlin. The model states it as a precondition instead (`CanHandle`, `OnDraw`), on the drawing branch of `touchMove` only.
- `Paint.Run` and the lemmas over it start from a view that already has a bitmap. Touch events that arrive before the first size change are covered by `Paint.TouchEvent` one call at a time.
