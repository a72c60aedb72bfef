/**
 * The finger-painting view as a value.
 *
 * `View` gathers every field of the view that a handler reads or writes; each
 * handler of the view (onSizeChanged, onTouchEvent and the three touch helpers
 * it dispatches to, onDraw) is one function from the old value to the new one.
 * The class in module CanvasViews is proved to follow these functions, and
 * module PaintLemmas proves what they promise over whole event sequences.
 */
module Paint {

  /** An ARGB colour as the platform hands it out. */
  type Color = int

  datatype Option<T> = None | Some(value: T)

  /** One element of the pending path, in the form the view builds it. */
  datatype Segment =
    | MoveTo(x: real, y: real)
    | QuadTo(cx: real, cy: real, ex: real, ey: real)  // control point, end point

  type Path = seq<Segment>

  datatype Rect = Rect(left: int, top: int, right: int, bottom: int)

  /**
   * The off-screen bitmap, abstracted: its size, the colour its pixels were
   * last filled with, and the paths stroked over that fill since, oldest first.
   */
  datatype Raster = Raster(width: int, height: int, fill: Color, strokes: seq<Path>)

  /**
   * The action of a motion event as onTouchEvent sees it: ACTION_DOWN,
   * ACTION_MOVE, ACTION_UP, or `Other`, which stands for every other code.
   */
  datatype Action = Down | Move | Up | Other

  datatype Event = Event(action: Action, x: real, y: real)

  /** What onDraw issues on the system canvas, in order. */
  datatype DrawOp = Blit(raster: Raster, left: real, top: real) | Outline(rect: Rect)

  /** Margin of the decorative frame on every side. */
  const Inset: int := 40

  /** Pixels of a freshly created ARGB_8888 bitmap. */
  const Transparent: Color := 0

  /**
   * The view's state. `raster` and `frame` are None until the first
   * onSizeChanged (they are `lateinit` in the view). `created` and
   * `recycled` count bitmaps created and recycled; `redraws` counts
   * invalidate() requests.
   */
  datatype View = View(
    background: Color,
    tolerance: nat,
    motionX: real, motionY: real,
    currentX: real, currentY: real,
    path: Path,
    raster: Option<Raster>,
    frame: Option<Rect>,
    created: nat,
    recycled: nat,
    redraws: nat)

  function Abs(d: real): (r: real)
    ensures 0.0 <= r && (r == d || r == -d)
  {
    if d < 0.0 then -d else d
  }

  function Mid(a: real, b: real): real
  {
    (a + b) / 2.0
  }

  /** The frame rectangle for a view of the given size. */
  function FrameFor(width: int, height: int): Rect
  {
    Rect(Inset, Inset, width - Inset, height - Inset)
  }

  /**
   * The tolerance test of touchMove: the latest sample is far enough from the
   * current point on at least one axis (per axis, not Euclidean).
   */
  predicate PastTolerance(v: View)
    ensures PastTolerance(v) <==>
      !(&& v.currentX - v.tolerance as real < v.motionX < v.currentX + v.tolerance as real
        && v.currentY - v.tolerance as real < v.motionY < v.currentY + v.tolerance as real)
  {
    Abs(v.motionX - v.currentX) >= v.tolerance as real ||
    Abs(v.motionY - v.currentY) >= v.tolerance as real
  }

  /** The view as constructed: empty path, everything else zero, no bitmap yet. */
  function Init(background: Color, tolerance: nat): (v: View)
    ensures v.path == [] && v.raster.None? && v.frame.None?
    ensures v.created == v.recycled == v.redraws == 0
    ensures v.background == background && v.tolerance == tolerance
    ensures v.motionX == v.motionY == v.currentX == v.currentY == 0.0
  {
    View(background, tolerance, 0.0, 0.0, 0.0, 0.0, [], None, None, 0, 0, 0)
  }

  /**
   * onSizeChanged: recycle the old bitmap if there is one, allocate a fresh
   * width x height bitmap filled with the background, and recompute the frame.
   */
  function SizeChanged(v: View, width: int, height: int): (r: View)
    ensures r.raster == Some(Raster(width, height, v.background, []))
    ensures r.frame == Some(Rect(40, 40, width - 40, height - 40))
    ensures r.created == v.created + 1
    ensures r.recycled == if v.raster.Some? then v.recycled + 1 else v.recycled
    ensures r.(raster := v.raster, frame := v.frame, created := v.created, recycled := v.recycled) == v
  {
    var blank := Raster(width, height, Transparent, []);
    var filled := blank.(fill := v.background);
    v.(raster := Some(filled),
       frame := Some(FrameFor(width, height)),
       created := v.created + 1,
       recycled := if v.raster.Some? then v.recycled + 1 else v.recycled)
  }

  /** touchStart: the path restarts at the latest sample, which becomes the current point. */
  function TouchStart(v: View): (r: View)
    ensures r.path == [MoveTo(v.motionX, v.motionY)]
    ensures r.currentX == v.motionX && r.currentY == v.motionY
    ensures r.(path := v.path, currentX := v.currentX, currentY := v.currentY) == v
  {
    var reset := v.(path := []);
    var anchored := reset.(path := reset.path + [MoveTo(v.motionX, v.motionY)]);
    anchored.(currentX := v.motionX, currentY := v.motionY)
  }

  /**
   * touchMove: past the tolerance, extend the path by a quadratic curve from
   * the current point towards the midpoint, move the current point to the raw
   * sample and stroke the whole path into the bitmap; in every case request a
   * redraw. The bitmap must exist only when the stroke is drawn.
   */
  function TouchMove(v: View): (r: View)
    requires PastTolerance(v) ==> v.raster.Some?
    ensures !PastTolerance(v) ==> r == v.(redraws := v.redraws + 1)
    ensures PastTolerance(v) ==>
      && |r.path| == |v.path| + 1
      && r.path[..|v.path|] == v.path
      && r.path[|v.path|] == QuadTo(v.currentX, v.currentY, (v.motionX + v.currentX) / 2.0, (v.motionY + v.currentY) / 2.0)
      && r.currentX == v.motionX && r.currentY == v.motionY
      && r.raster == Some(v.raster.value.(strokes := v.raster.value.strokes + [r.path]))
      && r.redraws == v.redraws + 1
      && r.(path := v.path, currentX := v.currentX, currentY := v.currentY,
            raster := v.raster, redraws := v.redraws) == v
  {
    var moved :=
      if PastTolerance(v) then
        var p := v.path + [QuadTo(v.currentX, v.currentY, Mid(v.motionX, v.currentX), Mid(v.motionY, v.currentY))];
        var bitmap := v.raster.value;
        v.(path := p, currentX := v.motionX, currentY := v.motionY,
           raster := Some(bitmap.(strokes := bitmap.strokes + [p])))
      else v;
    moved.(redraws := moved.redraws + 1)
  }

  /** touchUp: the pending path is discarded; nothing already drawn changes. */
  function TouchUp(v: View): (r: View)
    ensures r.path == []
    ensures r.(path := v.path) == v
  {
    v.(path := [])
  }

  /** The view once onTouchEvent has cached the sample of `e`. */
  function Sampled(v: View, e: Event): (r: View)
    ensures r.motionX == e.x && r.motionY == e.y
    ensures r.(motionX := v.motionX, motionY := v.motionY) == v
  {
    v.(motionX := e.x, motionY := e.y)
  }

  /** What onTouchEvent needs: a MOVE that will draw finds a bitmap. */
  predicate CanHandle(v: View, e: Event)
    ensures v.raster.Some? ==> CanHandle(v, e)
    ensures e.action != Move ==> CanHandle(v, e)
    ensures !CanHandle(v, e) ==> v.raster.None? && PastTolerance(Sampled(v, e))
  {
    e.action == Move && PastTolerance(Sampled(v, e)) ==> v.raster.Some?
  }

  /**
   * onTouchEvent: cache the sample, then dispatch DOWN, MOVE and UP; other
   * action codes change nothing else. (It always reports the event handled.)
   */
  function TouchEvent(v: View, e: Event): (r: View)
    requires CanHandle(v, e)
    ensures r.motionX == e.x && r.motionY == e.y
    ensures r.background == v.background && r.tolerance == v.tolerance
    ensures r.created == v.created && r.recycled == v.recycled && r.frame == v.frame
    ensures e.action.Other? ==> r == Sampled(v, e)
    ensures e.action != Move ==> r.raster == v.raster && r.redraws == v.redraws
    ensures e.action == Move ==> r.redraws == v.redraws + 1
  {
    var s := Sampled(v, e);
    match e.action
    case Down => TouchStart(s)
    case Move => TouchMove(s)
    case Up => TouchUp(s)
    case Other => s
  }

  /** onDraw: the bitmap at the origin, then the frame outline; the view is only read. */
  function Present(v: View): (ops: seq<DrawOp>)
    requires v.raster.Some? && v.frame.Some?
    ensures |ops| == 2
    ensures ops[0].Blit? && ops[0].raster == v.raster.value && ops[0].left == ops[0].top == 0.0
    ensures ops[|ops| - 1] == Outline(v.frame.value)
  {
    [Blit(v.raster.value, 0.0, 0.0), Outline(v.frame.value)]
  }

  /**
   * `(x, y)` is where the tracker's current point stood when `s` was the last
   * segment: on the point of a MoveTo, or such that the end of a QuadTo is the
   * midpoint between its control point and `(x, y)`.
   */
  predicate Trails(s: Segment, x: real, y: real)
  {
    match s
    case MoveTo(px, py) => px == x && py == y
    case QuadTo(cx, cy, ex, ey) => ex == Mid(cx, x) && ey == Mid(cy, y)
  }

  /**
   * The smoothing invariant of the pending path: every segment after the first
   * is a quadratic curve whose control point is where the current point stood
   * after the segment before it, and `(x, y)` trails the last segment.
   */
  predicate Smooth(path: Path, x: real, y: real)
  {
    && (forall i :: 0 < i < |path| ==> path[i].QuadTo? && Trails(path[i - 1], path[i].cx, path[i].cy))
    && (|path| > 0 ==> Trails(path[|path| - 1], x, y))
  }

  /** The invariant of the whole view. */
  predicate Wf(v: View)
  {
    && Smooth(v.path, v.currentX, v.currentY)
    && v.created == v.recycled + (if v.raster.Some? then 1 else 0)
    && (v.raster.Some? <==> v.frame.Some?)
    && (v.raster.Some? ==> v.frame.value == FrameFor(v.raster.value.width, v.raster.value.height))
  }

  /** An input from the host: a touch event or a size change. */
  datatype Input = Touch(e: Event) | Resize(width: int, height: int)

  function Step(v: View, i: Input): (r: View)
    requires v.raster.Some?
    ensures r.raster.Some?
  {
    match i
    case Touch(e) => TouchEvent(v, e)
    case Resize(w, h) => SizeChanged(v, w, h)
  }

  /** The view after the host delivers `inputs` in order, once a bitmap exists. */
  function Run(v: View, inputs: seq<Input>): (r: View)
    requires v.raster.Some?
    ensures r.raster.Some?
    decreases |inputs|
  {
    if inputs == [] then v else Run(Step(v, inputs[0]), inputs[1..])
  }

  /** How many of `inputs` are MOVE events. */
  function MoveCount(inputs: seq<Input>): nat
  {
    if inputs == [] then 0
    else (if inputs[0].Touch? && inputs[0].e.action == Move then 1 else 0) + MoveCount(inputs[1..])
  }
}
