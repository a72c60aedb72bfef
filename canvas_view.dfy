/**
 * MyCanvasView as a class: the fields the view updates in place, and one
 * method per handler. Every method keeps the object invariant `Valid()` and
 * says what the view's state becomes as the corresponding function of module
 * Paint applied to the old state; the bitmap and the canvas bound to it are
 * objects of their own, so that recycling touches the old bitmap itself.
 */
module CanvasViews {
  import Paint
  import PaintLemmas

  /** The off-screen ARGB_8888 bitmap, abstracted as in `Paint.Raster`. */
  class Bitmap {
    const width: int
    const height: int
    var fill: Paint.Color
    var strokes: seq<Paint.Path>
    var recycled: bool

    /** Bitmap.createBitmap: a new bitmap of the given size, all pixels transparent. */
    constructor (width: int, height: int)
      ensures this.width == width && this.height == height
      ensures fill == Paint.Transparent && strokes == [] && !recycled
    {
      this.width := width;
      this.height := height;
      fill := Paint.Transparent;
      strokes := [];
      recycled := false;
    }

    /** Releases the pixels; the bitmap may not be drawn into again. */
    method Recycle()
      modifies this
      ensures recycled
      ensures fill == old(fill) && strokes == old(strokes)
    {
      recycled := true;
    }

    function Contents(): (r: Paint.Raster)
      reads this
      ensures r.width == width && r.height == height && r.fill == fill && r.strokes == strokes
    {
      Paint.Raster(width, height, fill, strokes)
    }
  }

  /** A drawing context bound to one bitmap. */
  class Canvas {
    const bitmap: Bitmap

    constructor (bitmap: Bitmap)
      ensures this.bitmap == bitmap
    {
      this.bitmap := bitmap;
    }

    /**
     * drawColor on a freshly created bitmap: every pixel takes the colour.
     * (On a bitmap already drawn into, the colour blends over the strokes,
     * which this abstraction does not represent; the view never does that.)
     */
    method DrawColor(color: Paint.Color)
      requires !bitmap.recycled
      requires bitmap.fill == Paint.Transparent && bitmap.strokes == []
      modifies bitmap
      ensures bitmap.fill == color && bitmap.strokes == [] && !bitmap.recycled
    {
      bitmap.fill := color;
      bitmap.strokes := [];
    }

    /** drawPath: the path is stroked over the current pixels. */
    method DrawPath(path: Paint.Path)
      requires !bitmap.recycled
      modifies bitmap
      ensures bitmap.strokes == old(bitmap.strokes) + [path]
      ensures bitmap.fill == old(bitmap.fill) && !bitmap.recycled
    {
      bitmap.strokes := bitmap.strokes + [path];
    }
  }

  class CanvasView {
    var extraCanvas: Canvas?   // lateinit: null until the first onSizeChanged
    var extraBitmap: Bitmap?   // lateinit: null until the first onSizeChanged

    var motionTouchEventX: real
    var motionTouchEventY: real

    var currentX: real
    var currentY: real

    const backgroundColor: Paint.Color
    const drawColor: Paint.Color

    const touchTolerance: nat

    var frame: Paint.Option<Paint.Rect>   // lateinit: None until the first onSizeChanged

    var path: Paint.Path

    /** How many times the view has called invalidate(). */
    var invalidations: nat

    /** The bitmaps this view created and has since replaced. */
    ghost var retired: set<Bitmap>

    /**
     * The object invariant: bitmap, canvas and frame are set together, the
     * canvas draws into the bitmap, which is live, every replaced bitmap has
     * been recycled, and the state satisfies the invariant of module Paint.
     */
    ghost predicate Valid()
      reads this, extraBitmap, retired
    {
      && (extraBitmap == null <==> extraCanvas == null)
      && (extraBitmap != null ==>
            && extraCanvas.bitmap == extraBitmap
            && !extraBitmap.recycled
            && extraBitmap !in retired)
      && (forall b :: b in retired ==> b.recycled)
      && Paint.Wf(State())
    }

    /** The view's state as a value of module Paint. */
    ghost function State(): Paint.View
      reads this, extraBitmap
    {
      Paint.View(
        backgroundColor, touchTolerance,
        motionTouchEventX, motionTouchEventY,
        currentX, currentY,
        path,
        if extraBitmap == null then Paint.None else Paint.Some(extraBitmap.Contents()),
        frame,
        |retired| + (if extraBitmap == null then 0 else 1),
        |retired|,
        invalidations)
    }

    /**
     * The view as constructed; the colour resources and the platform's touch
     * slop are passed in.
     */
    constructor (backgroundColor: Paint.Color, drawColor: Paint.Color, touchTolerance: nat)
      ensures Valid()
      ensures State() == Paint.Init(backgroundColor, touchTolerance)
      ensures this.drawColor == drawColor
    {
      extraCanvas := null;
      extraBitmap := null;
      motionTouchEventX, motionTouchEventY := 0.0, 0.0;
      currentX, currentY := 0.0, 0.0;
      this.backgroundColor := backgroundColor;
      this.drawColor := drawColor;
      this.touchTolerance := touchTolerance;
      frame := Paint.None;
      path := [];
      invalidations := 0;
      retired := {};
      new;
      PaintLemmas.InitWf(backgroundColor, touchTolerance);
    }

    /**
     * onSizeChanged: recycle the previous bitmap if one exists, create a
     * width x height bitmap and a canvas on it, fill it with the background and
     * recompute the frame. Exactly one bitmap is live afterwards.
     */
    method OnSizeChanged(width: int, height: int, oldWidth: int, oldHeight: int)
      requires Valid()
      modifies this, extraBitmap
      ensures Valid()
      ensures State() == Paint.SizeChanged(old(State()), width, height)
      ensures fresh(extraBitmap) && fresh(extraCanvas)
      ensures old(extraBitmap) != null ==> old(extraBitmap).recycled && old(extraBitmap) in retired
      ensures retired - {old(extraBitmap)} == old(retired)
    {
      ghost var before := State();
      if extraBitmap != null {
        assert extraBitmap !in retired;
        extraBitmap.Recycle();
        retired := retired + {extraBitmap};
        assert |retired| == before.recycled + 1;
      }
      assert forall b :: b in retired ==> b.recycled;
      assert |retired| == before.created;
      var bitmap := new Bitmap(width, height);
      extraBitmap := bitmap;
      var canvas := new Canvas(bitmap);
      extraCanvas := canvas;
      canvas.DrawColor(backgroundColor);
      var inset := 40;
      frame := Paint.Some(Paint.Rect(inset, inset, width - inset, height - inset));
      PaintLemmas.SizeChangedWf(before, width, height);
      assert State() == Paint.SizeChanged(before, width, height);
    }

    /**
     * onDraw: what the view issues on the system canvas. It only reads the
     * view, so the stored bitmap is the same before and after.
     */
    method OnDraw() returns (ops: seq<Paint.DrawOp>)
      requires Valid() && extraBitmap != null
      ensures ops == Paint.Present(State())
    {
      ops := [Paint.Blit(extraBitmap.Contents(), 0.0, 0.0)];
      ops := ops + [Paint.Outline(frame.value)];
    }

    /**
     * onTouchEvent: cache the event's coordinates, dispatch DOWN, MOVE and
     * UP, ignore other actions, and report the event handled.
     */
    method OnTouchEvent(event: Paint.Event) returns (handled: bool)
      requires Valid() && Paint.CanHandle(State(), event)
      modifies this, extraBitmap
      ensures Valid()
      ensures State() == Paint.TouchEvent(old(State()), event)
      ensures handled
      ensures extraBitmap == old(extraBitmap) && extraCanvas == old(extraCanvas)
      ensures retired == old(retired)
    {
      ghost var before := State();
      motionTouchEventX := event.x;
      motionTouchEventY := event.y;
      assert State() == Paint.Sampled(before, event);
      match event.action {
        case Down => TouchStart();
        case Move => TouchMove();
        case Up => TouchUp();
        case Other =>
      }
      PaintLemmas.TouchEventWf(before, event);
      handled := true;
    }

    /** Resets the path, anchors it at the cached sample and makes that the current point. */
    method TouchStart()
      requires Valid()
      modifies this
      ensures Valid()
      ensures State() == Paint.TouchStart(old(State()))
      ensures extraBitmap == old(extraBitmap) && extraCanvas == old(extraCanvas)
      ensures retired == old(retired)
    {
      path := [];
      path := path + [Paint.MoveTo(motionTouchEventX, motionTouchEventY)];
      currentX := motionTouchEventX;
      currentY := motionTouchEventY;
    }

    /**
     * Past the tolerance on either axis, extends the path towards the
     * midpoint, moves the current point to the sample and strokes the path
     * into the bitmap; then requests a redraw.
     */
    method TouchMove()
      requires Valid() && (Paint.PastTolerance(State()) ==> extraBitmap != null)
      modifies this, extraBitmap
      ensures Valid()
      ensures State() == Paint.TouchMove(old(State()))
      ensures extraBitmap == old(extraBitmap) && extraCanvas == old(extraCanvas)
      ensures retired == old(retired)
    {
      ghost var before := State();
      var dx := Paint.Abs(motionTouchEventX - currentX);
      var dy := Paint.Abs(motionTouchEventY - currentY);
      if dx >= touchTolerance as real || dy >= touchTolerance as real {
        path := path + [Paint.QuadTo(currentX, currentY, (motionTouchEventX + currentX) / 2.0, (motionTouchEventY + currentY) / 2.0)];
        currentX := motionTouchEventX;
        currentY := motionTouchEventY;
        extraCanvas.DrawPath(path);
        PaintLemmas.SmoothExtends(before.path, before.currentX, before.currentY, before.motionX, before.motionY);
      }
      invalidations := invalidations + 1;
    }

    /** Discards the pending path. */
    method TouchUp()
      requires Valid()
      modifies this
      ensures Valid()
      ensures State() == Paint.TouchUp(old(State()))
      ensures extraBitmap == old(extraBitmap) && extraCanvas == old(extraCanvas)
      ensures retired == old(retired)
    {
      path := [];
    }
  }
}
