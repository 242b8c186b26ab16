/**
 * The DrawingView and DetectedImageDisplay components
 * (frontend/src/components/DrawingView.jsx). DrawingView is a drawing canvas
 * whose pointer positions are scaled from display pixels to canvas pixels,
 * whose size follows its container and the window, and whose undo history is
 * repainted, stretched over the whole canvas, whenever the history or the
 * size changes. DetectedImageDisplay outlines each detected object on the
 * returned image.
 */
module DrawingViewComponent {
  import opened Wrappers
  import opened Pointer
  import History
  import SketchPageComponent

  /** A `canvas.toDataURL()` string, treated as an opaque token. */
  type Snapshot = string

  /** The bytes of a `canvas.toBlob(..., "image/png")` result. */
  type PngBlob = seq<bv8>

  /** The `canvasSize` state: CSS-pixel sizes, which may be fractional. */
  datatype Size = Size(width: real, height: real)

  const InitialSize: Size := Size(600.0, 400.0)
  const MinCanvasHeight: real := 300.0

  /** The resize rule: 90% of the container's width, and 60% of the window's
      height but never less than 300 pixels. */
  function CanvasSizeFor(containerWidth: real, innerHeight: real): (s: Size)
    ensures s.height >= MinCanvasHeight
    ensures s.height >= innerHeight * 0.6
    ensures s.height == MinCanvasHeight || s.height == innerHeight * 0.6
    ensures s.width * 10.0 == containerWidth * 9.0
  {
    Size(containerWidth * 0.9, if innerHeight * 0.6 > MinCanvasHeight then innerHeight * 0.6 else MinCanvasHeight)
  }

  /** The value `canvas.width` or `canvas.height` holds after a non-negative
      size is assigned to it: the attribute is an integer, so the fraction is
      dropped. */
  function Resolution(v: real): (n: nat)
    requires v >= 0.0
    ensures n as real <= v < n as real + 1.0
  {
    v.Floor
  }

  /** `getEventPos`: the pointer position in canvas pixels. A touch event
      reads its first active touch, else its first changed touch, relative
      to the canvas's corner; a mouse event reads its offset; both are scaled
      by the ratio of the canvas's resolution to its displayed size. A touch
      event with no touch point at all makes the handler throw (None). */
  function EventPos(e: PointerEvent, rect: ClientRect, canvasWidth: real, canvasHeight: real): (r: Option<Point>)
    requires rect.width > 0.0 && rect.height > 0.0
    ensures r.None? <==> e.Touch? && TouchPoint(e.touches, e.changedTouches).None?
    ensures r.Some? && e.Mouse? ==>
              r.value.x * rect.width == e.offset.x * canvasWidth &&
              r.value.y * rect.height == e.offset.y * canvasHeight
    ensures r.Some? && e.Touch? ==>
              var t := TouchPoint(e.touches, e.changedTouches).value;
              r.value.x * rect.width == (t.x - rect.left) * canvasWidth &&
              r.value.y * rect.height == (t.y - rect.top) * canvasHeight
  {
    var scaleX := canvasWidth / rect.width;
    var scaleY := canvasHeight / rect.height;
    match e
    case Touch(touches, changedTouches) =>
      (match TouchPoint(touches, changedTouches)
       case Some(t) => Some(Point((t.x - rect.left) * scaleX, (t.y - rect.top) * scaleY))
       case None => None)
    case Mouse(_, offset) => Some(Point(offset.x * scaleX, offset.y * scaleY))
  }

  /** For touch input DrawingView's position is SketchPage's `getCanvasPos`
      scaled to the canvas's resolution; when the canvas is displayed at its
      own resolution the two agree. */
  lemma TouchEventPosScalesCanvasPos(e: PointerEvent, rect: ClientRect, canvasWidth: real, canvasHeight: real)
    requires e.Touch?
    requires rect.width > 0.0 && rect.height > 0.0
    ensures var p := SketchPageComponent.CanvasPos(e, rect);
            var q := EventPos(e, rect, canvasWidth, canvasHeight);
            && (q.Some? <==> p.Some?)
            && (q.Some? ==>
                  q.value.x * rect.width == p.value.x * canvasWidth &&
                  q.value.y * rect.height == p.value.y * canvasHeight)
            && (q.Some? && canvasWidth == rect.width && canvasHeight == rect.height ==> q == p)
  {
    var p := SketchPageComponent.CanvasPos(e, rect);
    var q := EventPos(e, rect, canvasWidth, canvasHeight);
    if q.Some? && canvasWidth == rect.width && canvasHeight == rect.height {
      assert q.value.x * rect.width == p.value.x * rect.width;
      assert q.value.y * rect.height == p.value.y * rect.height;
    }
  }

  /** A touch on the displayed canvas lands on the canvas's pixels: the
      displayed rectangle is mapped onto [0, width] x [0, height]. */
  lemma TouchInsideLandsOnCanvas(e: PointerEvent, rect: ClientRect, canvasWidth: real, canvasHeight: real)
    requires e.Touch?
    requires rect.width > 0.0 && rect.height > 0.0
    requires canvasWidth >= 0.0 && canvasHeight >= 0.0
    requires TouchPoint(e.touches, e.changedTouches).Some?
    requires var t := TouchPoint(e.touches, e.changedTouches).value;
             rect.left <= t.x <= rect.left + rect.width && rect.top <= t.y <= rect.top + rect.height
    ensures var q := EventPos(e, rect, canvasWidth, canvasHeight).value;
            0.0 <= q.x <= canvasWidth && 0.0 <= q.y <= canvasHeight
  {
    var t := TouchPoint(e.touches, e.changedTouches).value;
    var q := EventPos(e, rect, canvasWidth, canvasHeight).value;
    ScaledWithin(t.x - rect.left, rect.width, canvasWidth, q.x);
    ScaledWithin(t.y - rect.top, rect.height, canvasHeight, q.y);
  }

  lemma ScaledWithin(d: real, display: real, canvas: real, q: real)
    requires display > 0.0 && canvas >= 0.0 && 0.0 <= d <= display
    requires q * display == d * canvas
    ensures 0.0 <= q <= canvas
  {
    assert 0.0 <= d * canvas <= display * canvas;
    assert 0.0 <= q * display <= canvas * display;
  }

  /** The grid's spacing in canvas pixels; every fifth line is thicker. */
  const GridSize: nat := 20
  const MajorGridSize: nat := GridSize * 5

  /** The row of the last thick horizontal grid line: the largest multiple
      of the thick spacing that is not below the canvas's bottom edge. */
  function LastMajorRow(height: nat): (y: nat)
    ensures y % MajorGridSize == 0
    ensures y <= height < y + MajorGridSize
  {
    height / MajorGridSize * MajorGridSize
  }

  /** The current path a repaint leaves in the 2D context: the single line
      of the last thick horizontal grid line, across the whole width. */
  function GridPath(width: nat, height: nat): (p: seq<Point>)
    ensures |p| == 2 && p[0].y == p[1].y == LastMajorRow(height) as real
    ensures p[0].x == 0.0 && p[1].x == width as real
  {
    [Point(0.0, LastMajorRow(height) as real), Point(width as real, LastMajorRow(height) as real)]
  }

  /** `drawGrid`: strokes the thin vertical and horizontal lines, then the
      thick ones, each on a path of its own (`beginPath`, `moveTo`,
      `lineTo`). Every loop runs at least once, from 0, so the current path
      it leaves behind is that of the last thick horizontal line. */
  method DrawGrid(width: nat, height: nat) returns (path: seq<Point>)
    ensures path == GridPath(width, height)
  {
    path := [];
    var x := 0;
    while x <= width
      decreases width - x
    {
      path := [Point(x as real, 0.0), Point(x as real, height as real)];
      x := x + GridSize;
    }
    var y := 0;
    while y <= height
      decreases height - y
    {
      path := [Point(0.0, y as real), Point(width as real, y as real)];
      y := y + GridSize;
    }
    x := 0;
    while x <= width
      decreases width - x
    {
      path := [Point(x as real, 0.0), Point(x as real, height as real)];
      x := x + MajorGridSize;
    }
    y := 0;
    while y <= height
      invariant y % MajorGridSize == 0 && y <= height + MajorGridSize
      invariant y > 0 ==> path == [Point(0.0, (y - MajorGridSize) as real), Point(width as real, (y - MajorGridSize) as real)]
      decreases height - y
    {
      path := [Point(0.0, y as real), Point(width as real, y as real)];
      y := y + MajorGridSize;
    }
    SameMajorRow(y - MajorGridSize, height);
  }

  /** Only one multiple of the thick spacing lies within one spacing below
      the bottom edge. */
  lemma SameMajorRow(y: int, height: nat)
    requires y >= 0 && y % MajorGridSize == 0 && y <= height < y + MajorGridSize
    ensures y == LastMajorRow(height)
  {
    var r := LastMajorRow(height);
    assert MajorGridSize == 100;
    assert y == y / 100 * 100;
    assert r == r / 100 * 100;
  }

  /** What the canvas was last painted with: its resolution, the white
      background and grid, and, when `image` is present, that snapshot
      stretched over the whole canvas. */
  datatype Painting = Painting(width: nat, height: nat, image: Option<Snapshot>)

  class DrawingView {
    var drawing: bool
    /** One snapshot per finished stroke, oldest first. */
    var history: seq<Snapshot>
    var canvasSize: Size
    var painting: Painting
    /** The points of the 2D context's current path: the stroke being drawn,
        or, after a repaint, the last line the grid left behind. */
    var path: seq<Point>

    /** The canvas's resolution follows `canvasSize`, and it was last painted
        from the newest history entry, or with background and grid alone when
        the history is empty (the redraw effect, DrawingView.jsx:162-178). */
    ghost predicate Valid()
      reads this
    {
      && canvasSize.width >= 0.0 && canvasSize.height >= 0.0
      && painting == Painting(Resolution(canvasSize.width), Resolution(canvasSize.height), History.Newest(history))
    }

    /** The initial state, and the first run of the redraw effect. */
    constructor ()
      ensures Valid()
      ensures !drawing && history == []
      ensures canvasSize == InitialSize && painting == Painting(600, 400, None)
      ensures path == GridPath(600, 400)
    {
      var grid := DrawGrid(600, 400);
      drawing := false;
      history := [];
      canvasSize := InitialSize;
      painting := Painting(600, 400, None);
      path := grid;
    }

    /** The canvas's width and height attributes as numbers. */
    function CanvasWidth(): real
      reads this
      requires Valid()
    {
      Resolution(canvasSize.width) as real
    }

    function CanvasHeight(): real
      reads this
      requires Valid()
    {
      Resolution(canvasSize.height) as real
    }

    /** `updateSize` on a window resize, then the redraw effect: nothing
        happens without a container; otherwise the canvas takes the size rule
        and is repainted from the newest entry, which the resize leaves in
        place along with the rest of the history. Assigning the resolution
        resets the 2D context, and the grid's lines replace its current path. */
    method Resize(containerWidth: Option<real>, innerHeight: real)
      requires Valid()
      requires containerWidth.Some? ==> containerWidth.value >= 0.0
      requires innerHeight >= 0.0
      modifies this`canvasSize, this`painting, this`path
      ensures Valid()
      ensures containerWidth.None? ==> unchanged(this)
      ensures containerWidth.Some? ==> canvasSize == CanvasSizeFor(containerWidth.value, innerHeight)
      ensures containerWidth.Some? ==> path == GridPath(painting.width, painting.height)
      ensures canvasSize.height >= MinCanvasHeight || containerWidth.None?
      ensures painting.image == History.Newest(history)
    {
      if containerWidth.None? {
        return;
      }
      canvasSize := CanvasSizeFor(containerWidth.value, innerHeight);
      painting := Painting(Resolution(canvasSize.width), Resolution(canvasSize.height), History.Newest(history));
      path := DrawGrid(painting.width, painting.height);
    }

    /** `startDrawing`: ignored while the page is loading, and aborted when
        a touch event has no touch point (reading it throws); otherwise a new
        path begins at the pointer and a stroke starts. */
    method StartDrawing(e: PointerEvent, rect: ClientRect, isLoading: bool)
      requires Valid()
      requires rect.width > 0.0 && rect.height > 0.0
      modifies this`drawing, this`path
      ensures Valid()
      ensures isLoading ==> unchanged(this)
      ensures var pos := EventPos(e, rect, CanvasWidth(), CanvasHeight());
              if isLoading || pos.None? then unchanged(this)
              else drawing && path == [pos.value]
    {
      if isLoading {
        return;
      }
      var pos := EventPos(e, rect, CanvasWidth(), CanvasHeight());
      if pos.None? {
        return;
      }
      path := [pos.value];
      drawing := true;
    }

    /** `draw`: does nothing unless a stroke is in progress; otherwise extends
        the path to the pointer (a touch event without touch points throws
        before anything changes). */
    method Draw(e: PointerEvent, rect: ClientRect)
      requires Valid()
      requires rect.width > 0.0 && rect.height > 0.0
      modifies this`path
      ensures Valid()
      ensures !drawing ==> path == old(path)
      ensures var pos := EventPos(e, rect, CanvasWidth(), CanvasHeight());
              path == if drawing && pos.Some? then old(path) + [pos.value] else old(path)
    {
      if !drawing {
        return;
      }
      var pos := EventPos(e, rect, CanvasWidth(), CanvasHeight());
      if pos.Some? {
        path := path + [pos.value];
      }
    }

    /** `stopDrawing`: a no-op without a stroke in progress; otherwise the
        stroke ends and the canvas's `snapshot` is appended to the history,
        which the redraw effect then paints over the whole canvas, leaving
        the grid's last line as the current path. */
    method StopDrawing(snapshot: Snapshot)
      requires Valid()
      modifies this`drawing, this`history, this`painting, this`path
      ensures Valid()
      ensures !old(drawing) ==> unchanged(this)
      ensures old(drawing) ==> !drawing && history == History.Recorded(old(history), snapshot)
      ensures old(drawing) ==> painting.image == Some(snapshot)
      ensures old(drawing) ==> path == GridPath(painting.width, painting.height)
    {
      if !drawing {
        return;
      }
      history := History.Recorded(history, snapshot);
      painting := Painting(painting.width, painting.height, Some(snapshot));
      path := DrawGrid(painting.width, painting.height);
      drawing := false;
    }

    /** `undo`: a history of at most one entry is cleared through
        `clearCanvas`; a longer one loses exactly its newest entry, and the
        redraw effect paints the entry before it. Either way the repaint
        leaves the grid's last line as the current path. */
    method Undo()
      requires Valid()
      modifies this`history, this`painting, this`path
      ensures Valid()
      ensures history == History.Undone(old(history))
      ensures |old(history)| <= 1 ==> history == [] && painting.image == None
      ensures |old(history)| > 1 ==> painting.image == Some(old(history)[|old(history)| - 2])
      ensures painting.width == old(painting.width) && painting.height == old(painting.height)
      ensures path == GridPath(painting.width, painting.height)
    {
      if |history| <= 1 {
        ClearCanvas();
        return;
      }
      history := history[..|history| - 1];
      painting := Painting(painting.width, painting.height, Some(history[|history| - 1]));
      path := DrawGrid(painting.width, painting.height);
    }

    /** `clearCanvas`: repaints background and grid and empties the history;
        the grid's last line becomes the current path. */
    method ClearCanvas()
      requires Valid()
      modifies this`history, this`painting, this`path
      ensures Valid()
      ensures history == [] && painting.image == None
      ensures painting.width == old(painting.width) && painting.height == old(painting.height)
      ensures path == GridPath(painting.width, painting.height)
    {
      painting := Painting(painting.width, painting.height, None);
      path := DrawGrid(painting.width, painting.height);
      history := [];
    }

    /** `exportCanvas`: hands the encoded canvas to `onExport` when the
        component was given one and the encoding produced a blob; changes no
        state. */
    method ExportCanvas(hasOnExport: bool, blob: Option<PngBlob>) returns (exported: Option<PngBlob>)
      ensures exported.Some? <==> hasOnExport && blob.Some?
      ensures exported.Some? ==> exported == blob
    {
      if hasOnExport {
        if blob.Some? {
          exported := blob;
          return;
        }
      }
      exported := None;
    }
  }

  /** The bounding box of a detected object, `[x1, y1, x2, y2]` in the pixels
      of the returned image. */
  datatype BBox = BBox(x1: real, y1: real, x2: real, y2: real)

  /** One element of `detectedObjects`. */
  datatype Detection = Detection(labelText: string, bbox: BBox)

  /** A `strokeRect(x, y, width, height)` call. */
  datatype Rect = Rect(x: real, y: real, width: real, height: real)

  /** What DetectedImageDisplay draws for one detection: its outline and its
      label text at an anchor point. */
  datatype Annotation = Annotation(outline: Rect, labelText: string, labelAt: Point)

  /** The outline starts at the box's first corner and reaches its opposite
      corner; the label is written 4 pixels right of and 20 pixels below the
      first corner. */
  function Annotate(d: Detection): (a: Annotation)
    ensures a.outline.x == d.bbox.x1 && a.outline.y == d.bbox.y1
    ensures a.outline.x + a.outline.width == d.bbox.x2
    ensures a.outline.y + a.outline.height == d.bbox.y2
    ensures a.labelText == d.labelText
    ensures a.labelAt == Point(d.bbox.x1 + 4.0, d.bbox.y1 + 20.0)
  {
    var b := d.bbox;
    Annotation(Rect(b.x1, b.y1, b.x2 - b.x1, b.y2 - b.y1), d.labelText, Point(b.x1 + 4.0, b.y1 + 20.0))
  }

  /** The box an outline covers, read back from the rectangle. */
  function OutlinedBox(r: Rect): BBox
  {
    BBox(r.x, r.y, r.x + r.width, r.y + r.height)
  }

  /** The effect of DetectedImageDisplay: nothing is drawn without an image
      (an empty base64 string) or without a detection list; otherwise one
      annotation per detection, in order. */
  function Overlay(base64Image: string, detectedObjects: Option<seq<Detection>>): (r: Option<seq<Annotation>>)
    ensures r.Some? <==> base64Image != "" && detectedObjects.Some?
    ensures r.Some? ==> |r.value| == |detectedObjects.value|
    ensures r.Some? ==> forall i :: 0 <= i < |r.value| ==> r.value[i] == Annotate(detectedObjects.value[i])
  {
    if base64Image == "" || detectedObjects.None? then None
    else Some(seq(|detectedObjects.value|, i requires 0 <= i < |detectedObjects.value| => Annotate(detectedObjects.value[i])))
  }

  /** The overlay loses nothing: every detection's box and label can be read
      back from its annotation. */
  lemma OverlayRecoversDetections(base64Image: string, detectedObjects: seq<Detection>)
    requires base64Image != ""
    ensures var r := Overlay(base64Image, Some(detectedObjects)).value;
            forall i :: 0 <= i < |r| ==>
              OutlinedBox(r[i].outline) == detectedObjects[i].bbox && r[i].labelText == detectedObjects[i].labelText
  {
    var r := Overlay(base64Image, Some(detectedObjects)).value;
    forall i | 0 <= i < |r|
      ensures OutlinedBox(r[i].outline) == detectedObjects[i].bbox
    {
      var b := detectedObjects[i].bbox;
      assert r[i].outline == Rect(b.x1, b.y1, b.x2 - b.x1, b.y2 - b.y1);
    }
  }
}
