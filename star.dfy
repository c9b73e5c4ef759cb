/**
 * The star editor of src/Star.ts: a pointer-down fixes the anchor and turns
 * off rubber-band selection, the star template then arrives from the SVG
 * loader and is placed collapsed to a point, each pointer-move re-samples the
 * template path at the scale dragged so far, and pointer-up records a history
 * snapshot and disarms the editor.
 */
module StarTool {
  import opened Common
  import opened Gesture
  import History

  /** A path command, treated as exactly `[op, x, y]`. */
  datatype PathCommand = PathCommand(op: string, x: real, y: real)

  datatype Point = Point(x: real, y: real)

  /** The [fill, stroke] pair picked for a new star. */
  datatype ColorPair = ColorPair(fill: string, stroke: string)

  /** What the SVG loader returns as `results[0]` for the star template. */
  datatype LoadedStar = LoadedStar(path: Option<seq<PathCommand>>, width: real, height: real, pathOffset: Point)

  /** `originalStar`: the fields of the copy taken right after the loaded star was styled. */
  datatype StarTemplate = StarTemplate(path: Option<seq<PathCommand>>, width: real, strokeWidth: real, pathOffset: Point)

  /** The stroke width a new star is styled with. */
  const STAR_STROKE_WIDTH: real := 0.5

  /** `path || []`: a star without a path reads as the empty path. */
  function PathOrEmpty(path: Option<seq<PathCommand>>): seq<PathCommand>
  {
    match path
    case Some(p) => p
    case None => []
  }

  /** One command of `getNewPath(sx, sy)`: the letter kept, x scaled by `sx` and y by `sy`. */
  function ScaleCommand(cmd: PathCommand, sx: real, sy: real): (r: PathCommand)
    ensures r.op == cmd.op
  {
    PathCommand(cmd.op, cmd.x * sx, cmd.y * sy)
  }

  /**
   * `getNewPath(sx, sy)` on a given path: every command keeps its letter and
   * has its x scaled by `sx` and its y by `sy`.
   */
  function ScalePath(path: seq<PathCommand>, sx: real, sy: real): (r: seq<PathCommand>)
    ensures |r| == |path|
    ensures forall i :: 0 <= i < |path| ==> r[i] == ScaleCommand(path[i], sx, sy)
  {
    if path == [] then []
    else [ScaleCommand(path[0], sx, sy)] + ScalePath(path[1..], sx, sy)
  }

  /** Scaling by 1 on both axes gives back the template path. */
  lemma {:induction false} ScalePathUnit(path: seq<PathCommand>)
    ensures ScalePath(path, 1.0, 1.0) == path
  {
    var r := ScalePath(path, 1.0, 1.0);
    assert forall i :: 0 <= i < |path| ==> r[i] == path[i];
  }

  /** Scaling twice is scaling once by the products of the factors. */
  lemma {:induction false} ScalePathCompose(path: seq<PathCommand>, a: real, b: real, c: real, d: real)
    ensures ScalePath(ScalePath(path, a, b), c, d) == ScalePath(path, a * c, b * d)
    decreases |path|
  {
    if path != [] {
      var q := ScalePath(path, a, b);
      assert q[1..] == ScalePath(path[1..], a, b);
      ScalePathCompose(path[1..], a, b, c, d);
      ScaleCommandCompose(path[0], a, b, c, d);
    }
  }

  /** One command scaled twice is the command scaled once by the products. */
  lemma ScaleCommandCompose(cmd: PathCommand, a: real, b: real, c: real, d: real)
    ensures ScaleCommand(ScaleCommand(cmd, a, b), c, d) == ScaleCommand(cmd, a * c, b * d)
  {
    assert cmd.x * a * c == cmd.x * (a * c);
  }

  /**
   * Re-sampling from the template is reversible: scaling a path by non-zero
   * factors and then by their reciprocals gives back the path, so a re-sampled
   * star never drifts from the template.
   */
  lemma ScalePathInverse(path: seq<PathCommand>, sx: real, sy: real)
    requires sx != 0.0 && sy != 0.0
    ensures ScalePath(ScalePath(path, sx, sy), 1.0 / sx, 1.0 / sy) == path
  {
    var ix, iy := 1.0 / sx, 1.0 / sy;
    ScalePathCompose(path, sx, sy, ix, iy);
    assert sx * ix == 1.0 && sy * iy == 1.0;
    ScalePathUnit(path);
  }

  /** The star as first placed, `getNewPath(0, 0)`: every command keeps its letter at the origin. */
  lemma CollapsedPath(path: seq<PathCommand>)
    ensures |ScalePath(path, 0.0, 0.0)| == |path|
    ensures forall i :: 0 <= i < |path| ==>
              ScalePath(path, 0.0, 0.0)[i] == PathCommand(path[i].op, 0.0, 0.0)
  {
  }

  /** The geometry the pointer-move handler gives the live star. */
  datatype StarGeometry = StarGeometry(
    width: real, height: real, path: seq<PathCommand>, pathOffset: Point, strokeWidth: real)

  /**
   * The live star with the anchor at (ax, ay) and the pointer at (px, py):
   * its width and height are exactly the distances dragged, and its path,
   * path offset and stroke are the template's scaled by the ratio of those
   * distances to the template's reference extent (`originalStar.width || 22`).
   */
  function Resample(t: StarTemplate, ax: real, ay: real, px: real, py: real): (g: StarGeometry)
    ensures g.width == Abs(ax - px) && g.height == Abs(ay - py)
    ensures var size := ReferenceExtent(t.width);
            && g.path == ScalePath(PathOrEmpty(t.path), g.width / size, g.height / size)
            && g.pathOffset == Point(g.width / size * t.pathOffset.x, g.height / size * t.pathOffset.y)
            && g.strokeWidth == ScaledStroke(t.strokeWidth, g.width / size, g.height / size)
  {
    var size := ReferenceExtent(t.width);
    var scaleX, scaleY := ScaleFactor(ax, px, size), ScaleFactor(ay, py, size);
    MulDivCancel(scaleX, size);
    MulDivCancel(scaleY, size);
    StarGeometry(scaleX * size, scaleY * size, ScalePath(PathOrEmpty(t.path), scaleX, scaleY),
                 Point(scaleX * t.pathOffset.x, scaleY * t.pathOffset.y),
                 ScaledStroke(t.strokeWidth, scaleX, scaleY))
  }

  /** Multiplying by a non-zero extent and dividing by it again gives the value back. */
  lemma MulDivCancel(x: real, y: real)
    requires y != 0.0
    ensures x * y / y == x
  {
    var q := x * y / y;
    assert y * q == x * y;
    assert y * (q - x) == 0.0;
  }

  /** A non-zero extent over itself is one. */
  lemma DivSelf(x: real)
    requires x != 0.0
    ensures x / x == 1.0
  {
    var q := x / x;
    assert x * q == x;
    assert x * (q - 1.0) == 0.0;
  }

  /** Dragging exactly the reference extent along both axes shows the template at its own size. */
  lemma ResampleAtReferenceExtent(t: StarTemplate, ax: real, ay: real, px: real, py: real)
    requires Abs(ax - px) == ReferenceExtent(t.width) && Abs(ay - py) == ReferenceExtent(t.width)
    ensures Resample(t, ax, ay, px, py).path == PathOrEmpty(t.path)
    ensures Resample(t, ax, ay, px, py).pathOffset == t.pathOffset
  {
    var size := ReferenceExtent(t.width);
    DivSelf(size);
    var g := Resample(t, ax, ay, px, py);
    assert g.width / size == 1.0 && g.height / size == 1.0;
    ScalePathUnit(PathOrEmpty(t.path));
  }

  /**
   * A 22-unit template dragged from (0, 0) to (44, 22) is drawn at scale 2
   * horizontally and 1 vertically.
   */
  lemma DragTwiceAcrossOnceDown(t: StarTemplate)
    requires t.width == DEFAULT_EXTENT
    ensures ScaleFactor(0.0, 44.0, ReferenceExtent(t.width)) == 2.0
    ensures ScaleFactor(0.0, 22.0, ReferenceExtent(t.width)) == 1.0
    ensures Resample(t, 0.0, 0.0, 44.0, 22.0).path == ScalePath(PathOrEmpty(t.path), 2.0, 1.0)
  {
    assert 44.0 / 22.0 == 2.0 && 22.0 / 22.0 == 1.0;
  }

  /** The star object on the canvas. */
  class StarObject {
    const id: ObjectId
    var left: real
    var top: real
    var fill: string
    var stroke: string
    var strokeWidth: real
    var scaleX: real
    var scaleY: real
    var path: seq<PathCommand>
    var width: real
    var height: real
    var pathOffset: Point

    /** The loaded star as `star.set({...})` styles it. */
    constructor Styled(loaded: LoadedStar, id: ObjectId, left: real, top: real, colors: ColorPair)
      ensures this.id == id && this.left == left && this.top == top
      ensures fill == colors.fill && stroke == colors.stroke && strokeWidth == STAR_STROKE_WIDTH
      ensures scaleX == 1.0 && scaleY == 1.0
      ensures path == PathOrEmpty(loaded.path)
      ensures width == loaded.width && height == loaded.height && pathOffset == loaded.pathOffset
    {
      this.id := id;
      this.left := left;
      this.top := top;
      fill := colors.fill;
      stroke := colors.stroke;
      strokeWidth := STAR_STROKE_WIDTH;
      scaleX := 1.0;
      scaleY := 1.0;
      path := PathOrEmpty(loaded.path);
      width := loaded.width;
      height := loaded.height;
      pathOffset := loaded.pathOffset;
    }
  }

  class Star {
    /** The history store and, through it, the canvas the editor draws on. */
    const store: History.HistoryStore
    /** The editor's own id (a uuid drawn at construction; never read). */
    const id: ObjectId
    /** Whether the four pointer handlers are subscribed on the canvas. */
    var armed: bool
    var isDrawing: bool
    var startX: real
    var startY: real
    var originalStar: Option<StarTemplate>
    var currentCb: Option<Callback>
    var currentShape: StarObject?
    /** Every invocation of a done-callback, in order. */
    var fired: seq<Callback>

    /** A live star always has the template it was loaded from. */
    ghost predicate Valid()
      reads this
    {
      currentShape != null ==> originalStar.Some?
    }

    constructor (store: History.HistoryStore, id: ObjectId)
      ensures Valid()
      ensures this.store == store && this.id == id
      ensures !armed && !isDrawing && startX == 0.0 && startY == 0.0
      ensures originalStar == None && currentCb == None && currentShape == null && fired == []
    {
      this.store := store;
      this.id := id;
      armed := false;
      isDrawing := false;
      startX, startY := 0.0, 0.0;
      originalStar := None;
      currentCb := None;
      currentShape := null;
      fired := [];
    }

    /** `init(cb)`: subscribe the handlers and remember the done-callback. */
    method Init(cb: Callback)
      requires Valid()
      modifies this
      ensures Valid()
      ensures armed && currentCb == Some(cb)
      ensures isDrawing == old(isDrawing) && startX == old(startX) && startY == old(startY)
      ensures originalStar == old(originalStar) && currentShape == old(currentShape) && fired == old(fired)
    {
      armed := true;
      currentCb := Some(cb);
    }

    /**
     * `destroy()`: unsubscribe, drop the star, turn rubber-band selection back
     * on and call the done-callback if one is set.
     */
    method Destroy()
      requires Valid()
      modifies this, store.canvas
      ensures Valid()
      ensures !armed && currentShape == null && fired == old(fired) + Fire(currentCb)
      ensures store.canvas.selection
      ensures store.canvas.base == old(store.canvas.base) && store.canvas.added == old(store.canvas.added)
      ensures isDrawing == old(isDrawing) && startX == old(startX) && startY == old(startY)
      ensures originalStar == old(originalStar) && currentCb == old(currentCb)
    {
      armed := false;
      currentShape := null;
      store.canvas.selection := true;
      fired := fired + Fire(currentCb);
    }

    /** `enable()`. */
    method Enable()
      modifies this`isDrawing
      ensures isDrawing
    {
      isDrawing := true;
    }

    /** `disable()`, also the object-moving handler: later moves are ignored and no snapshot is taken. */
    method Disable()
      modifies this`isDrawing
      ensures !isDrawing
    {
      isDrawing := false;
    }

    /** `reset()`: the anchor goes back to the origin. */
    method Reset()
      modifies this`startX, this`startY
      ensures startX == 0.0 && startY == 0.0
    {
      startX := 0.0;
      startY := 0.0;
    }

    /**
     * The pointer-up handler. `snapshot` is the serialized canvas. The
     * snapshot is recorded for the active page, drawing stops, the anchor is
     * reset and the editor is destroyed.
     */
    method OnMouseUp(snapshot: Snapshot)
      requires Valid() && store.Valid()
      modifies this, store, store.canvas
      ensures Valid() && store.Valid() && store.Recorded(snapshot)
      ensures !isDrawing && startX == 0.0 && startY == 0.0
      ensures !armed && currentShape == null && store.canvas.selection
      ensures currentCb == old(currentCb) && fired == old(fired) + Fire(currentCb)
      ensures originalStar == old(originalStar)
      ensures store.canvas.base == old(store.canvas.base) && store.canvas.added == old(store.canvas.added)
    {
      store.Update(snapshot);
      Disable();
      Reset();
      Destroy();
    }

    /**
     * The pointer-move handler with the pointer at (px, py). While drawing,
     * the star takes the geometry Resample gives for the anchor and the
     * pointer; its left (top) edge follows the pointer only while the pointer
     * is left of (above) the anchor; its scale, fill and stroke colour stay.
     * When not drawing nothing changes.
     */
    method OnMouseMove(px: real, py: real)
      requires Valid()
      modifies currentShape
      ensures currentShape != null && !isDrawing ==> unchanged(currentShape)
      ensures currentShape != null && isDrawing ==>
                var g := Resample(originalStar.value, startX, startY, px, py);
                && currentShape.width == g.width && currentShape.height == g.height
                && currentShape.path == g.path && currentShape.pathOffset == g.pathOffset
                && currentShape.strokeWidth == g.strokeWidth
                && currentShape.left == TrackEdge(startX, px, old(currentShape.left))
                && currentShape.top == TrackEdge(startY, py, old(currentShape.top))
                && currentShape.scaleX == old(currentShape.scaleX)
                && currentShape.scaleY == old(currentShape.scaleY)
                && currentShape.fill == old(currentShape.fill)
                && currentShape.stroke == old(currentShape.stroke)
    {
      if !isDrawing {  // `isEnable()` reads the drawing flag
        return;
      }
      var activeObj := currentShape;
      if activeObj != null {
        var g := Resample(originalStar.value, startX, startY, px, py);
        if startX > px {
          activeObj.left := Abs(px);
        }
        if startY > py {
          activeObj.top := Abs(py);
        }
        activeObj.strokeWidth := g.strokeWidth;
        activeObj.path := g.path;
        activeObj.width := g.width;
        activeObj.height := g.height;
        activeObj.pathOffset := g.pathOffset;
      }
    }

    /**
     * The pointer-down handler with the pointer at (px, py): the anchor is the
     * pointer and rubber-band selection is turned off. Drawing is not enabled
     * here; it starts only when the star template has loaded (OnSvgLoaded).
     */
    method OnMouseDown(px: real, py: real)
      requires Valid()
      modifies this, store.canvas
      ensures Valid()
      ensures startX == px && startY == py && !store.canvas.selection
      ensures store.canvas.base == old(store.canvas.base) && store.canvas.added == old(store.canvas.added)
      ensures isDrawing == old(isDrawing) && armed == old(armed)
      ensures originalStar == old(originalStar) && currentShape == old(currentShape)
      ensures currentCb == old(currentCb) && fired == old(fired)
    {
      startX := px;
      startY := py;
      store.canvas.selection := false;
    }

    /**
     * The SVG-load callback of the pointer-down handler, with the loaded star,
     * the colours picked for it and the uuid the pointer-down drew. The star is
     * styled and placed at the anchor, the template is kept, the star's path
     * is collapsed to the anchor (scale 0), the star is added to the canvas,
     * becomes the current shape and replaces the active page's whole object
     * registry, and drawing starts.
     */
    method OnSvgLoaded(loaded: LoadedStar, colors: ColorPair, objectId: ObjectId)
      requires Valid() && store.Valid()
      modifies this, store, store.canvas
      ensures Valid() && store.Valid()
      ensures isDrawing
      ensures originalStar == Some(StarTemplate(loaded.path, loaded.width, STAR_STROKE_WIDTH, loaded.pathOffset))
      ensures currentShape != null && fresh(currentShape)
      ensures currentShape.id == objectId && currentShape.left == startX && currentShape.top == startY
      ensures currentShape.fill == colors.fill && currentShape.stroke == colors.stroke
      ensures currentShape.strokeWidth == STAR_STROKE_WIDTH
      ensures currentShape.scaleX == 1.0 && currentShape.scaleY == 1.0
      ensures currentShape.path == ScalePath(PathOrEmpty(originalStar.value.path), 0.0, 0.0)
      ensures currentShape.width == loaded.width && currentShape.height == loaded.height
      ensures currentShape.pathOffset == loaded.pathOffset
      ensures store.canvas.added == old(store.canvas.added) + [currentShape]
      ensures store.canvas.base == old(store.canvas.base)
      ensures store.canvas.selection == old(store.canvas.selection)
      ensures store.objects == old(store.objects)[store.activePage := map[objectId := currentShape as object]]
      ensures store.history == old(store.history) && store.redo == old(store.redo)
      ensures store.activePage == old(store.activePage)
      ensures startX == old(startX) && startY == old(startY)
      ensures armed == old(armed) && currentCb == old(currentCb) && fired == old(fired)
    {
      var star := new StarObject.Styled(loaded, objectId, startX, startY, colors);
      originalStar := Some(StarTemplate(loaded.path, star.width, star.strokeWidth, star.pathOffset));
      star.path := ScalePath(PathOrEmpty(originalStar.value.path), 0.0, 0.0);
      store.canvas.Add(star);
      currentShape := star;
      store.objects := store.objects[store.activePage := map[objectId := star]];
      Enable();
    }
  }

  /**
   * The pointer is released before the star's SVG has loaded. The release
   * resets the anchor to (0,0) and disarms the editor; the late load then
   * places the star at (0,0), starts drawing on the disarmed editor and
   * leaves the star as the current shape. A disarmed editor receives no
   * pointer moves; once it is armed again, a move before the next
   * pointer-down resizes the stale star from the origin.
   */
  method ReleaseBeforeLoad(s: Star, px: real, py: real, snapshot: Snapshot,
                           loaded: LoadedStar, colors: ColorPair, objectId: ObjectId,
                           cb: Callback, mx: real, my: real)
    requires s.Valid() && s.store.Valid()
    modifies s, s.store, s.store.canvas
    ensures s.armed && s.isDrawing && s.currentShape != null
    ensures s.startX == 0.0 && s.startY == 0.0
    ensures s.originalStar == Some(StarTemplate(loaded.path, loaded.width, STAR_STROKE_WIDTH, loaded.pathOffset))
    ensures s.currentShape.left == TrackEdge(0.0, mx, 0.0) && s.currentShape.top == TrackEdge(0.0, my, 0.0)
    ensures s.currentShape.width == Resample(s.originalStar.value, 0.0, 0.0, mx, my).width
    ensures s.currentShape.height == Resample(s.originalStar.value, 0.0, 0.0, mx, my).height
  {
    s.OnMouseDown(px, py);
    s.OnMouseUp(snapshot);
    s.OnSvgLoaded(loaded, colors, objectId);
    assert !s.armed && s.isDrawing && s.startX == 0.0 && s.startY == 0.0;
    s.Init(cb);
    s.OnMouseMove(mx, my);
  }
}
