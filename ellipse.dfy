/**
 * The ellipse editor of src/Ellipse.ts: a pointer-down places a zero-radius
 * ellipse at the pointer, each pointer-move while drawing grows it from the
 * anchor, and pointer-up records a history snapshot and disarms the editor.
 */
module EllipseTool {
  import opened Common
  import opened Gesture
  import History

  /** The colour and stroke width forced onto the ellipse while it is drawn. */
  const DRAW_COLOR: string := "red"
  const DRAW_STROKE_WIDTH: real := 5.0

  /**
   * The ellipse object placed on the canvas. Style fields hold None until set
   * (the canvas library then uses its own defaults).
   */
  class EllipseObject {
    const id: ObjectId
    var left: real
    var top: real
    var rx: real
    var ry: real
    var stroke: Option<string>
    var fill: Option<string>
    var strokeWidth: Option<real>

    constructor (id: ObjectId, left: real, top: real)
      ensures this.id == id && this.left == left && this.top == top
      ensures rx == 0.0 && ry == 0.0
      ensures stroke == None && fill == None && strokeWidth == None
    {
      this.id := id;
      this.left := left;
      this.top := top;
      rx := 0.0;
      ry := 0.0;
      stroke := None;
      fill := None;
      strokeWidth := None;
    }
  }

  /**
   * An ellipse dragged from (100, 100) to (60, 40) in one move sits at
   * left 60, top 40 with radii 20 and 30.
   */
  lemma DragUpLeftExample()
    ensures TrackEdge(100.0, 60.0, 100.0) == 60.0 && TrackEdge(100.0, 40.0, 100.0) == 40.0
    ensures HalfExtent(100.0, 60.0) == 20.0 && HalfExtent(100.0, 40.0) == 30.0
  {
  }

  class Ellipse {
    /** The history store and, through it, the canvas the editor draws on. */
    const store: History.HistoryStore
    /** The editor's own id (a uuid drawn at construction; never read). */
    const id: ObjectId
    /** Whether the four pointer handlers are subscribed on the canvas. */
    var armed: bool
    var isDrawing: bool
    var startX: real
    var startY: real
    var currentCb: Option<Callback>
    var currentEllipse: EllipseObject?
    /** Every invocation of a done-callback, in order. */
    var fired: seq<Callback>

    constructor (store: History.HistoryStore, id: ObjectId)
      ensures this.store == store && this.id == id
      ensures !armed && !isDrawing && startX == 0.0 && startY == 0.0
      ensures currentCb == None && currentEllipse == null && fired == []
    {
      this.store := store;
      this.id := id;
      armed := false;
      isDrawing := false;
      startX, startY := 0.0, 0.0;
      currentCb := None;
      currentEllipse := null;
      fired := [];
    }

    /** `init(cb)`: subscribe the handlers and remember the done-callback. */
    method Init(cb: Callback)
      modifies this
      ensures armed && currentCb == Some(cb)
      ensures isDrawing == old(isDrawing) && startX == old(startX) && startY == old(startY)
      ensures currentEllipse == old(currentEllipse) && fired == old(fired)
    {
      armed := true;
      currentCb := Some(cb);
    }

    /** `destroy()`: unsubscribe, drop the ellipse and call the done-callback if one is set. */
    method Destroy()
      modifies this
      ensures !armed && currentEllipse == null && fired == old(fired) + Fire(currentCb)
      ensures isDrawing == old(isDrawing) && startX == old(startX) && startY == old(startY)
      ensures currentCb == old(currentCb)
    {
      armed := false;
      currentEllipse := null;
      fired := fired + Fire(currentCb);
    }

    /** `enable()`. */
    method Enable()
      modifies this`isDrawing
      ensures isDrawing
    {
      isDrawing := true;
    }

    /** `disable()`, also the object-moving handler: later moves are ignored and no snapshot is taken. */
    method Disable()
      modifies this`isDrawing
      ensures !isDrawing
    {
      isDrawing := false;
    }

    /** `reset()`: the anchor goes back to the origin. */
    method Reset()
      modifies this`startX, this`startY
      ensures startX == 0.0 && startY == 0.0
    {
      startX := 0.0;
      startY := 0.0;
    }

    /**
     * The pointer-up handler. `snapshot` is the serialized canvas. The
     * snapshot is recorded for the active page, drawing stops, the anchor is
     * reset and the editor is destroyed (which fires the callback once).
     */
    method OnMouseUp(snapshot: Snapshot)
      requires store.Valid()
      modifies this, store
      ensures store.Valid() && store.Recorded(snapshot)
      ensures !isDrawing && startX == 0.0 && startY == 0.0
      ensures !armed && currentEllipse == null
      ensures currentCb == old(currentCb) && fired == old(fired) + Fire(currentCb)
    {
      store.Update(snapshot);
      Disable();
      Reset();
      Destroy();
    }

    /**
     * The pointer-move handler with the pointer at (px, py). While drawing,
     * the ellipse turns red with a stroke width of 5, its radii become half
     * the distance dragged along each axis, and its left (top) edge follows
     * the pointer only while the pointer is left of (above) the anchor. When
     * not drawing nothing changes.
     */
    method OnMouseMove(px: real, py: real)
      modifies currentEllipse
      ensures currentEllipse != null && !isDrawing ==> unchanged(currentEllipse)
      ensures currentEllipse != null && isDrawing ==>
                && currentEllipse.rx == HalfExtent(startX, px)
                && currentEllipse.ry == HalfExtent(startY, py)
                && currentEllipse.left == TrackEdge(startX, px, old(currentEllipse.left))
                && currentEllipse.top == TrackEdge(startY, py, old(currentEllipse.top))
                && currentEllipse.stroke == Some(DRAW_COLOR)
                && currentEllipse.fill == Some(DRAW_COLOR)
                && currentEllipse.strokeWidth == Some(DRAW_STROKE_WIDTH)
    {
      if !isDrawing {  // `isEnable()` reads the drawing flag
        return;
      }
      var activeObj := currentEllipse;
      if activeObj != null {
        activeObj.stroke := Some(DRAW_COLOR);
        activeObj.strokeWidth := Some(DRAW_STROKE_WIDTH);
        activeObj.fill := Some(DRAW_COLOR);
        if startX > px {
          activeObj.left := Abs(px);
        }
        if startY > py {
          activeObj.top := Abs(py);
        }
        activeObj.rx := Abs(startX - px) / 2.0;
        activeObj.ry := Abs(startY - py) / 2.0;
      }
    }

    /**
     * The pointer-down handler with the pointer at (px, py) and `objectId` a
     * fresh uuid. Drawing starts, the anchor is the pointer, and a new
     * zero-radius ellipse at the anchor is added to the canvas, becomes the
     * current ellipse and replaces the active page's whole object registry.
     */
    method OnMouseDown(px: real, py: real, objectId: ObjectId)
      requires store.Valid()
      modifies this, store, store.canvas
      ensures store.Valid()
      ensures isDrawing && startX == px && startY == py
      ensures currentEllipse != null && fresh(currentEllipse)
      ensures currentEllipse.id == objectId && currentEllipse.left == px && currentEllipse.top == py
      ensures currentEllipse.rx == 0.0 && currentEllipse.ry == 0.0
      ensures currentEllipse.stroke == None && currentEllipse.fill == None && currentEllipse.strokeWidth == None
      ensures store.canvas.added == old(store.canvas.added) + [currentEllipse]
      ensures store.canvas.base == old(store.canvas.base)
      ensures store.canvas.selection == old(store.canvas.selection)
      ensures store.objects == old(store.objects)[store.activePage := map[objectId := currentEllipse as object]]
      ensures store.history == old(store.history) && store.redo == old(store.redo)
      ensures store.activePage == old(store.activePage)
      ensures armed == old(armed) && currentCb == old(currentCb) && fired == old(fired)
    {
      Enable();
      startX := px;
      startY := py;
      var ellipse := new EllipseObject(objectId, startX, startY);
      store.canvas.Add(ellipse);
      currentEllipse := ellipse;
      store.objects := store.objects[store.activePage := map[objectId := ellipse]];
    }
  }
}
