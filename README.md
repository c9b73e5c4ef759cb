# Drawing canvas: page history and shape editors

This project models the two stateful parts of a browser drawing app built on the
fabric.js canvas:

- **The per-page undo/redo history.** Each page has a history stack and a redo stack of
  scene snapshots. Snapshots are opaque JSON strings.
  - `update` appends a snapshot. When the history already holds 100 entries, it first
    drops the oldest one. It then empties the page's redo stack.
  - `clear` cuts the history to at most one restore point.
  - The undo handler moves the top snapshot from the history to the redo stack. The
    canvas then shows the new top of the history, or is cleared if there is none.
  - The redo handler moves the snapshot back and loads it.
  - createPage installs an empty history and makes that page active.
  - clearPage clears the canvas and the page's object registry, and keeps only the
    latest snapshot as a restore point.

  The source keeps this bookkeeping twice, as separate state.
  - The shared `STORE` of `src/store.ts` is what the editors record into and whose
    object registry they write.
  - The module-level `activePage`, `pageHistoryStack` and `redoUpdateStack` of
    `src/main.ts` are what createPage, clearPage, undo and redo act on.

  The two copies run the same update and clear code. One class,
  `History.HistoryStore`, merges them into a single store; "## Left out" says what
  that merge changes.
- **The interactive shape editors** (`Ellipse`, `Star`). Each is a small state
  machine driven by pointer-down, pointer-move, pointer-up and object-moving events.
  - On every move while drawing, the shape's geometry is computed from the anchor and
    the pointer.
  - Pointer-up records a history snapshot and disarms the editor.

Modules and files:

| module | file | models |
|---|---|---|
| `Common` | common.dfy | ids, snapshots, JavaScript string truthiness |
| `Canvas` | canvas.dfy | the canvas: what the last `clear`/`loadFromJSON` left, objects added since, the `selection` flag |
| `Stacks` | stacks.dfy | one page's stacks as pure steps (`Record`, `UndoStep`, `RedoStep`, `ClearPageStep`) and their laws |
| `History` | history.dfy | `HistoryStore`: the maps keyed by page id, the active page, the handlers |
| `Gesture` | gesture.dfy | drag geometry shared by both editors, and the callback log |
| `EllipseTool` | ellipse.dfy | `src/Ellipse.ts` |
| `StarTool` | star.dfy | `src/Star.ts` |

What the proofs establish:

- **Bound.** Every handler keeps `|history| + |redo| <= 100` for every page. This is
  the `Valid()` invariant of `HistoryStore`, and `Stacks.RunKeepsBound` proves it for
  any sequence of edits, undos, redos and page clears.
- **FIFO eviction.** After N edits, the history is exactly the newest `min(N, 100)`
  snapshots in order (`RecordAllIsNewest`, `EditsOnFreshPage`).
- **Undo/redo.** Undo then redo restores both stacks and reloads the snapshot that
  was on top (`UndoRedoRoundTrip`, and `History.UndoThenRedo` on the class itself).
  Undo and redo only move a cursor along the page's timeline of snapshots
  (`UndoKeepsTimeline`, `RedoKeepsTimeline`).
- **Geometry.**
  - The ellipse radii are half the distances dragged.
  - The star's width and height are exactly the distances dragged. Its path, path
    offset and stroke are the template's, scaled by the ratio of those distances to
    the reference extent (`originalStar.width || 22`).
  - Path re-sampling composes and inverts (`ScalePathCompose`, `ScalePathInverse`).

Behaviours of the code that the model keeps on purpose:

- The undo handler does not check for an active page. It fails when the active page
  has no history, so `Undo` requires that the page has one.
  - When the history is empty, undo still creates an empty redo stack.
  - Snapshots that are empty strings (falsy) are popped but neither moved nor loaded.
- A pointer-down while a gesture is in progress is not ignored. It starts a new shape
  and replaces the page's registry.
- The left (top) edge of a shape becomes `|pointer|` only while the pointer is left of
  (above) the anchor. If the pointer crosses back, the edge stays where it was. So
  after dragging left and then right, the shape no longer spans anchor to pointer.
  - `Gesture.EdgeSticksAfterCrossingBack` exhibits this.
  - `Gesture.OneSidedDragSpans` proves the exact span for drags that stay on one side
    and on non-negative coordinates.
- A pointer past the left (top) border of the canvas mirrors the edge, because the edge
  is the pointer's absolute value. Anchor 100 and pointer -20 give left 20 and
  width 120, so the shape spans 20 to 140. `Gesture.EdgeMirroredPastBorder` exhibits this.
- A star whose SVG loads after the pointer is released is placed at (0,0): the release
  has already reset the anchor. The load also turns drawing on while the editor is
  disarmed, and the star stays the current shape. The disarmed editor receives no
  pointer moves, but once it is armed again, a move before the next pointer-down
  resizes the star from the origin. `StarTool.ReleaseBeforeLoad` exhibits this.
- A star released without any pointer-move keeps the loaded template's width,
  height and path offset, while its path is collapsed to the origin (`getNewPath(0, 0)`).
  `StarTool.Star.OnSvgLoaded` states both.
- The store's raw `clear(s)` can push a page over the 100-snapshot total: an empty
  history, a full redo stack and `clear("x")` give 101. `HistoryStore.Clear` states
  exactly when the invariant survives. Its only caller, clearPage, passes the popped
  top snapshot, so clearPage keeps the bound.

## Model

| member | source | states |
|---|---|---|
| `Stacks.Top` | src/main.ts:203 | `pop()`'s result: undefined exactly on an empty array, otherwise the last element, which appended to `Pop`'s remainder gives back the array |
| `Stacks.Pop` | src/main.ts:203 | what `pop()` leaves: the array without its last element, which appended back gives the array; an empty array stays empty |
| `Stacks.ClearTo` | src/main.ts:74 | `lastUpdate ? [lastUpdate] : []`: at most one entry, empty exactly when `lastUpdate` is undefined or the empty string, otherwise `lastUpdate` itself |
| `Stacks.Record` | src/store.ts:24-28 | the new snapshot is last; exactly the oldest entry is dropped when the history already holds 100; the surviving entries keep their order |
| `Stacks.RecordIsNewest` | src/store.ts:24-28 | one update on a history of at most 100 keeps exactly the newest 100 entries of history plus snapshot |
| `Stacks.RecordAllIsNewest` | src/main.ts:54-60 | any run of updates leaves the newest 100 of old history plus new snapshots, in order (FIFO eviction) |
| `Stacks.EditsOnFreshPage` | src/main.ts:47-60 | N edits on a fresh page leave min(N, 100) snapshots, the newest ones |
| `Stacks.RedoAfterEditIsNoop` | src/store.ts:30-37 | after an update the redo stack is empty, so redo changes nothing |
| `Stacks.UndoStep` | src/main.ts:199-218 | undo always pops the history; on an empty history it is a no-op; it restores the canvas exactly when the popped snapshot is non-empty; a popped empty snapshot leaves the redo stack unchanged; it never grows the total |
| `Stacks.RedoStep` | src/main.ts:220-233 | redo always pops the redo stack; on an empty one it is a no-op; it loads a snapshot exactly when the popped one is non-empty; a popped empty snapshot leaves the history unchanged; it never grows the total |
| `Stacks.UndoRedoRoundTrip` | src/main.ts:199-233 | undo then redo restores both stacks and loads the snapshot that was on top |
| `Stacks.RedoUndoRoundTrip` | src/main.ts:199-233 | redo then undo restores both stacks |
| `Stacks.UndoKeepsTimeline` | src/main.ts:199-218 | an undo keeps history followed by reversed redo unchanged and moves the cursor back by one |
| `Stacks.RedoKeepsTimeline` | src/main.ts:220-233 | a redo keeps the timeline unchanged and moves the cursor forward by one |
| `Stacks.SceneFollowsHistory` | src/main.ts:205-230 | with non-empty snapshots, after an undo or redo the canvas shows the new top of the history (blank when none) |
| `Stacks.ClearPageStep` | src/main.ts:124-126 | clearPage keeps the redo stack and leaves at most the previous top snapshot in the history |
| `Stacks.ClearEmptyPageThenUndo` | src/main.ts:117-127 | clearPage on an empty history followed by undo changes nothing |
| `Stacks.ClearPageThenUndo` | src/main.ts:117-127 | clearPage keeping one restore point followed by undo empties the history and clears the canvas |
| `Stacks.StepKeepsBound` | src/main.ts:54-233 | each edit, undo, redo or clearPage keeps history plus redo within 100 |
| `Stacks.RunKeepsBound` | src/main.ts:54-233 | any sequence of edits, undos, redos and clearPages keeps history plus redo within 100, so history stays within 100 |
| `History.HistoryStore.constructor` | src/store.ts:12-18 | the store starts with no pages, no redo stacks, no registry and no active page |
| `History.HistoryStore.Update` | src/store.ts:22-39 | no active page: nothing changes; otherwise the bounded append to the active page's history and an empty redo stack for that page, no other page touched |
| `History.HistoryStore.Clear` | src/store.ts:41-46 | no active page: nothing changes; otherwise the history becomes `[s]` for a non-empty `s` and `[]` otherwise; the store stays valid exactly when the page stays within the bound |
| `History.HistoryStore.CreatePage` | src/main.ts:47-52 | the page gets an empty history and becomes active; redo stacks and registry untouched |
| `History.HistoryStore.ClearPage` | src/main.ts:117-127 | with an active page: canvas cleared, registry emptied, history cut to the popped top snapshot, redo untouched; without one nothing changes |
| `History.HistoryStore.Undo` | src/main.ts:199-218 | the active page takes the undo step, the redo stack is defined afterwards, and the canvas is restored as the step says; other pages untouched |
| `History.HistoryStore.Redo` | src/main.ts:220-233 | absent or empty redo stack: nothing changes; otherwise the page takes the redo step and the canvas loads the redone snapshot |
| `History.UndoThenRedo` | src/main.ts:199-233 | the two handlers in a row give back the same history and redo stack and leave the canvas showing the latest snapshot; the active page, registry and selection flag are untouched |
| `Gesture.Fire` | src/Ellipse.ts:35 | `currentCb && currentCb()`: the callback is called at most once, exactly when one is set, and only the set callback is called |
| `Gesture.TrackEdge` | src/Ellipse.ts:76-86 | the edge is kept when the pointer is right of (below) the anchor; left of (above) it, the edge follows an on-canvas pointer and mirrors a pointer past the border |
| `Gesture.HalfExtent` | src/Ellipse.ts:88-93 | a radius is non-negative, zero exactly for a zero drag, and twice it is the distance dragged |
| `Gesture.ReferenceExtent` | src/Star.ts:81 | `width \|\| 22` is never zero and positive for a non-negative width |
| `Gesture.ScaleFactor` | src/Star.ts:82-85 | the scale times the reference extent is exactly the distance dragged; non-negative for a positive extent; zero exactly for a zero drag |
| `Gesture.ScaledStroke` | src/Star.ts:103 | under uniform scaling the stroke is the base stroke (or 1) times the scale |
| `Gesture.ScaledStrokeBetween` | src/Star.ts:103 | the stroke lies between the base stroke scaled by the smaller and by the larger factor |
| `Gesture.OneSidedDragSpans` | src/Ellipse.ts:76-93 | on non-negative coordinates, a drag that never crosses back over the anchor spans exactly from the anchor to the last pointer position |
| `Gesture.EdgeSticksAfterCrossingBack` | src/Ellipse.ts:76-86 | dragging 100 to 60 then to 150 leaves the edge at 60 with width 50 |
| `Gesture.EdgeMirroredPastBorder` | src/Ellipse.ts:76-93 | dragging 100 to -20 puts the edge at 20 with width 120 |
| `EllipseTool.DragUpLeftExample` | src/Ellipse.ts:76-93 | a drag from (100,100) to (60,40) gives left 60, top 40, rx 20, ry 30 |
| `EllipseTool.EllipseObject.constructor` | src/Ellipse.ts:108-117 | a new ellipse has the given id, sits at the anchor and has zero radii |
| `EllipseTool.Ellipse.constructor` | src/Ellipse.ts:6-19 | a new editor is disarmed, not drawing, anchored at the origin, with no shape and no callback |
| `EllipseTool.Ellipse.Init` | src/Ellipse.ts:21-27 | the editor is armed and remembers the callback |
| `EllipseTool.Ellipse.Destroy` | src/Ellipse.ts:29-36 | the editor is disarmed, drops its ellipse and fires the callback once if one is set |
| `EllipseTool.Ellipse.Enable` | src/Ellipse.ts:42-44 | drawing is on |
| `EllipseTool.Ellipse.Disable` | src/Ellipse.ts:46-48 | drawing is off (the object-moving handler) and nothing else changes |
| `EllipseTool.Ellipse.Reset` | src/Ellipse.ts:50-53 | the anchor is back at the origin |
| `EllipseTool.Ellipse.OnMouseUp` | src/Ellipse.ts:55-60 | one snapshot recorded, drawing off, anchor reset, ellipse dropped, editor disarmed, callback fired once |
| `EllipseTool.Ellipse.OnMouseMove` | src/Ellipse.ts:62-97 | not drawing: the ellipse is unchanged; drawing: red fill and stroke, stroke width 5, radii half the drag, edges tracked |
| `EllipseTool.Ellipse.OnMouseDown` | src/Ellipse.ts:99-127 | drawing on, anchor at the pointer, a fresh zero-radius ellipse with fabric's default style at the anchor added to the canvas, and the active page's registry replaced by that one entry |
| `StarTool.ScalePath` | src/Star.ts:58-63 | same length; each command keeps its letter with x scaled by sx and y by sy |
| `StarTool.ScalePathUnit` | src/Star.ts:58-63 | scaling by 1 gives the path back |
| `StarTool.ScalePathCompose` | src/Star.ts:58-63 | scaling twice is scaling once by the products of the factors |
| `StarTool.ScalePathInverse` | src/Star.ts:58-63 | scaling by non-zero factors and then by their reciprocals gives the path back |
| `StarTool.CollapsedPath` | src/Star.ts:149-150 | the star first placed has every command at the origin with its letter kept |
| `StarTool.Resample` | src/Star.ts:81-110 | width and height are the distances dragged; path, path offset and stroke are the template's scaled by distance over reference extent |
| `StarTool.ResampleAtReferenceExtent` | src/Star.ts:81-110 | dragging exactly the reference extent shows the template path and offset unchanged |
| `StarTool.DragTwiceAcrossOnceDown` | src/Star.ts:81-83 | a 22-unit template dragged from (0,0) to (44,22) has scales 2 and 1 |
| `StarTool.StarObject.Styled` | src/Star.ts:134-148 | the loaded star is placed at the anchor with the picked colours, stroke 0.5 and unit scale |
| `StarTool.Star.constructor` | src/Star.ts:18-21 | a new editor is disarmed, not drawing, anchored at the origin, with no template, shape or callback |
| `StarTool.Star.Init` | src/Star.ts:23-29 | the editor is armed and remembers the callback |
| `StarTool.Star.Destroy` | src/Star.ts:31-39 | the editor is disarmed, drops its star, turns canvas selection back on and fires the callback once if one is set |
| `StarTool.Star.Enable` | src/Star.ts:45-47 | drawing is on |
| `StarTool.Star.Disable` | src/Star.ts:49-51 | drawing is off (the object-moving handler) and nothing else changes |
| `StarTool.Star.Reset` | src/Star.ts:53-56 | the anchor is back at the origin |
| `StarTool.Star.OnMouseUp` | src/Star.ts:65-70 | one snapshot recorded, drawing off, anchor reset, star dropped, selection back on, callback fired once, template kept |
| `StarTool.Star.OnMouseMove` | src/Star.ts:72-115 | not drawing: the star is unchanged; drawing: the star takes the resampled geometry and tracked edges, its scale and colours stay |
| `StarTool.Star.OnMouseDown` | src/Star.ts:117-132 | anchor at the pointer, canvas selection off, drawing left as it was |
| `StarTool.Star.OnSvgLoaded` | src/Star.ts:133-160 | the styled star is kept as template, collapsed to the anchor while keeping the loaded width, height and path offset, added to the canvas, made the current shape and the page's only registry entry, and drawing starts |
| `StarTool.ReleaseBeforeLoad` | src/Star.ts:23-160 | pointer-down, release, then a late SVG load: drawing is on while the editor is disarmed and the anchor is (0,0); once the editor is armed again, a move before the next pointer-down resizes the star from the origin |

## Left out

- The canvas library. This covers rendering (`renderAll`, `requestRenderAll`,
  `setCoords`), hit-testing, SVG parsing and the JSON format.
  - A snapshot is an opaque string, passed to `update` as a parameter.
  - The pointer position is a parameter of each handler.
  - The loaded star is a parameter of `OnSvgLoaded`.
- `loadFromJSON` is asynchronous. The model restores synchronously, so overlapping
  restores from rapid clicks are not modelled.
- Event subscription (`canvas.on`/`off`) is reduced to the `armed` flag. Calling
  `init` twice subscribes each handler twice in the source; the model does not
  capture that.
- The animation-frame renderer (`src/main.ts:235-289`). It is scheduling, not logic.
- `uuidv4`, `getRandomColors` and `getRandomPos` are random. Ids and colours are
  parameters. `src/uuid4.ts` is not part of this model.
- The selection handlers (`src/main.ts:146-161`). They only set or clear `activeObject`.
- The colour-change click handler (`src/main.ts:163-197`). It sets the selected
  object's fill or stroke to a random colour and then calls `update`; only that
  `update` is modelled.
- The `object:modified` handler (`src/main.ts:113-115`). It only calls `update`, which
  is modelled.
- The createCircle and recreatePage handlers (`src/main.ts:78-106, 128-144`). They
  add a random circle and then call `update`, or reload the latest snapshot.
- `console.log` calls, the unused `className` fields, and the star's cosmetic
  `shape` and `objectCaching` properties.
- `activeObject` in `STORE` (selection state).
- Path commands are taken to be exactly `[op, x, y]`. Commands with other arities
  (such as `Z` or `C`) are not modelled.
- Coordinates are exact reals. IEEE-754 rounding, NaN and `undefined` widths are not
  modelled.
- The shallow copy `{ ...star }` is modelled as a value. The arrays and objects it
  shares with the star are replaced, not mutated, afterwards, so nothing observable
  is lost.
- `History.HistoryStore.Undo` requires the active page to have a history. The source
  throws on an undefined history array, and the model does not describe that failure.
- `History.HistoryStore` merges two separate copies of the page state into one:
  `STORE` (`src/store.ts:6-18`) and the module-level variables of `src/main.ts:41-44`.
  - In the source, the editors' pointer-up records into `STORE` and they write
    `STORE.objectsPerPage`.
  - createPage, clearPage, undo and redo act only on `main.ts`'s copy.
  - So in the source, undo does not see a snapshot recorded by an editor. In the
    model it does.
  - Nothing in the source files assigns `STORE.activePage`. In the source,
    `STORE`'s `update` therefore does nothing unless code outside these files sets it.
- `Valid()` requires an active page to have a history entry. createPage, the only
  code in these files that sets an active page, guarantees this for `main.ts`'s copy.
