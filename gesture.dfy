/**
 * What the ellipse and star editors share: the geometry of a drag from an
 * anchor to the pointer, one axis at a time, and the done-callback log.
 * Coordinates are exact reals.
 */
module Gesture {
  import opened Common

  function Abs(x: real): (r: real)
    ensures r >= 0.0 && (r == x || r == -x)
  {
    if x < 0.0 then -x else x
  }

  function Min(a: real, b: real): real
  {
    if a <= b then a else b
  }

  function Max(a: real, b: real): real
  {
    if a <= b then b else a
  }

  /**
   * The left (or top) edge of the live shape after a move: it becomes
   * |pointer| only when the pointer is left of (above) the anchor, and
   * otherwise keeps its previous value.
   */
  function TrackEdge(anchor: real, pointer: real, edge: real): (r: real)
    ensures anchor <= pointer ==> r == edge
    ensures 0.0 <= pointer < anchor ==> r == pointer
    ensures pointer < 0.0 && pointer < anchor ==> r == -pointer
  {
    if anchor > pointer then Abs(pointer) else edge
  }

  /** An ellipse radius along one axis: half the distance dragged. */
  function HalfExtent(anchor: real, pointer: real): (r: real)
    ensures r >= 0.0
    ensures r == 0.0 <==> anchor == pointer
    ensures r + r == Max(anchor, pointer) - Min(anchor, pointer)
  {
    Abs(anchor - pointer) / 2.0
  }

  /** The native size of the star template, 22 units. */
  const DEFAULT_EXTENT: real := 22.0

  /** `originalStar.width || 22`: a zero width falls back to the default. */
  function ReferenceExtent(width: real): (r: real)
    ensures r != 0.0
    ensures width >= 0.0 ==> r > 0.0
  {
    if width != 0.0 then width else DEFAULT_EXTENT
  }

  /**
   * A star scale factor along one axis: the distance dragged over the
   * reference extent. Scaling the reference extent by it gives back exactly
   * the distance dragged.
   */
  function ScaleFactor(anchor: real, pointer: real, size: real): (r: real)
    requires size != 0.0
    ensures r * size == Abs(anchor - pointer)
    ensures size > 0.0 ==> r >= 0.0
    ensures r == 0.0 <==> anchor == pointer
  {
    Abs(anchor - pointer) / size
  }

  /**
   * The live star's stroke width, `(strokeWidth || 1) * (scaleX + scaleY) / 2`:
   * the base width scaled by the mean of the two scale factors.
   */
  function ScaledStroke(base: real, sx: real, sy: real): (r: real)
    ensures sx == sy ==> r == (if base != 0.0 then base else 1.0) * sx
  {
    (if base != 0.0 then base else 1.0) * (sx + sy) / 2.0
  }

  /**
   * With a positive base width, the live stroke lies between the base width
   * scaled by the smaller and by the larger of the two scale factors.
   */
  lemma ScaledStrokeBetween(base: real, sx: real, sy: real)
    requires base > 0.0
    ensures base * Min(sx, sy) <= ScaledStroke(base, sx, sy) <= base * Max(sx, sy)
  {
    var lo, hi := Min(sx, sy), Max(sx, sy);
    assert lo + lo <= sx + sy <= hi + hi;
    assert base * (lo + lo) <= base * (sx + sy) <= base * (hi + hi);
  }

  /** `this.currentCb && this.currentCb()`: the calls a set callback adds to the log. */
  function Fire(cb: Option<Callback>): (r: seq<Callback>)
    ensures |r| <= 1
    ensures r != [] <==> cb.Some?
    ensures forall c :: c in r ==> cb == Some(c)
  {
    if cb.Some? then [cb.value] else []
  }

  /** The edge after each pointer position of `moves` in turn (the first edge is the anchor). */
  function EdgeAfter(anchor: real, moves: seq<real>, edge: real): real
    decreases |moves|
  {
    if moves == [] then edge else EdgeAfter(anchor, moves[1..], TrackEdge(anchor, moves[0], edge))
  }

  /**
   * A drag whose pointer stays on canvas (non-negative coordinates) and never
   * crosses back over the anchor ends with the shape spanning exactly from
   * the anchor to the last pointer position along that axis.
   */
  lemma {:induction false} OneSidedDragSpans(anchor: real, moves: seq<real>, edge: real)
    requires anchor >= 0.0 && moves != []
    requires forall i :: 0 <= i < |moves| ==> moves[i] >= 0.0
    requires (forall i :: 0 <= i < |moves| ==> moves[i] < anchor) ||
             (forall i :: 0 <= i < |moves| ==> moves[i] >= anchor)
    requires edge == anchor || (0 < |moves| && moves[0] < anchor)
    ensures EdgeAfter(anchor, moves, edge) == Min(anchor, moves[|moves| - 1])
    ensures EdgeAfter(anchor, moves, edge) + HalfExtent(anchor, moves[|moves| - 1]) * 2.0
            == Max(anchor, moves[|moves| - 1])
    decreases |moves|
  {
    var e := TrackEdge(anchor, moves[0], edge);
    if |moves| > 1 {
      assert moves[1] >= 0.0;
      OneSidedDragSpans(anchor, moves[1..], e);
      assert moves[1..][|moves[1..]| - 1] == moves[|moves| - 1];
    }
  }

  /**
   * A pointer past the left (top) border of the canvas mirrors the edge: a
   * drag from 100 to -20 puts the edge at 20 with a width of 120, so the
   * shape spans 20 to 140 rather than -20 to 100.
   */
  lemma EdgeMirroredPastBorder()
    ensures EdgeAfter(100.0, [-20.0], 100.0) == 20.0
    ensures 2.0 * HalfExtent(100.0, -20.0) == 120.0
  {
    assert EdgeAfter(100.0, [-20.0], 100.0) == EdgeAfter(100.0, [], 20.0);
  }

  /**
   * Once the pointer has crossed left of the anchor, moving back to the right
   * leaves the edge where it was: a drag from 100 to 60 and then to 150 ends
   * with the edge at 60 and a width of 50, not spanning 100 to 150.
   */
  lemma EdgeSticksAfterCrossingBack()
    ensures EdgeAfter(100.0, [60.0, 150.0], 100.0) == 60.0
    ensures 2.0 * HalfExtent(100.0, 150.0) == 50.0
  {
    assert EdgeAfter(100.0, [60.0, 150.0], 100.0) == EdgeAfter(100.0, [150.0], 60.0);
  }
}
