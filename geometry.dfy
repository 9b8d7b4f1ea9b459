/**
 * The coordinate arithmetic of the drawing surface (components/editor/Canvas.tsx):
 * millimetre/pixel conversion at a zoom factor, Math.round, and the shape geometry
 * the pointer handlers compute (rectangle from a drag, circle radius from a drag).
 * JavaScript numbers are modelled as exact reals.
 */
module Geometry {

  /** A position on the surface, in pixels relative to the canvas' top-left corner. */
  datatype Point = Point(x: real, y: real)

  /** The screen resolution pages are laid out at (DPI) and the pixels per millimetre it gives (MM_TO_PX). */
  const Dpi: real := 96.0
  const PxPerMm: real := Dpi / 25.4

  /** mmToPx: physical millimetres to on-screen pixels at the current zoom. */
  function MmToPx(mm: real, zoom: real): real
  {
    mm * PxPerMm * zoom
  }

  /** pxToMm: on-screen pixels back to millimetres at the current zoom. */
  function PxToMm(px: real, zoom: real): real
    requires zoom != 0.0
  {
    px / PxPerMm / zoom
  }

  lemma PxToMmUndoesMmToPx(mm: real, zoom: real)
    requires zoom != 0.0
    ensures PxToMm(MmToPx(mm, zoom), zoom) == mm
  {
  }

  lemma MmToPxUndoesPxToMm(px: real, zoom: real)
    requires zoom != 0.0
    ensures MmToPx(PxToMm(px, zoom), zoom) == px
  {
  }

  /** At a positive zoom a longer length in millimetres is a longer length on screen. */
  lemma MmToPxIsIncreasing(mm: real, mm': real, zoom: real)
    requires 0.0 < zoom && mm < mm'
    ensures MmToPx(mm, zoom) < MmToPx(mm', zoom)
  {
    assert MmToPx(mm', zoom) - MmToPx(mm, zoom) == (mm' - mm) * (PxPerMm * zoom);
  }

  /** Math.round: the nearest integer, halves rounded up. */
  function Round(v: real): (n: int)
    ensures n as real - 0.5 <= v < n as real + 0.5
  {
    (v + 0.5).Floor
  }

  /** Math.min. */
  function Min(a: real, b: real): (m: real)
    ensures m <= a && m <= b
    ensures m == a || m == b
  {
    if a <= b then a else b
  }

  /** Math.abs. */
  function Abs(a: real): (m: real)
    ensures 0.0 <= m
    ensures m == a || m == -a
  {
    if a < 0.0 then -a else a
  }

  /** Math.pow(d, 2). */
  function Square(d: real): real
  {
    d * d
  }

  /** The outline a rectangle drag draws: top-left origin and extent. */
  datatype Box = Box(origin: Point, width: real, height: real)

  /**
   * The rectangle spanned by a drag from `anchor` to `pos`: its origin is the
   * component-wise minimum and its sides the absolute deltas, so its two
   * opposite corners are exactly the anchor and the pointer, whatever the
   * drag direction.
   */
  function DragBox(anchor: Point, pos: Point): (b: Box)
    ensures 0.0 <= b.width && 0.0 <= b.height
    ensures {b.origin.x, b.origin.x + b.width} == {anchor.x, pos.x}
    ensures {b.origin.y, b.origin.y + b.height} == {anchor.y, pos.y}
  {
    Box(Point(Min(anchor.x, pos.x), Min(anchor.y, pos.y)),
        Abs(pos.x - anchor.x), Abs(pos.y - anchor.y))
  }

  /** Dragging from a to b and from b to a outline the same rectangle. */
  lemma DragBoxIsSymmetric(a: Point, b: Point)
    ensures DragBox(a, b) == DragBox(b, a)
  {
  }

  /**
   * The host's Math.sqrt, which the model does not compute: any function that
   * returns the non-negative square root of every non-negative argument.
   */
  ghost predicate IsSqrt(sqrt: real -> real)
  {
    forall v :: 0.0 <= v ==> 0.0 <= sqrt(v) && sqrt(v) * sqrt(v) == v
  }

  /** The circle radius of a drag: Math.sqrt(Math.pow(dx, 2) + Math.pow(dy, 2)). */
  function Distance(a: Point, b: Point, sqrt: real -> real): (r: real)
    ensures IsSqrt(sqrt) ==> 0.0 <= r && r * r == Square(b.x - a.x) + Square(b.y - a.y)
  {
    var d := Square(b.x - a.x) + Square(b.y - a.y);
    assert 0.0 <= d by {
      SquareIsNonNegative(b.x - a.x);
      SquareIsNonNegative(b.y - a.y);
    }
    sqrt(d)
  }

  lemma SquareIsNonNegative(d: real)
    ensures 0.0 <= Square(d)
  {
    if d < 0.0 {
      assert Square(d) == (-d) * (-d);
    }
  }
}
