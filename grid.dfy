/**
 * The dot grid of the drawing surface (drawDotGrid in components/editor/Canvas.tsx):
 * one dot at every (i * s, j * s) with i, j >= 1 strictly inside the raster,
 * column by column, where s is the dot spacing in pixels.
 */
module Grid {
  import opened Geometry

  /** One filled dot: ctx.arc(x, y, radius, 0, 2 * PI) followed by ctx.fill(). */
  datatype Dot = Dot(center: Point, radius: real)

  /** The grid point in column i and row j. */
  function GridPoint(i: int, j: int, spacing: real): Point
  {
    Point(i as real * spacing, j as real * spacing)
  }

  /** How many positive multiples of `spacing` lie strictly below `limit`. */
  function DotCount(spacing: real, limit: real): nat
    requires 0.0 < spacing
  {
    if limit <= 0.0 then 0
    else
      var f := (limit / spacing).Floor;
      assert 0 <= f by { DivisionIsPositive(limit, spacing); }
      if f as real * spacing < limit then f
      else
        assert 0 < f by { PositiveProductHasPositiveFactor(f, spacing, limit); }
        f - 1
  }

  lemma DivisionIsPositive(a: real, b: real)
    requires 0.0 < a && 0.0 < b
    ensures 0.0 < a / b
  {
  }

  lemma PositiveProductHasPositiveFactor(f: int, s: real, limit: real)
    requires 0.0 < s && 0.0 < limit <= f as real * s
    ensures 0 < f
  {
  }

  lemma ScaleIsMonotone(a: real, b: real, s: real)
    requires 0.0 < s && a <= b
    ensures a * s <= b * s
  {
    assert b * s - a * s == (b - a) * s;
  }

  lemma ScaleIsStrictlyMonotone(a: real, b: real, s: real)
    requires 0.0 < s && a < b
    ensures a * s < b * s
  {
    assert b * s - a * s == (b - a) * s;
  }

  /** DotCount is exact: the multiple i * spacing (i >= 1) is below the limit iff i is at most the count. */
  lemma DotCountIsExact(spacing: real, limit: real, i: int)
    requires 0.0 < spacing && 1 <= i
    ensures i as real * spacing < limit <==> i <= DotCount(spacing, limit)
  {
    var n := DotCount(spacing, limit);
    if limit <= 0.0 {
      ScaleIsMonotone(0.0, i as real, spacing);
    } else {
      var q := limit / spacing;
      var f := q.Floor;
      assert q * spacing == limit;
      if f as real * spacing < limit {
        if i <= f {
          ScaleIsMonotone(i as real, f as real, spacing);
        } else {
          ScaleIsMonotone(q, i as real, spacing);
        }
      } else {
        ScaleIsMonotone(f as real, q, spacing);
        assert f as real * spacing == limit;
        if i <= f - 1 {
          ScaleIsStrictlyMonotone(i as real, f as real, spacing);
        } else {
          ScaleIsMonotone(f as real, i as real, spacing);
        }
      }
    }
  }

  /** Column i of the grid: its first `rows` dots, top to bottom. */
  function Column(i: int, rows: nat, spacing: real, radius: real): seq<Dot>
  {
    seq(rows, j requires 0 <= j < rows => Dot(GridPoint(i, j + 1, spacing), radius))
  }

  lemma ColumnGrows(i: int, rows: nat, spacing: real, radius: real)
    ensures Column(i, rows + 1, spacing, radius)
            == Column(i, rows, spacing, radius) + [Dot(GridPoint(i, rows + 1, spacing), radius)]
  {
  }

  /** The first `columns` columns of the grid, left to right. */
  function Dots(columns: nat, rows: nat, spacing: real, radius: real): seq<Dot>
  {
    if columns == 0 then []
    else Dots(columns - 1, rows, spacing, radius) + Column(columns, rows, spacing, radius)
  }

  lemma {:induction false} DotsAreGridPoints(columns: nat, rows: nat, spacing: real, radius: real, d: Dot)
    ensures d in Dots(columns, rows, spacing, radius) <==>
            exists i, j :: 1 <= i <= columns && 1 <= j <= rows && d == Dot(GridPoint(i, j, spacing), radius)
  {
    if columns > 0 {
      DotsAreGridPoints(columns - 1, rows, spacing, radius, d);
      var col := Column(columns, rows, spacing, radius);
      if d in col {
        var k :| 0 <= k < rows && col[k] == d;
        assert d == Dot(GridPoint(columns, k + 1, spacing), radius);
      }
      if exists j :: 1 <= j <= rows && d == Dot(GridPoint(columns, j, spacing), radius) {
        var j :| 1 <= j <= rows && d == Dot(GridPoint(columns, j, spacing), radius);
        assert col[j - 1] == d;
      }
    }
  }

  /** The dots drawDotGrid draws on a raster of the given size (none when the grid is hidden). */
  function GridDots(showGrid: bool, spacing: real, radius: real, width: real, height: real): seq<Dot>
    requires 0.0 < spacing
  {
    if showGrid then Dots(DotCount(spacing, width), DotCount(spacing, height), spacing, radius) else []
  }

  /**
   * With the grid shown, the dots are exactly the points (i * s, j * s) with
   * i, j >= 1 strictly inside the raster; with the grid hidden there are none.
   */
  lemma GridDotsAreExactlyTheInteriorMultiples(showGrid: bool, spacing: real, radius: real,
                                               width: real, height: real, d: Dot)
    requires 0.0 < spacing
    ensures d in GridDots(showGrid, spacing, radius, width, height) <==>
            && showGrid
            && d.radius == radius
            && exists i, j :: && 1 <= i && 1 <= j
                               && i as real * spacing < width && j as real * spacing < height
                               && d.center == GridPoint(i, j, spacing)
  {
    var cols, rows := DotCount(spacing, width), DotCount(spacing, height);
    DotsAreGridPoints(cols, rows, spacing, radius, d);
    if exists i, j :: 1 <= i <= cols && 1 <= j <= rows && d == Dot(GridPoint(i, j, spacing), radius) {
      var i, j :| 1 <= i <= cols && 1 <= j <= rows && d == Dot(GridPoint(i, j, spacing), radius);
      DotCountIsExact(spacing, width, i);
      DotCountIsExact(spacing, height, j);
    }
    if exists i, j :: && 1 <= i && 1 <= j
                      && i as real * spacing < width && j as real * spacing < height
                      && d.center == GridPoint(i, j, spacing) {
      var i, j :| && 1 <= i && 1 <= j
                  && i as real * spacing < width && j as real * spacing < height
                  && d.center == GridPoint(i, j, spacing);
      DotCountIsExact(spacing, width, i);
      DotCountIsExact(spacing, height, j);
      if showGrid && d.radius == radius {
        assert d == Dot(GridPoint(i, j, spacing), radius);
      }
    }
  }

  /** There is never a dot on either axis: every dot lies at least one spacing from them. */
  lemma NoDotOnTheAxes(showGrid: bool, spacing: real, radius: real, width: real, height: real, d: Dot)
    requires 0.0 < spacing
    requires d in GridDots(showGrid, spacing, radius, width, height)
    ensures spacing <= d.center.x && spacing <= d.center.y
  {
    GridDotsAreExactlyTheInteriorMultiples(showGrid, spacing, radius, width, height, d);
    var i, j :| && 1 <= i && 1 <= j
                && i as real * spacing < width && j as real * spacing < height
                && d.center == GridPoint(i, j, spacing);
    ScaleIsMonotone(1.0, i as real, spacing);
    ScaleIsMonotone(1.0, j as real, spacing);
  }

  /**
   * The inner loop of drawDotGrid: y starts at one spacing and grows by the
   * spacing while below the raster height; at x = i * s it draws column i.
   */
  method DrawColumn(x: real, ghost i: int, spacing: real, radius: real, height: int)
    returns (column: seq<Dot>)
    requires 0.0 < spacing && x == i as real * spacing
    ensures column == Column(i, DotCount(spacing, height as real), spacing, radius)
  {
    ghost var rows := DotCount(spacing, height as real);
    column := [];
    var y := spacing;
    ghost var j := 1;
    while y < height as real
      invariant 1 <= j <= rows + 1
      invariant y == j as real * spacing
      invariant column == Column(i, j - 1, spacing, radius)
      decreases rows + 1 - j
    {
      DotCountIsExact(spacing, height as real, j);
      ColumnGrows(i, j - 1, spacing, radius);
      assert GridPoint(i, j, spacing) == Point(x, y);
      column := column + [Dot(Point(x, y), radius)];
      assert (j + 1) as real * spacing == y + spacing;
      y := y + spacing;
      j := j + 1;
    }
    DotCountIsExact(spacing, height as real, j);
  }

  /**
   * drawDotGrid: nothing when the grid is hidden; otherwise two nested loops
   * whose accumulators x and y start at the spacing s = mmToPx(dotSpacing)
   * and grow by s while below the raster width and height, drawing a dot of
   * diameter dotSize * zoom at each (x, y).
   */
  method DrawDotGrid(showGrid: bool, dotSpacingMm: real, dotSizeMm: real, zoom: real,
                     width: int, height: int) returns (dots: seq<Dot>)
    requires 0.0 < dotSpacingMm && 0.0 < zoom
    ensures 0.0 < MmToPx(dotSpacingMm, zoom)
    ensures dots == GridDots(showGrid, MmToPx(dotSpacingMm, zoom), dotSizeMm * zoom / 2.0,
                             width as real, height as real)
  {
    MmToPxIsIncreasing(0.0, dotSpacingMm, zoom);
    dots := [];
    if !showGrid {
      return;
    }
    var spacing := MmToPx(dotSpacingMm, zoom);
    var radius := dotSizeMm * zoom / 2.0;
    ghost var columns := DotCount(spacing, width as real);
    ghost var rows := DotCount(spacing, height as real);
    var x := spacing;
    ghost var i := 1;
    while x < width as real
      invariant 1 <= i <= columns + 1
      invariant x == i as real * spacing
      invariant dots == Dots(i - 1, rows, spacing, radius)
      decreases columns + 1 - i
    {
      DotCountIsExact(spacing, width as real, i);
      var column := DrawColumn(x, i, spacing, radius, height);
      dots := dots + column;
      assert (i + 1) as real * spacing == x + spacing;
      x := x + spacing;
      i := i + 1;
    }
    DotCountIsExact(spacing, width as real, i);
  }
}
