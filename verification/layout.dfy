/**
 * Page geometry of the first generator: twenty triangles per page in four rows of
 * five, alternately upright and inverted, so that each row forms a trapezoid three
 * bases wide; and the outline of one triangle with its thick junction edges.
 */
module Layout {
  import opened Drawing

  const BaseWidth: real := 60.0 * MM
  const Height: real := 52.0 * MM
  const RowsPerPage: nat := 4
  const TrianglesPerRow: nat := 5
  const TrianglesPerPage: nat := RowsPerPage * TrianglesPerRow
  const TopMargin: real := 50.0 * MM
  const RowHeight: real := Height + 10.0 * MM

  const NormalLineWidth: real := 1.0
  const ThickLineWidth: real := 3.0

  /**
   * One slot of the grid. For an upright triangle `(x, y)` is the left end of its
   * base; for an inverted one it is the left end of the base's shadow on the apex
   * line, that is the base is at `y + Height` and the apex at `y`.
   */
  datatype Position = Position(x: real, y: real, inverted: bool, row: nat, col: nat)

  /** The left edge of the trapezoid, centred horizontally on the page. */
  function StartX(pageWidth: real): real {
    (pageWidth - 3.0 * BaseWidth) / 2.0
  }

  /** The level of the upright bases of a row. */
  function RowBase(pageHeight: real, row: nat): real {
    pageHeight - TopMargin - row as real * RowHeight
  }

  /** The left corner of a column, as the source spells it out case by case. */
  function ColumnX(startX: real, col: nat): (x: real)
    ensures col < TrianglesPerRow ==> x == startX + col as real * BaseWidth / 2.0
  {
    if col == 0 then startX
    else if col == 1 then startX + BaseWidth / 2.0
    else if col == 2 then startX + BaseWidth
    else if col == 3 then startX + BaseWidth * 1.5
    else startX + BaseWidth * 2.0
  }

  /**
   * The slot of the `k`-th tag of a page: row-major, inverted in odd columns, each
   * column half a base to the right of the previous one, and both orientations
   * standing on the row's base level.
   */
  function Slot(pageWidth: real, pageHeight: real, k: nat): Position {
    var row := k / TrianglesPerRow;
    var col := k % TrianglesPerRow;
    Position(StartX(pageWidth) + col as real * BaseWidth / 2.0, RowBase(pageHeight, row), col % 2 == 1, row, col)
  }

  /** The origin `y` of a slot as the source computes it for an inverted triangle. */
  function OriginYAsWritten(yBase: real, inverted: bool): real {
    if inverted then yBase - Height else yBase
  }

  /** `calculate_positions`, with the inverted origin placed as its comment describes. */
  method CalculatePositions(pageWidth: real, pageHeight: real) returns (positions: seq<Position>)
    ensures |positions| == TrianglesPerPage
    ensures forall k :: 0 <= k < |positions| ==> positions[k] == Slot(pageWidth, pageHeight, k)
  {
    positions := [];
    var startX := (pageWidth - 3.0 * BaseWidth) / 2.0;
    for row := 0 to RowsPerPage
      invariant |positions| == row * TrianglesPerRow
      invariant forall k :: 0 <= k < |positions| ==> positions[k] == Slot(pageWidth, pageHeight, k)
    {
      var yBase := pageHeight - TopMargin - row as real * RowHeight;
      for col := 0 to TrianglesPerRow
        invariant |positions| == row * TrianglesPerRow + col
        invariant forall k :: 0 <= k < |positions| ==> positions[k] == Slot(pageWidth, pageHeight, k)
      {
        var inverted := col % 2 == 1;
        var x := ColumnX(startX, col);
        var y := yBase;
        ghost var k := row * TrianglesPerRow + col;
        assert k / TrianglesPerRow == row && k % TrianglesPerRow == col;
        positions := positions + [Position(x, y, inverted, row, col)];
      }
    }
  }

  /** The corners `draw_triangle` computes for a slot. */
  function Vertices(p: Position): (t: Triangle)
    ensures t.left.y == t.right.y && t.right.x == t.left.x + BaseWidth
    ensures t.apex.x == t.left.x + BaseWidth / 2.0
    ensures t.apex.y == (if p.inverted then t.left.y - Height else t.left.y + Height)
  {
    if p.inverted then
      Triangle(Point(p.x, p.y + Height), Point(p.x + BaseWidth, p.y + Height), Point(p.x + BaseWidth / 2.0, p.y))
    else
      Triangle(Point(p.x, p.y), Point(p.x + BaseWidth, p.y), Point(p.x + BaseWidth / 2.0, p.y + Height))
  }

  /** What `draw_triangle` records: the thin outline, then the thick junction edges. */
  function TriangleOps(f: Frame, p: Position): seq<Op> {
    var t := Vertices(p);
    [Polygon(NormalLineWidth, Place(f, [t.left, t.right, t.apex]))]
    + (if p.col > 0 then [Segment(ThickLineWidth, f.Apply(t.left), f.Apply(t.apex))] else [])
    + (if p.col < TrianglesPerRow - 1 then [Segment(ThickLineWidth, f.Apply(t.right), f.Apply(t.apex))] else [])
  }

  /** `draw_triangle`. */
  method DrawTriangle(c: Canvas, p: Position)
    modifies c
    ensures c.ops == old(c.ops) + TriangleOps(old(c.state.frame), p)
    ensures c.state == old(c.state).(lineWidth := ThickLineWidth)  // every slot has a neighbour
    ensures c.saved == old(c.saved)
  {
    var points := Vertices(p);
    c.SetLineWidth(NormalLineWidth);
    c.DrawPath([points.left, points.right, points.apex]);
    if p.col > 0 {
      c.SetLineWidth(ThickLineWidth);
      c.DrawLine(points.left, points.apex);
    }
    if p.col < TrianglesPerRow - 1 {
      c.SetLineWidth(ThickLineWidth);
      c.DrawLine(points.right, points.apex);
    }
  }

  /**
   * The outline is always drawn thin; the left edge is drawn thick exactly when the
   * triangle has a left neighbour, the right edge exactly when it has a right one.
   */
  lemma ThickEdges(f: Frame, p: Position)
    ensures TriangleOps(f, p)[0] == Polygon(NormalLineWidth, Place(f, [Vertices(p).left, Vertices(p).right, Vertices(p).apex]))
    ensures Segment(ThickLineWidth, f.Apply(Vertices(p).left), f.Apply(Vertices(p).apex)) in TriangleOps(f, p) <==> p.col > 0
    ensures Segment(ThickLineWidth, f.Apply(Vertices(p).right), f.Apply(Vertices(p).apex)) in TriangleOps(f, p)
            <==> p.col < TrianglesPerRow - 1
  {
    var t := Vertices(p);
    assert f.Apply(t.left) != f.Apply(t.right);
  }

  /** Within a row, each triangle's right edge is its right neighbour's left edge. */
  lemma NeighboursShareEdge(pageWidth: real, pageHeight: real, k: nat)
    requires k % TrianglesPerRow < TrianglesPerRow - 1
    ensures Vertices(Slot(pageWidth, pageHeight, k)).RightEdge() == Vertices(Slot(pageWidth, pageHeight, k + 1)).LeftEdge()
  {
    assert (k + 1) / TrianglesPerRow == k / TrianglesPerRow;
    assert (k + 1) % TrianglesPerRow == k % TrianglesPerRow + 1;
  }

  /** Every triangle of a row lies between the row's base level and one height above it. */
  lemma RowBand(pageWidth: real, pageHeight: real, k: nat)
    ensures var t := Vertices(Slot(pageWidth, pageHeight, k));
            var yb := RowBase(pageHeight, k / TrianglesPerRow);
            yb <= t.left.y <= yb + Height && yb <= t.apex.y <= yb + Height
  {
  }

  /**
   * As written, the bases of both orientations lie on the row's base level, with
   * the inverted apexes below it.
   */
  lemma AsWrittenBasesOnRowLine(pageWidth: real, pageHeight: real, k: nat)
    ensures var p := Slot(pageWidth, pageHeight, k);
            var t := Vertices(p.(y := OriginYAsWritten(p.y, p.inverted)));
            t.left.y == RowBase(pageHeight, k / TrianglesPerRow)
  {
  }

  /** As written, no two neighbours of a row share an edge. */
  lemma AsWrittenNeighboursShareNoEdge(pageWidth: real, pageHeight: real, k: nat)
    requires k % TrianglesPerRow < TrianglesPerRow - 1
    ensures var p := Slot(pageWidth, pageHeight, k);
            var q := Slot(pageWidth, pageHeight, k + 1);
            Vertices(p.(y := OriginYAsWritten(p.y, p.inverted))).RightEdge() !=
            Vertices(q.(y := OriginYAsWritten(q.y, q.inverted))).LeftEdge()
  {
    assert (k + 1) / TrianglesPerRow == k / TrianglesPerRow;
    assert (k + 1) % TrianglesPerRow == k % TrianglesPerRow + 1;
    var p := Slot(pageWidth, pageHeight, k);
    var q := Slot(pageWidth, pageHeight, k + 1);
    var tp := Vertices(p.(y := OriginYAsWritten(p.y, p.inverted)));
    var tq := Vertices(q.(y := OriginYAsWritten(q.y, q.inverted)));
    assert tp.apex in tp.RightEdge();
    assert tp.apex !in tq.LeftEdge();
  }

  /**
   * As written, the bases of neighbours in a row lie on one line and overlap along
   * half a base.
   */
  lemma AsWrittenBasesOverlap(pageWidth: real, pageHeight: real, k: nat)
    requires k % TrianglesPerRow < TrianglesPerRow - 1
    ensures var p := Slot(pageWidth, pageHeight, k);
            var q := Slot(pageWidth, pageHeight, k + 1);
            var tp := Vertices(p.(y := OriginYAsWritten(p.y, p.inverted)));
            var tq := Vertices(q.(y := OriginYAsWritten(q.y, q.inverted)));
            tp.left.y == tq.left.y && tp.left.x < tq.left.x < tp.right.x &&
            tp.right.x - tq.left.x == BaseWidth / 2.0
  {
    assert (k + 1) / TrianglesPerRow == k / TrianglesPerRow;
    assert (k + 1) % TrianglesPerRow == k % TrianglesPerRow + 1;
    AsWrittenBasesOnRowLine(pageWidth, pageHeight, k);
    AsWrittenBasesOnRowLine(pageWidth, pageHeight, k + 1);
  }

  /**
   * As written, the inverted apexes of a row hang 42 mm below the upright apexes of
   * the next row: the height bands of consecutive rows overlap.
   */
  lemma AsWrittenRowsOverlap(pageWidth: real, pageHeight: real, k: nat)
    requires k % TrianglesPerRow == 1
    ensures var p := Slot(pageWidth, pageHeight, k);
            var q := Slot(pageWidth, pageHeight, k + TrianglesPerRow - 1);
            var tp := Vertices(p.(y := OriginYAsWritten(p.y, p.inverted)));
            var tq := Vertices(q.(y := OriginYAsWritten(q.y, q.inverted)));
            tq.apex.y - tp.apex.y == 42.0 * MM
  {
    assert (k + TrianglesPerRow - 1) / TrianglesPerRow == k / TrianglesPerRow + 1;
    assert (k + TrianglesPerRow - 1) % TrianglesPerRow == 0;
  }

  /** On A4 the apexes of the top row's upright triangles lie 2 mm above the page. */
  lemma TopRowApexAbovePage()
    ensures Vertices(Slot(A4Width, A4Height, 0)).apex.y == A4Height + 2.0 * MM
  {
  }

  /** On A4 the trapezoid spans 15 mm to 195 mm, centred on the page. */
  lemma RowsCentredOnA4(k: nat)
    ensures var t := Vertices(Slot(A4Width, A4Height, k));
            15.0 * MM <= t.left.x && t.right.x <= 195.0 * MM
  {
  }
}
