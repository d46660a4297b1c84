/**
 * A recording canvas: the part of a PDF canvas the tag engine drives. Drawing
 * calls are not rendered; each one appends an `Op` in device coordinates to
 * `ops`, so that what a page shows can be stated as a property of that sequence.
 * Lengths are PDF points; `MM` is the size of one millimetre in points.
 */
module Drawing {

  const MM: real := 72.0 / 25.4

  /** The A4 page, portrait. */
  const A4Width: real := 210.0 * MM
  const A4Height: real := 297.0 * MM

  datatype Point = Point(x: real, y: real)

  /**
   * The current transformation, restricted to what the engine builds: the identity
   * composed with any number of half-turns, that is `p |-> (dx, dy) + p` or
   * `p |-> (dx, dy) - p`.
   */
  datatype Frame = Frame(turned: bool, dx: real, dy: real) {

    function Apply(p: Point): Point {
      if turned then Point(dx - p.x, dy - p.y) else Point(dx + p.x, dy + p.y)
    }

    /** The frame after `translate(c); rotate(180); translate(-c)`. */
    function HalfTurnAbout(c: Point): (f: Frame)
      ensures f.turned == !turned
    {
      if turned then Frame(false, dx - 2.0 * c.x, dy - 2.0 * c.y)
      else Frame(true, dx + 2.0 * c.x, dy + 2.0 * c.y)
    }

    /** The half-turned frame maps a point where this frame maps its mirror image through `c`. */
    lemma HalfTurnApply(c: Point, p: Point)
      ensures HalfTurnAbout(c).Apply(p) == Apply(Point(2.0 * c.x - p.x, 2.0 * c.y - p.y))
    {
    }
  }

  const Identity: Frame := Frame(false, 0.0, 0.0)

  /** The frame's image of every point of `pts`. */
  function Place(f: Frame, pts: seq<Point>): (r: seq<Point>)
    ensures |r| == |pts| && forall i :: 0 <= i < |pts| ==> r[i] == f.Apply(pts[i])
  {
    seq(|pts|, i requires 0 <= i < |pts| => f.Apply(pts[i]))
  }

  /** One recorded drawing call, in device coordinates. */
  datatype Op =
    | Polygon(width: real, corners: seq<Point>)         // a closed stroked path
    | Segment(width: real, from: Point, to: Point)      // a stroked straight line
    | Text(at: Point, s: string, size: real, upsideDown: bool)
    | PageBreak

  /** The graphics state that save/restore keeps. */
  datatype GState = GState(lineWidth: real, fontSize: real, frame: Frame)

  const InitialState: GState := GState(1.0, 12.0, Identity)

  /**
   * Text measurement supplied by the font back end: the advance width of a string
   * at a font size, and the line wrapping of a string at a font size into a width.
   */
  datatype Metrics = Metrics(width: (string, real) -> real, wrap: (string, real, real) -> seq<string>)

  /** A triangle with a horizontal base from `left` to `right` and its third corner `apex`. */
  datatype Triangle = Triangle(left: Point, right: Point, apex: Point) {
    function LeftEdge(): set<Point> { {left, apex} }
    function RightEdge(): set<Point> { {right, apex} }
  }

  class Canvas {
    var ops: seq<Op>
    var state: GState
    var saved: seq<GState>

    constructor ()
      ensures ops == [] && state == InitialState && saved == []
    {
      ops := [];
      state := InitialState;
      saved := [];
    }

    method SetLineWidth(w: real)
      modifies this
      ensures state == old(state).(lineWidth := w)
      ensures ops == old(ops) && saved == old(saved)
    {
      state := state.(lineWidth := w);
    }

    method SetFont(size: real)
      modifies this
      ensures state == old(state).(fontSize := size)
      ensures ops == old(ops) && saved == old(saved)
    {
      state := state.(fontSize := size);
    }

    /** A closed path through `corners`, stroked and not filled. */
    method DrawPath(corners: seq<Point>)
      modifies this
      ensures ops == old(ops) + [Polygon(state.lineWidth, Place(state.frame, corners))]
      ensures state == old(state) && saved == old(saved)
    {
      ops := ops + [Polygon(state.lineWidth, Place(state.frame, corners))];
    }

    method DrawLine(a: Point, b: Point)
      modifies this
      ensures ops == old(ops) + [Segment(state.lineWidth, state.frame.Apply(a), state.frame.Apply(b))]
      ensures state == old(state) && saved == old(saved)
    {
      ops := ops + [Segment(state.lineWidth, state.frame.Apply(a), state.frame.Apply(b))];
    }

    /** Several independent segments in one call. */
    method DrawLines(segments: seq<(Point, Point)>)
      modifies this
      ensures ops == old(ops) + SegmentOps(state, segments)
      ensures state == old(state) && saved == old(saved)
    {
      ops := ops + SegmentOps(state, segments);
    }

    static function SegmentOps(st: GState, segments: seq<(Point, Point)>): (r: seq<Op>)
      ensures |r| == |segments|
      ensures forall i :: 0 <= i < |segments| ==>
        r[i] == Segment(st.lineWidth, st.frame.Apply(segments[i].0), st.frame.Apply(segments[i].1))
    {
      seq(|segments|, i requires 0 <= i < |segments| =>
        Segment(st.lineWidth, st.frame.Apply(segments[i].0), st.frame.Apply(segments[i].1)))
    }

    /** `drawString(x, y, s)`: `s` starts at `(x, y)` in the current frame. */
    method DrawString(x: real, y: real, s: string)
      modifies this
      ensures ops == old(ops) + [Text(state.frame.Apply(Point(x, y)), s, state.fontSize, state.frame.turned)]
      ensures state == old(state) && saved == old(saved)
    {
      ops := ops + [Text(state.frame.Apply(Point(x, y)), s, state.fontSize, state.frame.turned)];
    }

    method SaveState()
      modifies this
      ensures saved == old(saved) + [old(state)]
      ensures state == old(state) && ops == old(ops)
    {
      saved := saved + [state];
    }

    method RestoreState()
      requires saved != []
      modifies this
      ensures state == old(saved[|saved| - 1]) && saved == old(saved[..|saved| - 1])
      ensures ops == old(ops)
    {
      state := saved[|saved| - 1];
      saved := saved[..|saved| - 1];
    }

    /** `translate(c); rotate(180); translate(-c)`: a half-turn about `c`. */
    method RotateHalfTurnAbout(c: Point)
      modifies this
      ensures state == old(state).(frame := old(state.frame).HalfTurnAbout(c))
      ensures ops == old(ops) && saved == old(saved)
    {
      state := state.(frame := state.frame.HalfTurnAbout(c));
    }

    /** `showPage()`: ends the current page. */
    method ShowPage()
      modifies this
      ensures ops == old(ops) + [PageBreak]
      ensures state == old(state) && saved == old(saved)
    {
      ops := ops + [PageBreak];
    }
  }

  /** The number of page breaks in a recorded sequence. */
  function CountBreaks(ops: seq<Op>): nat {
    if ops == [] then 0
    else CountBreaks(ops[..|ops| - 1]) + (if ops[|ops| - 1].PageBreak? then 1 else 0)
  }

  predicate NoBreaks(ops: seq<Op>) {
    forall i :: 0 <= i < |ops| ==> !ops[i].PageBreak?
  }

  lemma NoBreaksAppend(a: seq<Op>, b: seq<Op>)
    requires NoBreaks(a) && NoBreaks(b)
    ensures NoBreaks(a + b)
  {
    forall i | 0 <= i < |a + b| ensures !(a + b)[i].PageBreak? {
      if i >= |a| {
        assert (a + b)[i] == b[i - |a|];
      }
    }
  }

  lemma {:induction false} CountBreaksAppend(a: seq<Op>, b: seq<Op>)
    ensures CountBreaks(a + b) == CountBreaks(a) + CountBreaks(b)
    decreases |b|
  {
    if b == [] {
      assert a + b == a;
    } else {
      assert (a + b)[..|a + b| - 1] == a + b[..|b| - 1];
      CountBreaksAppend(a, b[..|b| - 1]);
    }
  }

  lemma {:induction false} NoBreaksCount(ops: seq<Op>)
    requires NoBreaks(ops)
    ensures CountBreaks(ops) == 0
    decreases |ops|
  {
    if ops != [] {
      NoBreaksCount(ops[..|ops| - 1]);
    }
  }

  // ----- Sequencing pages -----

  /** A front page and its break, then the back page if there is one, and a break if more sheets follow. */
  function SheetLayout(front: seq<Op>, back: seq<Op>, hasBack: bool, more: bool): seq<Op> {
    front + [PageBreak] + (if hasBack then back + (if more then [PageBreak] else []) else [])
  }

  /** Pages' or sheets' records one after the other. */
  function Flatten(xs: seq<seq<Op>>): seq<Op> {
    if xs == [] then [] else Flatten(xs[..|xs| - 1]) + xs[|xs| - 1]
  }

  lemma FlattenPrefix(xs: seq<seq<Op>>, k: nat)
    requires k < |xs|
    ensures Flatten(xs[..k + 1]) == Flatten(xs[..k]) + xs[k]
  {
    assert xs[..k + 1][..k] == xs[..k];
  }

  lemma SheetLayoutBreaks(front: seq<Op>, back: seq<Op>, more: bool)
    requires NoBreaks(front) && NoBreaks(back)
    ensures CountBreaks(SheetLayout(front, back, true, more)) == if more then 2 else 1
  {
    NoBreaksCount(front);
    NoBreaksCount(back);
    var tail: seq<Op> := if more then [PageBreak] else [];
    assert CountBreaks([PageBreak]) == 1;
    assert CountBreaks(tail) == if more then 1 else 0;
    CountBreaksAppend(front, [PageBreak]);
    CountBreaksAppend(back, tail);
    CountBreaksAppend(front + [PageBreak], back + tail);
  }

  /** Sheets of two breaks each give twice as many breaks as sheets. */
  lemma {:induction false} FlattenBreaks(xs: seq<seq<Op>>, k: nat)
    requires k <= |xs|
    requires forall i :: 0 <= i < k ==> CountBreaks(xs[i]) == 2
    ensures CountBreaks(Flatten(xs[..k])) == 2 * k
  {
    if k > 0 {
      FlattenBreaks(xs, k - 1);
      FlattenPrefix(xs, k - 1);
      CountBreaksAppend(Flatten(xs[..k - 1]), xs[k - 1]);
    }
  }

  /** Sheets each ending in a break but the last give one break fewer than two per sheet. */
  lemma FlattenSheetsBreaks(xs: seq<seq<Op>>)
    requires xs != []
    requires forall i :: 0 <= i < |xs| ==> CountBreaks(xs[i]) == if i < |xs| - 1 then 2 else 1
    ensures CountBreaks(Flatten(xs)) == 2 * |xs| - 1
  {
    var n := |xs|;
    FlattenBreaks(xs, n - 1);
    FlattenPrefix(xs, n - 1);
    CountBreaksAppend(Flatten(xs[..n - 1]), xs[n - 1]);
    assert xs[..n] == xs;
  }
}
