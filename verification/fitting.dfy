/**
 * Text placement of the first generator: a block of lines centred on a point, drawn
 * upside down inside inverted triangles; font-size search for the main field; fixed
 * size with a line cap for the others; and where each field goes in its triangle.
 */
module Fitting {
  import opened Basics
  import opened Drawing
  import opened Layout

  /** `font_size * 1.2`. */
  function LineHeight(fs: int): real {
    fs as real * 1.2
  }

  /** `len(lines) * font_size * 1.2`. */
  function BlockHeight(n: nat, fs: int): real {
    n as real * fs as real * 1.2
  }

  /** `start_y`: the baseline of the top line of `n` lines whose block is centred on `cy`. */
  function FirstBaseline(cy: real, n: nat, fs: int): real {
    cy + BlockHeight(n, fs) / 2.0 - LineHeight(fs) / 2.0
  }

  /** The baseline of line `i`, one line height below line `i - 1`. */
  function Baseline(cy: real, n: nat, fs: int, i: nat): real {
    FirstBaseline(cy, n, fs) - i as real * LineHeight(fs)
  }

  /** `start_y` as `draw_text_lines` computes it from its `y` argument. */
  function FirstBaselineAsWritten(y: real, n: nat, fs: int): real {
    y + Height / 2.0 - BlockHeight(n, fs) / 2.0 + LineHeight(fs) / 2.0
  }

  function BaselineAsWritten(y: real, n: nat, fs: int, i: nat): real {
    FirstBaselineAsWritten(y, n, fs) - i as real * LineHeight(fs)
  }

  /** The frame the lines are drawn in: turned half about the block centre when inverted. */
  function TextFrame(f: Frame, centre: Point, inverted: bool): Frame {
    if inverted then f.HalfTurnAbout(centre) else f
  }

  /** The record of line `i` drawn in frame `g`: horizontally centred on `centre`, on its baseline. */
  function LineOp(g: Frame, size: real, lines: seq<string>, centre: Point, fs: int, i: nat, m: Metrics): Op
    requires i < |lines|
  {
    var w := m.width(lines[i], fs as real);
    Text(g.Apply(Point(centre.x - w / 2.0, Baseline(centre.y, |lines|, fs, i))), lines[i], size, g.turned)
  }

  /** The records of the first `k` lines drawn in frame `g`. */
  function LinesUpTo(g: Frame, size: real, lines: seq<string>, centre: Point, fs: int, m: Metrics, k: nat): (r: seq<Op>)
    requires k <= |lines|
    ensures |r| == k
  {
    if k == 0 then []
    else LinesUpTo(g, size, lines, centre, fs, m, k - 1) + [LineOp(g, size, lines, centre, fs, k - 1, m)]
  }

  /** The records of all lines drawn in frame `g`. */
  function LinesOps(g: Frame, size: real, lines: seq<string>, centre: Point, fs: int, m: Metrics): (r: seq<Op>)
    ensures |r| == |lines|
  {
    LinesUpTo(g, size, lines, centre, fs, m, |lines|)
  }

  lemma {:induction false} LinesUpToAt(g: Frame, size: real, lines: seq<string>, centre: Point, fs: int, m: Metrics, k: nat, i: nat)
    requires i < k <= |lines|
    ensures LinesUpTo(g, size, lines, centre, fs, m, k)[i] == LineOp(g, size, lines, centre, fs, i, m)
    decreases k
  {
    if i < k - 1 {
      LinesUpToAt(g, size, lines, centre, fs, m, k - 1, i);
    }
  }

  lemma LinesOpsAt(g: Frame, size: real, lines: seq<string>, centre: Point, fs: int, m: Metrics, i: nat)
    requires i < |lines|
    ensures LinesOps(g, size, lines, centre, fs, m)[i] == LineOp(g, size, lines, centre, fs, i, m)
  {
    LinesUpToAt(g, size, lines, centre, fs, m, |lines|, i);
  }

  /** What `draw_text_lines` records, drawing in frame `f` at the current font `size`. */
  function TextLinesOps(f: Frame, size: real, lines: seq<string>, centre: Point, fs: int, inverted: bool, m: Metrics): seq<Op> {
    LinesOps(TextFrame(f, centre, inverted), size, lines, centre, fs, m)
  }

  /** The loop of `draw_text_lines`, in the current frame. */
  method DrawLines(c: Canvas, lines: seq<string>, centre: Point, fs: int, m: Metrics)
    modifies c
    ensures c.ops == old(c.ops) + LinesOps(old(c.state.frame), old(c.state.fontSize), lines, centre, fs, m)
    ensures c.state == old(c.state) && c.saved == old(c.saved)
  {
    var lineHeight := LineHeight(fs);
    var startY := FirstBaseline(centre.y, |lines|, fs);
    ghost var g := c.state.frame;
    ghost var size := c.state.fontSize;
    for i := 0 to |lines|
      invariant c.ops == old(c.ops) + LinesUpTo(g, size, lines, centre, fs, m, i)
      invariant c.state == old(c.state) && c.saved == old(c.saved)
    {
      ghost var before := c.ops;
      var textWidth := m.width(lines[i], fs as real);
      c.DrawString(centre.x - textWidth / 2.0, startY - i as real * lineHeight, lines[i]);
      assert c.state.frame == g && c.state.fontSize == size;
      assert startY - i as real * lineHeight == Baseline(centre.y, |lines|, fs, i);
      assert c.ops == before + [LineOp(g, size, lines, centre, fs, i, m)];
      AppendAssoc(old(c.ops), LinesUpTo(g, size, lines, centre, fs, m, i), [LineOp(g, size, lines, centre, fs, i, m)]);
    }
  }

  /**
   * `draw_text_lines`, centring the block on the point it is given; inverted lines
   * are drawn turned half about that point, between a save and a restore.
   */
  method DrawTextLines(c: Canvas, lines: seq<string>, centre: Point, fs: int, inverted: bool, m: Metrics)
    modifies c
    ensures c.ops == old(c.ops) + TextLinesOps(old(c.state.frame), old(c.state.fontSize), lines, centre, fs, inverted, m)
    ensures c.state == old(c.state) && c.saved == old(c.saved)
  {
    if inverted {
      c.SaveState();
      c.RotateHalfTurnAbout(centre);
      DrawLines(c, lines, centre, fs, m);
      c.RestoreState();
    } else {
      DrawLines(c, lines, centre, fs, m);
    }
  }

  /** The horizontal middle of a recorded line whose advance width is `w`. */
  function VisualMidX(op: Op, w: real): real
    requires op.Text?
  {
    if op.upsideDown then op.at.x - w / 2.0 else op.at.x + w / 2.0
  }

  /**
   * Every line is centred horizontally on the block centre, upright or upside
   * down, and is upside down exactly when the triangle is inverted.
   */
  lemma TextLinesCentred(f: Frame, size: real, lines: seq<string>, centre: Point, fs: int, inverted: bool, m: Metrics, i: nat)
    requires !f.turned && i < |lines|
    ensures var op := TextLinesOps(f, size, lines, centre, fs, inverted, m)[i];
            op.Text? && op.upsideDown == inverted && op.s == lines[i] &&
            VisualMidX(op, m.width(lines[i], fs as real)) == f.Apply(centre).x &&
            op.at.y == f.dy + (if inverted then 2.0 * centre.y - Baseline(centre.y, |lines|, fs, i)
                               else Baseline(centre.y, |lines|, fs, i))
  {
    LinesOpsAt(TextFrame(f, centre, inverted), size, lines, centre, fs, m, i);
  }

  /**
   * The baselines are one line height apart and symmetric about the block centre,
   * so the block is centred vertically.
   */
  lemma BaselinesCentred(cy: real, n: nat, fs: int, i: nat)
    requires 0 < n && i + 1 < n
    ensures Baseline(cy, n, fs, 0) + Baseline(cy, n, fs, n - 1) == 2.0 * cy
    ensures Baseline(cy, n, fs, i) - Baseline(cy, n, fs, i + 1) == LineHeight(fs)
  {
  }

  /**
   * As written, the block of two or more lines is not centred on the triangle
   * centre: the mid-point of its first and last baselines lies `n - 1` line heights
   * below it.
   */
  lemma AsWrittenBlockBelowCentre(y: real, n: nat, fs: int)
    requires 2 <= n && fs > 0
    ensures var mid := (BaselineAsWritten(y, n, fs, 0) + BaselineAsWritten(y, n, fs, n - 1)) / 2.0;
            mid == y + Height / 2.0 - (n - 1) as real * LineHeight(fs) && mid < y + Height / 2.0
  {
  }

  // ----- Font-size search and fixed-size blocks -----

  /** Whether the text, wrapped at size `fs`, is no taller than `maxHeight`. */
  predicate Fits(m: Metrics, text: string, fs: int, maxWidth: real, maxHeight: real) {
    BlockHeight(|m.wrap(text, fs as real, maxWidth)|, fs) <= maxHeight
  }

  /** The size `draw_adaptive_text` settles on, searching down from `size` to `minSize`. */
  function AdaptiveSize(m: Metrics, text: string, maxWidth: real, maxHeight: real, size: int, minSize: int): (r: Option<int>)
    ensures r.Some? ==> minSize <= r.value <= size
    decreases size - minSize
  {
    if size < minSize then None
    else if Fits(m, text, size, maxWidth, maxHeight) then Some(size)
    else AdaptiveSize(m, text, maxWidth, maxHeight, size - 1, minSize)
  }

  /**
   * The size chosen is the largest in `[minSize, size]` whose block fits; there is
   * none exactly when no size in that range fits.
   */
  lemma {:induction false} AdaptiveSizeIsLargestFit(m: Metrics, text: string, maxWidth: real, maxHeight: real, size: int, minSize: int)
    ensures var r := AdaptiveSize(m, text, maxWidth, maxHeight, size, minSize);
            r.Some? ==> Fits(m, text, r.value, maxWidth, maxHeight) &&
                        forall s :: r.value < s <= size ==> !Fits(m, text, s, maxWidth, maxHeight)
    ensures AdaptiveSize(m, text, maxWidth, maxHeight, size, minSize).None? <==>
            forall s :: minSize <= s <= size ==> !Fits(m, text, s, maxWidth, maxHeight)
    decreases size - minSize
  {
    if size >= minSize && !Fits(m, text, size, maxWidth, maxHeight) {
      AdaptiveSizeIsLargestFit(m, text, maxWidth, maxHeight, size - 1, minSize);
    }
  }

  /** What `draw_adaptive_text` records: the text wrapped at the chosen size, or nothing. */
  function AdaptiveOps(f: Frame, text: string, centre: Point, maxWidth: real, maxHeight: real,
                       maxSize: int, minSize: int, inverted: bool, m: Metrics): seq<Op>
  {
    match AdaptiveSize(m, text, maxWidth, maxHeight, maxSize, minSize)
    case None => []
    case Some(s) => TextLinesOps(f, s as real, m.wrap(text, s as real, maxWidth), centre, s, inverted, m)
  }

  /** The font size the canvas is left with: the last size tried. */
  function AdaptiveFont(old_: real, m: Metrics, text: string, maxWidth: real, maxHeight: real,
                        maxSize: int, minSize: int): real
  {
    match AdaptiveSize(m, text, maxWidth, maxHeight, maxSize, minSize)
    case Some(s) => s as real
    case None => if minSize <= maxSize then minSize as real else old_
  }

  /** `draw_adaptive_text`: sizes from `maxSize` down to `minSize`, drawing at the first that fits. */
  method DrawAdaptiveText(c: Canvas, text: string, centre: Point, maxWidth: real, maxHeight: real,
                          maxSize: int, minSize: int, inverted: bool, m: Metrics)
    modifies c
    ensures c.ops == old(c.ops) + AdaptiveOps(old(c.state.frame), text, centre, maxWidth, maxHeight, maxSize, minSize, inverted, m)
    ensures c.state == old(c.state).(fontSize := AdaptiveFont(old(c.state.fontSize), m, text, maxWidth, maxHeight, maxSize, minSize))
    ensures c.saved == old(c.saved)
  {
    var fs := maxSize;
    while fs >= minSize
      invariant fs <= maxSize && (fs >= minSize - 1 || fs == maxSize)
      invariant AdaptiveSize(m, text, maxWidth, maxHeight, maxSize, minSize) == AdaptiveSize(m, text, maxWidth, maxHeight, fs, minSize)
      invariant c.ops == old(c.ops) && c.saved == old(c.saved)
      invariant c.state == old(c.state).(fontSize := c.state.fontSize)
      invariant c.state.fontSize == if fs < maxSize then (fs + 1) as real else old(c.state.fontSize)
      decreases fs - minSize
    {
      c.SetFont(fs as real);
      var lines := m.wrap(text, fs as real, maxWidth);
      var totalHeight := |lines| as real * fs as real * 1.2;
      AdaptiveStep(m, text, maxWidth, maxHeight, fs, minSize);
      if totalHeight <= maxHeight {
        DrawFitted(c, text, centre, maxWidth, maxHeight, maxSize, minSize, inverted, m, fs, lines);
        return;
      }
      fs := fs - 1;
    }
    assert AdaptiveSize(m, text, maxWidth, maxHeight, fs, minSize) == None;
  }

  /** One turn of the search: a size that fits is taken, else the search goes on one size down. */
  lemma AdaptiveStep(m: Metrics, text: string, maxWidth: real, maxHeight: real, size: int, minSize: int)
    requires minSize <= size
    ensures AdaptiveSize(m, text, maxWidth, maxHeight, size, minSize) ==
            if Fits(m, text, size, maxWidth, maxHeight) then Some(size)
            else AdaptiveSize(m, text, maxWidth, maxHeight, size - 1, minSize)
  {
  }

  /** The drawing at the size the search settles on, with the font already set to it. */
  method DrawFitted(c: Canvas, text: string, centre: Point, maxWidth: real, maxHeight: real,
                    maxSize: int, minSize: int, inverted: bool, m: Metrics, fs: int, lines: seq<string>)
    requires AdaptiveSize(m, text, maxWidth, maxHeight, maxSize, minSize) == Some(fs)
    requires lines == m.wrap(text, fs as real, maxWidth) && c.state.fontSize == fs as real
    modifies c
    ensures c.ops == old(c.ops) + AdaptiveOps(old(c.state.frame), text, centre, maxWidth, maxHeight, maxSize, minSize, inverted, m)
    ensures c.state == old(c.state) && c.saved == old(c.saved)
  {
    DrawTextLines(c, lines, centre, fs, inverted, m);
  }

  /**
   * The search draws once, at the largest size in `[minSize, maxSize]` whose
   * wrapped block fits, every line of the text wrapped at that size; it draws
   * nothing when no size fits.
   */
  lemma AdaptiveDrawsLargestFit(f: Frame, text: string, centre: Point, maxWidth: real, maxHeight: real,
                                maxSize: int, minSize: int, inverted: bool, m: Metrics)
    ensures var r := AdaptiveSize(m, text, maxWidth, maxHeight, maxSize, minSize);
            r.None? <==> forall s :: minSize <= s <= maxSize ==> !Fits(m, text, s, maxWidth, maxHeight)
    ensures var r := AdaptiveSize(m, text, maxWidth, maxHeight, maxSize, minSize);
            var ops := AdaptiveOps(f, text, centre, maxWidth, maxHeight, maxSize, minSize, inverted, m);
            (r.None? ==> ops == []) &&
            (r.Some? ==> var lines := m.wrap(text, r.value as real, maxWidth);
                         |ops| == |lines| &&
                         forall i :: 0 <= i < |ops| ==> ops[i].Text? && ops[i].s == lines[i] && ops[i].size == r.value as real)
  {
    var r := AdaptiveSize(m, text, maxWidth, maxHeight, maxSize, minSize);
    AdaptiveSizeIsLargestFit(m, text, maxWidth, maxHeight, maxSize, minSize);
    if r.Some? {
      var s := r.value;
      var lines := m.wrap(text, s as real, maxWidth);
      var ops := AdaptiveOps(f, text, centre, maxWidth, maxHeight, maxSize, minSize, inverted, m);
      assert ops == LinesOps(TextFrame(f, centre, inverted), s as real, lines, centre, s, m);
      forall i | 0 <= i < |ops| ensures ops[i].Text? && ops[i].s == lines[i] && ops[i].size == s as real {
        LinesOpsAt(TextFrame(f, centre, inverted), s as real, lines, centre, s, m, i);
      }
    }
  }

  /**
   * The lines `draw_fixed_text` draws: the wrapped text cut to `maxLines`; if that
   * block is too tall, one line fewer (one line when `maxLines` is 1), without
   * checking the height again.
   */
  function FixedLines(m: Metrics, text: string, maxWidth: real, maxHeight: real, fs: int, maxLines: nat): seq<string> {
    var lines := Take(m.wrap(text, fs as real, maxWidth), maxLines);
    if BlockHeight(|lines|, fs) <= maxHeight then lines
    else if maxLines > 1 then Take(lines, maxLines - 1)
    else Take(lines, 1)
  }

  /**
   * The block drawn is the first lines of the wrapped text, never more than
   * `maxLines`: all that fit under the cap when that block is short enough, else
   * one line fewer than the cap allows (at least one).
   */
  lemma FixedLinesCut(m: Metrics, text: string, maxWidth: real, maxHeight: real, fs: int, maxLines: nat)
    ensures var w := m.wrap(text, fs as real, maxWidth);
            var r := FixedLines(m, text, maxWidth, maxHeight, fs, maxLines);
            |r| <= Min(|w|, maxLines) && r == w[..|r|]
    ensures var w := m.wrap(text, fs as real, maxWidth);
            var r := FixedLines(m, text, maxWidth, maxHeight, fs, maxLines);
            BlockHeight(Min(|w|, maxLines), fs) <= maxHeight ==> |r| == Min(|w|, maxLines)
    ensures var w := m.wrap(text, fs as real, maxWidth);
            var r := FixedLines(m, text, maxWidth, maxHeight, fs, maxLines);
            BlockHeight(Min(|w|, maxLines), fs) > maxHeight ==>
              |r| == Min(|w|, if maxLines > 1 then maxLines - 1 else maxLines)
  {
  }

  /** `draw_fixed_text`. */
  method DrawFixedText(c: Canvas, text: string, centre: Point, maxWidth: real, maxHeight: real,
                       fs: int, maxLines: nat, inverted: bool, m: Metrics)
    modifies c
    ensures c.ops == old(c.ops) + TextLinesOps(old(c.state.frame), fs as real,
                                               FixedLines(m, text, maxWidth, maxHeight, fs, maxLines), centre, fs, inverted, m)
    ensures c.state == old(c.state).(fontSize := fs as real) && c.saved == old(c.saved)
  {
    c.SetFont(fs as real);
    var lines := m.wrap(text, fs as real, maxWidth);
    lines := Take(lines, maxLines);
    var totalHeight := |lines| as real * fs as real * 1.2;
    if totalHeight <= maxHeight {
      DrawTextLines(c, lines, centre, fs, inverted, m);
    } else {
      lines := if maxLines > 1 then Take(lines, maxLines - 1) else Take(lines, 1);
      DrawTextLines(c, lines, centre, fs, inverted, m);
    }
  }

  /** The cut block is not checked again: a one-line cap can still overflow. */
  lemma FixedTextMayOverflow()
    ensures var m := Metrics((s: string, size: real) => 0.0, (s: string, size: real, w: real) => ["x"]);
            BlockHeight(|FixedLines(m, "x", 100.0, 10.0, 12, 1)|, 12) > 10.0
  {
    var m := Metrics((s: string, size: real) => 0.0, (s: string, size: real, w: real) => ["x"]);
    assert m.wrap("x", 12.0, 100.0) == ["x"];
  }

  // ----- Where each field goes -----

  const TextMaxWidth: real := BaseWidth - 10.0 * MM
  /** The range of sizes tried for the system name. */
  const SystemMaxSize: int := 18
  const SystemMinSize: int := 8

  /** The centre of the main field (system or cable): 0.4 of the height from the base. */
  function MainTextCentre(x: real, y: real, inverted: bool): Point {
    Point(x + BaseWidth / 2.0, y + Height * (if inverted then 0.6 else 0.4))
  }

  /** The centre of the secondary field (track or length): 5 mm from the bottom. */
  function SubTextCentre(x: real, y: real): Point {
    Point(x + BaseWidth / 2.0, y + 5.0 * MM)
  }

  /** The centre `draw_text_lines` uses for its `(x, y)` arguments as written. */
  function CentreAsWritten(x: real, y: real): Point {
    Point(x + BaseWidth / 2.0, y + Height / 2.0)
  }

  /** Whether `q` lies in the triangle of the slot at `(x, y)`. */
  predicate InsideTile(x: real, y: real, inverted: bool, q: Point) {
    var baseY := if inverted then y + Height else y;
    var d := if inverted then baseY - q.y else q.y - baseY;
    var dx := q.x - (x + BaseWidth / 2.0);
    0.0 <= d <= Height && dx * Height <= (Height - d) * BaseWidth / 2.0 && -dx * Height <= (Height - d) * BaseWidth / 2.0
  }

  /** Both text blocks are centred inside their triangle, in either orientation. */
  lemma TextCentresInsideTile(x: real, y: real, inverted: bool)
    ensures InsideTile(x, y, inverted, MainTextCentre(x, y, inverted))
    ensures InsideTile(x, y, inverted, SubTextCentre(x, y))
  {
  }

  /**
   * As written, `draw_text_lines` adds half a base and half a height to the centre
   * it is given, which puts both text blocks outside their triangle.
   */
  lemma AsWrittenTextCentresOutsideTile(x: real, y: real, inverted: bool)
    ensures var q := MainTextCentre(x, y, inverted); !InsideTile(x, y, inverted, CentreAsWritten(q.x, q.y))
    ensures var q := SubTextCentre(x, y); !InsideTile(x, y, inverted, CentreAsWritten(q.x, q.y))
  {
  }

  function FrontTextOps(f: Frame, x: real, y: real, inverted: bool, system: string, track: string, m: Metrics): seq<Op> {
    AdaptiveOps(f, system, MainTextCentre(x, y, inverted), TextMaxWidth, Height * 0.4, SystemMaxSize, SystemMinSize, inverted, m)
    + TextLinesOps(f, 12.0, FixedLines(m, track, TextMaxWidth, Height * 0.2, 12, 2), SubTextCentre(x, y), 12, inverted, m)
  }

  lemma FrontTextOpsParts(f: Frame, x: real, y: real, inverted: bool, system: string, track: string, m: Metrics)
    ensures FrontTextOps(f, x, y, inverted, system, track, m) ==
            AdaptiveOps(f, system, MainTextCentre(x, y, inverted), TextMaxWidth, Height * 0.4, SystemMaxSize, SystemMinSize, inverted, m)
            + TextLinesOps(f, 12.0, FixedLines(m, track, TextMaxWidth, Height * 0.2, 12, 2), SubTextCentre(x, y), 12, inverted, m)
  {
  }

  function BackTextOps(f: Frame, x: real, y: real, inverted: bool, cable: string, length: string, m: Metrics): seq<Op> {
    TextLinesOps(f, 12.0, FixedLines(m, cable, TextMaxWidth, Height * 0.5, 12, 3), MainTextCentre(x, y, inverted), 12, inverted, m)
    + TextLinesOps(f, 12.0, FixedLines(m, length, TextMaxWidth, Height * 0.2, 12, 1), SubTextCentre(x, y), 12, inverted, m)
  }

  lemma BackTextOpsParts(f: Frame, x: real, y: real, inverted: bool, cable: string, length: string, m: Metrics)
    ensures BackTextOps(f, x, y, inverted, cable, length, m) ==
            TextLinesOps(f, 12.0, FixedLines(m, cable, TextMaxWidth, Height * 0.5, 12, 3), MainTextCentre(x, y, inverted), 12, inverted, m)
            + TextLinesOps(f, 12.0, FixedLines(m, length, TextMaxWidth, Height * 0.2, 12, 1), SubTextCentre(x, y), 12, inverted, m)
  {
  }

  /** `draw_front_side_text`: the system name sized to fit, the track at 12 pt in two lines. */
  method DrawFrontSideText(c: Canvas, x: real, y: real, inverted: bool, system: string, track: string, m: Metrics)
    modifies c
    ensures c.ops == old(c.ops) + FrontTextOps(old(c.state.frame), x, y, inverted, system, track, m)
    ensures c.state == old(c.state).(fontSize := 12.0) && c.saved == old(c.saved)
  {
    ghost var f := c.state.frame;
    ghost var top := AdaptiveOps(f, system, MainTextCentre(x, y, inverted), TextMaxWidth, Height * 0.4, SystemMaxSize, SystemMinSize, inverted, m);
    ghost var bottom := TextLinesOps(f, 12.0, FixedLines(m, track, TextMaxWidth, Height * 0.2, 12, 2), SubTextCentre(x, y), 12, inverted, m);
    DrawAdaptiveText(c, system, MainTextCentre(x, y, inverted), TextMaxWidth, Height * 0.4, SystemMaxSize, SystemMinSize, inverted, m);
    DrawFixedText(c, track, SubTextCentre(x, y), TextMaxWidth, Height * 0.2, 12, 2, inverted, m);
    AppendAssoc(old(c.ops), top, bottom);
    FrontTextOpsParts(f, x, y, inverted, system, track, m);
  }

  /** `draw_back_side_text`: the cable in up to three lines, the length in one, both at 12 pt. */
  method DrawBackSideText(c: Canvas, x: real, y: real, inverted: bool, cable: string, length: string, m: Metrics)
    modifies c
    ensures c.ops == old(c.ops) + BackTextOps(old(c.state.frame), x, y, inverted, cable, length, m)
    ensures c.state == old(c.state).(fontSize := 12.0) && c.saved == old(c.saved)
  {
    ghost var f := c.state.frame;
    ghost var top := TextLinesOps(f, 12.0, FixedLines(m, cable, TextMaxWidth, Height * 0.5, 12, 3), MainTextCentre(x, y, inverted), 12, inverted, m);
    ghost var bottom := TextLinesOps(f, 12.0, FixedLines(m, length, TextMaxWidth, Height * 0.2, 12, 1), SubTextCentre(x, y), 12, inverted, m);
    DrawFixedText(c, cable, MainTextCentre(x, y, inverted), TextMaxWidth, Height * 0.5, 12, 3, inverted, m);
    DrawFixedText(c, length, SubTextCentre(x, y), TextMaxWidth, Height * 0.2, 12, 1, inverted, m);
    AppendAssoc(old(c.ops), top, bottom);
    BackTextOpsParts(f, x, y, inverted, cable, length, m);
  }

  function TileTextOps(f: Frame, x: real, y: real, inverted: bool, system: string, track: string,
                       cable: string, length: string, front: bool, m: Metrics): seq<Op>
  {
    if front then FrontTextOps(f, x, y, inverted, system, track, m)
    else BackTextOps(f, x, y, inverted, cable, length, m)
  }

  /** `draw_text_in_triangle`: the front shows system and track, the back cable and length. */
  method DrawTextInTriangle(c: Canvas, x: real, y: real, inverted: bool, system: string, track: string,
                            cable: string, length: string, front: bool, m: Metrics)
    modifies c
    ensures c.ops == old(c.ops) + TileTextOps(old(c.state.frame), x, y, inverted, system, track, cable, length, front, m)
    ensures c.state == old(c.state).(fontSize := 12.0) && c.saved == old(c.saved)
  {
    if front {
      DrawFrontSideText(c, x, y, inverted, system, track, m);
    } else {
      DrawBackSideText(c, x, y, inverted, cable, length, m);
    }
  }

  lemma LinesOpsNoBreaks(g: Frame, size: real, lines: seq<string>, centre: Point, fs: int, m: Metrics)
    ensures NoBreaks(LinesOps(g, size, lines, centre, fs, m))
  {
    forall i | 0 <= i < |lines| ensures !LinesOps(g, size, lines, centre, fs, m)[i].PageBreak? {
      LinesOpsAt(g, size, lines, centre, fs, m, i);
    }
  }

  /** Text never ends a page: no record of a triangle's text is a page break. */
  lemma TileTextHasNoBreaks(f: Frame, x: real, y: real, inverted: bool, system: string, track: string,
                            cable: string, length: string, front: bool, m: Metrics)
    ensures NoBreaks(TileTextOps(f, x, y, inverted, system, track, cable, length, front, m))
  {
    var sub := SubTextCentre(x, y);
    var main := MainTextCentre(x, y, inverted);
    if front {
      FrontTextOpsParts(f, x, y, inverted, system, track, m);
      var lines := FixedLines(m, track, TextMaxWidth, Height * 0.2, 12, 2);
      LinesOpsNoBreaks(TextFrame(f, sub, inverted), 12.0, lines, sub, 12, m);
      match AdaptiveSize(m, system, TextMaxWidth, Height * 0.4, SystemMaxSize, SystemMinSize)
      case None =>
        NoBreaksAppend([], TextLinesOps(f, 12.0, lines, sub, 12, inverted, m));
      case Some(s) =>
        LinesOpsNoBreaks(TextFrame(f, main, inverted), s as real, m.wrap(system, s as real, TextMaxWidth), main, s, m);
        NoBreaksAppend(AdaptiveOps(f, system, main, TextMaxWidth, Height * 0.4, SystemMaxSize, SystemMinSize, inverted, m),
                       TextLinesOps(f, 12.0, lines, sub, 12, inverted, m));
    } else {
      BackTextOpsParts(f, x, y, inverted, cable, length, m);
      var top := FixedLines(m, cable, TextMaxWidth, Height * 0.5, 12, 3);
      var bottom := FixedLines(m, length, TextMaxWidth, Height * 0.2, 12, 1);
      LinesOpsNoBreaks(TextFrame(f, main, inverted), 12.0, top, main, 12, m);
      LinesOpsNoBreaks(TextFrame(f, sub, inverted), 12.0, bottom, sub, 12, m);
      NoBreaksAppend(TextLinesOps(f, 12.0, top, main, 12, inverted, m), TextLinesOps(f, 12.0, bottom, sub, 12, inverted, m));
    }
  }
}
