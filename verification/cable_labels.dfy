/**
 * The document build of the cable-label generator: find the five columns by their
 * exact header names, repeat each row as many times as its quantity says, and
 * print the labels twenty-five to a sheet, a front page (system over track) then a
 * back page (cable over length) with every label in the same slot on both, while
 * a progress bar counts the printed sides.
 */
module CableLabels {
  import opened Basics
  import opened Text
  import opened Drawing
  import opened Records
  import opened CableText
  import Columns

  // ----- One label -----

  /** The three sides of a label's outline, stroked at the outline width. */
  function OutlineOps(f: Frame, t: Triangle): seq<Op> {
    [Segment(OutlineWidth, f.Apply(t.left), f.Apply(t.right)),
     Segment(OutlineWidth, f.Apply(t.right), f.Apply(t.apex)),
     Segment(OutlineWidth, f.Apply(t.apex), f.Apply(t.left))]
  }

  /** The lines of the main text, at the size the cascade picks. */
  function MainOps(f: Frame, s: CardSlot, mainText: string, back: bool, m: Metrics): seq<Op> {
    var fs := MainFontSize(back, mainText);
    CentredLines(CardTextFrame(f, s), s.cx, MainLines(back, mainText), MainBaselines(back, MainY(s), fs), fs, m)
  }

  /** The lines of the sub-text, at its fixed size. */
  function SubOps(f: Frame, s: CardSlot, subText: string, subSize: real, m: Metrics): seq<Op> {
    var lines := SubLines(subText);
    CentredLines(CardTextFrame(f, s), s.cx, lines, SubBaselines(SubY(s), subSize, |lines|), subSize, m)
  }

  /** What `draw_triangle` records: the outline, the main lines, then the sub-text lines. */
  function CardOps(f: Frame, s: CardSlot, mainText: string, subText: string, subSize: real, back: bool, m: Metrics): seq<Op> {
    OutlineOps(f, Corners(s)) + MainOps(f, s, mainText, back, m) + SubOps(f, s, subText, subSize, m)
  }

  /** A loop of `draw_triangle`: each line centred on `cx` on its own baseline, at the current font. */
  method DrawCentredLines(c: Canvas, cx: real, lines: seq<string>, ys: seq<real>, size: real, m: Metrics)
    requires |lines| <= |ys| && c.state.fontSize == size
    modifies c
    ensures c.ops == old(c.ops) + CentredLines(old(c.state.frame), cx, lines, ys, size, m)
    ensures c.state == old(c.state) && c.saved == old(c.saved)
  {
    ghost var g := c.state.frame;
    for j := 0 to |lines|
      invariant c.ops == old(c.ops) + CentredLines(g, cx, lines[..j], ys, size, m)
      invariant c.state == old(c.state) && c.saved == old(c.saved)
    {
      var tw := m.width(lines[j], size);
      CentredLinesSnoc(g, cx, lines, ys, size, m, j);
      c.DrawString(cx - tw / 2.0, ys[j], lines[j]);
    }
    assert lines[..|lines|] == lines;
  }

  /**
   * `draw_triangle`: the thick outline, then the text. The outline width stays set
   * afterwards.
   */
  method DrawCard(c: Canvas, s: CardSlot, mainText: string, subText: string, subSize: real, back: bool, m: Metrics)
    modifies c
    ensures c.ops == old(c.ops) + CardOps(old(c.state.frame), s, mainText, subText, subSize, back, m)
    ensures c.state == old(c.state).(lineWidth := OutlineWidth) && c.saved == old(c.saved)
  {
    ghost var f := c.state.frame;
    var points := Corners(s);
    c.SetLineWidth(OutlineWidth);
    c.DrawLines([(points.left, points.right), (points.right, points.apex), (points.apex, points.left)]);
    ghost var outline := OutlineOps(f, points);
    assert c.ops == old(c.ops) + outline;
    ghost var text := MainOps(f, s, mainText, back, m) + SubOps(f, s, subText, subSize, m);
    DrawCardText(c, s, mainText, subText, subSize, back, m);
    AppendAssoc(old(c.ops), outline, text);
    CardOpsParts(f, s, mainText, subText, subSize, back, m);
  }

  /**
   * The text part of `draw_triangle`: between a save and a restore, and turned half
   * about the middle of the base when the label is upside down, the main lines at
   * the size the cascade picks, then the sub-text lines.
   */
  method DrawCardText(c: Canvas, s: CardSlot, mainText: string, subText: string, subSize: real, back: bool, m: Metrics)
    modifies c
    ensures c.ops == old(c.ops) + (MainOps(old(c.state.frame), s, mainText, back, m) + SubOps(old(c.state.frame), s, subText, subSize, m))
    ensures c.state == old(c.state) && c.saved == old(c.saved)
  {
    ghost var f := c.state.frame;
    var dyMain := CardHeight * 0.35;
    var dySub := CardHeight * 0.1;
    c.SaveState();
    var yMain, ySub;
    if s.upsideDown {
      c.RotateHalfTurnAbout(Point(s.cx, s.yb));
      yMain := s.yb + dyMain;
      ySub := s.yb + dySub;
    } else {
      var baseY := s.yb - CardHeight;
      yMain := baseY + dyMain;
      ySub := baseY + dySub;
    }
    assert c.state.frame == CardTextFrame(f, s) && yMain == MainY(s) && ySub == SubY(s);
    var fs := MainFontSize(back, mainText);
    var lines := MainLines(back, mainText);
    var yPositions := MainBaselines(back, yMain, fs);
    c.SetFont(fs);
    ghost var main := MainOps(f, s, mainText, back, m);
    DrawCentredLines(c, s.cx, lines, yPositions, fs, m);
    assert c.ops == old(c.ops) + main;
    c.SetFont(subSize);
    var wrappedSub := SubLines(subText);
    ghost var sub := SubOps(f, s, subText, subSize, m);
    DrawCentredLines(c, s.cx, wrappedSub, SubBaselines(ySub, subSize, |wrappedSub|), subSize, m);
    assert c.ops == (old(c.ops) + main) + sub;
    c.RestoreState();
    AppendAssoc(old(c.ops), main, sub);
  }

  lemma CardOpsParts(f: Frame, s: CardSlot, mainText: string, subText: string, subSize: real, back: bool, m: Metrics)
    ensures CardOps(f, s, mainText, subText, subSize, back, m) ==
            OutlineOps(f, Corners(s)) + MainOps(f, s, mainText, back, m) + SubOps(f, s, subText, subSize, m)
  {
  }

  /** On an unturned page the outline runs around the label's three corners. */
  lemma OutlineOnCorners(s: CardSlot)
    ensures var t := Corners(s);
            OutlineOps(Identity, t) == [Segment(OutlineWidth, t.left, t.right), Segment(OutlineWidth, t.right, t.apex),
                                        Segment(OutlineWidth, t.apex, t.left)]
  {
  }

  /**
   * On an unturned page every main line reads upside down exactly when the label does, is centred on
   * the label's axis, and lies 35% of the height from the base toward the apex;
   * on the back the two cable lines lie half a font size either side of that, the
   * first one farther from the base, so that they read in order.
   */
  lemma MainTextPlacement(s: CardSlot, mainText: string, back: bool, m: Metrics, j: nat)
    requires j < |MainLines(back, mainText)|
    ensures var op := MainOps(Identity, s, mainText, back, m)[j];
            var line := MainLines(back, mainText)[j];
            var fs := MainFontSize(back, mainText);
            op.Text? && op.s == line && op.size == fs && op.upsideDown == s.upsideDown &&
            (if op.upsideDown then op.at.x - m.width(line, fs) / 2.0 else op.at.x + m.width(line, fs) / 2.0) == s.cx &&
            Inward(s, op.at.y) == CardHeight * 0.35 + (if !back then 0.0 else if j == 0 then fs * 0.5 else -fs * 0.5)
  {
    var fs := MainFontSize(back, mainText);
    var lines := MainLines(back, mainText);
    var ys := MainBaselines(back, MainY(s), fs);
    assert ys[j] == MainY(s) + (if !back then 0.0 else if j == 0 then fs * 0.5 else -fs * 0.5);
    assert MainOps(Identity, s, mainText, back, m) == CentredLines(CardTextFrame(Identity, s), s.cx, lines, ys, fs, m);
    CentredLinesPlacement(s, lines, ys, fs, m, j);
  }

  /**
   * Every sub-text line is centred on the label's axis and reads the way the label
   * does; the first lies 10% of the height from the base, and each further line
   * 1.4 font sizes nearer the base.
   */
  lemma SubTextPlacement(s: CardSlot, subText: string, subSize: real, m: Metrics, j: nat)
    requires j < |SubLines(subText)|
    ensures var op := SubOps(Identity, s, subText, subSize, m)[j];
            var line := SubLines(subText)[j];
            op.Text? && op.s == line && op.size == subSize && op.upsideDown == s.upsideDown &&
            (if op.upsideDown then op.at.x - m.width(line, subSize) / 2.0 else op.at.x + m.width(line, subSize) / 2.0) == s.cx &&
            Inward(s, op.at.y) == CardHeight * 0.1 - j as real * (subSize * 1.4)
  {
    var lines := SubLines(subText);
    var ys := SubBaselines(SubY(s), subSize, |lines|);
    var step := j as real * (subSize * 1.4);
    assert ys[j] == SubY(s) - step;
    assert SubOps(Identity, s, subText, subSize, m) == CentredLines(CardTextFrame(Identity, s), s.cx, lines, ys, subSize, m);
    CentredLinesPlacement(s, lines, ys, subSize, m, j);
  }

  /**
   * A track or length label of thirty characters or more gets a second line whose
   * baseline lies beyond the label's base, in the neighbouring row.
   */
  lemma SecondSubLineBeyondBase(s: CardSlot, subText: string, m: Metrics)
    requires |subText| >= SubLineChars
    ensures |SubOps(Identity, s, subText, FontTrack, m)| == 2
    ensures Inward(s, SubOps(Identity, s, subText, FontTrack, m)[1].at.y) < 0.0
  {
    SubLinesCut(subText);
    SubTextPlacement(s, subText, FontTrack, m, 1);
  }

  // ----- One page -----

  /** The label of tag `t` in the `count`-th slot of a page, on the front or the back. */
  function LabelOps(f: Frame, count: nat, t: Tag, back: bool, m: Metrics): seq<Op> {
    CardOps(f, SlotOf(count, back), if back then t.cable else t.system,
            if back then LengthLabel(t.length) else t.track, if back then FontLength else FontTrack, back, m)
  }

  /** The labels of tags `start` to `start + k - 1`, in slots `0` to `k - 1`. */
  function CardsOps(f: Frame, data: seq<Tag>, start: nat, back: bool, m: Metrics, k: nat): seq<Op>
    requires k == 0 || start + k <= |data|
  {
    if k == 0 then []
    else CardsOps(f, data, start, back, m, k - 1) + LabelOps(f, k - 1, data[start + k - 1], back, m)
  }

  /** How many labels the page starting at tag `start` holds: up to twenty-five, and none past the end. */
  function CardsOnPage(start: nat, n: nat): (k: nat)
    ensures k <= CardsPerPage && (k == 0 || start + k <= n)
    ensures start < n ==> k > 0 && (start + k == n || k == CardsPerPage)
  {
    if start >= n then 0 else Min(CardsPerPage, n - start)
  }

  /** What `draw_page` records for the page starting at tag `start`. */
  function PageOps(f: Frame, data: seq<Tag>, start: nat, back: bool, m: Metrics): seq<Op> {
    CardsOps(f, data, start, back, m, CardsOnPage(start, |data|))
  }

  /** The tags of the page starting at tag `start`. */
  function PageTags(data: seq<Tag>, start: nat): (r: seq<Tag>)
    ensures |r| == CardsOnPage(start, |data|)
    ensures r != [] ==> start + |r| <= |data| && r == data[start..start + |r|]
  {
    if start >= |data| then [] else data[start..start + CardsOnPage(start, |data|)]
  }

  /** `labels[j]` is what the `j`-th tag of `tags` records in the `j`-th slot. */
  predicate LabelsOf(labels: seq<seq<Op>>, f: Frame, tags: seq<Tag>, back: bool, m: Metrics) {
    |labels| == |tags| &&
    forall j {:trigger LabelOps(f, j, tags[j], back, m)} :: 0 <= j < |tags| ==> labels[j] == LabelOps(f, j, tags[j], back, m)
  }

  lemma PageLabels(f: Frame, tags: seq<Tag>, back: bool, m: Metrics) returns (labels: seq<seq<Op>>)
    ensures LabelsOf(labels, f, tags, back, m)
  {
    labels := seq(|tags|, j requires 0 <= j < |tags| => LabelOps(f, j, tags[j], back, m));
  }

  /** The labels of a page, drawn one after the other, are the page's records. */
  lemma {:induction false} CardsOpsFlatten(f: Frame, data: seq<Tag>, start: nat, back: bool, m: Metrics, k: nat,
                                           tags: seq<Tag>, labels: seq<seq<Op>>)
    requires k <= |tags| && start + |tags| <= |data| && tags == data[start..start + |tags|]
    requires LabelsOf(labels, f, tags, back, m)
    ensures CardsOps(f, data, start, back, m, k) == Flatten(labels[..k])
  {
    if k > 0 {
      CardsOpsFlatten(f, data, start, back, m, k - 1, tags, labels);
      FlattenPrefix(labels, k - 1);
      assert tags[k - 1] == data[start + k - 1];
      assert labels[k - 1] == LabelOps(f, k - 1, tags[k - 1], back, m);
    }
  }

  /**
   * `draw_page`: the tags from `start_index` on, at most twenty-five, the `count`-th
   * in the `count`-th slot; the system and track on the front, the cable and the
   * length label on the back.
   */
  method DrawPage(c: Canvas, data: seq<Tag>, startIndex: nat, back: bool, m: Metrics)
    modifies c
    ensures c.ops == old(c.ops) + PageOps(old(c.state.frame), data, startIndex, back, m)
    ensures c.state == if CardsOnPage(startIndex, |data|) == 0 then old(c.state)
                       else old(c.state).(lineWidth := OutlineWidth)
    ensures c.saved == old(c.saved)
  {
    ghost var f := c.state.frame;
    ghost var tags := PageTags(data, startIndex);
    ghost var labels := PageLabels(f, tags, back, m);
    var count := 0;
    var i := startIndex;
    while i < Min(startIndex + CardsPerPage, |data|)
      invariant count == i - startIndex && count <= |tags|
      invariant c.ops == old(c.ops) + Flatten(labels[..count])
      invariant c.state.frame == f && c.saved == old(c.saved)
      invariant c.state == if count == 0 then old(c.state) else old(c.state).(lineWidth := OutlineWidth)
    {
      DrawNext(c, data[i], count, back, m, tags, labels, old(c.ops));
      count := count + 1;
      i := i + 1;
    }
    PageEnds(startIndex, |data|, count);
    if tags != [] {
      CardsOpsFlatten(f, data, startIndex, back, m, count, tags, labels);
      assert labels[..count] == labels;
    }
  }

  /** `draw_page`'s loop stops after the last label of the page. */
  lemma PageEnds(start: nat, n: nat, count: nat)
    requires count <= CardsOnPage(start, n) && !(start + count < Min(start + CardsPerPage, n))
    ensures count == CardsOnPage(start, n)
  {
  }

  /** The labels drawn so far on a page, then the next one. */
  method DrawNext(c: Canvas, t: Tag, count: nat, back: bool, m: Metrics,
                  ghost tags: seq<Tag>, ghost labels: seq<seq<Op>>, ghost base: seq<Op>)
    requires count < |tags| && t == tags[count] && LabelsOf(labels, c.state.frame, tags, back, m)
    requires c.ops == base + Flatten(labels[..count])
    modifies c
    ensures c.ops == base + Flatten(labels[..count + 1])
    ensures c.state == old(c.state).(lineWidth := OutlineWidth) && c.saved == old(c.saved)
  {
    ghost var f := c.state.frame;
    DrawLabel(c, t, count, back, m);
    assert labels[count] == LabelOps(f, count, tags[count], back, m);
    FlattenPrefix(labels, count);
    AppendAssoc(base, Flatten(labels[..count]), labels[count]);
  }

  /** One turn of `draw_page`'s loop: tag `t` in the `count`-th slot. */
  method DrawLabel(c: Canvas, t: Tag, count: nat, back: bool, m: Metrics)
    modifies c
    ensures c.ops == old(c.ops) + LabelOps(old(c.state.frame), count, t, back, m)
    ensures c.state == old(c.state).(lineWidth := OutlineWidth) && c.saved == old(c.saved)
  {
    var shiftX := if back then PrinterOffsetX else 0.0;
    var col := count % MaxCols;
    var row := count / MaxCols;
    SlotOfParts(count, back, col, row, shiftX);
    var centerX := XCenters[col] + shiftX;
    var yBase := YStart + row as real * CardHeight;
    var isUpsideDown := col % 2 == 1;
    var mainText, subText, subFontSize;
    if back {
      mainText := t.cable;
      subText := LengthLabel(t.length);
      subFontSize := FontLength;
    } else {
      mainText := t.system;
      subText := t.track;
      subFontSize := FontTrack;
    }
    DrawCard(c, CardSlot(centerX, yBase, isUpsideDown), mainText, subText, subFontSize, back, m);
  }

  lemma SlotOfParts(count: nat, back: bool, col: nat, row: nat, shiftX: real)
    requires col == count % MaxCols && row == count / MaxCols && shiftX == if back then PrinterOffsetX else 0.0
    ensures col < |XCenters|
    ensures SlotOf(count, back) == CardSlot(XCenters[col] + shiftX, YStart + row as real * CardHeight, col % 2 == 1)
  {
    ColRowDivMod(count);
  }

  // ----- The document -----

  /** `math.ceil(n / 25)`: the sheets a list of `n` tags needs. */
  function PageCount(n: nat): nat {
    CeilDiv(n, CardsPerPage)
  }

  /** The first tag of sheet `p`. */
  function PageStart(p: nat): nat {
    p * CardsPerPage
  }

  /** A sheet starts inside the tag list exactly when it is one of the document's sheets. */
  lemma PageStarts(n: nat, p: nat)
    ensures PageStart(p) < n <==> p < PageCount(n)
  {
    CeilDivBounds(n, CardsPerPage);
    var q := PageCount(n);
    if p < q {
      assert p * CardsPerPage <= (q - 1) * CardsPerPage;
    } else {
      assert p * CardsPerPage >= q * CardsPerPage;
    }
  }

  /**
   * The sheets tile the tag list: each holds at least one tag, each but the last
   * exactly twenty-five, and the last ends at the last tag.
   */
  lemma PagesTileCards(n: nat, p: nat)
    requires p < PageCount(n)
    ensures 0 < CardsOnPage(PageStart(p), n)
    ensures p < PageCount(n) - 1 ==> PageStart(p) + CardsOnPage(PageStart(p), n) == PageStart(p + 1)
    ensures p == PageCount(n) - 1 ==> PageStart(p) + CardsOnPage(PageStart(p), n) == n
  {
    PageStarts(n, p);
    PageStarts(n, p + 1);
    assert PageStart(p + 1) == PageStart(p) + CardsPerPage;
  }

  /** One sheet: the front page, a break, the back page, and a break unless the tags run out. */
  function SheetOps(data: seq<Tag>, p: nat, m: Metrics): seq<Op> {
    var start := PageStart(p);
    SheetLayout(PageOps(Identity, data, start, false, m), PageOps(Identity, data, start, true, m), true,
                start + CardsPerPage < |data|)
  }

  /**
   * The records of every sheet, sheet by sheet: the `while` loop of main_test.py's
   * `generate`, twenty-five labels to a sheet.
   */
  function Sheets(data: seq<Tag>, m: Metrics): (r: seq<seq<Op>>)
    ensures |r| == PageCount(|data|)
  {
    seq(PageCount(|data|), p requires 0 <= p < PageCount(|data|) => SheetOps(data, p, m))
  }

  /** The whole document for a tag list. */
  function DocumentOps(data: seq<Tag>, m: Metrics): seq<Op> {
    Flatten(Sheets(data, m))
  }

  /** Where the five columns are. */
  datatype ColumnIndex = ColumnIndex(system: nat, track: nat, cable: nat, length: nat, quantity: nat)

  /** Why no document is made: `headers.index` found no such header. */
  datatype LabelError = HeaderMissing(name: string)

  /** The header names looked up, in order; the length column is spelled as the sheets spell it. */
  const ColumnNames: seq<string> := ["system", "track", "cable", "lenght", "quantity"]

  /** The first of `names` that `headers` lacks. */
  function FirstMissing(headers: seq<string>, names: seq<string>): (r: Option<string>)
    ensures r.None? <==> forall i :: 0 <= i < |names| ==> names[i] in headers
    ensures r.Some? ==> exists k :: 0 <= k < |names| && names[k] == r.value && r.value !in headers &&
                                    forall i :: 0 <= i < k ==> names[i] in headers
  {
    if names == [] then None
    else if names[0] !in headers then Some(names[0])
    else
      var r := FirstMissing(headers, names[1..]);
      if r.Some? then
        var k :| 0 <= k < |names[1..]| && names[1..][k] == r.value && r.value !in headers &&
                 forall i :: 0 <= i < k ==> names[1..][i] in headers;
        assert names[k + 1] == r.value && forall i :: 0 <= i < k + 1 ==> names[i] in headers;
        r
      else r
  }

  /** `headers.index` for the five names, in order, stopping at the first missing one. */
  function FindColumns(headers: seq<string>): (r: Result<ColumnIndex, LabelError>)
    ensures r.Success? ==>
      var ix := r.value;
      ix.system < |headers| && ix.track < |headers| && ix.cable < |headers| && ix.length < |headers| && ix.quantity < |headers| &&
      headers[ix.system] == "system" && "system" !in headers[..ix.system] &&
      headers[ix.track] == "track" && "track" !in headers[..ix.track] &&
      headers[ix.cable] == "cable" && "cable" !in headers[..ix.cable] &&
      headers[ix.length] == "lenght" && "lenght" !in headers[..ix.length] &&
      headers[ix.quantity] == "quantity" && "quantity" !in headers[..ix.quantity]
  {
    match Columns.IndexOf(headers, "system")
    case None => Failure(HeaderMissing("system"))
    case Some(system) =>
      match Columns.IndexOf(headers, "track")
      case None => Failure(HeaderMissing("track"))
      case Some(track) =>
        match Columns.IndexOf(headers, "cable")
        case None => Failure(HeaderMissing("cable"))
        case Some(cable) =>
          match Columns.IndexOf(headers, "lenght")
          case None => Failure(HeaderMissing("lenght"))
          case Some(length) =>
            match Columns.IndexOf(headers, "quantity")
            case None => Failure(HeaderMissing("quantity"))
            case Some(quantity) => Success(ColumnIndex(system, track, cable, length, quantity))
  }

  /** The lookup fails exactly when a name is missing, and then names the first missing one. */
  lemma FindColumnsMeaning(headers: seq<string>)
    ensures FindColumns(headers).Failure? <==> FirstMissing(headers, ColumnNames).Some?
    ensures FindColumns(headers).Failure? ==> FindColumns(headers).error.name == FirstMissing(headers, ColumnNames).value
  {
    var names := ColumnNames;
    assert names[0] == "system" && names[1] == "track" && names[2] == "cable" && names[3] == "lenght" && names[4] == "quantity";
    assert names[1..][1..][1..][1..][1..] == [];
  }

  /** `str(value or "").strip()`: the cell's text, empty when its value is false. */
  function CellText(c: Cell): (r: string)
    ensures Trimmed(r)
    ensures c.falsy ==> r == ""
    ensures !c.falsy ==> exists i, j :: 0 <= i <= j <= |c.text| && r == c.text[i..j] && IsBlank(c.text[..i]) && IsBlank(c.text[j..])
  {
    StripMeaning(if c.falsy then "" else c.text);
    StripKeepsMiddle(c.text);
    Strip(if c.falsy then "" else c.text)
  }

  /** `int(value)`, or one when `int()` raises. */
  function Quantity(a: Amount): int {
    match a
    case Whole(n) => n
    case _ => 1
  }

  /** Every row reaches every column the index names. */
  predicate RowsFit(rows: seq<seq<Cell>>, ix: ColumnIndex) {
    forall i :: 0 <= i < |rows| ==> RowFits(rows[i], ix)
  }

  predicate RowFits(row: seq<Cell>, ix: ColumnIndex) {
    ix.system < |row| && ix.track < |row| && ix.cable < |row| && ix.length < |row| && ix.quantity < |row|
  }

  /** The tag a row prints. */
  function TagOfRow(row: seq<Cell>, ix: ColumnIndex): Tag
    requires RowFits(row, ix)
  {
    Tag(CellText(row[ix.system]), CellText(row[ix.track]), CellText(row[ix.cable]), CellText(row[ix.length]))
  }

  function Copies(row: seq<Cell>, ix: ColumnIndex): int
    requires RowFits(row, ix)
  {
    Quantity(row[ix.quantity].amount)
  }

  /** The tag list: each row's tag, as many times as its quantity says. */
  function Cards(rows: seq<seq<Cell>>, ix: ColumnIndex): seq<Tag>
    requires RowsFit(rows, ix)
  {
    if rows == [] then []
    else
      var last := rows[|rows| - 1];
      Cards(rows[..|rows| - 1], ix) + Replicate(TagOfRow(last, ix), Copies(last, ix))
  }

  /** The number of tags the quantities ask for; a quantity below one asks for none. */
  function TotalCards(rows: seq<seq<Cell>>, ix: ColumnIndex): nat
    requires RowsFit(rows, ix)
  {
    if rows == [] then 0
    else TotalCards(rows[..|rows| - 1], ix) + Max(Copies(rows[|rows| - 1], ix), 0)
  }

  /**
   * The tag list holds as many tags as the quantities ask for, and each of them is
   * the tag of a row whose quantity is at least one.
   */
  lemma {:induction false} CardsMeaning(rows: seq<seq<Cell>>, ix: ColumnIndex)
    requires RowsFit(rows, ix)
    ensures |Cards(rows, ix)| == TotalCards(rows, ix)
    ensures forall t :: t in Cards(rows, ix) ==>
              exists i :: 0 <= i < |rows| && RowFits(rows[i], ix) && t == TagOfRow(rows[i], ix) && Copies(rows[i], ix) > 0
    decreases |rows|
  {
    if rows != [] {
      var init := rows[..|rows| - 1];
      var last := rows[|rows| - 1];
      assert forall i :: 0 <= i < |init| ==> init[i] == rows[i];
      CardsMeaning(init, ix);
      var copies := Replicate(TagOfRow(last, ix), Copies(last, ix));
      forall t | t in Cards(rows, ix)
        ensures exists i :: 0 <= i < |rows| && RowFits(rows[i], ix) && t == TagOfRow(rows[i], ix) && Copies(rows[i], ix) > 0
      {
        if t in Cards(init, ix) {
          var i :| 0 <= i < |init| && RowFits(init[i], ix) && t == TagOfRow(init[i], ix) && Copies(init[i], ix) > 0;
          assert rows[i] == init[i];
        } else {
          assert t in copies;
          var k :| 0 <= k < |copies| && copies[k] == t;
          assert rows[|rows| - 1] == last;
        }
      }
    }
  }

  lemma RowsFitPrefix(rows: seq<seq<Cell>>, ix: ColumnIndex, r: nat)
    requires RowsFit(rows, ix) && r <= |rows|
    ensures RowsFit(rows[..r], ix)
  {
    assert forall i :: 0 <= i < r ==> rows[..r][i] == rows[i];
  }

  lemma CardsSnoc(rows: seq<seq<Cell>>, ix: ColumnIndex, r: nat)
    requires RowsFit(rows, ix) && r < |rows|
    ensures RowsFit(rows[..r + 1], ix) && RowsFit(rows[..r], ix)
    ensures Cards(rows[..r + 1], ix) == Cards(rows[..r], ix) + Replicate(TagOfRow(rows[r], ix), Copies(rows[r], ix))
  {
    RowsFitPrefix(rows, ix, r);
    RowsFitPrefix(rows, ix, r + 1);
    var upto := rows[..r + 1];
    assert upto[..r] == rows[..r];
  }

  /** The row loop of `generate`: each row's stripped texts, repeated `quantity` times. */
  method ReadRows(rows: seq<seq<Cell>>, ix: ColumnIndex) returns (data: seq<Tag>)
    requires RowsFit(rows, ix)
    ensures data == Cards(rows, ix)
  {
    data := [];
    for r := 0 to |rows|
      invariant RowsFit(rows[..r], ix)
      invariant data == Cards(rows[..r], ix)
    {
      var row := rows[r];
      var system := CellText(row[ix.system]);
      var track := CellText(row[ix.track]);
      var cable := CellText(row[ix.cable]);
      var lengthVal := CellText(row[ix.length]);
      var qty: int;
      match row[ix.quantity].amount {
        case Whole(n) => qty := n;
        case Missing => qty := 1;
        case NotANumber => qty := 1;
      }
      var tag := Tag(system, track, cable, lengthVal);
      assert tag == TagOfRow(rows[r], ix) && qty == Copies(rows[r], ix);
      CardsSnoc(rows, ix, r);
      data := AppendCopies(data, tag, qty);
    }
    assert rows[..|rows|] == rows;
  }

  /** The inner loop of `generate`'s row loop: `qty` copies of `tag` appended; none when `qty` is below one. */
  method AppendCopies(data: seq<Tag>, tag: Tag, qty: int) returns (r: seq<Tag>)
    ensures r == data + Replicate(tag, qty)
  {
    r := data;
    var k := 0;
    while k < qty
      invariant r == data + Replicate(tag, Max(k, 0))
      invariant k <= Max(qty, 0)
    {
      r := r + [tag];
      k := k + 1;
      ReplicateSnoc(tag, k);
    }
    assert Max(k, 0) == Max(qty, 0);
    ReplicateMax(tag, qty);
  }

  /** What the spreadsheet reader guarantees: every row has a cell under every header. */
  predicate Rectangular(headers: seq<string>, rows: seq<seq<Cell>>) {
    forall i :: 0 <= i < |rows| ==> |rows[i]| == |headers|
  }

  lemma RectangularFits(headers: seq<string>, rows: seq<seq<Cell>>, ix: ColumnIndex)
    requires Rectangular(headers, rows) && FindColumns(headers) == Success(ix)
    ensures RowsFit(rows, ix)
  {
  }

  /** The tag list `generate` builds, or the header it could not find. */
  function LabelCards(headers: seq<string>, rows: seq<seq<Cell>>): Result<seq<Tag>, LabelError>
    requires Rectangular(headers, rows)
  {
    match FindColumns(headers)
    case Failure(e) => Failure(e)
    case Success(ix) =>
      RectangularFits(headers, rows, ix);
      Success(Cards(rows, ix))
  }

  /** The document `generate` saves, or the header it could not find. */
  function LabelsDocument(headers: seq<string>, rows: seq<seq<Cell>>, m: Metrics): Result<seq<Op>, LabelError>
    requires Rectangular(headers, rows)
  {
    match LabelCards(headers, rows)
    case Failure(e) => Failure(e)
    case Success(data) => Success(DocumentOps(data, m))
  }

  /** The progress bar's maximum as `generate` sets it: two sides per tag. */
  function ProgressMaximumAsWritten(n: nat): nat {
    2 * n
  }

  /** The progress bar's maximum: two sides per sheet, one step per side printed. */
  function ProgressMaximum(n: nat): nat {
    2 * PageCount(n)
  }

  /** As written, two or more tags leave the bar short of its maximum when the last side is printed. */
  lemma AsWrittenProgressFallsShort(n: nat)
    requires n >= 2
    ensures ProgressMaximum(n) < ProgressMaximumAsWritten(n)
  {
    CeilDivBounds(n, CardsPerPage);
  }

  /** Two tags: one sheet, so the bar stops at 2 of 4. */
  lemma AsWrittenTwoTagsHalfway()
    ensures ProgressMaximum(2) == 2 && ProgressMaximumAsWritten(2) == 4
  {
  }

  class LabelApp {
    var progressValue: int
    var progressMaximum: int

    /** The bar as the widget starts: empty, out of a hundred. */
    constructor ()
      ensures progressValue == 0 && progressMaximum == 100
    {
      progressValue := 0;
      progressMaximum := 100;
    }

    /**
     * `generate`: look the columns up, read the rows, then print sheet after sheet
     * until the tags run out, advancing the bar once per printed side; with the
     * maximum set to the number of sides the bar ends full.
     */
    method Generate(headers: seq<string>, rows: seq<seq<Cell>>, m: Metrics) returns (result: Result<seq<Op>, LabelError>)
      requires Rectangular(headers, rows)
      modifies this
      ensures result == LabelsDocument(headers, rows, m)
      ensures result.Failure? ==> progressValue == old(progressValue) && progressMaximum == old(progressMaximum)
      ensures result.Success? ==>
        progressMaximum == ProgressMaximum(|LabelCards(headers, rows).value|) && progressValue == progressMaximum
    {
      var columns := FindColumns(headers);
      if columns.Failure? {
        return Failure(columns.error);
      }
      var ix := columns.value;
      RectangularFits(headers, rows, ix);
      var data := ReadRows(rows, ix);
      var doc := PrintSheets(data, m);
      return Success(doc);
    }

    /** The printing part of `generate`: sheet after sheet, the bar advancing once per side. */
    method PrintSheets(data: seq<Tag>, m: Metrics) returns (doc: seq<Op>)
      modifies this
      ensures doc == DocumentOps(data, m)
      ensures progressMaximum == ProgressMaximum(|data|) && progressValue == progressMaximum
    {
      var c := new Canvas();
      c.SetFont(12.0);
      var index := 0;
      var totalSides := 2 * PageCount(|data|);
      progressMaximum := totalSides;
      progressValue := 0;
      ghost var sheets := Sheets(data, m);
      ghost var p := 0;
      while index < |data|
        invariant p <= PageCount(|data|) && index == PageStart(p)
        invariant c.ops == Flatten(sheets[..p])
        invariant c.state.frame == Identity && c.saved == []
        invariant progressValue == 2 * p && progressMaximum == totalSides
        decreases |data| - index
      {
        PageStarts(|data|, p);
        NextSheet(c, data, index, m, p);
        index := index + CardsPerPage;
        p := p + 1;
      }
      PageStarts(|data|, p);
      TakeAll(sheets, p);
      doc := c.ops;
    }

    /** The sheets before sheet `p`, then sheet `p`. */
    method NextSheet(c: Canvas, data: seq<Tag>, index: nat, m: Metrics, ghost p: nat)
      requires p < PageCount(|data|) && index == PageStart(p)
      requires c.state.frame == Identity && c.ops == Flatten(Sheets(data, m)[..p])
      modifies this, c
      ensures c.ops == Flatten(Sheets(data, m)[..p + 1])
      ensures c.state.frame == Identity && c.saved == old(c.saved)
      ensures progressValue == old(progressValue) + 2 && progressMaximum == old(progressMaximum)
    {
      ghost var sheets := Sheets(data, m);
      DrawSheet(c, data, index, m);
      assert sheets[p] == SheetOps(data, p, m);
      FlattenPrefix(sheets, p);
    }

    /** The body of the loop of `generate`: the front, a break, the back, and a break unless last. */
    method DrawSheet(c: Canvas, data: seq<Tag>, index: nat, m: Metrics)
      requires c.state.frame == Identity
      modifies this, c
      ensures c.ops == old(c.ops) + SheetLayout(PageOps(Identity, data, index, false, m), PageOps(Identity, data, index, true, m),
                                                true, index + CardsPerPage < |data|)
      ensures c.state.frame == Identity && c.saved == old(c.saved)
      ensures progressValue == old(progressValue) + 2 && progressMaximum == old(progressMaximum)
    {
      ghost var front := PageOps(Identity, data, index, false, m);
      ghost var back := PageOps(Identity, data, index, true, m);
      ghost var tail: seq<Op> := if index + CardsPerPage < |data| then [PageBreak] else [];
      DrawPage(c, data, index, false, m);
      c.ShowPage();
      progressValue := progressValue + 1;
      AppendAssoc(old(c.ops), front, [PageBreak]);
      ghost var mid := c.ops;
      DrawPage(c, data, index, true, m);
      if index + CardsPerPage < |data| {
        c.ShowPage();
      }
      progressValue := progressValue + 1;
      AppendAssoc(mid, back, tail);
      AppendAssoc(old(c.ops), front + [PageBreak], back + tail);
    }
  }

  // ----- Page breaks -----

  lemma CardNoBreaks(f: Frame, s: CardSlot, mainText: string, subText: string, subSize: real, back: bool, m: Metrics)
    ensures NoBreaks(CardOps(f, s, mainText, subText, subSize, back, m))
  {
    var outline := OutlineOps(f, Corners(s));
    var main := MainOps(f, s, mainText, back, m);
    var sub := SubOps(f, s, subText, subSize, m);
    assert NoBreaks(outline) && NoBreaks(main) && NoBreaks(sub);
    NoBreaksAppend(outline, main);
    NoBreaksAppend(outline + main, sub);
    CardOpsParts(f, s, mainText, subText, subSize, back, m);
  }

  lemma {:induction false} CardsNoBreaks(f: Frame, data: seq<Tag>, start: nat, back: bool, m: Metrics, k: nat)
    requires k == 0 || start + k <= |data|
    ensures NoBreaks(CardsOps(f, data, start, back, m, k))
  {
    if k > 0 {
      CardsNoBreaks(f, data, start, back, m, k - 1);
      var t := data[start + k - 1];
      if back {
        CardNoBreaks(f, SlotOf(k - 1, true), t.cable, LengthLabel(t.length), FontLength, true, m);
      } else {
        CardNoBreaks(f, SlotOf(k - 1, false), t.system, t.track, FontTrack, false, m);
      }
      NoBreaksAppend(CardsOps(f, data, start, back, m, k - 1), LabelOps(f, k - 1, t, back, m));
    }
  }

  lemma SheetBreaks(data: seq<Tag>, p: nat, m: Metrics)
    requires p < PageCount(|data|)
    ensures CountBreaks(SheetOps(data, p, m)) == if p < PageCount(|data|) - 1 then 2 else 1
  {
    var start := PageStart(p);
    CardsNoBreaks(Identity, data, start, false, m, CardsOnPage(start, |data|));
    CardsNoBreaks(Identity, data, start, true, m, CardsOnPage(start, |data|));
    PageStarts(|data|, p + 1);
    assert PageStart(p + 1) == start + CardsPerPage;
    SheetLayoutBreaks(PageOps(Identity, data, start, false, m), PageOps(Identity, data, start, true, m),
                      start + CardsPerPage < |data|);
  }

  /**
   * A document of `n > 0` tags has `2 * ceil(n / 25)` pages: every sheet but the
   * last ends its back page with a break, and the last back page is ended by the
   * final save. With no tags nothing is drawn.
   */
  lemma DocumentPageBreaks(data: seq<Tag>, m: Metrics)
    ensures |data| == 0 ==> DocumentOps(data, m) == []
    ensures |data| > 0 ==> CountBreaks(DocumentOps(data, m)) == 2 * PageCount(|data|) - 1
  {
    CeilDivBounds(|data|, CardsPerPage);
    var xs := Sheets(data, m);
    var n := |xs|;
    if n > 0 {
      forall i | 0 <= i < n ensures CountBreaks(xs[i]) == if i < n - 1 then 2 else 1 {
        SheetBreaks(data, i, m);
      }
      FlattenSheetsBreaks(xs);
    }
  }

  /** The bar's maximum is the number of sides the document prints: one more than its breaks. */
  lemma ProgressCountsSides(data: seq<Tag>, m: Metrics)
    requires data != []
    ensures ProgressMaximum(|data|) == CountBreaks(DocumentOps(data, m)) + 1
  {
    DocumentPageBreaks(data, m);
  }
}
