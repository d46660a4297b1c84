/**
 * The document build of the first generator: recognise the columns, expand every
 * row into as many tags as its quantity asks for, and lay the tags out twenty to
 * a sheet, each sheet as a front page followed by a back page with the same tags
 * in the same slots.
 */
module Generator {
  import opened Basics
  import opened Drawing
  import opened Records
  import opened Columns
  import opened Layout
  import opened Fitting

  /** One spreadsheet row: the cell under each header. */
  type Row = map<string, Cell>

  /** Why the build is abandoned. */
  datatype BuildError =
    | ColumnsMissing(fields: seq<Field>)   // fields no header matched
    | BadQuantity(row: nat)                // the quantity of this row is not a number

  /** Every row has a cell under every header, as a data frame does. */
  predicate SheetShape(headers: seq<string>, rows: seq<Row>) {
    forall i :: 0 <= i < |rows| ==> forall h :: h in headers ==> h in rows[i]
  }

  predicate RowReadable(row: Row, mapping: map<Field, string>) {
    forall f :: f in mapping ==> mapping[f] in row
  }

  predicate Readable(rows: seq<Row>, mapping: map<Field, string>) {
    (forall f :: f in mapping) && forall i :: 0 <= i < |rows| ==> RowReadable(rows[i], mapping)
  }

  /** How many tags a quantity asks for: one for an empty cell, none when not a number. */
  function Copies(a: Amount): Option<int> {
    match a
    case Missing => Some(1)
    case Whole(n) => Some(n)
    case NotANumber => None
  }

  /** The four texts of a row, as `str()` renders its cells. */
  function TagOf(row: Row, mapping: map<Field, string>): Tag
    requires (forall f :: f in mapping) && RowReadable(row, mapping)
  {
    Tag(row[mapping[System]].text, row[mapping[Track]].text, row[mapping[Cable]].text, row[mapping[Length]].text)
  }

  /** The tag list of `generate_pdf`, or the first row whose quantity is not a number. */
  function Expand(rows: seq<Row>, mapping: map<Field, string>): Result<seq<Tag>, BuildError>
    requires Readable(rows, mapping)
  {
    if rows == [] then Success([])
    else
      var last := rows[|rows| - 1];
      match Expand(rows[..|rows| - 1], mapping)
      case Failure(e) => Failure(e)
      case Success(tags) =>
        match Copies(last[mapping[Quantity]].amount)
        case None => Failure(BadQuantity(|rows| - 1))
        case Some(q) => Success(tags + Replicate(TagOf(last, mapping), q))
  }

  /** The number of tags the rows ask for: negative quantities count as none. */
  function TotalCopies(rows: seq<Row>, mapping: map<Field, string>): nat
    requires Readable(rows, mapping)
  {
    if rows == [] then 0
    else
      var q := Copies(rows[|rows| - 1][mapping[Quantity]].amount);
      TotalCopies(rows[..|rows| - 1], mapping) + (if q.Some? then Max(q.value, 0) else 0)
  }

  predicate QuantityBad(rows: seq<Row>, mapping: map<Field, string>, i: nat)
    requires Readable(rows, mapping) && i < |rows|
  {
    rows[i][mapping[Quantity]].amount.NotANumber?
  }

  /**
   * The expansion fails exactly when some quantity is not a number, naming the
   * first such row; otherwise it holds as many tags as the quantities ask for.
   */
  lemma {:induction false} ExpandMeaning(rows: seq<Row>, mapping: map<Field, string>)
    requires Readable(rows, mapping)
    ensures Expand(rows, mapping).Failure? <==> exists i :: 0 <= i < |rows| && QuantityBad(rows, mapping, i)
    ensures Expand(rows, mapping).Failure? ==>
      Expand(rows, mapping).error.BadQuantity? &&
      var i := Expand(rows, mapping).error.row;
      i < |rows| && QuantityBad(rows, mapping, i) && forall j :: 0 <= j < i ==> !QuantityBad(rows, mapping, j)
    ensures Expand(rows, mapping).Success? ==> |Expand(rows, mapping).value| == TotalCopies(rows, mapping)
    decreases |rows|
  {
    if rows != [] {
      var init := rows[..|rows| - 1];
      InitReadable(rows, mapping);
      ExpandMeaning(init, mapping);
      forall i | 0 <= i < |init| ensures QuantityBad(init, mapping, i) == QuantityBad(rows, mapping, i) {
        assert init[i] == rows[i];
      }
      var last := |rows| - 1;
      if Expand(init, mapping).Failure? {
        var i := Expand(init, mapping).error.row;
        assert QuantityBad(rows, mapping, i);
      } else if QuantityBad(rows, mapping, last) {
        assert Expand(rows, mapping) == Failure(BadQuantity(last));
      } else {
        forall i | 0 <= i < |rows| ensures !QuantityBad(rows, mapping, i) {
          if i < last {
            assert !QuantityBad(init, mapping, i);
          }
        }
      }
    }
  }

  lemma InitReadable(rows: seq<Row>, mapping: map<Field, string>)
    requires Readable(rows, mapping) && rows != []
    ensures Readable(rows[..|rows| - 1], mapping)
  {
    var init := rows[..|rows| - 1];
    forall i | 0 <= i < |init| ensures RowReadable(init[i], mapping) {
      assert init[i] == rows[i];
    }
  }

  /** Once a prefix of the rows fails, the whole expansion fails the same way. */
  lemma {:induction false} ExpandFailureSticks(rows: seq<Row>, mapping: map<Field, string>, k: nat)
    requires Readable(rows, mapping) && k <= |rows|
    requires Readable(rows[..k], mapping) && Expand(rows[..k], mapping).Failure?
    ensures Expand(rows, mapping) == Expand(rows[..k], mapping)
    decreases |rows| - k
  {
    if k < |rows| {
      InitReadable(rows, mapping);
      var init := rows[..|rows| - 1];
      assert init[..k] == rows[..k];
      ExpandFailureSticks(init, mapping, k);
    } else {
      assert rows[..k] == rows;
    }
  }

  /** Every tag of the expansion is the tag of one of the rows. */
  lemma {:induction false} ExpandTagsFromRows(rows: seq<Row>, mapping: map<Field, string>, t: Tag)
    requires Readable(rows, mapping)
    requires Expand(rows, mapping).Success? && t in Expand(rows, mapping).value
    ensures exists i :: 0 <= i < |rows| && t == TagOf(rows[i], mapping)
    decreases |rows|
  {
    var init := rows[..|rows| - 1];
    InitReadable(rows, mapping);
    var last := rows[|rows| - 1];
    var tags := Expand(init, mapping).value;
    var q := Copies(last[mapping[Quantity]].amount).value;
    assert Expand(rows, mapping).value == tags + Replicate(TagOf(last, mapping), q);
    if t in tags {
      ExpandTagsFromRows(init, mapping, t);
      var i :| 0 <= i < |init| && t == TagOf(init[i], mapping);
      assert init[i] == rows[i];
    } else {
      var r := Replicate(TagOf(last, mapping), q);
      assert t in r;
      var k :| 0 <= k < |r| && r[k] == t;
    }
  }

  /** The row loop of `generate_pdf`: each row's tag, repeated `quantity` times. */
  method ExpandRows(rows: seq<Row>, mapping: map<Field, string>) returns (result: Result<seq<Tag>, BuildError>)
    requires Readable(rows, mapping)
    ensures result == Expand(rows, mapping)
  {
    var tags: seq<Tag> := [];
    for r := 0 to |rows|
      invariant Readable(rows[..r], mapping)
      invariant Expand(rows[..r], mapping) == Success(tags)
    {
      var row := rows[r];
      ghost var upto := rows[..r + 1];
      assert upto[..r] == rows[..r] && upto[r] == row;
      assert Readable(upto, mapping) by {
        forall i | 0 <= i < |upto| ensures RowReadable(upto[i], mapping) {
          assert upto[i] == rows[i];
        }
      }
      var quantity: int;
      match row[mapping[Quantity]].amount {
        case Missing => quantity := 1;
        case Whole(n) => quantity := n;
        case NotANumber =>
          ExpandFailureSticks(rows, mapping, r + 1);
          return Failure(BadQuantity(r));
      }
      var tag := Tag(row[mapping[System]].text, row[mapping[Track]].text, row[mapping[Cable]].text, row[mapping[Length]].text);
      ghost var before := tags;
      var k := 0;
      while k < quantity
        invariant tags == before + Replicate(tag, Max(k, 0))
        invariant k <= Max(quantity, 0)
      {
        tags := tags + [tag];
        k := k + 1;
        ReplicateSnoc(tag, k);
      }
      assert Max(k, 0) == Max(quantity, 0);
      ReplicateMax(tag, quantity);
    }
    assert rows[..|rows|] == rows;
    return Success(tags);
  }

  /** A mapped field names one of the headers. */
  lemma MappedToHeaders(headers: seq<string>, f: Field)
    requires f in ColumnMapping(headers)
    ensures ColumnMapping(headers)[f] in headers
  {
    ColumnMappingValues(headers, f);
  }

  lemma ShapeReadable(headers: seq<string>, rows: seq<Row>)
    requires SheetShape(headers, rows) && MissingColumns(ColumnMapping(headers)) == []
    ensures Readable(rows, ColumnMapping(headers))
  {
    var mapping := ColumnMapping(headers);
    forall i | 0 <= i < |rows| ensures RowReadable(rows[i], mapping) {
      forall f | f in mapping ensures mapping[f] in rows[i] {
        MappedToHeaders(headers, f);
      }
    }
  }

  // ----- Pages -----

  /** `math.ceil(total / triangles_per_page)`. */
  function PageCount(n: nat): nat {
    CeilDiv(n, TrianglesPerPage)
  }

  /** `triangle_data[start_idx:end_idx]` for page `p`. */
  function PageSlice(tags: seq<Tag>, p: nat): (r: seq<Tag>)
    ensures |r| <= TrianglesPerPage
  {
    tags[Min(p * TrianglesPerPage, |tags|)..Min(p * TrianglesPerPage + TrianglesPerPage, |tags|)]
  }

  /** The outline and the text of one tag in slot `p`. */
  function TileOps(f: Frame, p: Position, t: Tag, front: bool, m: Metrics): seq<Op> {
    TriangleOps(f, p) + TileTextOps(f, p.x, p.y, p.inverted, t.system, t.track, t.cable, t.length, front, m)
  }

  lemma TileOpsParts(f: Frame, p: Position, t: Tag, front: bool, m: Metrics)
    ensures TileOps(f, p, t, front, m) ==
            TriangleOps(f, p) + TileTextOps(f, p.x, p.y, p.inverted, t.system, t.track, t.cable, t.length, front, m)
  {
  }

  /** The records of the first `k` tags of a page, each in its own slot. */
  function SlotsOps(f: Frame, pageWidth: real, pageHeight: real, tags: seq<Tag>, front: bool, m: Metrics, k: nat): seq<Op>
    requires k <= |tags|
  {
    if k == 0 then []
    else
      SlotsOps(f, pageWidth, pageHeight, tags, front, m, k - 1)
      + TileOps(f, Slot(pageWidth, pageHeight, k - 1), tags[k - 1], front, m)
  }

  lemma SlotsOpsStep(f: Frame, pageWidth: real, pageHeight: real, tags: seq<Tag>, front: bool, m: Metrics, k: nat)
    requires k < |tags|
    ensures SlotsOps(f, pageWidth, pageHeight, tags, front, m, k + 1) ==
            SlotsOps(f, pageWidth, pageHeight, tags, front, m, k)
            + TileOps(f, Slot(pageWidth, pageHeight, k), tags[k], front, m)
  {
  }

  /** What `draw_page` records: a page has twenty slots, so at most twenty tags are drawn. */
  function PageOps(f: Frame, pageWidth: real, pageHeight: real, tags: seq<Tag>, front: bool, m: Metrics): seq<Op> {
    SlotsOps(f, pageWidth, pageHeight, tags, front, m, Min(|tags|, TrianglesPerPage))
  }

  /** `draw_page`: the first `len(page_data)` slots, in slot order. */
  method DrawPage(c: Canvas, pageData: seq<Tag>, pageWidth: real, pageHeight: real, front: bool, m: Metrics)
    modifies c
    ensures c.ops == old(c.ops) + PageOps(old(c.state.frame), pageWidth, pageHeight, pageData, front, m)
    ensures c.state == if pageData == [] then old(c.state)
                       else old(c.state).(lineWidth := ThickLineWidth, fontSize := 12.0)
    ensures c.saved == old(c.saved)
  {
    var positions := CalculatePositions(pageWidth, pageHeight);
    for i := 0 to |positions|
      invariant c.ops == old(c.ops) + SlotsOps(old(c.state.frame), pageWidth, pageHeight, pageData, front, m, Min(i, |pageData|))
      invariant c.state == if i == 0 || pageData == [] then old(c.state)
                           else old(c.state).(lineWidth := ThickLineWidth, fontSize := 12.0)
      invariant c.saved == old(c.saved)
    {
      var pos := positions[i];
      if i < |pageData| {
        var data := pageData[i];
        ghost var done := SlotsOps(old(c.state.frame), pageWidth, pageHeight, pageData, front, m, i);
        ghost var tile := TileOps(old(c.state.frame), pos, data, front, m);
        DrawTile(c, pos, data, front, m);
        assert c.ops == (old(c.ops) + done) + tile;
        SlotsOpsStep(old(c.state.frame), pageWidth, pageHeight, pageData, front, m, i);
        AppendAssoc(old(c.ops), done, tile);
      }
    }
  }

  /** The body of the loop of `draw_page` for a slot that has a tag. */
  method DrawTile(c: Canvas, pos: Position, data: Tag, front: bool, m: Metrics)
    modifies c
    ensures c.ops == old(c.ops) + TileOps(old(c.state.frame), pos, data, front, m)
    ensures c.state == old(c.state).(lineWidth := ThickLineWidth, fontSize := 12.0)
    ensures c.saved == old(c.saved)
  {
    ghost var f := c.state.frame;
    ghost var outline := TriangleOps(f, pos);
    ghost var text := TileTextOps(f, pos.x, pos.y, pos.inverted, data.system, data.track, data.cable, data.length, front, m);
    DrawTriangle(c, pos);
    DrawTextInTriangle(c, pos.x, pos.y, pos.inverted, data.system, data.track, data.cable, data.length, front, m);
    assert c.ops == old(c.ops) + outline + text;
    AppendAssoc(old(c.ops), outline, text);
    TileOpsParts(f, pos, data, front, m);
  }

  /** One sheet: the front page, a page break, then the back page if the sheet has tags. */
  function SheetOps(tags: seq<Tag>, p: nat, m: Metrics): seq<Op> {
    var slice := PageSlice(tags, p);
    SheetLayout(PageOps(Identity, A4Width, A4Height, slice, true, m),
                PageOps(Identity, A4Width, A4Height, slice, false, m),
                slice != [], p < PageCount(|tags|) - 1)
  }

  /**
   * The records of every sheet of a document, sheet by sheet: the page loop of
   * main.py's `generate_pdf`, twenty tiles to a sheet.
   */
  function Sheets(tags: seq<Tag>, m: Metrics): (r: seq<seq<Op>>)
    ensures |r| == PageCount(|tags|)
  {
    seq(PageCount(|tags|), p requires 0 <= p < PageCount(|tags|) => SheetOps(tags, p, m))
  }

  /** The whole document for a tag list. */
  function DocumentOps(tags: seq<Tag>, m: Metrics): seq<Op> {
    Flatten(Sheets(tags, m))
  }

  /** What `generate_pdf` produces from a sheet: the document, or why there is none. */
  function BuildDocument(headers: seq<string>, rows: seq<Row>, m: Metrics): Result<seq<Op>, BuildError>
    requires SheetShape(headers, rows)
  {
    var mapping := ColumnMapping(headers);
    var missing := MissingColumns(mapping);
    if missing != [] then Failure(ColumnsMissing(missing))
    else
      ShapeReadable(headers, rows);
      match Expand(rows, mapping)
      case Failure(e) => Failure(e)
      case Success(tags) => Success(DocumentOps(tags, m))
  }

  /**
   * `generate_pdf`: recognise the columns, refuse a sheet that lacks one, expand
   * the rows, then draw each sheet's front and back.
   */
  method GeneratePdf(headers: seq<string>, rows: seq<Row>, m: Metrics) returns (doc: Result<seq<Op>, BuildError>)
    requires SheetShape(headers, rows)
    ensures doc == BuildDocument(headers, rows, m)
  {
    var columnMapping := NormalizeColumnNames(headers);
    var missingColumns := MissingColumns(columnMapping);
    if missingColumns != [] {
      return Failure(ColumnsMissing(missingColumns));
    }
    ShapeReadable(headers, rows);
    var expanded := ExpandRows(rows, columnMapping);
    if expanded.Failure? {
      return Failure(expanded.error);
    }
    var triangleData := expanded.value;
    var totalTriangles := |triangleData|;
    var totalPages := CeilDiv(totalTriangles, TrianglesPerPage);
    var c := new Canvas();
    ghost var sheets := Sheets(triangleData, m);
    for pageNum := 0 to totalPages
      invariant c.ops == Flatten(sheets[..pageNum])
      invariant c.state.frame == Identity && c.saved == []
    {
      var startIdx := pageNum * TrianglesPerPage;
      var endIdx := Min(startIdx + TrianglesPerPage, totalTriangles);
      PageSliceBounds(triangleData, pageNum);
      var pageData := triangleData[startIdx..endIdx];
      assert pageData == PageSlice(triangleData, pageNum);
      DrawSheet(c, pageData, pageNum < totalPages - 1, m);
      assert sheets[pageNum] == SheetOps(triangleData, pageNum, m);
      FlattenPrefix(sheets, pageNum);
    }
    assert sheets[..totalPages] == sheets;
    return Success(c.ops);
  }

  /** The body of the page loop of `generate_pdf`: the front, a break, the back, and a break unless last. */
  method DrawSheet(c: Canvas, pageData: seq<Tag>, more: bool, m: Metrics)
    modifies c
    requires c.state.frame == Identity
    ensures c.ops == old(c.ops) + SheetLayout(PageOps(Identity, A4Width, A4Height, pageData, true, m),
                                              PageOps(Identity, A4Width, A4Height, pageData, false, m), pageData != [], more)
    ensures c.state.frame == Identity && c.saved == old(c.saved)
  {
    ghost var front := PageOps(Identity, A4Width, A4Height, pageData, true, m);
    ghost var back := PageOps(Identity, A4Width, A4Height, pageData, false, m);
    ghost var tail: seq<Op> := if more then [PageBreak] else [];
    ghost var rest: seq<Op> := if pageData != [] then back + tail else [];
    DrawPage(c, pageData, A4Width, A4Height, true, m);
    c.ShowPage();
    AppendAssoc(old(c.ops), front, [PageBreak]);
    ghost var mid := c.ops;
    if pageData != [] {
      DrawPage(c, pageData, A4Width, A4Height, false, m);
      if more {
        c.ShowPage();
      }
      AppendAssoc(mid, back, tail);
    }
    assert c.ops == mid + rest;
    AppendAssoc(old(c.ops), front + [PageBreak], rest);
  }

  /** Every page the loop visits starts inside the tag list and is not empty. */
  lemma PageSliceBounds(tags: seq<Tag>, p: nat)
    requires p < PageCount(|tags|)
    ensures 0 <= p * TrianglesPerPage < |tags|
    ensures PageSlice(tags, p) == tags[p * TrianglesPerPage..Min(p * TrianglesPerPage + TrianglesPerPage, |tags|)]
    ensures PageSlice(tags, p) != []
  {
    CeilDivBounds(|tags|, TrianglesPerPage);
    assert p <= PageCount(|tags|) - 1;
    assert p * TrianglesPerPage <= (PageCount(|tags|) - 1) * TrianglesPerPage;
  }

  /** The sheets together show every tag once, in order. */
  lemma {:induction false} SheetsCoverTags(tags: seq<Tag>, k: nat)
    ensures Concat(tags, k) == tags[..Min(k * TrianglesPerPage, |tags|)]
  {
    if k > 0 {
      SheetsCoverTags(tags, k - 1);
    }
  }

  function Concat(tags: seq<Tag>, k: nat): seq<Tag> {
    if k == 0 then [] else Concat(tags, k - 1) + PageSlice(tags, k - 1)
  }

  /** All the tags, once each and in order, are on the document's pages. */
  lemma PagesPartitionTags(tags: seq<Tag>)
    ensures Concat(tags, PageCount(|tags|)) == tags
  {
    SheetsCoverTags(tags, PageCount(|tags|));
    CeilDivBounds(|tags|, TrianglesPerPage);
  }

  lemma TileNoBreaks(f: Frame, p: Position, t: Tag, front: bool, m: Metrics)
    ensures NoBreaks(TileOps(f, p, t, front, m))
  {
    var outline := TriangleOps(f, p);
    var text := TileTextOps(f, p.x, p.y, p.inverted, t.system, t.track, t.cable, t.length, front, m);
    TileTextHasNoBreaks(f, p.x, p.y, p.inverted, t.system, t.track, t.cable, t.length, front, m);
    TileOpsParts(f, p, t, front, m);
    NoBreaksAppend(outline, text);
  }

  lemma {:induction false} SlotsNoBreaks(f: Frame, pageWidth: real, pageHeight: real, tags: seq<Tag>, front: bool, m: Metrics, k: nat)
    requires k <= |tags|
    ensures NoBreaks(SlotsOps(f, pageWidth, pageHeight, tags, front, m, k))
  {
    if k > 0 {
      SlotsNoBreaks(f, pageWidth, pageHeight, tags, front, m, k - 1);
      SlotNoBreaks(f, pageWidth, pageHeight, tags, front, m, k - 1);
    }
  }

  lemma SlotNoBreaks(f: Frame, pageWidth: real, pageHeight: real, tags: seq<Tag>, front: bool, m: Metrics, k: nat)
    requires k < |tags|
    requires NoBreaks(SlotsOps(f, pageWidth, pageHeight, tags, front, m, k))
    ensures NoBreaks(SlotsOps(f, pageWidth, pageHeight, tags, front, m, k + 1))
  {
    var done := SlotsOps(f, pageWidth, pageHeight, tags, front, m, k);
    var tile := TileOps(f, Slot(pageWidth, pageHeight, k), tags[k], front, m);
    TileNoBreaks(f, Slot(pageWidth, pageHeight, k), tags[k], front, m);
    SlotsOpsStep(f, pageWidth, pageHeight, tags, front, m, k);
    NoBreaksAppend(done, tile);
  }

  /** A page, front or back, has no break inside it. */
  lemma PageNoBreaks(f: Frame, pageWidth: real, pageHeight: real, tags: seq<Tag>, front: bool, m: Metrics)
    ensures NoBreaks(PageOps(f, pageWidth, pageHeight, tags, front, m))
  {
    SlotsNoBreaks(f, pageWidth, pageHeight, tags, front, m, Min(|tags|, TrianglesPerPage));
  }

  lemma SheetBreaks(tags: seq<Tag>, p: nat, m: Metrics)
    requires p < PageCount(|tags|)
    ensures CountBreaks(SheetOps(tags, p, m)) == if p < PageCount(|tags|) - 1 then 2 else 1
  {
    var slice := PageSlice(tags, p);
    PageSliceBounds(tags, p);
    var front := PageOps(Identity, A4Width, A4Height, slice, true, m);
    var back := PageOps(Identity, A4Width, A4Height, slice, false, m);
    PageNoBreaks(Identity, A4Width, A4Height, slice, true, m);
    PageNoBreaks(Identity, A4Width, A4Height, slice, false, m);
    SheetLayoutBreaks(front, back, p < PageCount(|tags|) - 1);
  }

  /**
   * A document of `n > 0` tags has `2 * ceil(n / 20)` pages: every sheet but the
   * last ends its back page with a break, and the last back page is ended by the
   * final save. With no tags nothing is drawn.
   */
  lemma DocumentPageBreaks(tags: seq<Tag>, m: Metrics)
    ensures |tags| == 0 ==> DocumentOps(tags, m) == []
    ensures |tags| > 0 ==> CountBreaks(DocumentOps(tags, m)) == 2 * PageCount(|tags|) - 1
  {
    CeilDivBounds(|tags|, TrianglesPerPage);
    var xs := Sheets(tags, m);
    var n := |xs|;
    if n > 0 {
      forall i | 0 <= i < n ensures CountBreaks(xs[i]) == if i < n - 1 then 2 else 1 {
        SheetBreaks(tags, i, m);
      }
      FlattenSheetsBreaks(xs);
    }
  }
}
