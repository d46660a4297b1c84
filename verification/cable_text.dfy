/**
 * The label rules of the cable-label generator: twenty-five triangles per page in
 * five rows of five, alternately upright and upside down, each sharing its slanted
 * edges with its neighbours; the cable name split over two lines; the length
 * printed as `L=<length> м`; the main font size chosen by the length of the main
 * text; and the heights at which the lines are set.
 */
module CableText {
  import opened Basics
  import opened Text
  import opened Drawing

  const CardBase: real := 60.0 * MM
  const CardHeight: real := 49.0 * MM
  const MaxCols: nat := 5
  const MaxRows: nat := 5
  const CardsPerPage: nat := MaxCols * MaxRows

  const FontSystem: real := 18.0
  const FontTrack: real := 14.0
  const FontCable: real := 16.0
  const FontLength: real := 14.0
  const MinFontSize: real := 10.0

  /** The horizontal shift of the back pages that compensates the printer; none. */
  const PrinterOffsetX: real := 0.0 * MM
  const OutlineWidth: real := 5.0

  /** A sub-text of this many characters or more is cut into two lines. */
  const SubLineChars: nat := 30

  /** The centres of the five columns, half a base apart. */
  const XCenters: seq<real> := [45.0 * MM, 75.0 * MM, 105.0 * MM, 135.0 * MM, 165.0 * MM]
  /** The level `y_base` of the bottom row. */
  const YStart: real := 76.5 * MM

  // ----- The cable name on two lines -----

  /**
   * `split_cable_text`: two lines for the cable name. A blank name gives two empty
   * lines; a single word is cut in the middle; otherwise the first word goes on
   * the first line and the other words, joined by single spaces, on the second.
   */
  function SplitCableText(text: string): (r: seq<string>)
    ensures |r| == 2
  {
    if text == "" || Strip(text) == "" then ["", ""]
    else
      var words := Split(Strip(text));
      if |words| == 0 then ["", ""]
      else if |words| == 1 then
        var w := words[0];
        var mid := |w| / 2;
        [w[..mid], w[mid..]]
      else [words[0], JoinWords(words[1..])]
  }

  lemma SplitOfEmpty()
    ensures Split("") == []
  {
    SplitBlank("");
  }

  /** A cable name with words is not blank. */
  lemma WordsNotBlank(text: string)
    requires Split(Strip(text)) != []
    ensures !IsBlank(text)
  {
    if IsBlank(text) {
      StripMeaning(text);
      SplitOfEmpty();
    }
  }

  /** A cable name that is not blank splits into at least one word. */
  lemma NotBlankHasWords(text: string)
    requires !IsBlank(text)
    ensures text != "" && Strip(text) != "" && Split(Strip(text)) != [] && AllWords(Split(Strip(text)))
  {
    var s := Strip(text);
    StripMeaning(text);
    assert !IsBlank(s) by { assert !IsSpace(s[0]); }
    SplitBlank(s);
    SplitWords(s);
  }

  /** The two lines are both empty exactly when the cable name is blank. */
  lemma SplitCableBlank(text: string)
    ensures SplitCableText(text) == ["", ""] <==> IsBlank(text)
  {
    StripMeaning(text);
    if !IsBlank(text) {
      NotBlankHasWords(text);
      var words := Split(Strip(text));
      assert IsWord(words[0]);
      if |words| == 1 {
        var w := words[0];
        assert SplitCableText(text)[1] == w[|w| / 2..];
      } else {
        assert SplitCableText(text)[0] == words[0];
      }
    }
  }

  /**
   * A name of several words: the first word alone on the first line; the second
   * line splits back into the remaining words; and the two lines joined by a space
   * are the words joined by spaces.
   */
  lemma SplitCableWords(text: string)
    requires |Split(Strip(text))| >= 2
    ensures var words := Split(Strip(text));
            var r := SplitCableText(text);
            r[0] == words[0] && Split(r[1]) == words[1..] && r[0] + " " + r[1] == JoinWords(words)
  {
    WordsNotBlank(text);
    NotBlankHasWords(text);
    var words := Split(Strip(text));
    assert AllWords(words[1..]) by {
      forall k | 0 <= k < |words[1..]| ensures IsWord(words[1..][k]) {
        assert words[1..][k] == words[k + 1];
      }
    }
    SplitJoinWords(words[1..]);
  }

  /** A name of one word: its two halves, the second longer by at most one character. */
  lemma SplitCableOneWord(text: string)
    requires |Split(Strip(text))| == 1
    ensures var w := Split(Strip(text))[0];
            var r := SplitCableText(text);
            r[0] + r[1] == w && |r[0]| <= |r[1]| <= |r[0]| + 1
  {
    WordsNotBlank(text);
    NotBlankHasWords(text);
    var w := Split(Strip(text))[0];
    assert SplitCableText(text) == [w[..|w| / 2], w[|w| / 2..]];
    HalvesJoin(w);
  }

  lemma HalvesJoin(w: string)
    ensures w[..|w| / 2] + w[|w| / 2..] == w
    ensures |w[..|w| / 2]| <= |w[|w| / 2..]| <= |w[..|w| / 2]| + 1
  {
  }

  // ----- The length label -----

  /**
   * The back's sub-text: `L=<length> м` when the stripped length is digits and
   * dots, otherwise the stripped length itself.
   */
  function LengthLabel(length: string): string {
    var raw := Strip(length);
    if IsDigits(RemoveDots(raw)) then "L=" + raw + " м" else raw
  }

  predicate IsAsciiDigit(c: char) {
    '0' <= c <= '9'
  }

  /** A number as the length column writes it: digits and dots, with at least one digit. */
  predicate NumberLike(s: string) {
    (forall i :: 0 <= i < |s| ==> IsAsciiDigit(s[i]) || s[i] == '.') &&
    (exists i :: 0 <= i < |s| && IsAsciiDigit(s[i]))
  }

  /** With the dots removed, only digits are left, and at least one, exactly when `s` is number-like. */
  lemma {:induction false} DigitsWithoutDots(s: string)
    ensures IsDigits(RemoveDots(s)) <==> NumberLike(s)
    decreases |s|
  {
    if s != [] {
      DigitsWithoutDots(s[1..]);
      var rest := RemoveDots(s[1..]);
      if s[0] == '.' {
        assert RemoveDots(s) == rest;
        if NumberLike(s[1..]) {
          var i :| 0 <= i < |s[1..]| && IsAsciiDigit(s[1..][i]);
          assert IsAsciiDigit(s[i + 1]);
          forall j | 0 <= j < |s| ensures IsAsciiDigit(s[j]) || s[j] == '.' {
            if j > 0 { assert s[j] == s[1..][j - 1]; }
          }
        }
        if NumberLike(s) {
          var i :| 0 <= i < |s| && IsAsciiDigit(s[i]);
          assert i > 0 && IsAsciiDigit(s[1..][i - 1]);
          forall j | 0 <= j < |s[1..]| ensures IsAsciiDigit(s[1..][j]) || s[1..][j] == '.' {
            assert s[1..][j] == s[j + 1];
          }
        }
      } else {
        assert RemoveDots(s) == [s[0]] + rest;
        if IsDigits(RemoveDots(s)) {
          assert IsAsciiDigit(RemoveDots(s)[0]);
          assert IsDigits(rest) || rest == [] by {
            forall j | 0 <= j < |rest| ensures IsAsciiDigit(rest[j]) {
              assert rest[j] == RemoveDots(s)[j + 1];
            }
          }
          forall j | 0 <= j < |s| ensures IsAsciiDigit(s[j]) || s[j] == '.' {
            if j > 0 {
              assert s[j] == s[1..][j - 1];
              if rest == [] {
                NoDigitsNoDots(s[1..]);
              }
            }
          }
        }
        if NumberLike(s) {
          assert IsAsciiDigit(s[0]);
          forall j | 0 <= j < |s[1..]| ensures IsAsciiDigit(s[1..][j]) || s[1..][j] == '.' {
            assert s[1..][j] == s[j + 1];
          }
          forall j | 0 <= j < |rest| ensures IsAsciiDigit(rest[j]) {
            assert rest[j] in rest;
            RemoveDotsChars(s[1..], rest[j]);
          }
          assert RemoveDots(s)[0] == s[0];
          forall j | 0 <= j < |RemoveDots(s)| ensures IsAsciiDigit(RemoveDots(s)[j]) {
            if j > 0 { assert RemoveDots(s)[j] == rest[j - 1]; }
          }
        }
      }
    }
  }

  /** Removing the dots of a text leaves nothing exactly when the text is dots only. */
  lemma {:induction false} NoDigitsNoDots(s: string)
    requires RemoveDots(s) == []
    ensures forall i :: 0 <= i < |s| ==> s[i] == '.'
    decreases |s|
  {
    if s != [] {
      assert s[0] == '.';
      NoDigitsNoDots(s[1..]);
      forall i | 0 < i < |s| ensures s[i] == '.' { assert s[i] == s[1..][i - 1]; }
    }
  }

  lemma RemoveDotsChars(s: string, c: char)
    requires c in RemoveDots(s) && forall i :: 0 <= i < |s| ==> IsAsciiDigit(s[i]) || s[i] == '.'
    ensures IsAsciiDigit(c)
  {
    assert c != '.';
    assert multiset(RemoveDots(s))[c] > 0;
    assert c in multiset(s);
    var i :| 0 <= i < |s| && s[i] == c;
  }

  /** `L=<length> м` is printed exactly when the stripped length is number-like. */
  lemma LengthLabelMeaning(length: string)
    ensures var raw := Strip(length);
            LengthLabel(length) == if NumberLike(raw) then "L=" + raw + " м" else raw
  {
    DigitsWithoutDots(Strip(length));
  }

  // ----- Font size of the main text -----

  /** The main text's size as the cascade of `draw_triangle` picks it, before the floor. */
  function CascadeSize(back: bool, mainText: string): real {
    if back then
      if |SplitCableText(mainText)[1]| >= 15 then 12.0
      else if |mainText| >= 20 then 14.0
      else FontCable
    else if |mainText| >= 8 then 16.0
    else FontSystem
  }

  /** The main text's size: the cascade, raised to `MIN_FONT_SIZE` when below it. */
  function MainFontSize(back: bool, mainText: string): (fs: real)
    ensures MinFontSize <= fs
  {
    var fs := CascadeSize(back, mainText);
    if fs < MinFontSize then MinFontSize else fs
  }

  /**
   * The floor never applies: every size of the cascade lies between 12 and 18,
   * and only the front's short system names get the largest.
   */
  lemma FloorNeverApplies(back: bool, mainText: string)
    ensures MainFontSize(back, mainText) == CascadeSize(back, mainText)
    ensures 12.0 <= MainFontSize(back, mainText) <= FontSystem
    ensures MainFontSize(back, mainText) == FontSystem <==> !back && |mainText| < 8
  {
  }

  /** On the front a longer system name is never set larger than a shorter one. */
  lemma FrontSizeShrinks(a: string, b: string)
    requires |a| <= |b|
    ensures MainFontSize(false, b) <= MainFontSize(false, a)
  {
  }

  /** On the back a cable name of twenty characters or more is never set at the full 16. */
  lemma LongCableSmaller(text: string)
    requires |text| >= 20
    ensures MainFontSize(true, text) <= 14.0
  {
  }

  // ----- Lines and baselines -----

  /** The lines of the main text: the cable name split in two on the back, the system name on the front. */
  function MainLines(back: bool, mainText: string): (r: seq<string>)
    ensures |r| == if back then 2 else 1
  {
    if back then SplitCableText(mainText) else [mainText]
  }

  /** The baselines of the main lines: one font size apart about `yMain` on the back, the first one higher. */
  function MainBaselines(back: bool, yMain: real, fs: real): (r: seq<real>)
    ensures |r| == |MainLines(back, "")| == if back then 2 else 1
    ensures back ==> (r[0] + r[1]) / 2.0 == yMain && r[0] - r[1] == fs
    ensures !back ==> r[0] == yMain
  {
    if back then [yMain + fs * 0.5, yMain - fs * 0.5] else [yMain]
  }

  /** The sub-text on one line, or cut after thirty characters onto two. */
  function SubLines(sub: string): seq<string> {
    Take(if |sub| < SubLineChars then [sub] else [sub[..SubLineChars], sub[SubLineChars..]], 2)
  }

  /** The sub-text is one or two lines that read as the sub-text, the first at most thirty characters. */
  lemma SubLinesCut(sub: string)
    ensures var r := SubLines(sub);
            1 <= |r| <= 2 && (|r| == 2 <==> |sub| >= SubLineChars) && |r[0]| <= SubLineChars &&
            (if |r| == 1 then r[0] == sub else r[0] + r[1] == sub)
  {
    if |sub| >= SubLineChars {
      assert sub[..SubLineChars] + sub[SubLineChars..] == sub;
    }
  }

  /** The baselines of the sub-text: 1.4 font sizes apart, going down from `ySub`. */
  function SubBaselines(ySub: real, size: real, n: nat): (r: seq<real>)
    ensures |r| == n
    ensures n > 0 ==> r[0] == ySub
  {
    seq(n, j requires 0 <= j < n => ySub - j as real * (size * 1.4))
  }

  /** Each sub-text baseline lies 1.4 font sizes below the one before it. */
  lemma SubBaselinesSpaced(ySub: real, size: real, n: nat, j: nat)
    requires 0 < j < n
    ensures SubBaselines(ySub, size, n)[j - 1] - SubBaselines(ySub, size, n)[j] == size * 1.4
  {
  }

  // ----- Slots and corners -----

  /** Where a label goes: the middle of its base line's span, its `y_base`, and its orientation. */
  datatype CardSlot = CardSlot(cx: real, yb: real, upsideDown: bool)

  /**
   * The column and row of the `count`-th label of a page, counted off one row of
   * `MaxCols` at a time: `count % MaxCols` and `count / MaxCols` (`ColRowDivMod`).
   */
  function ColRow(count: nat): (cr: (nat, nat))
    ensures cr.0 < MaxCols
  {
    if count < MaxCols then (count, 0)
    else var cr := ColRow(count - MaxCols); (cr.0, cr.1 + 1)
  }

  lemma {:induction false} ColRowDivMod(count: nat)
    ensures ColRow(count) == (count % MaxCols, count / MaxCols)
  {
    if count >= MaxCols {
      ColRowDivMod(count - MaxCols);
      assert count % MaxCols == (count - MaxCols) % MaxCols;
      assert count / MaxCols == (count - MaxCols) / MaxCols + 1;
    }
  }

  /** The slot of the `count`-th label of a page: row-major from the bottom row, odd columns upside down. */
  function SlotOf(count: nat, back: bool): CardSlot {
    var (col, row) := ColRow(count);
    CardSlot(XCenters[col] + (if back then PrinterOffsetX else 0.0), YStart + row as real * CardHeight, col % 2 == 1)
  }

  /**
   * The corners of a label: an upside-down one has its base on `y_base` and its
   * apex one height lower; an upright one has its apex on `y_base` and its base one
   * height lower.
   */
  function Corners(s: CardSlot): (t: Triangle)
    ensures t.left.y == t.right.y && t.right.x - t.left.x == CardBase && t.left.x + t.right.x == 2.0 * t.apex.x
    ensures t.apex.x == s.cx
    ensures s.yb - CardHeight <= t.left.y <= s.yb && s.yb - CardHeight <= t.apex.y <= s.yb
    ensures t.apex.y - t.left.y == if s.upsideDown then -CardHeight else CardHeight
  {
    var xLeft := s.cx - CardBase / 2.0;
    var xRight := s.cx + CardBase / 2.0;
    if s.upsideDown then Triangle(Point(xLeft, s.yb), Point(xRight, s.yb), Point(s.cx, s.yb - CardHeight))
    else Triangle(Point(xLeft, s.yb - CardHeight), Point(xRight, s.yb - CardHeight), Point(s.cx, s.yb))
  }

  /** Within a row, each label's right edge is its right neighbour's left edge. */
  lemma CardNeighboursShareEdge(count: nat, back: bool)
    requires count % MaxCols < MaxCols - 1
    ensures Corners(SlotOf(count, back)).RightEdge() == Corners(SlotOf(count + 1, back)).LeftEdge()
  {
    var col := count % MaxCols;
    ColRowDivMod(count);
    ColRowDivMod(count + 1);
    assert (count + 1) / MaxCols == count / MaxCols;
    assert (count + 1) % MaxCols == col + 1;
    XCentersSpaced(col);
    XCentersSpaced(col + 1);
    var s, u := SlotOf(count, back), SlotOf(count + 1, back);
    assert u.cx == s.cx + CardBase / 2.0 && u.yb == s.yb && u.upsideDown == !s.upsideDown;
    var t, v := Corners(s), Corners(u);
    assert t.right == v.apex && t.apex == v.left;
  }

  /** The column centres are half a label base apart. */
  lemma XCentersSpaced(col: nat)
    requires col < MaxCols
    ensures XCenters[col] == 45.0 * MM + col as real * (CardBase / 2.0)
  {
    if col == 0 {
    } else if col == 1 {
    } else if col == 2 {
    } else if col == 3 {
    } else {
    }
  }

  /** The label five places on sits in the same column one row up, directly on top of it. */
  lemma RowsStack(count: nat, back: bool)
    ensures var s := SlotOf(count, back);
            var u := SlotOf(count + MaxCols, back);
            u.cx == s.cx && u.upsideDown == s.upsideDown && u.yb - CardHeight == s.yb
  {
    ColRowDivMod(count);
    ColRowDivMod(count + MaxCols);
    assert (count + MaxCols) / MaxCols == count / MaxCols + 1;
    assert (count + MaxCols) % MaxCols == count % MaxCols;
  }

  /** The twenty-five labels of a page lie on the A4 sheet, 15 mm from its sides and 24.5 mm from top and bottom. */
  lemma CardsOnA4(count: nat, back: bool)
    requires count < CardsPerPage
    ensures var t := Corners(SlotOf(count, back));
            15.0 * MM <= t.left.x && t.right.x <= 195.0 * MM &&
            27.5 * MM <= t.left.y && t.left.y <= 272.5 * MM &&
            27.5 * MM <= t.apex.y && t.apex.y <= 272.5 * MM &&
            195.0 * MM <= A4Width && 272.5 * MM <= A4Height
  {
    var row := count / MaxCols;
    ColRowDivMod(count);
    assert row < MaxRows;
    assert row as real * CardHeight <= 4.0 * CardHeight;
  }

  /** The back page puts every label exactly where the front page does. */
  lemma BackMatchesFront(count: nat)
    ensures Corners(SlotOf(count, true)) == Corners(SlotOf(count, false))
  {
  }

  // ----- Where the text goes -----

  /** The baseline of the main text in the label's text frame: 35% of the height from the base. */
  function MainY(s: CardSlot): real {
    if s.upsideDown then s.yb + CardHeight * 0.35 else (s.yb - CardHeight) + CardHeight * 0.35
  }

  /** The first baseline of the sub-text in the label's text frame: 10% of the height from the base. */
  function SubY(s: CardSlot): real {
    if s.upsideDown then s.yb + CardHeight * 0.1 else (s.yb - CardHeight) + CardHeight * 0.1
  }

  /** The frame the text is drawn in: turned half about the middle of the base of an upside-down label. */
  function CardTextFrame(f: Frame, s: CardSlot): Frame {
    if s.upsideDown then f.HalfTurnAbout(Point(s.cx, s.yb)) else f
  }

  /** How far a page height `y` lies from the label's base, measured toward its apex. */
  function Inward(s: CardSlot, y: real): real {
    if s.upsideDown then s.yb - y else y - (s.yb - CardHeight)
  }

  /** One line drawn in frame `g` at `size`, centred on `cx`, on baseline `y`. */
  function CentredLine(g: Frame, cx: real, line: string, y: real, size: real, m: Metrics): Op {
    Text(g.Apply(Point(cx - m.width(line, size) / 2.0, y)), line, size, g.turned)
  }

  /** Line `j` drawn centred on `cx` on baseline `ys[j]`, for every line. */
  function CentredLines(g: Frame, cx: real, lines: seq<string>, ys: seq<real>, size: real, m: Metrics): (r: seq<Op>)
    requires |lines| <= |ys|
    ensures |r| == |lines|
  {
    seq(|lines|, j requires 0 <= j < |lines| => CentredLine(g, cx, lines[j], ys[j], size, m))
  }

  lemma CentredLinesSnoc(g: Frame, cx: real, lines: seq<string>, ys: seq<real>, size: real, m: Metrics, j: nat)
    requires j < |lines| <= |ys|
    ensures CentredLines(g, cx, lines[..j + 1], ys, size, m) ==
            CentredLines(g, cx, lines[..j], ys, size, m) + [CentredLine(g, cx, lines[j], ys[j], size, m)]
  {
    var a := CentredLines(g, cx, lines[..j + 1], ys, size, m);
    var b := CentredLines(g, cx, lines[..j], ys, size, m) + [CentredLine(g, cx, lines[j], ys[j], size, m)];
    assert |a| == |b|;
    forall i | 0 <= i < |a| ensures a[i] == b[i] {
      assert lines[..j + 1][i] == lines[i];
      if i < j {
        assert lines[..j][i] == lines[i];
      }
    }
  }

  /**
   * Drawn on an unturned page, every line reads upside down exactly when its label
   * does, is centred on the label's axis, and keeps its distance from the base:
   * the half-turn moves a baseline as far below an upside-down base as it was above
   * it.
   */
  lemma CentredLinesPlacement(s: CardSlot, lines: seq<string>, ys: seq<real>, size: real, m: Metrics, j: nat)
    requires j < |lines| <= |ys|
    ensures var op := CentredLines(CardTextFrame(Identity, s), s.cx, lines, ys, size, m)[j];
            op.Text? && op.s == lines[j] && op.size == size && op.upsideDown == s.upsideDown &&
            (if op.upsideDown then op.at.x - m.width(lines[j], size) / 2.0 else op.at.x + m.width(lines[j], size) / 2.0) == s.cx &&
            Inward(s, op.at.y) == (if s.upsideDown then ys[j] - s.yb else ys[j] - (s.yb - CardHeight))
  {
  }
}
