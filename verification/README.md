# cable_signs tag engine, modelled in Dafny

`cable_signs` prints triangular cable-marking tags from a spreadsheet. Each row
(system, track, cable, length, quantity) becomes `quantity` tags. The tags are
laid out on A4 sheets in rows of five triangles, alternately upright and
inverted, so that neighbours share a slanted edge. Every sheet is printed
twice: a front page, then a back page with the same tags in the same slots.

The repository holds two generators, and this project models both.

- **The first generator** is `main.py`, `TriangleLabelGenerator`. It fits 20
  tags to a page in 4 rows and recognises column headers by synonyms,
  ignoring case and surrounding blanks. It sizes the system name by searching
  font sizes downward, sets the other fields at a fixed size with a line cap,
  and draws inverted tags' text turned half about the text centre. It is
  modelled in the modules `Columns`, `Layout`, `Fitting` and `Generator`.
- **The second generator** is `main_test.py`, `CableLabelApp`. It fits 25
  tags to a page in 5 rows and finds columns by exact header names. It splits
  the cable name over two lines, prints the length as `L=<length> м`, and
  picks the main font size from the text's length. It advances a progress
  bar once per printed side. It is modelled in the modules `CableText` and
  `CableLabels`.
- **The word wrapper** of the bitmap preview, `wrap_text` in
  `mini_triangle_test.py`, is modelled in `Wrap`.

**The canvas.** A PDF canvas is modelled by `Drawing.Canvas`, a class that
records every drawing call as an `Op` in device coordinates. Each method that
draws says exactly which records it appends, as a function of the canvas
state it started from. The properties of a page are then stated and proved
about that record sequence: where each outline and each text line goes, which
way it reads, and how many page breaks a document has.

**Text measurement.** Text width and line wrapping come from the font back
end, so the model takes them as a parameter, `Drawing.Metrics`. That covers
reportlab's `stringWidth` and `simpleSplit`, and Pillow's `textbbox` in the
preview.

**Behaviour of note.**

- The back page is not mirrored. The back printer offset is zero, and every
  tag sits in the same slot on both sides (`CableText.BackMatchesFront`).
- Blank tags are not skipped: a tag whose fields are empty still gets its
  outline.
- A quantity of zero or below gives no tag, because `range(n)` is empty.
- In `main.py` an unparsable quantity aborts the build (`BadQuantity`);
  `main_test.py` counts it as 1.

**An observation.** With a 50 mm top margin and 52 mm triangles, the apexes
of the top row's upright triangles lie 2 mm above an A4 page
(`Layout.TopRowApexAbovePage`). The comment at main.py:87 says the margin was
raised to keep them on the page. The margin the authors meant is not known, so
the model keeps the 50 mm.

**The four findings.** Each finding below is modelled twice: once as written,
to exhibit the defect, and once corrected. The rest of the model uses the
corrected behaviour.

## Model

| member | source | states |
|---|---|---|
| Basics.Take | main.py:284 | `s[:n]` has `min(n, len(s))` elements and is a prefix of `s` |
| Basics.Replicate | main.py:378-384 | `range(n)` copies: `max(n, 0)` elements, all equal to the row's tag |
| Basics.CeilDivBounds | main.py:388 | `ceil(n / size)` sheets hold `n` items, one sheet fewer does not, and no items need no sheet |
| Text.StripMeaning | main.py:56 | `strip()` leaves no whitespace at either end, and gives the empty string exactly for a blank text |
| Text.StripKeepsMiddle | main_test.py:142-145 | `strip()` keeps a middle stretch of the text and cuts off only whitespace on either side |
| Text.StripLeadingSpace | mini_triangle_test.py:46 | `f" {word}".strip()` of an empty line is the word itself |
| Text.SplitWords | main_test.py:59 | every piece `split()` returns is a non-empty run without whitespace |
| Text.SplitBlank | main_test.py:57-61 | `split()` returns nothing exactly when the text is blank |
| Text.JoinWordsShape | main_test.py:67 | `" ".join` of words is empty only for no words, and starts and ends with a non-space |
| Text.RemoveDotsAppend | main_test.py:223 | `replace('.', '')` works piece by piece: every character but the dots is kept, in order |
| Text.SplitJoinWords | main_test.py:67 | `split()` undoes `" ".join` on words: none lost, merged or reordered |
| Text.Lower | main.py:56 | the model's `lower()` applies `LowerChar` to each character, so it keeps the length |
| Text.LowerChar | main.py:56 | ASCII capitals go to their lower case; characters that are neither ASCII nor Cyrillic capitals are unchanged |
| Text.RemoveDots | main_test.py:223 | `replace('.', '')` leaves no dot and only characters of the input |
| Wrap.WrapText | mini_triangle_test.py:41-56 | the loop computes the greedy wrapping `Wrapped` |
| Wrap.RunInvariant | mini_triangle_test.py:45-55 | after any number of words, the lines are non-empty, each fits or is one word, each was closed only because the next word overflowed it, and joined they give back the words |
| Wrap.StepInvariant | mini_triangle_test.py:46-53 | one turn of the loop keeps that invariant |
| Wrap.PrefixKeeps | mini_triangle_test.py:56 | keeping the first three lines keeps every per-line and per-pair property |
| Wrap.WrappedMeaning | mini_triangle_test.py:41-56 | at most three lines, none empty, each fitting or one over-long word, greedy; they start a wrapping of exactly the text's words; none exactly for a blank text |
| Columns.NormalizeAll | main.py:56 | one normalised name per header, `strip().lower()` of it |
| Columns.IndexOf | main.py:70 | `list.index`: absent exactly when the value is not there, else the first position holding it |
| Columns.FirstPresent | main.py:68-72 | the first synonym present among the names, or none exactly when no synonym is present |
| Columns.FindVariant | main.py:68-72 | the inner loop over the synonyms finds that first present synonym |
| Columns.MatchedColumnMeaning | main.py:67-72 | a field is matched exactly when a header normalises to one of its synonyms, and then to the first such header holding the most preferred synonym that occurs |
| Columns.MappingOverMeaning | main.py:67-73 | after any prefix of the fields, exactly the matched fields of that prefix are mapped, each to its header's original text |
| Columns.NormalizeColumnNames | main.py:51-74 | the method builds the mapping `ColumnMapping` |
| Columns.ColumnMappingKeys | main.py:51-74 | a field is mapped exactly when some header, stripped and lowered, is one of its synonyms |
| Columns.ColumnMappingValues | main.py:69-71 | a mapped field maps to the original text of the header that matched |
| Columns.MissingColumns | main.py:363-364 | the missing fields are exactly those not mapped, in lookup order, and there are none exactly when all five are mapped |
| Columns.FilterAppend | main.py:364 | the comprehension works piece by piece, so the kept fields keep their order |
| Columns.Filter | main.py:364 | the list comprehension keeps exactly the listed fields absent from the mapping |
| Layout.ColumnX | main.py:99-108 | the case-by-case column corners are half a base apart |
| Layout.CalculatePositions | main.py:76-124 | twenty slots, the `k`-th in row `k / 5` and column `k % 5`, inverted in odd columns (corrected origin, Finding 1) |
| Layout.Vertices | main.py:132-149 | a horizontal base one base width long, the apex over its middle, one height above it or, inverted, below it |
| Layout.DrawTriangle | main.py:126-169 | records the thin outline, then the thick left edge if `col > 0` and the thick right edge if `col < 4`; the line width is left at 3 |
| Layout.ThickEdges | main.py:151-169 | the outline is thin; a slanted edge is drawn thick exactly when the triangle has a neighbour on that side |
| Layout.NeighboursShareEdge | main.py:110-114 | corrected (Finding 1): within a row each triangle's right edge is its right neighbour's left edge |
| Layout.RowBand | main.py:90-92 | corrected (Finding 1): every triangle of a row lies between the row's base level and one height above it |
| Layout.AsWrittenBasesOnRowLine | main.py:110-114 | as written, inverted bases lie on the row's base line, so their apexes hang below it |
| Layout.AsWrittenNeighboursShareNoEdge | main.py:110-114 | as written, no two neighbours of a row share an edge |
| Layout.AsWrittenBasesOverlap | main.py:99-114 | as written, neighbours' bases lie on one line and overlap along half a base |
| Layout.AsWrittenRowsOverlap | main.py:85-92 | as written, a row's inverted apexes lie 42 mm below the next row's upright apexes, so the rows' height bands overlap |
| Layout.TopRowApexAbovePage | main.py:85-92 | on A4 the apexes of the top row's upright triangles lie 2 mm above the page |
| Layout.RowsCentredOnA4 | main.py:80-82 | on A4 the three-base trapezoid spans 15 mm to 195 mm |
| Drawing.Frame.HalfTurnApply | main.py:329-333 | `translate(c); rotate(180); translate(-c)` maps a point where the old frame maps its mirror image through `c` |
| Fitting.DrawLines | main.py:335-347 | corrected (Finding 2): line `i` is drawn centred on the point passed in, not half a base to its right as written, on baseline `i`, in the current frame and font |
| Fitting.DrawTextLines | main.py:318-347 | corrected (Findings 2 and 3): the lines of the block, centred on the point passed in, turned half about the block centre when inverted, between a save and a restore that leave the state unchanged |
| Fitting.TextLinesCentred | main.py:318-347 | corrected (Findings 2 and 3): every line is horizontally centred on the block centre upright or upside down, reads upside down exactly when inverted, and sits on its baseline or its mirror image |
| Fitting.BaselinesCentred | main.py:320-325 | corrected (Finding 3): baselines one line height apart and symmetric about the block centre |
| Fitting.AsWrittenBlockBelowCentre | main.py:324-325 | as written, the mid-point of a block of `n >= 2` lines lies `n - 1` line heights below the centre |
| Fitting.AdaptiveSize | main.py:255-263 | a size chosen by the search lies in `[min, max]` |
| Fitting.AdaptiveSizeIsLargestFit | main.py:255-263 | the size chosen is the largest in range whose wrapped block fits the height; none is chosen exactly when none fits |
| Fitting.DrawAdaptiveText | main.py:249-263 | the search draws the text wrapped at the chosen size, or nothing, and leaves the font at the last size tried |
| Fitting.AdaptiveDrawsLargestFit | main.py:249-263 | nothing is drawn exactly when no size fits; otherwise every wrapped line is drawn once, in order, at the largest fitting size |
| Fitting.FixedLinesCut | main.py:283-292 | the block is a prefix of the wrapped text, all lines up to the cap when that block fits, else cut to `max_lines - 1` lines when `max_lines > 1` (a block already shorter than that is unchanged), and unchanged when `max_lines <= 1` |
| Fitting.DrawFixedText | main.py:276-293 | draws exactly `FixedLines` at the fixed size and leaves the font at that size |
| Fitting.FixedTextMayOverflow | main.py:287-293 | the shortened block is not checked again: a one-line cap can still be taller than the space |
| Fitting.TextCentresInsideTile | main.py:179-247 | corrected (Finding 2): both text blocks are centred inside their triangle in either orientation |
| Fitting.AsWrittenTextCentresOutsideTile | main.py:324-338 | as written, both text blocks of every tile are centred outside their triangle |
| Fitting.DrawFrontSideText | main.py:179-212 | the system name sized by the search, then the track at 12 pt in at most two lines |
| Fitting.DrawBackSideText | main.py:214-247 | the cable name at 12 pt in at most three lines, then the length in one |
| Fitting.DrawTextInTriangle | main.py:171-177 | the front shows system and track, the back cable and length |
| Fitting.TileTextHasNoBreaks | main.py:171-247 | no text record of a tile is a page break |
| Generator.ExpandRows | main.py:370-384 | the row loop computes the expansion `Expand` |
| Generator.ExpandMeaning | main.py:370-384 | the build fails exactly when a quantity is not a number, naming the first such row; otherwise it holds as many tags as the quantities ask for, an empty cell counting 1 and a negative one 0 |
| Generator.ExpandFailureSticks | main.py:371-376 | once a row fails, the whole expansion fails the same way |
| Generator.ExpandTagsFromRows | main.py:378-384 | every tag is the tag of one of the rows |
| Generator.MappedToHeaders | main.py:71 | a mapped field names one of the headers, so every row has that cell |
| Generator.PageSliceBounds | main.py:394-397 | every page visited starts inside the tag list and is not empty |
| Generator.PagesPartitionTags | main.py:386-397 | the page slices, one after the other, are exactly the tag list |
| Generator.DrawPage | main.py:415-428 | the first `len(page_data)` slots, at most twenty, each with its outline and its text, in slot order |
| Generator.DrawTile | main.py:421-428 | one tile: outline, then text |
| Generator.DrawSheet | main.py:399-407 | front page, a break, then the back page if the sheet has tags, and a break unless it is the last sheet |
| Generator.GeneratePdf | main.py:349-413 | missing columns are reported before drawing; otherwise the build fails or yields the document, sheet after sheet |
| Generator.PageNoBreaks | main.py:415-428 | a page has no break inside it |
| Generator.SheetBreaks | main.py:399-407 | every sheet but the last ends in two breaks, the last in one |
| Generator.DocumentPageBreaks | main.py:394-409 | `n > 0` tags give `2 * ceil(n / 20)` pages; no tags give no drawing |
| CableText.SplitCableText | main_test.py:49-67 | the cable name always gives two lines |
| CableText.SplitCableBlank | main_test.py:57-61 | both lines are empty exactly when the name is blank |
| CableText.SplitCableWords | main_test.py:66-67 | several words: the first word alone on line one; line two splits back into the other words; together they are the words joined by spaces |
| CableText.SplitCableOneWord | main_test.py:62-65 | one word: its two halves, the second at most one character longer |
| CableText.DigitsWithoutDots | main_test.py:223 | with the dots removed only digits remain, and at least one, exactly when the text is digits and dots with a digit |
| CableText.LengthLabelMeaning | main_test.py:221-226 | `L=<length> м` is printed exactly when the stripped length is digits and dots with a digit, else the stripped length |
| CableText.MainFontSize | main_test.py:288-315 | the main size is never below `MIN_FONT_SIZE` |
| CableText.FloorNeverApplies | main_test.py:296-315 | the floor never applies: sizes lie in 12..18, and 18 is used exactly for front names under eight characters |
| CableText.FrontSizeShrinks | main_test.py:304-310 | a longer system name is never set larger |
| CableText.LongCableSmaller | main_test.py:296-302 | a cable name of twenty characters or more is never set at 16 |
| CableText.MainBaselines | main_test.py:317-323 | one baseline per main line: on the back two, one font size apart and centred on `y_main`; on the front `y_main` itself |
| CableText.SubLinesCut | main_test.py:340-341 | the sub-text gives one or two lines that read back as the sub-text, two exactly at thirty characters or more |
| CableText.SubBaselines | main_test.py:343-345 | one baseline per sub-text line, the first at `y_sub` |
| CableText.SubBaselinesSpaced | main_test.py:343-345 | each further sub-text baseline lies 1.4 font sizes below the one before |
| CableText.ColRowDivMod | main_test.py:204-205 | counting off rows of five gives the column `count % MAX_COLS` and the row `count // MAX_COLS` |
| CableText.Corners | main_test.py:249-258 | a horizontal base one base long, the apex over its middle, one height from it, all within one height below `y_base` |
| CableText.XCentersSpaced | main_test.py:195-196 | the column centres are half a base apart |
| CableText.CardNeighboursShareEdge | main_test.py:204-212 | within a row each label's right edge is its right neighbour's left edge |
| CableText.RowsStack | main_test.py:204-211 | the label five places on is in the same column, directly on top |
| CableText.CardsOnA4 | main_test.py:196-211 | all twenty-five labels lie on the A4 sheet, 15 mm from its sides |
| CableText.BackMatchesFront | main_test.py:199-210 | with the zero printer offset the back puts every label where the front does |
| CableText.CentredLinesPlacement | main_test.py:273-285 | a line reads upside down exactly when its label does, is centred on the label's axis, and keeps its distance from the base |
| CableLabels.DrawCentredLines | main_test.py:328-336 | line `j` drawn centred on the axis on baseline `j`, at the current font |
| CableLabels.DrawCard | main_test.py:235-347 | the outline, then the main lines, then the sub-text; the outline width stays set |
| CableLabels.DrawCardText | main_test.py:269-347 | the text between a save and a restore that leave the state unchanged |
| CableLabels.OutlineOnCorners | main_test.py:260-267 | the outline runs around the three corners at width 5 |
| CableLabels.MainTextPlacement | main_test.py:270-336 | main lines centred on the axis at 35% of the height from the base; on the back half a font size either side, the first farther from the base |
| CableLabels.SubTextPlacement | main_test.py:338-345 | sub-text lines centred on the axis, the first at 10% of the height, each further one 1.4 sizes nearer the base |
| CableLabels.SecondSubLineBeyondBase | main_test.py:340-345 | a sub-text of thirty characters or more has a second line beyond the label's base |
| CableLabels.CardsOnPage | main_test.py:202 | at most twenty-five labels per page, none past the end, and at least one while tags remain |
| CableLabels.DrawPage | main_test.py:187-233 | the tags from `start_index`, the `count`-th in the `count`-th slot; system and track on the front, cable and length label on the back |
| CableLabels.DrawLabel | main_test.py:203-231 | one tag in its slot with the texts of its side |
| CableLabels.DrawNext | main_test.py:202-233 | the labels so far, then the next one |
| CableLabels.CardsOpsFlatten | main_test.py:202-233 | the page's labels, drawn one after the other, are exactly the page's records |
| CableLabels.PageEnds | main_test.py:202 | the page loop stops after the page's last label |
| CableLabels.PageStarts | main_test.py:167-179 | a sheet starts inside the tag list exactly when it is one of the `ceil(n / 25)` sheets |
| CableLabels.PagesTileCards | main_test.py:167-179 | each sheet holds a tag; each but the last exactly twenty-five; the last ends at the last tag |
| CableLabels.FirstMissing | main_test.py:134-138 | the first of the five names the headers lack, none exactly when all are present |
| CableLabels.FindColumns | main_test.py:134-138 | each index is the first position of its exact header name |
| CableLabels.FindColumnsMeaning | main_test.py:134-138 | the lookup fails exactly when a name is missing, naming the first missing one |
| CableLabels.CellText | main_test.py:142-145 | `str(value or "").strip()` is empty for a false value; otherwise it is a stretch of the cell's text with only whitespace cut off either side, and no whitespace at either end |
| CableLabels.CardsMeaning | main_test.py:140-156 | as many tags as the quantities ask for, a quantity below one giving none; each is the tag of a row with quantity at least one |
| CableLabels.ReadRows | main_test.py:140-156 | the row loop computes the tag list `Cards` |
| CableLabels.AppendCopies | main_test.py:150-156 | `range(qty)` appends exactly `qty` copies, none for `qty < 1` |
| CableLabels.AsWrittenProgressFallsShort | main_test.py:163-177 | as written, two or more tags leave the bar short of its maximum at the end |
| CableLabels.AsWrittenTwoTagsHalfway | main_test.py:163-177 | as written, two tags stop the bar at 2 of 4 |
| CableLabels.LabelApp.constructor | main_test.py:104-105 | the bar starts empty |
| CableLabels.LabelApp.Generate | main_test.py:119-185 | a missing header fails and leaves the bar alone; otherwise the document of the tag list; corrected (Finding 4): the bar ends full, where the maximum as written is `2 * len(data)` |
| CableLabels.LabelApp.PrintSheets | main_test.py:158-181 | sheet after sheet until the tags run out, two steps of the bar per sheet; corrected (Finding 4): against a maximum of two steps per sheet |
| CableLabels.LabelApp.NextSheet | main_test.py:167-179 | the sheets so far, then the next one |
| CableLabels.LabelApp.DrawSheet | main_test.py:168-179 | front, a break, back, and a break unless the tags run out; the bar advances twice |
| CableLabels.SheetBreaks | main_test.py:167-179 | every sheet but the last ends in two breaks, the last in one |
| CableLabels.DocumentPageBreaks | main_test.py:167-181 | `n > 0` tags give `2 * ceil(n / 25)` pages with no trailing blank page; no tags give no drawing |
| CableLabels.ProgressCountsSides | main_test.py:163-177 | corrected (Finding 4): the bar's maximum is the number of printed sides |

## Left out

- Graphical user interfaces are left out: the `Application` and `CableLabelApp` windows, file dialogs, message boxes and the output-path check at main_test.py:124-126. They are I/O.
- Spreadsheet reading is left out: `pandas.read_excel` and `openpyxl`. The model starts from header texts and rows of cells. `str()` rendering, false values and `int()` conversion are abstracted into `Records.Cell` and `Records.Amount`.
- Every row is assumed to have a cell under every header (`SheetShape`, `Rectangular`). Data frames and worksheets guarantee this.
- Font registration and lookup are left out: `register_fonts`, `get_available_font`, and the Helvetica retries in the `except` branches of `draw_adaptive_text` and `draw_fixed_text`. So are the `stringWidth` fallback at main_test.py:333 and the stroke colour at main_test.py:262. They depend on the fonts installed.
- Text measurement and wrapping (`stringWidth`, `simpleSplit`, `textbbox`) are parameters, not definitions.
- Rendering, `c.save()` and file output are left out. A document is the sequence of recorded drawing calls. The empty-data case is modelled as recording nothing, although the saved file then has one blank page.
- `print` diagnostics are left out, including the debug line at main_test.py:325.
- The `row >= MAX_ROWS` break at main_test.py:207-208 is not modelled. The loop bound keeps `count` below 25, so that break can never fire.
- The parameter `main_font_size` of main_test.py's `draw_triangle` is not modelled. It is overwritten before use.
- Coordinates, font sizes and the fit tests (`len(lines) * font_size * 1.2 <= max_height` at main.py:260-261 and main.py:287-288) are modelled in exact real arithmetic, with `mm` as exactly 72/25.4. Float rounding is not modelled: the equalities proved about corners (`Layout.NeighboursShareEdge`, `CableText.CardNeighboursShareEdge`) may be off in the last bits in the program, and a fit test landing exactly on its bound may go the other way.
- Whitespace follows Python's `str.isspace`. `Text.IsDigits` accepts only ASCII digits, where Python's `isdigit` also accepts other Unicode digits.
- Text.LowerChar: the contract states only the ASCII case and the unchanged characters. The Cyrillic capitals U+0400 to U+042F are lowered in the body. Every other capital is left unchanged, although Python lowers it: Latin capitals outside ASCII (À to Þ, Ā and on), Greek, and the Kelvin sign U+212A, so `'TRAC\u212A'.lower()` matches the synonym `track` in Python but not in the model. Lowerings that give more than one character, such as `'İ'.lower()`, are not modelled either.
- The rest of `mini_triangle_test.py` (the bitmap preview drawing) and the build scripts are left out. They are not part of the tag engine.

## Findings

The findings are numbered 1 to 4 in the order of the table; the "## Model" rows marked "corrected (Finding n)" state the corrected behaviour, not the code as written.

| source | as written | input that shows it | evidently intended | confidence | as-written member | corrected member |
|---|---|---|---|---|---|---|
| main.py:111-112 | an inverted triangle's origin is `y_base - height`, so its base lies on the row's base line and its apex below it | any row, columns 0 and 1: the upright triangle's base runs over `x..x+B` and the inverted one's over `x+B/2..x+3B/2`, both at `y_base`, so the two bases overlap along `x+B/2..x+B`, half a base, and no slanted edge is shared; the inverted triangles reach down to `y_base-52 mm`, below the next row's upright apexes at `y_base-10 mm`, so the rows' height bands overlap | the inverted base at the level of the upright apexes (`y = y_base`), so neighbours share a slanted edge | high, not executed | Layout.AsWrittenNeighboursShareNoEdge | Layout.NeighboursShareEdge |
| main.py:324-338 | `draw_text_lines` adds half a base and half a height to its `(x, y)`, but its callers already pass the tile's centre x and the text's own y | slot at `(0, 0)` upright: the system block is centred at `(60 mm, 0.9 H)`, on the right corner's vertical, outside the triangle | centre each block on the point the caller computes | high, not executed | Fitting.AsWrittenTextCentresOutsideTile | Fitting.TextCentresInsideTile |
| main.py:325 | `start_y = centre - total / 2 + line / 2`, with the following lines going down | two lines at 12 pt: baselines at `c - 7.2` and `c - 21.6`, mid-point 14.4 below the centre | `start_y = centre + total / 2 - line / 2`, so the block is centred | high, not executed | Fitting.AsWrittenBlockBelowCentre | Fitting.BaselinesCentred |
| main_test.py:163-164 | the progress maximum is `len(data) * 2`, but the value grows by two per sheet | two tags: one sheet, the bar stops at 2 of 4 | maximum = two sides per sheet | high, not executed | CableLabels.AsWrittenTwoTagsHalfway | CableLabels.ProgressCountsSides |
