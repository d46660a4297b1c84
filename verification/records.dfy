/**
 * The spreadsheet data the tag engine consumes, after the spreadsheet library has
 * read it: header texts, and per row one `Cell` per column.
 */
module Records {

  /**
   * What the quantity column's converter makes of a cell: an empty cell (`NaN` or
   * `None`), the whole number `int(value)` yields, or a value `int()` rejects.
   */
  datatype Amount = Missing | Whole(n: int) | NotANumber

  /**
   * One cell: the text `str()` renders for it; whether its value is false to
   * Python (`None`, zero or the empty string), which `value or ""` replaces by the
   * empty string; and what it means as a quantity.
   */
  datatype Cell = Cell(text: string, falsy: bool, amount: Amount)

  /** One tag instance: the four texts printed on a triangle. */
  datatype Tag = Tag(system: string, track: string, cable: string, length: string)
}
