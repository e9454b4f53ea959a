/** colors_browser.txt: one line per grid cell, `row <TAB> col <TAB> r <TAB> g <TAB> b`, with
    1-indexed coordinates and channels in [0, 1]. Decoded into a sparse row/column table of RGB colors
    on the 0..255 scale. */
module CGColor {
  import opened Js

  /** A color whose channels may be NaN (a missing or unreadable field). */
  datatype RgbColor = RgbColor(red: Option<real>, green: Option<real>, blue: Option<real>)

  const MaxColorValue: real := 255.0

  /** A channel field times 255. */
  function Channel(field: Option<string>): (r: Option<real>)
    ensures r.Some? <==> ParseFloatOf(field).Some?
    ensures r.Some? ==> r.value == ParseFloatOf(field).value * MaxColorValue
  {
    Mul(ParseFloatOf(field), Some(MaxColorValue))
  }

  /** `colorMap`, keyed by 0-indexed row and then 0-indexed column. */
  datatype ColorMap = ColorMap(rows: map<int, map<int, RgbColor>>)
  {
    /** `getColor(row, col)`: null when the row was never written, the cell (possibly undefined)
        otherwise. */
    function GetColor(row: int, col: int): (r: Lookup<RgbColor>)
      ensures r == Null <==> row - 1 !in rows
      ensures r.Found? <==> row - 1 in rows && col - 1 in rows[row - 1]
      ensures r.Found? ==> r.value == rows[row - 1][col - 1]
    {
      if row - 1 !in rows then Null
      else if col - 1 in rows[row - 1] then Found(rows[row - 1][col - 1]) else Undefined
    }
  }

  /** The coordinates and color one line carries. A NaN row or column is stored by the source under
      the property "NaN", which no numeric lookup reaches, so it writes nothing here. */
  datatype Cell = Cell(row: Option<int>, col: Option<int>, color: RgbColor)

  function LineCell(line: string): Cell {
    var parts := Split(line, '\t');
    Cell(ParseIntOf(Part(parts, 0)), ParseIntOf(Part(parts, 1)),
         RgbColor(Channel(Part(parts, 2)), Channel(Part(parts, 3)), Channel(Part(parts, 4))))
  }

  /** One line: allocate the row if it is new, then write the cell. Lines are never rejected; a
      blank line has a NaN row. */
  function ParseLine(m: ColorMap, line: string): ColorMap {
    Store(m, LineCell(line))
  }

  function Store(m: ColorMap, c: Cell): ColorMap {
    if c.row.None? then m
    else
      var r := c.row.value - 1;
      var cells := if r in m.rows then m.rows[r] else map[];
      if c.col.None? then ColorMap(m.rows[r := cells])
      else ColorMap(m.rows[r := cells[c.col.value - 1 := c.color]])
  }

  function ParseAll(lines: seq<string>): ColorMap {
    if |lines| == 0 then ColorMap(map[])
    else ParseLine(ParseAll(lines[..|lines| - 1]), lines[|lines| - 1])
  }

  /** `parseColor`, run by the constructor. */
  method ParseColor(text: string) returns (m: ColorMap)
    ensures m == ParseAll(SplitLines(text))
  {
    var lines := SplitLines(text);
    m := ColorMap(map[]);
    var i := 0;
    while i < |lines|
      invariant 0 <= i <= |lines|
      invariant ParseAll(lines[..i]) == m
    {
      assert lines[..i + 1][..i] == lines[..i];
      m := ParseLine(m, lines[i]);
      i := i + 1;
    }
    assert lines[..|lines|] == lines;
  }

  // ---------------------------------------------------------------------------------------------
  // Properties

  /** Whether some line names 1-indexed row `row`. */
  predicate RowNamed(lines: seq<string>, row: int) {
    |lines| > 0 && (LineCell(lines[|lines| - 1]).row == Some(row) || RowNamed(lines[..|lines| - 1], row))
  }

  /** The color of the last line naming cell (`row`, `col`). */
  function LastColorFor(lines: seq<string>, row: int, col: int): Option<RgbColor> {
    if |lines| == 0 then None
    else
      var c := LineCell(lines[|lines| - 1]);
      if c.row == Some(row) && c.col == Some(col) then Some(c.color)
      else LastColorFor(lines[..|lines| - 1], row, col)
  }

  /** `getColor` after decoding: null exactly when no line names the row, the color of the last line
      naming the cell when one does, and undefined otherwise. */
  lemma {:induction false} GetColorOfParsed(lines: seq<string>, row: int, col: int)
    ensures var r := ParseAll(lines).GetColor(row, col);
      && (r == Null <==> !RowNamed(lines, row))
      && (r.Found? <==> LastColorFor(lines, row, col).Some?)
      && (r.Found? ==> r.value == LastColorFor(lines, row, col).value)
  {
    if |lines| > 0 {
      var init, c := lines[..|lines| - 1], LineCell(lines[|lines| - 1]);
      GetColorOfParsed(init, row, col);
      StoreGetColor(ParseAll(init), c, row, col);
    }
  }

  /** What one write does to a lookup. */
  lemma StoreGetColor(m: ColorMap, c: Cell, row: int, col: int)
    ensures var r := Store(m, c).GetColor(row, col);
      && (r == Null <==> m.GetColor(row, col) == Null && c.row != Some(row))
      && (c.row == Some(row) && c.col == Some(col) ==> r == Found(c.color))
      && (!(c.row == Some(row) && c.col == Some(col)) ==> (r.Found? <==> m.GetColor(row, col).Found?))
      && (!(c.row == Some(row) && c.col == Some(col)) && r.Found? ==> r == m.GetColor(row, col))
  {
  }
}
