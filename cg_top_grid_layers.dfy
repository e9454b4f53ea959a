/** top_pi_layers.txt: one line per cell of every deeper layer of the grid, `layer:<l>`, `row:<r>`
    and `col:<c>` (1-indexed) followed by tab-separated `<word id>:<weight>` tokens, read with the
    same pattern and threshold as top_pi.txt. There is no vocabulary lookup here, so only the
    coordinates can make a line fail. */
module CGTopGridLayers {
  import opened Js
  import opened Patterns
  import CGTopGrid

  type WordEntry = CGTopGrid.WordEntry

  type Layers = JsArray<JsArray<JsArray<seq<WordEntry>>>>

  /** Layers written only through `Set`: every level keeps `length` right. */
  ghost predicate LayersValid(g: Layers) {
    g.Valid() && forall l :: l in g.elems ==> CGTopGrid.GridValid(g.elems[l])
  }

  /** `topGridLayers`, keyed by 0-indexed layer, row and column. */
  datatype TopGridLayers = TopGridLayers(topGridLayers: Layers)
  {
    /** `getWordEntryList(layer, row, col)`: a missing layer or row is a TypeError, a missing cell
        undefined. */
    function GetWordEntryList(layer: int, row: int, col: int): (r: Result<Option<seq<WordEntry>>>)
      ensures r.Err? <==> !RowPresent(this, layer, row)
      ensures r.Err? ==> r.error == TypeError
      ensures r == Ok(None) <==> RowPresent(this, layer, row) && !CellPresent(this, layer, row, col)
      ensures r.Ok? && r.value.Some? ==> r.value.value == CellList(this, layer, row, col)
    {
      match topGridLayers.Get(layer - 1)
      case None => Err(TypeError)
      case Some(rows) =>
        match rows.Get(row - 1)
        case None => Err(TypeError)
        case Some(cells) => Ok(cells.Get(col - 1))
    }

    /** `getWordProbability(layer, row, col, wordId)`: the weight of the cell's first entry for the
        word. A missing layer, row or cell, or no entry for the word, is a TypeError. */
    function GetWordProbability(layer: int, row: int, col: int, wordId: int): (r: Result<real>)
      ensures r.Ok? <==> CellPresent(this, layer, row, col)
                         && CGTopGrid.FirstWeight(CellList(this, layer, row, col), wordId).Some?
      ensures r.Ok? ==> Some(r.value) == CGTopGrid.FirstWeight(CellList(this, layer, row, col), wordId)
      ensures r.Err? ==> r.error == TypeError
    {
      match GetWordEntryList(layer, row, col)
      case Ok(Some(list)) =>
        (match CGTopGrid.FirstWeight(list, wordId)
         case None => Err(TypeError)
         case Some(w) => Ok(w))
      case _ => Err(TypeError)
    }
  }

  predicate RowPresent(g: TopGridLayers, layer: int, row: int) {
    layer - 1 in g.topGridLayers.elems && row - 1 in g.topGridLayers.elems[layer - 1].elems
  }

  predicate CellPresent(g: TopGridLayers, layer: int, row: int, col: int) {
    RowPresent(g, layer, row) && col - 1 in g.topGridLayers.elems[layer - 1].elems[row - 1].elems
  }

  /** The list at a cell, empty when there is none. */
  function CellList(g: TopGridLayers, layer: int, row: int, col: int): seq<WordEntry> {
    if CellPresent(g, layer, row, col) then g.topGridLayers.elems[layer - 1].elems[row - 1].elems[col - 1]
    else []
  }

  const LayersError: string := "Top_pi_layers.txt improperly formatted."

  const EmptyLayers: TopGridLayers := TopGridLayers(JsArray(map[], 0))

  /** One kept word, pushed to its cell; the layer, the row and the cell are allocated on first use. */
  function AddWord(g: TopGridLayers, layer: int, row: int, col: int, e: WordEntry): TopGridLayers {
    var rows := match g.topGridLayers.Get(layer - 1) case None => EmptyArray() case Some(a) => a;
    var cells := match rows.Get(row - 1) case None => EmptyArray() case Some(a) => a;
    var list := match cells.Get(col - 1) case None => [] case Some(l) => l;
    TopGridLayers(g.topGridLayers.Set(layer - 1, rows.Set(row - 1, cells.Set(col - 1, list + [e]))))
  }

  function AddWords(g: TopGridLayers, layer: int, row: int, col: int, words: seq<WordEntry>): TopGridLayers {
    if |words| == 0 then g
    else AddWord(AddWords(g, layer, row, col, words[..|words| - 1]), layer, row, col, words[|words| - 1])
  }

  /** The inner `forEach` over a line's tokens. */
  method ReadTokens(g: TopGridLayers, layer: int, row: int, col: int, tokens: seq<string>) returns (r: TopGridLayers)
    ensures r == AddWords(g, layer, row, col, CGTopGrid.KeptWords(tokens))
  {
    r := g;
    var i := 0;
    while i < |tokens|
      invariant 0 <= i <= |tokens|
      invariant r == AddWords(g, layer, row, col, CGTopGrid.KeptWords(tokens[..i]))
    {
      assert tokens[..i + 1][..i] == tokens[..i];
      var e := CGTopGrid.TokenWord(tokens[i]);
      if e.Some? {
        var words := CGTopGrid.KeptWords(tokens[..i + 1]);
        assert words[..|words| - 1] == CGTopGrid.KeptWords(tokens[..i]);
        r := AddWord(r, layer, row, col, e.value);
      }
      i := i + 1;
    }
    assert tokens[..|tokens|] == tokens;
  }

  /** The layer, row and column of a non-blank line, or its error: fewer than three fields or a
      missing prefix is the format error, a prefix without a digit after it a TypeError. */
  function LineCoordinates(line: string): Result<(int, int, int)> {
    var parts := Split(line, '\t');
    if |parts| < 3 || !StartsWith(parts[0], "layer:") || !StartsWith(parts[1], "row:")
       || !StartsWith(parts[2], "col:") then
      Err(FormatError(LayersError))
    else
      match Coordinate(parts[0], "layer:")
      case Err(err) => Err(err)
      case Ok(layer) =>
        match Coordinate(parts[1], "row:")
        case Err(err) => Err(err)
        case Ok(row) =>
          match Coordinate(parts[2], "col:")
          case Err(err) => Err(err)
          case Ok(col) =>
            Ok((layer, row, col))
  }

  function LineWords(line: string): seq<WordEntry> {
    var parts := Split(line, '\t');
    if |parts| >= 3 then CGTopGrid.KeptWords(parts[3..]) else []
  }

  function ParseLine(g: TopGridLayers, line: string): Result<TopGridLayers> {
    if IsBlank(line) then Ok(g)
    else
      match LineCoordinates(line)
      case Err(err) => Err(err)
      case Ok(c) =>
        Ok(AddWords(g, c.0, c.1, c.2, LineWords(line)))
  }

  function ParseAll(lines: seq<string>): Result<TopGridLayers> {
    if |lines| == 0 then Ok(EmptyLayers)
    else match ParseAll(lines[..|lines| - 1])
      case Err(e) => Err(e)
      case Ok(g) => ParseLine(g, lines[|lines| - 1])
  }

  /** One line of `parseTopPiLayers`: blank lines are skipped, the others add their words. */
  method ReadLine(g: TopGridLayers, line: string) returns (r: Result<TopGridLayers>)
    ensures r == ParseLine(g, line)
  {
    if IsBlank(line) {
      return Ok(g);
    }
    var c := LineCoordinates(line);
    if c.Err? {
      return Err(c.error);
    }
    var next := ReadTokens(g, c.value.0, c.value.1, c.value.2, Split(line, '\t')[3..]);
    r := Ok(next);
  }

  /** `parseTopPiLayers`, run by the constructor. */
  method ParseTopPiLayers(text: string) returns (r: Result<TopGridLayers>)
    ensures r == ParseAll(SplitLines(text))
  {
    var lines := SplitLines(text);
    var g := EmptyLayers;
    var i := 0;
    while i < |lines|
      invariant 0 <= i <= |lines|
      invariant ParseAll(lines[..i]) == Ok(g)
    {
      assert lines[..i + 1][..i] == lines[..i];
      var next := ReadLine(g, lines[i]);
      if next.Err? {
        r := next;
        ErrorPersists(lines, i + 1);
        return;
      }
      g := next.value;
      i := i + 1;
    }
    assert lines[..|lines|] == lines;
    r := Ok(g);
  }

  lemma {:induction false} ErrorPersists(lines: seq<string>, k: nat)
    requires k <= |lines| && ParseAll(lines[..k]).Err?
    ensures ParseAll(lines) == ParseAll(lines[..k])
  {
    if k < |lines| {
      assert lines[..|lines| - 1][..k] == lines[..k];
      ErrorPersists(lines[..|lines| - 1], k);
    } else {
      assert lines[..k] == lines;
    }
  }

  // ---------------------------------------------------------------------------------------------
  // Properties

  /** The file is accepted exactly when every non-blank line starts with `layer:`, `row:` and
      `col:` fields each followed by a digit; a missing field or prefix is the format error and a
      missing digit a TypeError. */
  lemma {:induction false} ParseSucceedsIffWellFormed(lines: seq<string>)
    ensures ParseAll(lines).Ok? <==> forall i :: 0 <= i < |lines| ==> IsBlank(lines[i]) || LineCoordinates(lines[i]).Ok?
    ensures ParseAll(lines).Err? ==> ParseAll(lines).error in {FormatError(LayersError), TypeError}
  {
    if |lines| > 0 {
      ParseSucceedsIffWellFormed(lines[..|lines| - 1]);
      assert forall i :: 0 <= i < |lines| - 1 ==> lines[..|lines| - 1][i] == lines[i];
    }
  }

  /** The effect of pushing `added` to cell (`layer`, `row`, `col`), seen at cell (`l`, `r`, `c`):
      the words are appended to that cell only, and a layer, row or cell exists afterwards exactly
      when it did before or a word was pushed into it. */
  predicate PushEffect(g: TopGridLayers, g': TopGridLayers, layer: int, row: int, col: int,
                       added: seq<WordEntry>, l: int, r: int, c: int) {
    var some := |added| > 0;
    var here := l == layer && r == row && c == col;
    && (l - 1 in g'.topGridLayers.elems <==> l - 1 in g.topGridLayers.elems || (l == layer && some))
    && (RowPresent(g', l, r) <==> RowPresent(g, l, r) || (l == layer && r == row && some))
    && (CellPresent(g', l, r, c) <==> CellPresent(g, l, r, c) || (here && some))
    && CellList(g', l, r, c) == CellList(g, l, r, c) + (if here then added else [])
  }

  /** Two pushes to the same cell, one after the other, push the words of both in order. */
  lemma PushEffectCompose(g0: TopGridLayers, g1: TopGridLayers, g2: TopGridLayers, layer: int, row: int, col: int,
                          a: seq<WordEntry>, b: seq<WordEntry>, l: int, r: int, c: int)
    requires PushEffect(g0, g1, layer, row, col, a, l, r, c)
    requires PushEffect(g1, g2, layer, row, col, b, l, r, c)
    ensures PushEffect(g0, g2, layer, row, col, a + b, l, r, c)
  {
    if l == layer && r == row && c == col {
      assert CellList(g0, l, r, c) + a + b == CellList(g0, l, r, c) + (a + b);
    }
  }

  /** What one push does. */
  lemma AddWordCells(g: TopGridLayers, layer: int, row: int, col: int, e: WordEntry, l: int, r: int, c: int)
    ensures PushEffect(g, AddWord(g, layer, row, col, e), layer, row, col, [e], l, r, c)
  {
  }

  lemma {:induction false} AddWordsCells(g: TopGridLayers, layer: int, row: int, col: int, words: seq<WordEntry>, l: int, r: int, c: int)
    ensures PushEffect(g, AddWords(g, layer, row, col, words), layer, row, col, words, l, r, c)
  {
    if |words| > 0 {
      var init, e := words[..|words| - 1], words[|words| - 1];
      var mid := AddWords(g, layer, row, col, init);
      AddWordsCells(g, layer, row, col, init, l, r, c);
      AddWordCells(mid, layer, row, col, e, l, r, c);
      PushEffectCompose(g, mid, AddWords(g, layer, row, col, words), layer, row, col, init, [e], l, r, c);
      assert words == init + [e];
    }
  }

  /** The coordinates of a non-blank line the decoder accepts. */
  function LineCell(line: string): Option<(int, int, int)> {
    if !IsBlank(line) && LineCoordinates(line).Ok? then Some(LineCoordinates(line).value) else None
  }

  /** All words the lines keep at cell (`layer`, `row`, `col`), in file order. */
  function CellWords(lines: seq<string>, layer: int, row: int, col: int): seq<WordEntry> {
    if |lines| == 0 then []
    else
      var line := lines[|lines| - 1];
      var lc := LineCell(line);
      CellWords(lines[..|lines| - 1], layer, row, col)
        + if lc == Some((layer, row, col)) then LineWords(line) else []
  }

  /** Whether some line keeps a word in layer `layer`. */
  predicate LayerFilled(lines: seq<string>, layer: int) {
    |lines| > 0 &&
      var line := lines[|lines| - 1];
      var lc := LineCell(line);
      (lc.Some? && lc.value.0 == layer && |LineWords(line)| > 0) || LayerFilled(lines[..|lines| - 1], layer)
  }

  /** Whether some line keeps a word in row `row` of layer `layer`. */
  predicate RowFilled(lines: seq<string>, layer: int, row: int) {
    |lines| > 0 &&
      var line := lines[|lines| - 1];
      var lc := LineCell(line);
      (lc.Some? && lc.value.0 == layer && lc.value.1 == row && |LineWords(line)| > 0)
        || RowFilled(lines[..|lines| - 1], layer, row)
  }

  lemma {:induction false} CellsOfParsed(lines: seq<string>, layer: int, row: int, col: int)
    requires ParseAll(lines).Ok?
    ensures var g := ParseAll(lines).value;
      && (layer - 1 in g.topGridLayers.elems <==> LayerFilled(lines, layer))
      && (RowPresent(g, layer, row) <==> RowFilled(lines, layer, row))
      && (CellPresent(g, layer, row, col) <==> CellWords(lines, layer, row, col) != [])
      && CellList(g, layer, row, col) == CellWords(lines, layer, row, col)
  {
    if |lines| > 0 {
      var init, line := lines[..|lines| - 1], lines[|lines| - 1];
      CellsOfParsed(init, layer, row, col);
      if !IsBlank(line) {
        var c := LineCoordinates(line).value;
        AddWordsCells(ParseAll(init).value, c.0, c.1, c.2, LineWords(line), layer, row, col);
      }
    }
  }

  /** `getWordEntryList` after decoding: a TypeError exactly when no word was kept in that row of
      that layer; otherwise all words kept in the cell, in file order, and undefined when none. */
  lemma ParsedCells(lines: seq<string>, layer: int, row: int, col: int)
    requires ParseAll(lines).Ok?
    ensures var g := ParseAll(lines).value;
      var words := CellWords(lines, layer, row, col);
      && (g.GetWordEntryList(layer, row, col).Err? <==> !RowFilled(lines, layer, row))
      && (g.GetWordEntryList(layer, row, col) == Ok(None) <==> RowFilled(lines, layer, row) && words == [])
      && (words != [] ==> g.GetWordEntryList(layer, row, col) == Ok(Some(words)))
  {
    CellsOfParsed(lines, layer, row, col);
  }

  lemma AddWordValid(g: TopGridLayers, layer: int, row: int, col: int, e: WordEntry)
    requires LayersValid(g.topGridLayers)
    ensures LayersValid(AddWord(g, layer, row, col, e).topGridLayers)
  {
    var rows := match g.topGridLayers.Get(layer - 1) case None => EmptyArray() case Some(a) => a;
    var cells := match rows.Get(row - 1) case None => EmptyArray() case Some(a) => a;
    var list := match cells.Get(col - 1) case None => [] case Some(l) => l;
    assert CGTopGrid.GridValid(rows);
    assert cells.Valid();
    SetKeepsValid(cells, col - 1, list + [e]);
    CGTopGrid.GridSetValid(rows, row - 1, cells.Set(col - 1, list + [e]));
    LayersSetValid(g.topGridLayers, layer - 1, rows.Set(row - 1, cells.Set(col - 1, list + [e])));
  }

  /** Writing a well-kept grid into the layers keeps them well kept. */
  lemma LayersSetValid(g: Layers, k: int, rows: CGTopGrid.Grid)
    requires LayersValid(g) && CGTopGrid.GridValid(rows)
    ensures LayersValid(g.Set(k, rows))
  {
    SetKeepsValid(g, k, rows);
  }

  lemma {:induction false} AddWordsValid(g: TopGridLayers, layer: int, row: int, col: int, words: seq<WordEntry>)
    requires LayersValid(g.topGridLayers)
    ensures LayersValid(AddWords(g, layer, row, col, words).topGridLayers)
  {
    if |words| > 0 {
      var init := words[..|words| - 1];
      AddWordsValid(g, layer, row, col, init);
      AddWordValid(AddWords(g, layer, row, col, init), layer, row, col, words[|words| - 1]);
    }
  }

  lemma {:induction false} ParsedLayersValid(lines: seq<string>)
    requires ParseAll(lines).Ok?
    ensures LayersValid(ParseAll(lines).value.topGridLayers)
  {
    if |lines| > 0 {
      var init, line := lines[..|lines| - 1], lines[|lines| - 1];
      ParsedLayersValid(init);
      if !IsBlank(line) {
        var c := LineCoordinates(line).value;
        AddWordsValid(ParseAll(init).value, c.0, c.1, c.2, LineWords(line));
      }
    }
  }

  lemma LayerOfParsed(lines: seq<string>, layer: int)
    requires ParseAll(lines).Ok?
    ensures layer - 1 in ParseAll(lines).value.topGridLayers.elems <==> LayerFilled(lines, layer)
  {
    CellsOfParsed(lines, layer, 0, 0);
  }

  /** `layerLength` after decoding is the highest layer number in which some word was kept, and 0
      when no word was kept in any layer numbered 1 or more. */
  lemma ParsedLayerLength(lines: seq<string>)
    requires ParseAll(lines).Ok?
    ensures var n := ParseAll(lines).value.topGridLayers.length;
      && (forall layer :: LayerFilled(lines, layer) && layer >= 1 ==> layer <= n)
      && (n == 0 || LayerFilled(lines, n))
  {
    forall layer | LayerFilled(lines, layer) && layer >= 1
      ensures layer <= ParseAll(lines).value.topGridLayers.length
    {
      FilledBelowLength(lines, layer);
    }
    FilledAtLength(lines);
  }

  lemma FilledBelowLength(lines: seq<string>, layer: int)
    requires ParseAll(lines).Ok? && LayerFilled(lines, layer) && layer >= 1
    ensures layer <= ParseAll(lines).value.topGridLayers.length
  {
    ParsedLayersValid(lines);
    LayerOfParsed(lines, layer);
  }

  lemma FilledAtLength(lines: seq<string>)
    requires ParseAll(lines).Ok?
    ensures var n := ParseAll(lines).value.topGridLayers.length;
      n == 0 || LayerFilled(lines, n)
  {
    var g := ParseAll(lines).value.topGridLayers;
    if g.length > 0 {
      LastLayerPresent(lines);
      LayerOfParsed(lines, g.length);
    }
  }

  lemma LastLayerPresent(lines: seq<string>)
    requires ParseAll(lines).Ok?
    ensures var g := ParseAll(lines).value.topGridLayers;
      g.length > 0 ==> g.length - 1 in g.elems
  {
    ParsedLayersValid(lines);
  }

  // ---------------------------------------------------------------------------------------------
  // The lines the pipeline writes are read back whole

  /** `"layer:%1d\trow:%1d\tcol:%1d\t"` and the tokens, as fields. */
  function WrittenFields(l: nat, r: nat, c: nat, ws: seq<CGTopGrid.WrittenWord>): seq<string> {
    ["layer:" + NatToString(l), "row:" + NatToString(r), "col:" + NatToString(c)] + CGTopGrid.WrittenTail(ws)
  }

  /** A line the pipeline writes for cell (`l`, `r`, `c`) adds to that cell exactly the written
      words whose weight exceeds the threshold, in order, whatever came before. */
  lemma LayersLineRoundTrip(g: TopGridLayers, l: nat, r: nat, c: nat, ws: seq<CGTopGrid.WrittenWord>, line: string)
    requires CGTopGrid.WellWritten(ws)
    requires line == Join(WrittenFields(l, r, c, ws), "\t")
    ensures LineCoordinates(line) == Ok((l, r, c))
    ensures LineWords(line) == CGTopGrid.WrittenWords(ws)
    ensures ParseLine(g, line) == Ok(AddWords(g, l, r, c, CGTopGrid.WrittenWords(ws)))
  {
    var pieces := WrittenFields(l, r, c, ws);
    WrittenFieldsHaveNoTab(l, r, c, ws);
    SplitJoinedFields(pieces);
    JoinedFieldsNotBlank(pieces, 0);
    CoordinatesOfFields(line, pieces, l, r, c);
    assert pieces[3..] == CGTopGrid.WrittenTail(ws);
    CGTopGrid.WrittenTailRoundTrip(ws);
  }

  lemma WrittenFieldsHaveNoTab(l: nat, r: nat, c: nat, ws: seq<CGTopGrid.WrittenWord>)
    requires CGTopGrid.WellWritten(ws)
    ensures forall i :: 0 <= i < |WrittenFields(l, r, c, ws)| ==> NoTab(WrittenFields(l, r, c, ws)[i])
  {
    CGTopGrid.WrittenTokensHaveNoTab(ws);
    PrefixedFieldHasNoTab("layer:", l);
    PrefixedFieldHasNoTab("row:", r);
    PrefixedFieldHasNoTab("col:", c);
    var pieces := WrittenFields(l, r, c, ws);
    forall i | 0 <= i < |pieces| ensures NoTab(pieces[i]) {
      if i >= 3 && |ws| > 0 {
        assert pieces[i] == CGTopGrid.WrittenTokens(ws)[i - 3];
      }
    }
  }

  lemma CoordinatesOfFields(line: string, pieces: seq<string>, l: nat, r: nat, c: nat)
    requires |pieces| >= 3 && pieces[0] == "layer:" + NatToString(l)
    requires pieces[1] == "row:" + NatToString(r) && pieces[2] == "col:" + NatToString(c)
    requires Split(line, '\t') == pieces
    ensures LineCoordinates(line) == Ok((l, r, c))
  {
    PrefixedToken(pieces[0], "layer:", l);
    PrefixedToken(pieces[1], "row:", r);
    PrefixedToken(pieces[2], "col:", c);
    assert pieces[0][..6] == "layer:" && pieces[1][..4] == "row:" && pieces[2][..4] == "col:";
  }
}
