/** docmap.txt: one line per grid cell, `row:<r>` and `col:<c>` (1-indexed) followed by tab-separated
    `<entry id + 1>:<weight>:<layer>` tokens, saying which document entries sit at that cell and how
    strongly. Decoded into a sparse row/column table of entry lists and, for each entry, the cell it
    was last placed in. */
module CGMappings {
  import opened Js
  import opened Patterns

  datatype DocEntryWeight = DocEntryWeight(entryId: int, weight: Option<real>, layer: int)

  datatype DocEntryWeightPosition = DocEntryWeightPosition(weight: Option<real>, row: int, col: int)

  /** `mappings`, keyed by 0-indexed row and then 0-indexed column, and `entryToGridMapping`, keyed
      by 0-indexed entry id. */
  datatype Mappings = Mappings(mappings: map<int, map<int, seq<DocEntryWeight>>>,
                               entryToGridMapping: map<int, DocEntryWeightPosition>)
  {
    /** `getMappings(row, col)`: reading a row that was never allocated is a TypeError; a missing
        column in an allocated row is undefined (None). */
    function GetMappings(row: int, col: int): (r: Result<Option<seq<DocEntryWeight>>>)
      ensures r.Err? <==> row - 1 !in mappings
      ensures r.Err? ==> r.error == TypeError
      ensures r == Ok(None) <==> row - 1 in mappings && col - 1 !in mappings[row - 1]
      ensures r.Ok? && r.value.Some? ==> r.value.value == mappings[row - 1][col - 1]
    {
      if row - 1 !in mappings then Err(TypeError)
      else if col - 1 in mappings[row - 1] then Ok(Some(mappings[row - 1][col - 1]))
      else Ok(None)
    }

    /** `getMappingsCount(row, col)`: 0 for a negative coordinate; otherwise the length of the cell's
        list, which is a TypeError unless the cell exists (row 0 and column 0 are not excluded). */
    function GetMappingsCount(row: int, col: int): (r: Result<nat>)
      ensures row < 0 || col < 0 ==> r == Ok(0)
      ensures row >= 0 && col >= 0 ==>
        (r.Ok? <==> row - 1 in mappings && col - 1 in mappings[row - 1])
      ensures row >= 0 && col >= 0 && r.Ok? ==> r.value == |mappings[row - 1][col - 1]|
      ensures r.Err? ==> r.error == TypeError
    {
      if row < 0 || col < 0 then Ok(0)
      else match GetMappings(row, col)
        case Ok(Some(list)) => Ok(|list|)
        case _ => Err(TypeError)
    }

    /** `getPositionOfEntry(entryId)`, None standing for undefined. */
    function GetPositionOfEntry(entryId: int): (r: Option<DocEntryWeightPosition>)
      ensures r.Some? <==> entryId in entryToGridMapping
      ensures r.Some? ==> r.value == entryToGridMapping[entryId]
    {
      if entryId in entryToGridMapping then Some(entryToGridMapping[entryId]) else None
    }

    /** What an in-place sort of the list `getMappings(row, col)` returned leaves behind: that cell
        holds `list`, every other cell and every entry's position are as before. */
    function Reorder(row: int, col: int, list: seq<DocEntryWeight>): (r: Mappings)
      requires GetMappings(row, col).Ok? && GetMappings(row, col).value.Some?
      ensures r.entryToGridMapping == entryToGridMapping
      ensures r.GetMappings(row, col) == Ok(Some(list))
      ensures forall y, x :: y != row || x != col ==> r.GetMappings(y, x) == GetMappings(y, x)
    {
      Mappings(mappings[row - 1 := mappings[row - 1][col - 1 := list]], entryToGridMapping)
    }
  }

  const EmptyMappings: Mappings := Mappings(map[], map[])

  const MappingsError: string := "docmap.txt improperly formatted."

  /** The entry a token carries: the leftmost `digits:weight:digits` in it, or nothing. */
  function TokenEntry(token: string): Option<DocEntryWeight> {
    match FindWeightLayer(token)
    case None => None
    case Some((entry, weight, layer)) =>
      Some(DocEntryWeight(DigitsValue(entry) - 1, ParseFloat(weight), DigitsValue(layer) - 1))
  }

  /** The push of one entry into cell (`row`, `col`), allocating the row and the cell on first use,
      and the entry's new position. */
  function AddEntry(m: Mappings, row: int, col: int, e: DocEntryWeight): Mappings {
    var cells := if row - 1 in m.mappings then m.mappings[row - 1] else map[];
    var list := if col - 1 in cells then cells[col - 1] else [];
    Mappings(m.mappings[row - 1 := cells[col - 1 := list + [e]]],
             m.entryToGridMapping[e.entryId := DocEntryWeightPosition(e.weight, row, col)])
  }

  /** Every token of a line, in order; a token without a match changes nothing. */
  function AddTokens(m: Mappings, row: int, col: int, tokens: seq<string>): Mappings {
    if |tokens| == 0 then m
    else
      var earlier := AddTokens(m, row, col, tokens[..|tokens| - 1]);
      match TokenEntry(tokens[|tokens| - 1])
      case None => earlier
      case Some(e) => AddEntry(earlier, row, col, e)
  }

  /** The inner `forEach` over a line's tokens. */
  method ReadTokens(m: Mappings, row: int, col: int, tokens: seq<string>) returns (r: Mappings)
    ensures r == AddTokens(m, row, col, tokens)
  {
    r := m;
    var i := 0;
    while i < |tokens|
      invariant 0 <= i <= |tokens|
      invariant r == AddTokens(m, row, col, tokens[..i])
    {
      assert tokens[..i + 1][..i] == tokens[..i];
      var e := TokenEntry(tokens[i]);
      if e.Some? {
        r := AddEntry(r, row, col, e.value);
      }
      i := i + 1;
    }
    assert tokens[..|tokens|] == tokens;
  }

  /** The row and column of a non-blank line, or its error. */
  function LineCoordinates(line: string): Result<(int, int)> {
    RowColumn(line, FormatError(MappingsError))
  }

  function ParseLine(m: Mappings, line: string): Result<Mappings> {
    if IsBlank(line) then Ok(m)
    else
      match LineCoordinates(line)
      case Err(err) => Err(err)
      case Ok(rc) =>
        Ok(AddTokens(m, rc.0, rc.1, Split(line, '\t')[2..]))
  }

  function ParseAll(lines: seq<string>): Result<Mappings> {
    if |lines| == 0 then Ok(EmptyMappings)
    else match ParseAll(lines[..|lines| - 1])
      case Err(e) => Err(e)
      case Ok(m) => ParseLine(m, lines[|lines| - 1])
  }

  /** `parseMappings`, run by the constructor. */
  method ParseMappings(text: string) returns (r: Result<Mappings>)
    ensures r == ParseAll(SplitLines(text))
  {
    var lines := SplitLines(text);
    var m := EmptyMappings;
    var i := 0;
    while i < |lines|
      invariant 0 <= i <= |lines|
      invariant ParseAll(lines[..i]) == Ok(m)
    {
      assert lines[..i + 1][..i] == lines[..i];
      var line := lines[i];
      if !IsBlank(line) {
        var rc := LineCoordinates(line);
        if rc.Err? {
          r := Err(rc.error);
          ErrorPersists(lines, i + 1);
          return;
        }
        m := ReadTokens(m, rc.value.0, rc.value.1, Split(line, '\t')[2..]);
      }
      i := i + 1;
    }
    assert lines[..|lines|] == lines;
    r := Ok(m);
  }

  lemma {:induction false} ErrorPersists(lines: seq<string>, k: nat)
    requires k <= |lines| && ParseAll(lines[..k]).Err?
    ensures ParseAll(lines) == ParseAll(lines[..k])
  {
    if k < |lines| {
      assert lines[..|lines| - 1][..k] == lines[..k];
      ErrorPersists(lines[..|lines| - 1], k);
    } else {
      assert lines[..k] == lines;
    }
  }

  // ---------------------------------------------------------------------------------------------
  // Properties

  predicate LineAccepted(line: string) {
    IsBlank(line) || LineCoordinates(line).Ok?
  }

  /** The file is accepted exactly when every non-blank line has at least two fields, starting with
      `row:` and `col:`, each followed by a digit. A missing field or prefix is the format error; a
      prefix without a digit after it is a TypeError. */
  lemma {:induction false} ParseSucceedsIffWellFormed(lines: seq<string>)
    ensures ParseAll(lines).Ok? <==> forall i :: 0 <= i < |lines| ==> LineAccepted(lines[i])
    ensures ParseAll(lines).Err? ==> ParseAll(lines).error in {FormatError(MappingsError), TypeError}
  {
    if |lines| > 0 {
      var init := lines[..|lines| - 1];
      ParseSucceedsIffWellFormed(init);
      assert forall i :: 0 <= i < |init| ==> init[i] == lines[i];
    }
  }

  /** The entries of the tokens that match, in order. */
  function TokenEntries(tokens: seq<string>): seq<DocEntryWeight> {
    if |tokens| == 0 then []
    else
      var earlier := TokenEntries(tokens[..|tokens| - 1]);
      match TokenEntry(tokens[|tokens| - 1])
      case None => earlier
      case Some(e) => earlier + [e]
  }

  predicate CellPresent(m: Mappings, row: int, col: int) {
    row - 1 in m.mappings && col - 1 in m.mappings[row - 1]
  }

  /** The list at a cell, empty when there is none. */
  function CellList(m: Mappings, row: int, col: int): seq<DocEntryWeight> {
    if CellPresent(m, row, col) then m.mappings[row - 1][col - 1] else []
  }

  /** The last entry of `entries` with id `entryId`. */
  function LastEntryIn(entries: seq<DocEntryWeight>, entryId: int): Option<DocEntryWeight> {
    if |entries| == 0 then None
    else if entries[|entries| - 1].entryId == entryId then Some(entries[|entries| - 1])
    else LastEntryIn(entries[..|entries| - 1], entryId)
  }

  /** What one push does: the entry is appended to cell (`row`, `col`) only, and becomes the
      position of its id. */
  lemma AddEntryEffect(m: Mappings, row: int, col: int, e: DocEntryWeight, r: int, c: int)
    ensures var m' := AddEntry(m, row, col, e);
      var here := r - 1 == row - 1 && c - 1 == col - 1;
      && (r - 1 in m'.mappings <==> r - 1 in m.mappings || r - 1 == row - 1)
      && (CellPresent(m', r, c) <==> CellPresent(m, r, c) || here)
      && CellList(m', r, c) == CellList(m, r, c) + (if here then [e] else [])
  {
  }

  /** What one line's tokens do to the table: the matching entries are appended, in order, to the
      line's cell only, and the row and the cell exist afterwards exactly when they did before or an
      entry was appended. */
  lemma {:induction false} AddTokensCells(m: Mappings, row: int, col: int, tokens: seq<string>, r: int, c: int)
    ensures var m' := AddTokens(m, row, col, tokens);
      var added := TokenEntries(tokens);
      var here := r - 1 == row - 1 && c - 1 == col - 1;
      && (r - 1 in m'.mappings <==> r - 1 in m.mappings || (r - 1 == row - 1 && |added| > 0))
      && (CellPresent(m', r, c) <==> CellPresent(m, r, c) || (here && |added| > 0))
      && CellList(m', r, c) == CellList(m, r, c) + (if here then added else [])
  {
    if |tokens| > 0 {
      var init := tokens[..|tokens| - 1];
      AddTokensCells(m, row, col, init, r, c);
      var earlier := TokenEntries(init);
      var mid := AddTokens(m, row, col, init);
      match TokenEntry(tokens[|tokens| - 1])
      case None =>
        assert AddTokens(m, row, col, tokens) == mid;
        assert TokenEntries(tokens) == earlier;
      case Some(e) =>
        assert AddTokens(m, row, col, tokens) == AddEntry(mid, row, col, e);
        AddEntryEffect(mid, row, col, e, r, c);
        assert TokenEntries(tokens) == earlier + [e];
        var here := r - 1 == row - 1 && c - 1 == col - 1;
        if here {
          assert CellList(m, r, c) + earlier + [e] == CellList(m, r, c) + (earlier + [e]);
        }
    }
  }

  /** What one line's tokens do to the positions: each appended entry's position becomes the line's
      cell, the last one for an id winning; other ids keep theirs. */
  lemma {:induction false} AddTokensPositions(m: Mappings, row: int, col: int, tokens: seq<string>, k: int)
    ensures var m' := AddTokens(m, row, col, tokens);
      var last := LastEntryIn(TokenEntries(tokens), k);
      && (k in m'.entryToGridMapping <==> k in m.entryToGridMapping || last.Some?)
      && (last.Some? ==> m'.entryToGridMapping[k] == DocEntryWeightPosition(last.value.weight, row, col))
      && (last.None? && k in m.entryToGridMapping ==> m'.entryToGridMapping[k] == m.entryToGridMapping[k])
  {
    if |tokens| > 0 {
      var init := tokens[..|tokens| - 1];
      AddTokensPositions(m, row, col, init, k);
      var earlier := TokenEntries(init);
      match TokenEntry(tokens[|tokens| - 1])
      case None =>
      case Some(e) =>
        var added := earlier + [e];
        assert TokenEntries(tokens) == added;
        assert added[..|added| - 1] == earlier;
    }
  }

  /** The row and column of a non-blank line the decoder accepts. */
  function LineCell(line: string): Option<(int, int)> {
    if !IsBlank(line) && LineCoordinates(line).Ok? then Some(LineCoordinates(line).value) else None
  }

  function LineEntries(line: string): seq<DocEntryWeight> {
    var parts := Split(line, '\t');
    if |parts| >= 2 then TokenEntries(parts[2..]) else []
  }

  /** All entries the lines place at cell (`row`, `col`), in file order. */
  function CellEntries(lines: seq<string>, row: int, col: int): seq<DocEntryWeight> {
    if |lines| == 0 then []
    else
      var line := lines[|lines| - 1];
      var rc := LineCell(line);
      CellEntries(lines[..|lines| - 1], row, col)
        + if rc.Some? && rc.value.0 - 1 == row - 1 && rc.value.1 - 1 == col - 1 then LineEntries(line) else []
  }

  /** Whether some line places an entry in row `row`. */
  predicate RowFilled(lines: seq<string>, row: int) {
    |lines| > 0 &&
      var line := lines[|lines| - 1];
      var rc := LineCell(line);
      (rc.Some? && rc.value.0 - 1 == row - 1 && |LineEntries(line)| > 0) || RowFilled(lines[..|lines| - 1], row)
  }

  /** `getMappings` after decoding: a TypeError exactly when no entry was placed in the row;
      otherwise all entries placed in the cell, in file order, and undefined when there are none. */
  lemma {:induction false} ParsedCells(lines: seq<string>, row: int, col: int)
    requires ParseAll(lines).Ok?
    ensures var m := ParseAll(lines).value;
      var entries := CellEntries(lines, row, col);
      && (m.GetMappings(row, col).Err? <==> !RowFilled(lines, row))
      && (m.GetMappings(row, col) == Ok(None) <==> RowFilled(lines, row) && entries == [])
      && (entries != [] ==> m.GetMappings(row, col) == Ok(Some(entries)))
  {
    CellsOfParsed(lines, row, col);
  }

  lemma {:induction false} CellsOfParsed(lines: seq<string>, row: int, col: int)
    requires ParseAll(lines).Ok?
    ensures var m := ParseAll(lines).value;
      && (row - 1 in m.mappings <==> RowFilled(lines, row))
      && (CellPresent(m, row, col) <==> CellEntries(lines, row, col) != [])
      && CellList(m, row, col) == CellEntries(lines, row, col)
  {
    if |lines| > 0 {
      var init, line := lines[..|lines| - 1], lines[|lines| - 1];
      CellsOfParsed(init, row, col);
      if !IsBlank(line) {
        var rc := LineCoordinates(line).value;
        AddTokensCells(ParseAll(init).value, rc.0, rc.1, Split(line, '\t')[2..], row, col);
      }
    }
  }

  /** The position of the last token in the file for entry `entryId`. */
  function LastPositionFor(lines: seq<string>, entryId: int): Option<DocEntryWeightPosition> {
    if |lines| == 0 then None
    else
      var line := lines[|lines| - 1];
      var rc := LineCell(line);
      var e := LastEntryIn(LineEntries(line), entryId);
      if rc.Some? && e.Some? then Some(DocEntryWeightPosition(e.value.weight, rc.value.0, rc.value.1))
      else LastPositionFor(lines[..|lines| - 1], entryId)
  }

  /** `getPositionOfEntry` after decoding: the cell and weight of the entry's last token in the file,
      undefined when it has none. */
  lemma {:induction false} ParsedPositions(lines: seq<string>, entryId: int)
    requires ParseAll(lines).Ok?
    ensures ParseAll(lines).value.GetPositionOfEntry(entryId) == LastPositionFor(lines, entryId)
  {
    if |lines| > 0 {
      var init, line := lines[..|lines| - 1], lines[|lines| - 1];
      ParsedPositions(init, entryId);
      if !IsBlank(line) {
        var rc := LineCoordinates(line).value;
        AddTokensPositions(ParseAll(init).value, rc.0, rc.1, Split(line, '\t')[2..], entryId);
      }
    }
  }

  /** Whether `list` holds an entry with this id and weight. */
  predicate Holds(list: seq<DocEntryWeight>, entryId: int, weight: Option<real>) {
    |list| > 0 && ((list[|list| - 1].entryId == entryId && list[|list| - 1].weight == weight)
                   || Holds(list[..|list| - 1], entryId, weight))
  }

  /** Every entry's position names a cell that holds that entry with that weight. */
  predicate PositionsConsistent(m: Mappings) {
    forall k :: k in m.entryToGridMapping ==>
      var p := m.entryToGridMapping[k];
      CellPresent(m, p.row, p.col) && Holds(m.mappings[p.row - 1][p.col - 1], k, p.weight)
  }

  lemma HoldsAppend(list: seq<DocEntryWeight>, e: DocEntryWeight, entryId: int, weight: Option<real>)
    requires Holds(list, entryId, weight)
    ensures Holds(list + [e], entryId, weight)
  {
    assert (list + [e])[..|list|] == list;
  }

  lemma AddEntryConsistent(m: Mappings, row: int, col: int, e: DocEntryWeight)
    requires PositionsConsistent(m)
    ensures PositionsConsistent(AddEntry(m, row, col, e))
  {
    var m' := AddEntry(m, row, col, e);
    forall k | k in m'.entryToGridMapping
      ensures var p := m'.entryToGridMapping[k];
        CellPresent(m', p.row, p.col) && Holds(m'.mappings[p.row - 1][p.col - 1], k, p.weight)
    {
      var p := m'.entryToGridMapping[k];
      var list := CellList(m, row, col);
      assert m'.mappings[row - 1][col - 1] == list + [e];
      if k == e.entryId {
        assert (list + [e])[|list|] == e;
      } else {
        var q := m.entryToGridMapping[k];
        assert p == q;
        if q.row - 1 == row - 1 && q.col - 1 == col - 1 {
          HoldsAppend(list, e, k, q.weight);
        }
      }
    }
  }

  lemma {:induction false} AddTokensConsistent(m: Mappings, row: int, col: int, tokens: seq<string>)
    requires PositionsConsistent(m)
    ensures PositionsConsistent(AddTokens(m, row, col, tokens))
  {
    if |tokens| > 0 {
      AddTokensConsistent(m, row, col, tokens[..|tokens| - 1]);
      var earlier := AddTokens(m, row, col, tokens[..|tokens| - 1]);
      match TokenEntry(tokens[|tokens| - 1])
      case None =>
      case Some(e) => AddEntryConsistent(earlier, row, col, e);
    }
  }

  /** After decoding, `getPositionOfEntry` and `getMappings` agree: every placed entry is found, with
      its weight, in the list of the cell its position names. */
  lemma {:induction false} ParsedConsistent(lines: seq<string>)
    requires ParseAll(lines).Ok?
    ensures PositionsConsistent(ParseAll(lines).value)
  {
    if |lines| > 0 {
      var init, line := lines[..|lines| - 1], lines[|lines| - 1];
      ParsedConsistent(init);
      if !IsBlank(line) {
        var rc := LineCoordinates(line).value;
        AddTokensConsistent(ParseAll(init).value, rc.0, rc.1, Split(line, '\t')[2..]);
      }
    }
  }

  // ---------------------------------------------------------------------------------------------
  // The lines the pipeline writes are read back whole

  /** An entry as the pipeline writes it: its 0-indexed id, the text Python's `str` gives its weight,
      and its layer as written. */
  datatype Written = Written(id: nat, weightText: string, layer: nat)

  predicate WellWritten(ws: seq<Written>) {
    forall i :: 0 <= i < |ws| ==> |ws[i].weightText| >= 1 && AllWeightChars(ws[i].weightText)
  }

  /** `str(id + 1) + ":" + str(val) + ":" + str(l)` for each entry. */
  function WrittenTokens(ws: seq<Written>): (r: seq<string>)
    ensures |r| == |ws|
  {
    if |ws| == 0 then []
    else
      var w := ws[|ws| - 1];
      WrittenTokens(ws[..|ws| - 1]) + [NatToString(w.id + 1) + ":" + w.weightText + ":" + NatToString(w.layer)]
  }

  /** What the decoder makes of a written entry: the id back, the weight read by `parseFloat`, and
      the layer less one. */
  function WrittenEntry(w: Written): DocEntryWeight {
    DocEntryWeight(w.id, ParseFloat(w.weightText), w.layer - 1)
  }

  function WrittenEntries(ws: seq<Written>): (r: seq<DocEntryWeight>)
    ensures |r| == |ws|
    ensures forall i :: 0 <= i < |ws| ==> r[i] == WrittenEntry(ws[i])
  {
    if |ws| == 0 then []
    else
      var r := WrittenEntries(ws[..|ws| - 1]);
      assert forall i :: 0 <= i < |ws| - 1 ==> ws[..|ws| - 1][i] == ws[i];
      r + [WrittenEntry(ws[|ws| - 1])]
  }

  lemma {:induction false} WrittenTokensRoundTrip(ws: seq<Written>)
    requires WellWritten(ws)
    ensures TokenEntries(WrittenTokens(ws)) == WrittenEntries(ws)
  {
    if |ws| > 0 {
      var init, w := ws[..|ws| - 1], ws[|ws| - 1];
      assert WellWritten(init) by {
        assert forall i :: 0 <= i < |init| ==> init[i] == ws[i];
      }
      WrittenTokensRoundTrip(init);
      WrittenTokensLast(ws);
      var tokens := WrittenTokens(ws);
      TokenEntriesStep(tokens, WrittenEntry(w));
      assert WrittenEntries(ws) == WrittenEntries(init) + [WrittenEntry(w)];
    }
  }

  lemma {:induction false} WrittenTokensHaveNoTab(ws: seq<Written>)
    requires WellWritten(ws)
    ensures forall i :: 0 <= i < |ws| ==> NoTab(WrittenTokens(ws)[i])
  {
    if |ws| > 0 {
      var init, w := ws[..|ws| - 1], ws[|ws| - 1];
      var tokens := WrittenTokens(ws);
      assert WellWritten(init) by {
        assert forall i :: 0 <= i < |init| ==> init[i] == ws[i];
      }
      WrittenTokensHaveNoTab(init);
      WrittenToken(tokens[|tokens| - 1], w.id, w.weightText, w.layer);
      assert forall i :: 0 <= i < |ws| - 1 ==> tokens[i] == WrittenTokens(init)[i];
    }
  }

  /** The last written token carries the last entry, after the tokens of the others. */
  lemma WrittenTokensLast(ws: seq<Written>)
    requires |ws| > 0 && |ws[|ws| - 1].weightText| >= 1 && AllWeightChars(ws[|ws| - 1].weightText)
    ensures var tokens := WrittenTokens(ws);
      && tokens[..|tokens| - 1] == WrittenTokens(ws[..|ws| - 1])
      && TokenEntry(tokens[|tokens| - 1]) == Some(WrittenEntry(ws[|ws| - 1]))
  {
    var w := ws[|ws| - 1];
    var t := NatToString(w.id + 1) + ":" + w.weightText + ":" + NatToString(w.layer);
    var tokens := WrittenTokens(ws);
    assert tokens == WrittenTokens(ws[..|ws| - 1]) + [t];
    WrittenToken(tokens[|tokens| - 1], w.id, w.weightText, w.layer);
  }

  lemma TokenEntriesStep(tokens: seq<string>, e: DocEntryWeight)
    requires |tokens| > 0 && TokenEntry(tokens[|tokens| - 1]) == Some(e)
    ensures TokenEntries(tokens) == TokenEntries(tokens[..|tokens| - 1]) + [e]
  {
  }

  lemma WrittenToken(t: string, id: nat, x: string, layer: nat)
    requires |x| >= 1 && AllWeightChars(x)
    requires t == NatToString(id + 1) + ":" + x + ":" + NatToString(layer)
    ensures TokenEntry(t) == Some(WrittenEntry(Written(id, x, layer)))
    ensures NoTab(t)
  {
    var a, b := NatToString(id + 1), NatToString(layer);
    WeightLayerToken(t, id + 1, x, layer);
    TokenEntryOfMatch(t, a, x, b);
    TokenHasNoTab(t, a, x, b);
  }

  lemma TokenEntryOfMatch(t: string, a: string, x: string, b: string)
    requires FindWeightLayer(t) == Some((a, x, b))
    ensures TokenEntry(t) == Some(DocEntryWeight(DigitsValue(a) - 1, ParseFloat(x), DigitsValue(b) - 1))
  {
  }

  lemma TokenHasNoTab(t: string, a: string, x: string, b: string)
    requires AllDigits(a) && AllDigits(b) && AllWeightChars(x)
    requires t == a + ":" + x + ":" + b
    ensures NoTab(t)
  {
    NoTabConcat(a, ":");
    WeightCharsHaveNoTab(x);
    NoTabConcat(a + ":", x);
    NoTabConcat(a + ":" + x, ":");
    NoTabConcat(a + ":" + x + ":", b);
  }

  /** The fields of the line written for cell (`r`, `c`) with the given entries: `"row:<r>"`,
      `"col:<c>"`, then the tokens; with no entry the line still ends in a tab, an empty field. */
  function WrittenFields(r: nat, c: nat, ws: seq<Written>): seq<string> {
    ["row:" + NatToString(r), "col:" + NatToString(c)] + (if |ws| == 0 then [""] else WrittenTokens(ws))
  }

  /** A written line decodes to its entries appended to cell (`r`, `c`), whatever came before. */
  lemma MappingsLineRoundTrip(m: Mappings, r: nat, c: nat, ws: seq<Written>, line: string)
    requires WellWritten(ws)
    requires line == Join(WrittenFields(r, c, ws), "\t")
    ensures ParseLine(m, line).Ok?
    ensures LineEntries(line) == WrittenEntries(ws)
    ensures ParseLine(m, line) == Ok(AddTokens(m, r, c, Split(line, '\t')[2..]))
  {
    var pieces := WrittenFields(r, c, ws);
    WrittenTokensHaveNoTab(ws);
    CellFieldsHaveNoTab(r, c, if |ws| == 0 then [""] else WrittenTokens(ws));
    SplitJoinedFields(pieces);
    JoinedFieldsNotBlank(pieces, 0);
    RowColumnOfFields(line, pieces, r, c, FormatError(MappingsError));
    WrittenTokensRoundTrip(ws);
    if |ws| == 0 {
      assert pieces[2..] == [""];
      assert TokenEntries([""]) == TokenEntries([""][..0]);
    } else {
      assert pieces[2..] == WrittenTokens(ws);
    }
  }

}
