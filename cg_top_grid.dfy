/** top_pi.txt: one line per cell of the displayed (0th) grid, `row:<r>` and `col:<c>` (1-indexed)
    followed by tab-separated `<word id>:<weight>` tokens. Words at or below the probability
    threshold are dropped; every kept word becomes a word tag named from the vocabulary's lexicon,
    and the largest and smallest kept weights are tracked. */
module CGTopGrid {
  import opened Js
  import opened Patterns
  import CGVocabulary

  /** `CountingGridModel.piThreshhold`: the weight a word must exceed to be shown. */
  const PiThreshold: real := 0.0001

  datatype WordEntry = WordEntry(wordId: int, weight: real)

  datatype WordTag = WordTag(word: string, wordId: int, weight: real, row: int, col: int)

  type Grid = JsArray<JsArray<seq<WordEntry>>>

  /** A grid written only through `Set`: the rows and every row's cells keep `length` right. */
  ghost predicate GridValid(g: Grid) {
    g.Valid() && forall k :: k in g.elems ==> g.elems[k].Valid()
  }

  /** `topGrid`, keyed by 0-indexed row and then 0-indexed column; `wordTags` in file order. */
  datatype TopGrid = TopGrid(maxWeight: real, minWeight: real, topGrid: Grid, wordTags: seq<WordTag>)
  {
    /** `rowLength`: the grid array's length. */
    function RowLength(): (r: nat)
      ensures r == topGrid.length
    {
      topGrid.length
    }

    /** `columnLength`: 0 for an empty grid, otherwise the length of row 1, which is a TypeError
        when row 1 holds no word although a later row does. */
    function ColumnLength(): (r: Result<nat>)
      ensures topGrid.length == 0 ==> r == Ok(0)
      ensures topGrid.length > 0 ==> (r.Ok? <==> 0 in topGrid.elems)
      ensures topGrid.length > 0 && r.Ok? ==> r.value == topGrid.elems[0].length
      ensures r.Err? ==> r.error == TypeError
    {
      if topGrid.length == 0 then Ok(0)
      else match topGrid.Get(0)
        case None => Err(TypeError)
        case Some(first) => Ok(first.length)
    }

    /** `getWordEntryList(row, col)`: a missing row is a TypeError, a missing cell undefined. */
    function GetWordEntryList(row: int, col: int): (r: Result<Option<seq<WordEntry>>>)
      ensures r.Err? <==> row - 1 !in topGrid.elems
      ensures r.Err? ==> r.error == TypeError
      ensures r == Ok(None) <==> row - 1 in topGrid.elems && col - 1 !in topGrid.elems[row - 1].elems
      ensures r.Ok? && r.value.Some? ==> r.value.value == topGrid.elems[row - 1].elems[col - 1]
    {
      match topGrid.Get(row - 1)
      case None => Err(TypeError)
      case Some(cells) => Ok(cells.Get(col - 1))
    }

    /** `getWordProbability(row, col, wordId)`: the weight of the first entry of the cell for the
        word. A missing row, a missing cell, or no entry for the word is a TypeError. */
    function GetWordProbability(row: int, col: int, wordId: int): (r: Result<real>)
      ensures r.Ok? <==> CellPresent(this, row, col) && FirstWeight(CellList(this, row, col), wordId).Some?
      ensures r.Ok? ==> Some(r.value) == FirstWeight(CellList(this, row, col), wordId)
      ensures r.Err? ==> r.error == TypeError
    {
      match GetWordEntryList(row, col)
      case Ok(Some(list)) =>
        (match FirstWeight(list, wordId)
         case None => Err(TypeError)
         case Some(w) => Ok(w))
      case _ => Err(TypeError)
    }

    /** `isInBounds(row, col)`: row and column between 1 and the grid's lengths. The column length is
        read only once the other three tests pass, so only then can its TypeError surface. */
    function IsInBounds(row: int, col: int): (r: Result<bool>)
      ensures !(1 <= row <= RowLength() && 1 <= col) ==> r == Ok(false)
      ensures 1 <= row <= RowLength() && 1 <= col ==>
        (r.Ok? <==> ColumnLength().Ok?) && (r.Ok? ==> r.value == (col <= ColumnLength().value))
    {
      if row >= 1 && col >= 1 && row <= RowLength() then
        match ColumnLength()
        case Err(err) => Err(err)
        case Ok(columns) =>
          Ok(col <= columns)
      else Ok(false)
    }
  }

  /** The list at a cell, empty when there is none. */
  function CellList(g: TopGrid, row: int, col: int): seq<WordEntry> {
    if row - 1 in g.topGrid.elems && col - 1 in g.topGrid.elems[row - 1].elems then
      g.topGrid.elems[row - 1].elems[col - 1]
    else []
  }

  predicate CellPresent(g: TopGrid, row: int, col: int) {
    row - 1 in g.topGrid.elems && col - 1 in g.topGrid.elems[row - 1].elems
  }

  /** `list.find((w) => w.wordId === wordId).weight`, None when nothing is found. */
  function FirstWeight(list: seq<WordEntry>, wordId: int): (r: Option<real>)
    ensures r.None? <==> forall i :: 0 <= i < |list| ==> list[i].wordId != wordId
  {
    if |list| == 0 then None
    else if list[0].wordId == wordId then Some(list[0].weight)
    else
      var r := FirstWeight(list[1..], wordId);
      assert forall i :: 1 <= i < |list| ==> list[i] == list[1..][i - 1];
      r
  }

  /** `find` stops at the first entry with the word. */
  lemma {:induction false} FirstWeightFirst(list: seq<WordEntry>, wordId: int, i: nat)
    requires i < |list| && list[i].wordId == wordId
    requires forall j :: 0 <= j < i ==> list[j].wordId != wordId
    ensures FirstWeight(list, wordId) == Some(list[i].weight)
  {
    if i > 0 {
      assert list[0].wordId != wordId;
      assert list[1..][i - 1] == list[i];
      forall j | 0 <= j < i - 1
        ensures list[1..][j].wordId != wordId
      {
        assert list[1..][j] == list[j + 1];
      }
      FirstWeightFirst(list[1..], wordId, i - 1);
    }
  }

  const TopPiError: string := "Top_pi.txt improperly formatted."

  const EmptyTopGrid: TopGrid := TopGrid(0.0, 1.0, JsArray(map[], 0), [])

  /** The word a token carries: the leftmost `digits:weight` in it, kept only when `parseFloat` of
      the weight exceeds the threshold (a NaN weight never does). */
  function TokenWord(token: string): (r: Option<WordEntry>)
    ensures r.Some? ==> r.value.weight > PiThreshold
  {
    match FindWeight(token)
    case None => None
    case Some((id, w)) =>
      var x := ParseFloat(w);
      if x.Some? && x.value > PiThreshold then Some(WordEntry(DigitsValue(id), x.value)) else None
  }

  /** One kept word: pushed to its cell (allocating the row and the cell on first use), tagged with
      its lexicon word (a TypeError when the lexicon has none), and folded into the extremes. */
  function AddWord(g: TopGrid, v: CGVocabulary.Vocabulary, row: int, col: int, e: WordEntry): (r: Result<TopGrid>)
  {
    var cells := match g.topGrid.Get(row - 1) case None => EmptyArray() case Some(a) => a;
    var list := match cells.Get(col - 1) case None => [] case Some(l) => l;
    var grid := g.topGrid.Set(row - 1, cells.Set(col - 1, list + [e]));
    match v.lexicon.Get(e.wordId)
    case None => Err(TypeError)
    case Some(lw) =>
      Ok(TopGrid(if e.weight > g.maxWeight then e.weight else g.maxWeight,
                 if e.weight < g.minWeight then e.weight else g.minWeight,
                 grid, g.wordTags + [WordTag(lw.word, e.wordId, e.weight, row, col)]))
  }

  /** The words of the tokens that are kept, in order. */
  function KeptWords(tokens: seq<string>): (r: seq<WordEntry>)
    ensures forall i :: 0 <= i < |r| ==> r[i].weight > PiThreshold
  {
    if |tokens| == 0 then []
    else
      var earlier := KeptWords(tokens[..|tokens| - 1]);
      match TokenWord(tokens[|tokens| - 1])
      case None => earlier
      case Some(e) => earlier + [e]
  }

  /** The kept words of a line, added in order; the first unknown word stops the decoder. */
  function AddWords(g: TopGrid, v: CGVocabulary.Vocabulary, row: int, col: int, words: seq<WordEntry>): Result<TopGrid> {
    if |words| == 0 then Ok(g)
    else
      match AddWords(g, v, row, col, words[..|words| - 1])
      case Err(err) => Err(err)
      case Ok(earlier) =>
        AddWord(earlier, v, row, col, words[|words| - 1])
  }

  /** The inner `forEach` over a line's tokens. */
  method ReadTokens(g: TopGrid, v: CGVocabulary.Vocabulary, row: int, col: int, tokens: seq<string>) returns (r: Result<TopGrid>)
    ensures r == AddWords(g, v, row, col, KeptWords(tokens))
  {
    var acc := g;
    var i := 0;
    while i < |tokens|
      invariant 0 <= i <= |tokens|
      invariant AddWords(g, v, row, col, KeptWords(tokens[..i])) == Ok(acc)
    {
      var next := ReadToken(g, v, row, col, tokens, i, acc);
      if next.Err? {
        r := next;
        KeptWordsPrefix(tokens, i + 1);
        WordErrorPersists(g, v, row, col, KeptWords(tokens), |KeptWords(tokens[..i + 1])|);
        return;
      }
      acc := next.value;
      i := i + 1;
    }
    assert tokens[..|tokens|] == tokens;
    r := Ok(acc);
  }

  /** One token of the inner `forEach`: a kept word is added, any other token changes nothing. */
  method ReadToken(g: TopGrid, v: CGVocabulary.Vocabulary, row: int, col: int, tokens: seq<string>, i: nat,
                   acc: TopGrid) returns (r: Result<TopGrid>)
    requires i < |tokens| && AddWords(g, v, row, col, KeptWords(tokens[..i])) == Ok(acc)
    ensures r == AddWords(g, v, row, col, KeptWords(tokens[..i + 1]))
  {
    assert tokens[..i + 1][..i] == tokens[..i];
    var e := TokenWord(tokens[i]);
    if e.Some? {
      var words := KeptWords(tokens[..i + 1]);
      assert words[..|words| - 1] == KeptWords(tokens[..i]);
      r := AddWord(acc, v, row, col, e.value);
    } else {
      r := Ok(acc);
    }
  }

  /** The words kept from the first `k` tokens begin the words kept from all of them. */
  lemma {:induction false} KeptWordsPrefix(tokens: seq<string>, k: nat)
    requires k <= |tokens|
    ensures |KeptWords(tokens[..k])| <= |KeptWords(tokens)|
    ensures KeptWords(tokens)[..|KeptWords(tokens[..k])|] == KeptWords(tokens[..k])
  {
    if k < |tokens| {
      var init := tokens[..|tokens| - 1];
      assert init[..k] == tokens[..k];
      KeptWordsPrefix(init, k);
      var words := KeptWords(tokens);
      assert words == KeptWords(init) || words[..|words| - 1] == KeptWords(init);
    } else {
      assert tokens[..k] == tokens;
    }
  }

  lemma {:induction false} WordErrorPersists(g: TopGrid, v: CGVocabulary.Vocabulary, row: int, col: int, words: seq<WordEntry>, k: nat)
    requires k <= |words| && AddWords(g, v, row, col, words[..k]).Err?
    ensures AddWords(g, v, row, col, words) == AddWords(g, v, row, col, words[..k])
  {
    if k < |words| {
      assert words[..|words| - 1][..k] == words[..k];
      WordErrorPersists(g, v, row, col, words[..|words| - 1], k);
    } else {
      assert words[..k] == words;
    }
  }

  /** The row and column of a non-blank line, or its error. */
  function LineCoordinates(line: string): Result<(int, int)> {
    RowColumn(line, FormatError(TopPiError))
  }

  function ParseLine(g: TopGrid, v: CGVocabulary.Vocabulary, line: string): (r: Result<TopGrid>)
  {
    if IsBlank(line) then Ok(g)
    else
      match LineCoordinates(line)
      case Err(err) => Err(err)
      case Ok(rc) =>
        AddWords(g, v, rc.0, rc.1, KeptWords(Split(line, '\t')[2..]))
  }

  function ParseAll(v: CGVocabulary.Vocabulary, lines: seq<string>): (r: Result<TopGrid>)
  {
    if |lines| == 0 then Ok(EmptyTopGrid)
    else match ParseAll(v, lines[..|lines| - 1])
      case Err(e) => Err(e)
      case Ok(g) => ParseLine(g, v, lines[|lines| - 1])
  }

  /** `parseTopPi`, run by the constructor. */
  method ParseTopPi(text: string, v: CGVocabulary.Vocabulary) returns (r: Result<TopGrid>)
    ensures r == ParseAll(v, SplitLines(text))
  {
    var lines := SplitLines(text);
    var g := EmptyTopGrid;
    var i := 0;
    while i < |lines|
      invariant 0 <= i <= |lines|
      invariant ParseAll(v, lines[..i]) == Ok(g)
    {
      ParseAllStep(v, lines, i);
      var line := lines[i];
      if !IsBlank(line) {
        var rc := LineCoordinates(line);
        if rc.Err? {
          r := Err(rc.error);
          ErrorPersists(v, lines, i + 1);
          return;
        }
        var next := ReadTokens(g, v, rc.value.0, rc.value.1, Split(line, '\t')[2..]);
        if next.Err? {
          r := next;
          ErrorPersists(v, lines, i + 1);
          return;
        }
        g := next.value;
      }
      i := i + 1;
    }
    assert lines[..|lines|] == lines;
    r := Ok(g);
  }

  lemma ParseAllStep(v: CGVocabulary.Vocabulary, lines: seq<string>, i: nat)
    requires i < |lines| && ParseAll(v, lines[..i]).Ok?
    ensures ParseAll(v, lines[..i + 1]) == ParseLine(ParseAll(v, lines[..i]).value, v, lines[i])
  {
    assert lines[..i + 1][..i] == lines[..i];
  }

  lemma {:induction false} ErrorPersists(v: CGVocabulary.Vocabulary, lines: seq<string>, k: nat)
    requires k <= |lines| && ParseAll(v, lines[..k]).Err?
    ensures ParseAll(v, lines) == ParseAll(v, lines[..k])
  {
    if k < |lines| {
      assert lines[..|lines| - 1][..k] == lines[..k];
      ErrorPersists(v, lines[..|lines| - 1], k);
    } else {
      assert lines[..k] == lines;
    }
  }

  // ---------------------------------------------------------------------------------------------
  // Properties

  predicate AllKnown(v: CGVocabulary.Vocabulary, words: seq<WordEntry>) {
    forall i :: 0 <= i < |words| ==> words[i].wordId in v.lexicon.elems
  }

  lemma AddWordOk(g: TopGrid, v: CGVocabulary.Vocabulary, row: int, col: int, e: WordEntry)
    ensures AddWord(g, v, row, col, e).Ok? <==> e.wordId in v.lexicon.elems
    ensures AddWord(g, v, row, col, e).Err? ==> AddWord(g, v, row, col, e).error == TypeError
  {
  }

  /** A line's words are added exactly when the lexicon names every one of them; otherwise the
      error is a TypeError. */
  lemma {:induction false} AddWordsOk(g: TopGrid, v: CGVocabulary.Vocabulary, row: int, col: int, words: seq<WordEntry>)
    ensures AddWords(g, v, row, col, words).Ok? <==> AllKnown(v, words)
    ensures AddWords(g, v, row, col, words).Err? ==> AddWords(g, v, row, col, words).error == TypeError
  {
    if |words| > 0 {
      var init, e := words[..|words| - 1], words[|words| - 1];
      AddWordsOk(g, v, row, col, init);
      assert words == init + [e];
      AllKnownAppend(v, init, e);
      if AddWords(g, v, row, col, init).Ok? {
        AddWordOk(AddWords(g, v, row, col, init).value, v, row, col, e);
      }
    }
  }

  lemma AllKnownAppend(v: CGVocabulary.Vocabulary, words: seq<WordEntry>, e: WordEntry)
    ensures AllKnown(v, words + [e]) <==> AllKnown(v, words) && e.wordId in v.lexicon.elems
  {
    assert forall i :: 0 <= i < |words| ==> (words + [e])[i] == words[i];
    assert (words + [e])[|words|] == e;
  }

  predicate LineAccepted(v: CGVocabulary.Vocabulary, line: string) {
    IsBlank(line) || (LineCoordinates(line).Ok? && AllKnown(v, KeptWords(Split(line, '\t')[2..])))
  }

  /** The file is accepted exactly when every non-blank line has `row:` and `col:` fields each
      followed by a digit, and every word it keeps is in the lexicon. A missing field or prefix is
      the format error; a missing digit or an unknown kept word is a TypeError. */
  lemma {:induction false} ParseSucceedsIffWellFormed(v: CGVocabulary.Vocabulary, lines: seq<string>)
    ensures ParseAll(v, lines).Ok? <==> forall i :: 0 <= i < |lines| ==> LineAccepted(v, lines[i])
    ensures ParseAll(v, lines).Err? ==> ParseAll(v, lines).error in {FormatError(TopPiError), TypeError}
  {
    if |lines| > 0 {
      var init, line := lines[..|lines| - 1], lines[|lines| - 1];
      ParseSucceedsIffWellFormed(v, init);
      assert forall i :: 0 <= i < |init| ==> init[i] == lines[i];
      if ParseAll(v, init).Ok? && !IsBlank(line) && LineCoordinates(line).Ok? {
        var rc := LineCoordinates(line).value;
        AddWordsOk(ParseAll(v, init).value, v, rc.0, rc.1, KeptWords(Split(line, '\t')[2..]));
      }
    }
  }

  /** Whether some tag weighs `w`. */
  predicate SomeTagWeighs(tags: seq<WordTag>, w: real) {
    |tags| > 0 && (tags[|tags| - 1].weight == w || SomeTagWeighs(tags[..|tags| - 1], w))
  }

  /** `maxWeight` starts at 0 and `minWeight` at 1, and each moves to a kept weight beyond it: every
      tag lies above the threshold and between the two extremes, and each extreme is either its
      starting value or the weight of some tag. */
  predicate ExtremesHold(g: TopGrid) {
    && (forall i :: 0 <= i < |g.wordTags| ==>
          PiThreshold < g.wordTags[i].weight && g.minWeight <= g.wordTags[i].weight <= g.maxWeight)
    && 0.0 <= g.maxWeight && g.minWeight <= 1.0
    && (g.maxWeight == 0.0 || SomeTagWeighs(g.wordTags, g.maxWeight))
    && (g.minWeight == 1.0 || SomeTagWeighs(g.wordTags, g.minWeight))
  }

  lemma SomeTagWeighsAppend(tags: seq<WordTag>, t: WordTag, w: real)
    requires SomeTagWeighs(tags, w)
    ensures SomeTagWeighs(tags + [t], w)
  {
    assert (tags + [t])[..|tags|] == tags;
  }

  lemma AddWordExtremes(g: TopGrid, v: CGVocabulary.Vocabulary, row: int, col: int, e: WordEntry)
    requires ExtremesHold(g) && e.weight > PiThreshold
    requires AddWord(g, v, row, col, e).Ok?
    ensures ExtremesHold(AddWord(g, v, row, col, e).value)
  {
    var g' := AddWord(g, v, row, col, e).value;
    var t := g'.wordTags[|g'.wordTags| - 1];
    assert g'.wordTags == g.wordTags + [t];
    assert t.weight == e.weight;
    if g'.maxWeight != 0.0 && g'.maxWeight != e.weight {
      SomeTagWeighsAppend(g.wordTags, t, g'.maxWeight);
    }
    if g'.minWeight != 1.0 && g'.minWeight != e.weight {
      SomeTagWeighsAppend(g.wordTags, t, g'.minWeight);
    }
    assert (g.wordTags + [t])[..|g.wordTags|] == g.wordTags;
  }

  lemma {:induction false} AddWordsExtremes(g: TopGrid, v: CGVocabulary.Vocabulary, row: int, col: int, words: seq<WordEntry>)
    requires ExtremesHold(g) && forall i :: 0 <= i < |words| ==> words[i].weight > PiThreshold
    requires AddWords(g, v, row, col, words).Ok?
    ensures ExtremesHold(AddWords(g, v, row, col, words).value)
  {
    if |words| > 0 {
      var init := words[..|words| - 1];
      AddWordsExtremes(g, v, row, col, init);
      AddWordExtremes(AddWords(g, v, row, col, init).value, v, row, col, words[|words| - 1]);
    }
  }

  /** After decoding, every word tag lies above the threshold and within [`minWeight`, `maxWeight`],
      which never leave their starting bounds 1 and 0 except to a tag's weight. */
  lemma {:induction false} ParsedExtremes(v: CGVocabulary.Vocabulary, lines: seq<string>)
    requires ParseAll(v, lines).Ok?
    ensures ExtremesHold(ParseAll(v, lines).value)
  {
    if |lines| > 0 {
      var init, line := lines[..|lines| - 1], lines[|lines| - 1];
      ParsedExtremes(v, init);
      if !IsBlank(line) {
        var rc := LineCoordinates(line).value;
        AddWordsExtremes(ParseAll(v, init).value, v, rc.0, rc.1, KeptWords(Split(line, '\t')[2..]));
      }
    }
  }

  /** Writing a well-kept row into a grid keeps the grid well kept. */
  lemma GridSetValid(g: Grid, k: int, cells: JsArray<seq<WordEntry>>)
    requires GridValid(g) && cells.Valid()
    ensures GridValid(g.Set(k, cells))
  {
    SetKeepsValid(g, k, cells);
  }

  lemma AddWordValid(g: TopGrid, v: CGVocabulary.Vocabulary, row: int, col: int, e: WordEntry)
    requires GridValid(g.topGrid) && AddWord(g, v, row, col, e).Ok?
    ensures GridValid(AddWord(g, v, row, col, e).value.topGrid)
  {
    var cells := match g.topGrid.Get(row - 1) case None => EmptyArray() case Some(a) => a;
    var list := match cells.Get(col - 1) case None => [] case Some(l) => l;
    SetKeepsValid(cells, col - 1, list + [e]);
    SetKeepsValid(g.topGrid, row - 1, cells.Set(col - 1, list + [e]));
  }

  lemma {:induction false} AddWordsValid(g: TopGrid, v: CGVocabulary.Vocabulary, row: int, col: int, words: seq<WordEntry>)
    requires GridValid(g.topGrid) && AddWords(g, v, row, col, words).Ok?
    ensures GridValid(AddWords(g, v, row, col, words).value.topGrid)
  {
    if |words| > 0 {
      var init := words[..|words| - 1];
      AddWordsValid(g, v, row, col, init);
      AddWordValid(AddWords(g, v, row, col, init).value, v, row, col, words[|words| - 1]);
    }
  }

  /** After decoding, the grid's lengths are those of arrays written by index: no row at or beyond
      `rowLength`, the last row below it present, and the same for each row's columns. */
  lemma {:induction false} ParsedGridValid(v: CGVocabulary.Vocabulary, lines: seq<string>)
    requires ParseAll(v, lines).Ok?
    ensures GridValid(ParseAll(v, lines).value.topGrid)
  {
    if |lines| > 0 {
      var init, line := lines[..|lines| - 1], lines[|lines| - 1];
      ParsedGridValid(v, init);
      if !IsBlank(line) {
        var rc := LineCoordinates(line).value;
        AddWordsValid(ParseAll(v, init).value, v, rc.0, rc.1, KeptWords(Split(line, '\t')[2..]));
      }
    }
  }

  /** Every word tag names the lexicon's word for its id, and its cell holds that word with that
      weight. */
  predicate TagsConsistent(g: TopGrid, v: CGVocabulary.Vocabulary) {
    forall i :: 0 <= i < |g.wordTags| ==>
      var t := g.wordTags[i];
      && t.wordId in v.lexicon.elems && t.word == v.lexicon.elems[t.wordId].word
      && Holds(CellList(g, t.row, t.col), t.wordId, t.weight)
  }

  predicate Holds(list: seq<WordEntry>, wordId: int, weight: real) {
    |list| > 0 && (list[|list| - 1] == WordEntry(wordId, weight) || Holds(list[..|list| - 1], wordId, weight))
  }

  lemma HoldsAppend(list: seq<WordEntry>, e: WordEntry, wordId: int, weight: real)
    requires Holds(list, wordId, weight)
    ensures Holds(list + [e], wordId, weight)
  {
    assert (list + [e])[..|list|] == list;
  }

  /** What one push does to the cells: the word is appended to cell (`row`, `col`) only. */
  lemma AddWordCells(g: TopGrid, v: CGVocabulary.Vocabulary, row: int, col: int, e: WordEntry, r: int, c: int)
    requires AddWord(g, v, row, col, e).Ok?
    ensures var g' := AddWord(g, v, row, col, e).value;
      var here := r - 1 == row - 1 && c - 1 == col - 1;
      && (r - 1 in g'.topGrid.elems <==> r - 1 in g.topGrid.elems || r - 1 == row - 1)
      && (CellPresent(g', r, c) <==> CellPresent(g, r, c) || here)
      && CellList(g', r, c) == CellList(g, r, c) + (if here then [e] else [])
  {
  }

  lemma AddWordConsistent(g: TopGrid, v: CGVocabulary.Vocabulary, row: int, col: int, e: WordEntry)
    requires TagsConsistent(g, v) && AddWord(g, v, row, col, e).Ok?
    ensures TagsConsistent(AddWord(g, v, row, col, e).value, v)
  {
    var g' := AddWord(g, v, row, col, e).value;
    var n := |g.wordTags|;
    assert g'.wordTags[..n] == g.wordTags;
    forall i | 0 <= i < |g'.wordTags|
      ensures var t := g'.wordTags[i];
        && t.wordId in v.lexicon.elems && t.word == v.lexicon.elems[t.wordId].word
        && Holds(CellList(g', t.row, t.col), t.wordId, t.weight)
    {
      var t := g'.wordTags[i];
      AddWordCells(g, v, row, col, e, t.row, t.col);
      if i < n {
        assert t == g.wordTags[i];
        if t.row - 1 == row - 1 && t.col - 1 == col - 1 {
          HoldsAppend(CellList(g, t.row, t.col), e, t.wordId, t.weight);
        }
      } else {
        assert (CellList(g, row, col) + [e])[|CellList(g, row, col)|] == e;
      }
    }
  }

  lemma {:induction false} AddWordsConsistent(g: TopGrid, v: CGVocabulary.Vocabulary, row: int, col: int, words: seq<WordEntry>)
    requires TagsConsistent(g, v) && AddWords(g, v, row, col, words).Ok?
    ensures TagsConsistent(AddWords(g, v, row, col, words).value, v)
  {
    if |words| > 0 {
      var init := words[..|words| - 1];
      AddWordsConsistent(g, v, row, col, init);
      AddWordConsistent(AddWords(g, v, row, col, init).value, v, row, col, words[|words| - 1]);
    }
  }

  /** After decoding, the word tags agree with the grid and the lexicon: each tag's cell holds its
      word with its weight, and its text is the lexicon's word for its id. */
  lemma {:induction false} ParsedConsistent(v: CGVocabulary.Vocabulary, lines: seq<string>)
    requires ParseAll(v, lines).Ok?
    ensures TagsConsistent(ParseAll(v, lines).value, v)
  {
    if |lines| > 0 {
      var init, line := lines[..|lines| - 1], lines[|lines| - 1];
      ParsedConsistent(v, init);
      if !IsBlank(line) {
        var rc := LineCoordinates(line).value;
        AddWordsConsistent(ParseAll(v, init).value, v, rc.0, rc.1, KeptWords(Split(line, '\t')[2..]));
      }
    }
  }

  /** What one line's words do to the cells: they are appended, in order, to the line's cell only,
      and the row and the cell exist afterwards exactly when they did before or a word was added. */
  lemma {:induction false} AddWordsCells(g: TopGrid, v: CGVocabulary.Vocabulary, row: int, col: int, words: seq<WordEntry>, r: int, c: int)
    requires AddWords(g, v, row, col, words).Ok?
    ensures var g' := AddWords(g, v, row, col, words).value;
      var here := r - 1 == row - 1 && c - 1 == col - 1;
      && (r - 1 in g'.topGrid.elems <==> r - 1 in g.topGrid.elems || (r - 1 == row - 1 && |words| > 0))
      && (CellPresent(g', r, c) <==> CellPresent(g, r, c) || (here && |words| > 0))
      && CellList(g', r, c) == CellList(g, r, c) + (if here then words else [])
  {
    if |words| > 0 {
      var init, e := words[..|words| - 1], words[|words| - 1];
      AddWordsCells(g, v, row, col, init, r, c);
      AddWordCells(AddWords(g, v, row, col, init).value, v, row, col, e, r, c);
      assert words == init + [e];
      if r - 1 == row - 1 && c - 1 == col - 1 {
        assert CellList(g, r, c) + init + [e] == CellList(g, r, c) + (init + [e]);
      }
    }
  }

  /** The row and column of a non-blank line the decoder accepts. */
  function LineCell(line: string): Option<(int, int)> {
    if !IsBlank(line) && LineCoordinates(line).Ok? then Some(LineCoordinates(line).value) else None
  }

  function LineWords(line: string): seq<WordEntry> {
    var parts := Split(line, '\t');
    if |parts| >= 2 then KeptWords(parts[2..]) else []
  }

  /** All words the lines keep at cell (`row`, `col`), in file order. */
  function CellWords(lines: seq<string>, row: int, col: int): seq<WordEntry> {
    if |lines| == 0 then []
    else
      var line := lines[|lines| - 1];
      var rc := LineCell(line);
      CellWords(lines[..|lines| - 1], row, col)
        + if rc.Some? && rc.value.0 - 1 == row - 1 && rc.value.1 - 1 == col - 1 then LineWords(line) else []
  }

  /** Whether some line keeps a word in row `row`. */
  predicate RowFilled(lines: seq<string>, row: int) {
    |lines| > 0 &&
      var line := lines[|lines| - 1];
      var rc := LineCell(line);
      (rc.Some? && rc.value.0 - 1 == row - 1 && |LineWords(line)| > 0) || RowFilled(lines[..|lines| - 1], row)
  }

  /** `getWordEntryList` after decoding: a TypeError exactly when no word was kept in the row;
      otherwise all words kept in the cell, in file order, and undefined when there are none. */
  lemma {:induction false} ParsedCells(v: CGVocabulary.Vocabulary, lines: seq<string>, row: int, col: int)
    requires ParseAll(v, lines).Ok?
    ensures var g := ParseAll(v, lines).value;
      var words := CellWords(lines, row, col);
      && (g.GetWordEntryList(row, col).Err? <==> !RowFilled(lines, row))
      && (g.GetWordEntryList(row, col) == Ok(None) <==> RowFilled(lines, row) && words == [])
      && (words != [] ==> g.GetWordEntryList(row, col) == Ok(Some(words)))
  {
    CellsOfParsed(v, lines, row, col);
  }

  lemma {:induction false} CellsOfParsed(v: CGVocabulary.Vocabulary, lines: seq<string>, row: int, col: int)
    requires ParseAll(v, lines).Ok?
    ensures var g := ParseAll(v, lines).value;
      && (row - 1 in g.topGrid.elems <==> RowFilled(lines, row))
      && (CellPresent(g, row, col) <==> CellWords(lines, row, col) != [])
      && CellList(g, row, col) == CellWords(lines, row, col)
  {
    if |lines| > 0 {
      var init, line := lines[..|lines| - 1], lines[|lines| - 1];
      CellsOfParsed(v, init, row, col);
      var g0 := ParseAll(v, init).value;
      assert ParseAll(v, lines) == ParseLine(g0, v, line);
      ParseLineOk(g0, v, line);
      if !IsBlank(line) {
        var rc := LineCoordinates(line).value;
        AddWordsCells(g0, v, rc.0, rc.1, LineWords(line), row, col);
      }
    }
  }

  /** A line the decoder accepts is skipped when blank, and otherwise adds its kept words at its cell. */
  lemma ParseLineOk(g: TopGrid, v: CGVocabulary.Vocabulary, line: string)
    requires ParseLine(g, v, line).Ok?
    ensures IsBlank(line) ==> ParseLine(g, v, line) == Ok(g) && LineCell(line).None?
    ensures !IsBlank(line) ==> LineCoordinates(line).Ok? && LineCell(line) == Some(LineCoordinates(line).value)
    ensures !IsBlank(line) ==>
              ParseLine(g, v, line) == AddWords(g, v, LineCoordinates(line).value.0, LineCoordinates(line).value.1, LineWords(line))
  {
  }

  // ---------------------------------------------------------------------------------------------
  // The lines the pipeline writes are read back whole

  /** A `"%1d" % a + ":" + "%1.3f" % b` token is kept exactly when its weight exceeds the
      threshold, and then carries word `a` with that weight. */
  lemma WordToken(t: string, a: nat, w: string)
    requires |w| >= 1 && AllWeightChars(w)
    requires t == NatToString(a) + ":" + w
    ensures var x := ParseFloat(w);
      TokenWord(t) == if x.Some? && x.value > PiThreshold then Some(WordEntry(a, x.value)) else None
    ensures NoTab(t)
  {
    WeightToken(t, a, w);
    TokenWordOfMatch(t, NatToString(a), w);
    NoTabConcat(NatToString(a), ":");
    WeightCharsHaveNoTab(w);
    NoTabConcat(NatToString(a) + ":", w);
  }

  lemma TokenWordOfMatch(t: string, a: string, w: string)
    requires FindWeight(t) == Some((a, w))
    ensures var x := ParseFloat(w);
      TokenWord(t) == if x.Some? && x.value > PiThreshold then Some(WordEntry(DigitsValue(a), x.value)) else None
  {
  }

  /** A word as the pipeline writes it: its id and the text `"%1.3f"` gives its weight. */
  datatype WrittenWord = WrittenWord(id: nat, weightText: string)

  predicate WellWritten(ws: seq<WrittenWord>) {
    forall i :: 0 <= i < |ws| ==> |ws[i].weightText| >= 1 && AllWeightChars(ws[i].weightText)
  }

  /** `"%1d:%1.3f" % (id, weight)` for each word. */
  function WrittenTokens(ws: seq<WrittenWord>): (r: seq<string>)
    ensures |r| == |ws|
  {
    if |ws| == 0 then []
    else
      var w := ws[|ws| - 1];
      WrittenTokens(ws[..|ws| - 1]) + [NatToString(w.id) + ":" + w.weightText]
  }

  /** What the decoder keeps of a written word: the word with its weight read by `parseFloat`, when
      that weight exceeds the threshold. */
  function WrittenKept(w: WrittenWord): Option<WordEntry> {
    var x := ParseFloat(w.weightText);
    if x.Some? && x.value > PiThreshold then Some(WordEntry(w.id, x.value)) else None
  }

  function WrittenWords(ws: seq<WrittenWord>): seq<WordEntry> {
    if |ws| == 0 then []
    else
      var earlier := WrittenWords(ws[..|ws| - 1]);
      match WrittenKept(ws[|ws| - 1])
      case None => earlier
      case Some(e) => earlier + [e]
  }

  lemma {:induction false} WrittenTokensRoundTrip(ws: seq<WrittenWord>)
    requires WellWritten(ws)
    ensures KeptWords(WrittenTokens(ws)) == WrittenWords(ws)
  {
    if |ws| > 0 {
      var init, w := ws[..|ws| - 1], ws[|ws| - 1];
      var tokens := WrittenTokens(ws);
      assert tokens[..|tokens| - 1] == WrittenTokens(init);
      assert WellWritten(init) by {
        assert forall i :: 0 <= i < |init| ==> init[i] == ws[i];
      }
      WrittenTokensRoundTrip(init);
      WrittenToken(tokens[|tokens| - 1], w.id, w.weightText);
      KeptWordsStep(tokens, WrittenKept(w));
      WrittenWordsStep(ws);
    }
  }

  lemma {:induction false} WrittenTokensHaveNoTab(ws: seq<WrittenWord>)
    requires WellWritten(ws)
    ensures forall i :: 0 <= i < |ws| ==> NoTab(WrittenTokens(ws)[i])
  {
    if |ws| > 0 {
      var init, w := ws[..|ws| - 1], ws[|ws| - 1];
      var tokens := WrittenTokens(ws);
      assert WellWritten(init) by {
        assert forall i :: 0 <= i < |init| ==> init[i] == ws[i];
      }
      WrittenTokensHaveNoTab(init);
      WrittenToken(tokens[|tokens| - 1], w.id, w.weightText);
      assert forall i :: 0 <= i < |ws| - 1 ==> tokens[i] == WrittenTokens(init)[i];
    }
  }

  lemma KeptWordsStep(tokens: seq<string>, o: Option<WordEntry>)
    requires |tokens| > 0 && TokenWord(tokens[|tokens| - 1]) == o
    ensures KeptWords(tokens) == KeptWords(tokens[..|tokens| - 1]) + (if o.Some? then [o.value] else [])
  {
  }

  lemma WrittenWordsStep(ws: seq<WrittenWord>)
    requires |ws| > 0
    ensures var o := WrittenKept(ws[|ws| - 1]);
      WrittenWords(ws) == WrittenWords(ws[..|ws| - 1]) + (if o.Some? then [o.value] else [])
  {
  }

  lemma WrittenToken(t: string, id: nat, text: string)
    requires |text| >= 1 && AllWeightChars(text)
    requires t == NatToString(id) + ":" + text
    ensures TokenWord(t) == WrittenKept(WrittenWord(id, text))
    ensures NoTab(t)
  {
    WordToken(t, id, text);
  }

  /** The fields after the coordinates of a written line: the tokens, or one empty field, since the
      line carries a tab after its coordinates even when no word follows. */
  function WrittenTail(ws: seq<WrittenWord>): seq<string> {
    if |ws| == 0 then [""] else WrittenTokens(ws)
  }

  lemma WrittenTailRoundTrip(ws: seq<WrittenWord>)
    requires WellWritten(ws)
    ensures KeptWords(WrittenTail(ws)) == WrittenWords(ws)
  {
    WrittenTokensRoundTrip(ws);
    if |ws| == 0 {
      assert KeptWords([""]) == KeptWords([""][..0]);
    }
  }

  /** `"row:%1d\tcol:%1d\t"` and the tokens, as fields. */
  function WrittenFields(r: nat, c: nat, ws: seq<WrittenWord>): seq<string> {
    ["row:" + NatToString(r), "col:" + NatToString(c)] + WrittenTail(ws)
  }

  /** A line the pipeline writes for cell (`r`, `c`) adds to that cell exactly the written words
      whose weight exceeds the threshold, in order, whatever came before. */
  lemma TopPiLineRoundTrip(g: TopGrid, v: CGVocabulary.Vocabulary, r: nat, c: nat, ws: seq<WrittenWord>, line: string)
    requires WellWritten(ws)
    requires line == Join(WrittenFields(r, c, ws), "\t")
    ensures LineCoordinates(line) == Ok((r, c))
    ensures LineWords(line) == WrittenWords(ws)
    ensures ParseLine(g, v, line) == AddWords(g, v, r, c, WrittenWords(ws))
  {
    var pieces := WrittenFields(r, c, ws);
    WrittenTokensHaveNoTab(ws);
    CellFieldsHaveNoTab(r, c, WrittenTail(ws));
    SplitJoinedFields(pieces);
    JoinedFieldsNotBlank(pieces, 0);
    RowColumnOfFields(line, pieces, r, c, FormatError(TopPiError));
    assert pieces[2..] == WrittenTail(ws);
    WrittenTailRoundTrip(ws);
  }

}
