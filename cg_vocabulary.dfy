/** correspondences.txt: one line per surface form, `surface <TAB> lemma <TAB> id`, where `id` is
    the lemma's word id plus one. Decoded into the lexicon (lemma per 0-indexed word id), the
    surface-form-to-id table, and the surface forms of each id. */
module CGVocabulary {
  import opened Js

  datatype LexiconWord = LexiconWord(word: string, wordId: int)

  /** `lexicon` is keyed by word id. `wordToWordId` maps a surface form to its word id, None standing
      for NaN (an id field that `parseInt` cannot read). A NaN id is also written to `lexicon` and
      `wordIdToCorrespondences` under the property name "NaN", which no numeric lookup reaches; the
      model leaves those two writes out. */
  datatype Vocabulary = Vocabulary(
    lexicon: JsArray<LexiconWord>,
    wordToWordId: map<string, Option<int>>,
    wordIdToCorrespondences: map<int, seq<string>>)
  {
    ghost predicate Valid() {
      && lexicon.Valid()
      && (forall k :: k in lexicon.elems ==> lexicon.elems[k].wordId == k)
      && (forall w :: w in wordToWordId && wordToWordId[w].Some? ==> wordToWordId[w].value in lexicon.elems)
    }

    /** `getLexiconWordByWord`: null for a null or unknown word. The id is read with `|| -1`, so a
        NaN id and the id 0 both read as -1, and -1 means "not found". */
    function GetLexiconWordByWord(word: Option<string>): (r: Lookup<LexiconWord>)
      requires Valid()
      ensures word.None? ==> r == Null
      ensures word.Some? && word.value !in wordToWordId ==> r == Null
      ensures word.Some? && word.value in wordToWordId && wordToWordId[word.value] in {None, Some(0), Some(-1)}
              ==> r == Null
      ensures r != Null ==> word.Some? && word.value in wordToWordId && wordToWordId[word.value].Some?
      ensures r != Null ==> r == Found(lexicon.elems[wordToWordId[word.value].value])
      ensures word.Some? && word.value in wordToWordId && wordToWordId[word.value].Some?
              && wordToWordId[word.value].value != 0 && wordToWordId[word.value].value != -1
              ==> r == Found(lexicon.elems[wordToWordId[word.value].value])
    {
      if word.None? then Null
      else
        var index := if word.value in wordToWordId && wordToWordId[word.value].Some?
                        && wordToWordId[word.value].value != 0
                     then wordToWordId[word.value].value else -1;
        if index == -1 then Null
        else if index in lexicon.elems then Found(lexicon.elems[index]) else Undefined
    }

    /** `getVocabularyWordsById`: the surface forms recorded for the id, undefined when there are
        none. */
    function GetVocabularyWordsById(wordId: int): (r: Lookup<seq<string>>)
      ensures r != Null
      ensures r.Found? <==> wordId in wordIdToCorrespondences
      ensures r.Found? ==> r.value == wordIdToCorrespondences[wordId]
    {
      if wordId in wordIdToCorrespondences then Found(wordIdToCorrespondences[wordId]) else Undefined
    }

    /** `getLexiconWordById`: the lexicon slot, undefined when it was never written. */
    function GetLexiconWordById(wordId: int): (r: Lookup<LexiconWord>)
      requires Valid()
      ensures r != Null
      ensures r.Found? <==> wordId in lexicon.elems
      ensures r.Found? ==> r.value == lexicon.elems[wordId] && r.value.wordId == wordId
    {
      if wordId in lexicon.elems then Found(lexicon.elems[wordId]) else Undefined
    }
  }

  function EmptyVocabulary(): (v: Vocabulary)
    ensures v.Valid()
  {
    Vocabulary(EmptyArray(), map[], map[])
  }

  const CorrespondenceError: string :=
    "Correspondence file improperly formatted. Every line must have 3 values."

  /** The fields of a well-formed line: the `i`-th tab-separated piece, where `undefined` and the
      empty string are both rejected. */
  function Field(parts: seq<string>, i: nat): Option<string> {
    if i < |parts| && parts[i] != "" then Some(parts[i]) else None
  }

  /** A correspondences line that is not blank and has a non-empty surface form, lemma and id field,
      as (surface, lemma, 0-indexed id). Fields after the third are ignored. */
  datatype Entry = Entry(surface: string, lemmaForm: string, wordId: Option<int>)

  function LineEntry(line: string): Option<Entry> {
    var parts := Split(line, '\t');
    var word := Field(parts, 0);
    var lemmaForm := Field(parts, 1);
    var id := Field(parts, 2);
    if word.None? || lemmaForm.None? || id.None? then None
    else
      var n := ParseInt(id.value);
      Some(Entry(word.value, lemmaForm.value, if n.Some? then Some(n.value - 1) else None))
  }

  /** What one well-formed line writes. */
  function Record(v: Vocabulary, e: Entry): (r: Vocabulary)
    requires v.Valid()
    ensures r.Valid()
  {
    match e.wordId
    case None => v.(wordToWordId := v.wordToWordId[e.surface := None])
    case Some(k) =>
      var forms := if k in v.wordIdToCorrespondences then v.wordIdToCorrespondences[k] else [];
      SetKeepsValid(v.lexicon, k, LexiconWord(e.lemmaForm, k));
      Vocabulary(v.lexicon.Set(k, LexiconWord(e.lemmaForm, k)),
                 v.wordToWordId[e.surface := Some(k)],
                 v.wordIdToCorrespondences[k := forms + [e.surface]])
  }

  /** One turn of the `forEach` over lines: blank lines are skipped, malformed ones throw. */
  function ParseLine(v: Vocabulary, line: string): (r: Result<Vocabulary>)
    requires v.Valid()
    ensures r.Ok? ==> r.value.Valid()
  {
    if IsBlank(line) then Ok(v)
    else match LineEntry(line)
      case None => Err(FormatError(CorrespondenceError))
      case Some(e) => Ok(Record(v, e))
  }

  /** The decoder's state after the given lines, or the error that stopped it. */
  function ParseAll(lines: seq<string>): (r: Result<Vocabulary>)
    ensures r.Ok? ==> r.value.Valid()
  {
    if |lines| == 0 then Ok(EmptyVocabulary())
    else match ParseAll(lines[..|lines| - 1])
      case Err(e) => Err(e)
      case Ok(v) => ParseLine(v, lines[|lines| - 1])
  }

  /** `parseCorrespondences`, run by the constructor. */
  method ParseCorrespondences(text: string) returns (r: Result<Vocabulary>)
    ensures r == ParseAll(SplitLines(text))
  {
    var lines := SplitLines(text);
    var v := EmptyVocabulary();
    var i := 0;
    while i < |lines|
      invariant 0 <= i <= |lines|
      invariant ParseAll(lines[..i]) == Ok(v)
    {
      assert lines[..i + 1][..i] == lines[..i];
      var step := ParseLine(v, lines[i]);
      if step.Err? {
        r := step;
        assert ParseAll(lines[..i + 1]).Err?;
        ErrorPersists(lines, i + 1);
        return;
      }
      v := step.value;
      i := i + 1;
    }
    assert lines[..|lines|] == lines;
    r := Ok(v);
  }

  /** Once a line throws, the whole parse throws that error. */
  lemma {:induction false} ErrorPersists(lines: seq<string>, k: nat)
    requires k <= |lines| && ParseAll(lines[..k]).Err?
    ensures ParseAll(lines) == ParseAll(lines[..k])
  {
    if k < |lines| {
      assert lines[..|lines| - 1][..k] == lines[..k];
      ErrorPersists(lines[..|lines| - 1], k);
    } else {
      assert lines[..k] == lines;
    }
  }

  // ---------------------------------------------------------------------------------------------
  // Properties of the decoded vocabulary

  predicate LineAccepted(line: string) {
    IsBlank(line) || LineEntry(line).Some?
  }

  /** The file is accepted exactly when every line is blank or well-formed; otherwise the error is
      the fixed correspondence-format message. */
  lemma {:induction false} ParseSucceedsIffWellFormed(lines: seq<string>)
    ensures ParseAll(lines).Ok? <==> forall i :: 0 <= i < |lines| ==> LineAccepted(lines[i])
    ensures ParseAll(lines).Err? ==> ParseAll(lines).error == FormatError(CorrespondenceError)
  {
    if |lines| > 0 {
      var init, line := lines[..|lines| - 1], lines[|lines| - 1];
      ParseSucceedsIffWellFormed(init);
      assert forall i :: 0 <= i < |init| ==> init[i] == lines[i];
      if ParseAll(init).Ok? {
        assert ParseAll(lines) == ParseLine(ParseAll(init).value, line);
        ParseLineOk(ParseAll(init).value, line);
      } else {
        assert ParseAll(lines) == Err(ParseAll(init).error);
        var i :| 0 <= i < |init| && !LineAccepted(init[i]);
        assert !LineAccepted(lines[i]);
      }
    }
  }

  lemma ParseLineOk(v: Vocabulary, line: string)
    requires v.Valid()
    ensures ParseLine(v, line).Ok? <==> LineAccepted(line)
    ensures ParseLine(v, line).Err? ==> ParseLine(v, line).error == FormatError(CorrespondenceError)
  {
  }

  function NonBlank(lines: seq<string>): (r: seq<string>)
    ensures forall i :: 0 <= i < |r| ==> !IsBlank(r[i])
  {
    if |lines| == 0 then []
    else if IsBlank(lines[|lines| - 1]) then NonBlank(lines[..|lines| - 1])
    else NonBlank(lines[..|lines| - 1]) + [lines[|lines| - 1]]
  }

  /** Blank and white-space-only lines do not matter. */
  lemma {:induction false} BlankLinesIgnored(lines: seq<string>)
    ensures ParseAll(NonBlank(lines)) == ParseAll(lines)
  {
    if |lines| > 0 {
      var init := lines[..|lines| - 1];
      BlankLinesIgnored(init);
      if !IsBlank(lines[|lines| - 1]) {
        var nb := NonBlank(lines);
        assert nb[..|nb| - 1] == NonBlank(init);
      }
    }
  }

  /** The lemma of the last well-formed line with 0-indexed id `k`. */
  function LastLemmaFor(lines: seq<string>, k: int): Option<string> {
    if |lines| == 0 then None
    else
      var e := LineEntry(lines[|lines| - 1]);
      if !IsBlank(lines[|lines| - 1]) && e.Some? && e.value.wordId == Some(k) then Some(e.value.lemmaForm)
      else LastLemmaFor(lines[..|lines| - 1], k)
  }

  /** The id of the last well-formed line for surface form `w` (None inside for a NaN id). */
  function LastIdFor(lines: seq<string>, w: string): Option<Option<int>> {
    if |lines| == 0 then None
    else
      var e := LineEntry(lines[|lines| - 1]);
      if !IsBlank(lines[|lines| - 1]) && e.Some? && e.value.surface == w then Some(e.value.wordId)
      else LastIdFor(lines[..|lines| - 1], w)
  }

  /** Every surface form of the lines with 0-indexed id `k`, in file order, repeats kept. */
  function FormsFor(lines: seq<string>, k: int): seq<string> {
    if |lines| == 0 then []
    else
      var e := LineEntry(lines[|lines| - 1]);
      var earlier := FormsFor(lines[..|lines| - 1], k);
      if !IsBlank(lines[|lines| - 1]) && e.Some? && e.value.wordId == Some(k) then earlier + [e.value.surface]
      else earlier
  }

  /** What a successful parse holds, slot by slot: the lexicon slot of id k holds the lemma of the
      last line with that id; the id of a surface form is the one on its last line; the forms of an
      id are all the surface forms given it, in order. */
  lemma {:induction false} ParsedContents(lines: seq<string>, k: int, w: string)
    requires ParseAll(lines).Ok?
    ensures var v := ParseAll(lines).value;
      && (k in v.lexicon.elems <==> LastLemmaFor(lines, k).Some?)
      && (k in v.lexicon.elems ==> v.lexicon.elems[k] == LexiconWord(LastLemmaFor(lines, k).value, k))
      && (w in v.wordToWordId <==> LastIdFor(lines, w).Some?)
      && (w in v.wordToWordId ==> v.wordToWordId[w] == LastIdFor(lines, w).value)
      && (k in v.wordIdToCorrespondences <==> FormsFor(lines, k) != [])
      && (k in v.wordIdToCorrespondences ==> v.wordIdToCorrespondences[k] == FormsFor(lines, k))
  {
    if |lines| > 0 {
      var init, line := lines[..|lines| - 1], lines[|lines| - 1];
      ParsedContents(init, k, w);
      if !IsBlank(line) {
        RecordContents(ParseAll(init).value, LineEntry(line).value, k, w);
      }
    }
  }

  function FormsOr(v: Vocabulary, k: int): seq<string> {
    if k in v.wordIdToCorrespondences then v.wordIdToCorrespondences[k] else []
  }

  /** What one well-formed line writes, slot by slot. */
  lemma RecordContents(v: Vocabulary, e: Entry, k: int, w: string)
    requires v.Valid()
    ensures var r := Record(v, e);
      && (k in r.lexicon.elems <==> k in v.lexicon.elems || e.wordId == Some(k))
      && (e.wordId == Some(k) ==> r.lexicon.elems[k] == LexiconWord(e.lemmaForm, k))
      && (e.wordId != Some(k) && k in v.lexicon.elems ==> r.lexicon.elems[k] == v.lexicon.elems[k])
      && (w in r.wordToWordId <==> w in v.wordToWordId || e.surface == w)
      && (e.surface == w ==> r.wordToWordId[w] == e.wordId)
      && (e.surface != w && w in v.wordToWordId ==> r.wordToWordId[w] == v.wordToWordId[w])
      && (k in r.wordIdToCorrespondences <==> k in v.wordIdToCorrespondences || e.wordId == Some(k))
      && (e.wordId == Some(k) ==>
            r.wordIdToCorrespondences[k] == FormsOr(v, k) + [e.surface])
      && (e.wordId != Some(k) && k in v.wordIdToCorrespondences ==>
            r.wordIdToCorrespondences[k] == v.wordIdToCorrespondences[k])
  {
  }

  /** The id convention: for a well-formed line `w <TAB> l <TAB> N` (so its entry carries the
      0-indexed id k = N - 1) that is the last line for its id and for its surface form,
      `getLexiconWordById(k)` holds `l` and the stored id of `w` is k. */
  lemma IdConvention(lines: seq<string>, i: nat, w: string, l: string, k: int)
    requires ParseAll(lines).Ok?
    requires i < |lines| && !IsBlank(lines[i]) && LineEntry(lines[i]) == Some(Entry(w, l, Some(k)))
    requires forall j :: i < j < |lines| && !IsBlank(lines[j]) && LineEntry(lines[j]).Some? ==>
               LineEntry(lines[j]).value.wordId != Some(k) && LineEntry(lines[j]).value.surface != w
    ensures ParseAll(lines).value.GetLexiconWordById(k) == Found(LexiconWord(l, k))
    ensures w in ParseAll(lines).value.wordToWordId && ParseAll(lines).value.wordToWordId[w] == Some(k)
    ensures ParseAll(lines).value.Valid() && (k != 0 && k != -1 ==>
              ParseAll(lines).value.GetLexiconWordByWord(Some(w)) == Found(LexiconWord(l, k)))
  {
    LastAfter(lines, i, k, w);
    ParsedContents(lines, k, w);
  }

  lemma {:induction false} LastAfter(lines: seq<string>, i: nat, k: int, w: string)
    requires i < |lines| && !IsBlank(lines[i]) && LineEntry(lines[i]).Some?
    requires LineEntry(lines[i]).value.wordId == Some(k) && LineEntry(lines[i]).value.surface == w
    requires forall j :: i < j < |lines| && !IsBlank(lines[j]) && LineEntry(lines[j]).Some? ==>
               LineEntry(lines[j]).value.wordId != Some(k) && LineEntry(lines[j]).value.surface != w
    ensures LastLemmaFor(lines, k) == Some(LineEntry(lines[i]).value.lemmaForm)
    ensures LastIdFor(lines, w) == Some(Some(k))
  {
    if i < |lines| - 1 {
      LastAfter(lines[..|lines| - 1], i, k, w);
    }
  }

  /** The quirk of `|| -1`: a surface form whose stored id is 0 (file id 1) is never found. */
  lemma FirstIdNeverFoundByWord(v: Vocabulary, w: string)
    requires v.Valid() && w in v.wordToWordId && v.wordToWordId[w] == Some(0)
    ensures v.GetLexiconWordByWord(Some(w)) == Null
  {
  }
}
