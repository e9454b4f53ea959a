/** words.txt: one line per word, `id:<word id + 1>` followed by tab-separated `<entry id + 1>:<count>`
    tokens, giving how often the word occurs in each document entry. */
module CGCounts {
  import opened Js
  import opened Patterns

  datatype WordCount = WordCount(entryId: int, wordCount: int)

  /** `wordCounts`, keyed by 0-indexed word id. */
  datatype Counts = Counts(wordCounts: map<int, seq<WordCount>>)
  {
    /** `getWordCounts`: null (None) when the word has no line; otherwise the count of the first
        token for the entry, and 0 when there is none. */
    function GetWordCounts(docEntryId: int, wordId: int): (r: Option<int>)
      ensures r.None? <==> wordId !in wordCounts
      ensures wordId in wordCounts ==> r == Some(FirstCount(wordCounts[wordId], docEntryId))
    {
      if wordId !in wordCounts then None else Some(FirstCount(wordCounts[wordId], docEntryId))
    }
  }

  /** `list.find((de) => de.entryId === id)`, read as its count or 0 when nothing is found. */
  function FirstCount(list: seq<WordCount>, entryId: int): (r: int)
    ensures (forall i :: 0 <= i < |list| ==> list[i].entryId != entryId) ==> r == 0
  {
    if |list| == 0 then 0
    else if list[0].entryId == entryId then list[0].wordCount
    else
      var r := FirstCount(list[1..], entryId);
      assert forall i :: 1 <= i < |list| ==> list[i] == list[1..][i - 1];
      r
  }

  /** `find` stops at the first element with the entry id. */
  lemma {:induction false} FirstCountFirst(list: seq<WordCount>, entryId: int, i: nat)
    requires i < |list| && list[i].entryId == entryId
    requires forall j :: 0 <= j < i ==> list[j].entryId != entryId
    ensures FirstCount(list, entryId) == list[i].wordCount
  {
    if i > 0 {
      assert list[0].entryId != entryId;
      assert list[1..][i - 1] == list[i];
      forall j | 0 <= j < i - 1
        ensures list[1..][j].entryId != entryId
      {
        assert list[1..][j] == list[j + 1];
      }
      FirstCountFirst(list[1..], entryId, i - 1);
    }
  }

  const CountsError: string := "words.txt improperly formatted."

  /** The count a token carries: the leftmost `digits:digits` in it, or nothing. */
  function TokenCount(token: string): Option<WordCount> {
    match FindCount(token)
    case None => None
    case Some((entry, count)) => Some(WordCount(DigitsValue(entry) - 1, DigitsValue(count)))
  }

  /** The counts of the tokens, in order, skipping tokens without a match. */
  function TokenCounts(tokens: seq<string>): seq<WordCount> {
    if |tokens| == 0 then []
    else
      var earlier := TokenCounts(tokens[..|tokens| - 1]);
      match TokenCount(tokens[|tokens| - 1])
      case None => earlier
      case Some(c) => earlier + [c]
  }

  /** The inner `forEach` over a line's tokens. */
  method ReadTokenCounts(tokens: seq<string>) returns (counts: seq<WordCount>)
    ensures counts == TokenCounts(tokens)
  {
    counts := [];
    var i := 0;
    while i < |tokens|
      invariant 0 <= i <= |tokens|
      invariant counts == TokenCounts(tokens[..i])
    {
      assert tokens[..i + 1][..i] == tokens[..i];
      var c := TokenCount(tokens[i]);
      if c.Some? {
        counts := counts + [c.value];
      }
      i := i + 1;
    }
    assert tokens[..|tokens|] == tokens;
  }

  /** The 0-indexed word id of a line's first field, which must start with `id:` (else the format
      error) followed by a digit (else `exec` returns null and indexing it is a TypeError). The id
      is `parseInt` of the digits (their value, `ParseIntOfDigits`) minus one. */
  function LineWordId(first: string): Result<int> {
    if !StartsWith(first, "id:") then Err(FormatError(CountsError))
    else match PrefixedNumber(first, "id:")
      case None => Err(TypeError)
      case Some(digits) => Ok(DigitsValue(digits) - 1)
  }

  function ParseLine(c: Counts, line: string): Result<Counts> {
    if IsBlank(line) then Ok(c)
    else
      var parts := Split(line, '\t');
      match LineWordId(parts[0])
      case Err(err) => Err(err)
      case Ok(wordId) =>
        Ok(Counts(c.wordCounts[wordId := TokenCounts(parts[1..])]))
  }

  function ParseAll(lines: seq<string>): Result<Counts> {
    if |lines| == 0 then Ok(Counts(map[]))
    else match ParseAll(lines[..|lines| - 1])
      case Err(e) => Err(e)
      case Ok(c) => ParseLine(c, lines[|lines| - 1])
  }

  /** `parseCounts`, run by the constructor. */
  method ParseCounts(text: string) returns (r: Result<Counts>)
    ensures r == ParseAll(SplitLines(text))
  {
    var lines := SplitLines(text);
    var counts := Counts(map[]);
    var i := 0;
    while i < |lines|
      invariant 0 <= i <= |lines|
      invariant ParseAll(lines[..i]) == Ok(counts)
    {
      assert lines[..i + 1][..i] == lines[..i];
      var line := lines[i];
      if !IsBlank(line) {
        var parts := Split(line, '\t');
        var wordId := LineWordId(parts[0]);
        if wordId.Err? {
          r := Err(wordId.error);
          ErrorPersists(lines, i + 1);
          return;
        }
        var entries := ReadTokenCounts(parts[1..]);
        counts := Counts(counts.wordCounts[wordId.value := entries]);
      }
      i := i + 1;
    }
    assert lines[..|lines|] == lines;
    r := Ok(counts);
  }

  lemma {:induction false} ErrorPersists(lines: seq<string>, k: nat)
    requires k <= |lines| && ParseAll(lines[..k]).Err?
    ensures ParseAll(lines) == ParseAll(lines[..k])
  {
    if k < |lines| {
      assert lines[..|lines| - 1][..k] == lines[..k];
      ErrorPersists(lines[..|lines| - 1], k);
    } else {
      assert lines[..k] == lines;
    }
  }

  // ---------------------------------------------------------------------------------------------
  // Properties

  predicate LineAccepted(line: string) {
    IsBlank(line) || LineWordId(Split(line, '\t')[0]).Ok?
  }

  /** The file is accepted exactly when every non-blank line starts with `id:` and a digit. A line
      without the prefix is the format error; `id:` without a digit after it is a TypeError. */
  lemma {:induction false} ParseSucceedsIffWellFormed(lines: seq<string>)
    ensures ParseAll(lines).Ok? <==> forall i :: 0 <= i < |lines| ==> LineAccepted(lines[i])
    ensures ParseAll(lines).Err? ==> ParseAll(lines).error in {FormatError(CountsError), TypeError}
  {
    if |lines| > 0 {
      var init := lines[..|lines| - 1];
      ParseSucceedsIffWellFormed(init);
      assert forall i :: 0 <= i < |init| ==> init[i] == lines[i];
    }
  }

  /** The counts of the last non-blank line for 0-indexed word id `k`. */
  function LastCountsFor(lines: seq<string>, k: int): Option<seq<WordCount>> {
    if |lines| == 0 then None
    else
      var line := lines[|lines| - 1];
      var parts := Split(line, '\t');
      if !IsBlank(line) && LineWordId(parts[0]) == Ok(k) then Some(TokenCounts(parts[1..]))
      else LastCountsFor(lines[..|lines| - 1], k)
  }

  /** A later line for the same word replaces the earlier list entirely. */
  lemma {:induction false} ParsedContents(lines: seq<string>, k: int)
    requires ParseAll(lines).Ok?
    ensures var c := ParseAll(lines).value;
      && (k in c.wordCounts <==> LastCountsFor(lines, k).Some?)
      && (k in c.wordCounts ==> c.wordCounts[k] == LastCountsFor(lines, k).value)
  {
    if |lines| > 0 {
      ParsedContents(lines[..|lines| - 1], k);
    }
  }

  /** A token list the pipeline writes, `"<e + 1>:<n>"` for each (e, n), reads back as exactly those
      counts: `getWordCounts(e, word)` finds n for the first pair with entry e. */
  function CountTokens(pairs: seq<(nat, nat)>): (r: seq<string>)
    ensures |r| == |pairs|
  {
    if |pairs| == 0 then []
    else CountTokens(pairs[..|pairs| - 1])
           + [NatToString(pairs[|pairs| - 1].0 + 1) + ":" + NatToString(pairs[|pairs| - 1].1)]
  }

  function PairCounts(pairs: seq<(nat, nat)>): (r: seq<WordCount>)
    ensures |r| == |pairs|
    ensures forall i :: 0 <= i < |pairs| ==> r[i] == WordCount(pairs[i].0, pairs[i].1)
  {
    if |pairs| == 0 then []
    else PairCounts(pairs[..|pairs| - 1]) + [WordCount(pairs[|pairs| - 1].0, pairs[|pairs| - 1].1)]
  }

  lemma {:induction false} CountTokensRoundTrip(pairs: seq<(nat, nat)>)
    ensures TokenCounts(CountTokens(pairs)) == PairCounts(pairs)
  {
    if |pairs| > 0 {
      var init, last := pairs[..|pairs| - 1], pairs[|pairs| - 1];
      var tokens := CountTokens(pairs);
      assert tokens[..|tokens| - 1] == CountTokens(init);
      CountTokensRoundTrip(init);
      TokenCountOf(tokens[|tokens| - 1], last.0, last.1);
    }
  }

  /** A `"<a + 1>:<b>"` token carries the count `b` of entry `a`. */
  lemma TokenCountOf(t: string, a: nat, b: nat)
    requires t == NatToString(a + 1) + ":" + NatToString(b)
    ensures TokenCount(t) == Some(WordCount(a, b))
  {
    CountToken(t, a + 1, b);
  }

  /** One line the pipeline writes, `"id:<z + 1>"` and the count tokens joined by tabs, decodes to
      the list of those counts under word id z. */
  lemma CountsLineRoundTrip(c: Counts, z: nat, pairs: seq<(nat, nat)>, line: string)
    requires line == Join(["id:" + NatToString(z + 1)] + CountTokens(pairs), "\t")
    ensures ParseLine(c, line) == Ok(Counts(c.wordCounts[z := PairCounts(pairs)]))
  {
    var pieces := ["id:" + NatToString(z + 1)] + CountTokens(pairs);
    CountsLineSplit(z, pairs, line);
    PrefixedToken(pieces[0], "id:", z + 1);
    assert pieces[1..] == CountTokens(pairs);
    CountTokensRoundTrip(pairs);
  }

  /** The line splits at its tabs back into the id field and the tokens. */
  lemma CountsLineSplit(z: nat, pairs: seq<(nat, nat)>, line: string)
    requires line == Join(["id:" + NatToString(z + 1)] + CountTokens(pairs), "\t")
    ensures Split(line, '\t') == ["id:" + NatToString(z + 1)] + CountTokens(pairs)
    ensures !IsBlank(line)
  {
    var pieces := ["id:" + NatToString(z + 1)] + CountTokens(pairs);
    TokensHaveNoTab(pairs);
    assert forall i, j :: 0 <= i < |pieces| && 0 <= j < |pieces[i]| ==> pieces[i][j] != '\t' by {
      forall i, j | 0 <= i < |pieces| && 0 <= j < |pieces[i]| ensures pieces[i][j] != '\t' {
        if i == 0 {
          NoTabInIdField(z + 1, j);
        } else {
          assert pieces[i] == CountTokens(pairs)[i - 1];
        }
      }
    }
    SplitJoin(pieces, '\t');
    assert line[..3] == "id:" by {
      JoinStartsWithFirst(pieces, "\t");
      assert pieces[0][..3] == "id:";
    }
    assert line[0] == 'i';
  }

  lemma NoTabInIdField(n: nat, j: int)
    requires 0 <= j < |"id:" + NatToString(n)|
    ensures ("id:" + NatToString(n))[j] != '\t'
  {
    if j >= 3 {
      assert ("id:" + NatToString(n))[j] == NatToString(n)[j - 3];
    }
  }

  lemma {:induction false} TokensHaveNoTab(pairs: seq<(nat, nat)>)
    ensures forall i, j :: 0 <= i < |pairs| && 0 <= j < |CountTokens(pairs)[i]| ==> CountTokens(pairs)[i][j] != '\t'
  {
    if |pairs| > 0 {
      var init, last := pairs[..|pairs| - 1], pairs[|pairs| - 1];
      TokensHaveNoTab(init);
      var t := NatToString(last.0 + 1) + ":" + NatToString(last.1);
      forall j | 0 <= j < |t| ensures t[j] != '\t' {
        var a := NatToString(last.0 + 1);
        if j < |a| {
          assert t[j] == a[j];
        } else if j > |a| {
          assert t[j] == NatToString(last.1)[j - |a| - 1];
        }
      }
      assert CountTokens(pairs) == CountTokens(init) + [t];
    }
  }

  /** `getWordCounts` tells an unknown word (null) from a known word without the entry (0). */
  lemma NullVersusZero(c: Counts, entryId: int, wordId: int)
    requires wordId in c.wordCounts
    requires forall i :: 0 <= i < |c.wordCounts[wordId]| ==> c.wordCounts[wordId][i].entryId != entryId
    ensures c.GetWordCounts(entryId, wordId) == Some(0)
    ensures forall w :: w !in c.wordCounts ==> c.GetWordCounts(entryId, w).None?
  {
  }
}
