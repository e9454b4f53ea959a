/** The search weighting of `getWordTags`: every document assigned to a cell votes for the layer it
    was assigned in, with a weight that grows with how often it uses the search words; each layer's
    top words are then rescaled by their cell's vote for that layer, relative to the largest vote
    anywhere, and kept when the result exceeds the threshold. */
module CountingGridSearch {
  import opened Js
  import CGVocabulary
  import CGCounts
  import CGMappings
  import CGTopGrid
  import CGTopGridLayers

  /** The decoded artifacts the search reads. `boost(w, k)` stands for the host's
      `Math.pow(w, 1 + Math.log(k))`, which the model does not compute. */
  datatype Sources = Sources(
    vocabulary: CGVocabulary.Vocabulary,
    topGrid: CGTopGrid.TopGrid,
    mappings: CGMappings.Mappings,
    counts: CGCounts.Counts,
    layers: CGTopGridLayers.TopGridLayers,
    boost: (int, nat) -> real)

  datatype WordTagsWithMetadata = WordTagsWithMetadata(wordTags: seq<CGTopGrid.WordTag>, minWeight: real, maxWeight: real)

  /** The accumulator `getWordTags` starts from: no tags, `maxWeight` 0 and `minWeight` 1. */
  const NoTags: WordTagsWithMetadata := WordTagsWithMetadata([], 1.0, 0.0)

  /** Without search words the tags, minimum and maximum are the top grid's own. */
  function TopGridTags(g: CGTopGrid.TopGrid): (r: WordTagsWithMetadata)
    ensures r.wordTags == g.wordTags && r.minWeight == g.minWeight && r.maxWeight == g.maxWeight
  {
    WordTagsWithMetadata(g.wordTags, g.minWeight, g.maxWeight)
  }

  const MaxWordWeight: int := 25
  const BaseWordWeight: int := 20

  function Min(a: int, b: int): int { if a <= b then a else b }

  /** One search word's share of a document's weight and of its count of used words: `null - 1` is
      -1 in the host, so a word missing from words.txt weighs 19 and counts as used. */
  function WordTerm(count: Option<int>): (r: (int, nat))
    ensures r.0 <= MaxWordWeight
    ensures r.1 == 0 <==> count == Some(0)
  {
    match count
    case None => (BaseWordWeight - 1, 1)
    case Some(n) => (Min(MaxWordWeight, BaseWordWeight + (n - 1)), if n == 0 then 0 else 1)
  }

  /** `weight` and `numberOfNonZeroWordCounts` for document `entryId` over the search words. */
  function SearchWeight(c: CGCounts.Counts, entryId: int, ids: seq<int>): (r: (int, nat))
    ensures r.0 <= MaxWordWeight * |ids|
    ensures r.1 <= |ids|
    ensures r.1 == 0 <==> forall i :: 0 <= i < |ids| ==> c.GetWordCounts(entryId, ids[i]) == Some(0)
  {
    if |ids| == 0 then (0, 0)
    else
      var earlier := SearchWeight(c, entryId, ids[..|ids| - 1]);
      var term := WordTerm(c.GetWordCounts(entryId, ids[|ids| - 1]));
      assert forall i :: 0 <= i < |ids| - 1 ==> ids[..|ids| - 1][i] == ids[i];
      (earlier.0 + term.0, earlier.1 + term.1)
  }

  /** The inner `searchWordIds.forEach` for one document. */
  method MappingWeight(c: CGCounts.Counts, entryId: int, ids: seq<int>) returns (weight: int, k: nat)
    ensures (weight, k) == SearchWeight(c, entryId, ids)
  {
    weight, k := 0, 0;
    var i := 0;
    while i < |ids|
      invariant 0 <= i <= |ids|
      invariant weight == SearchWeight(c, entryId, ids[..i]).0 && k == SearchWeight(c, entryId, ids[..i]).1
    {
      SearchWeightStep(c, entryId, ids, i);
      var wordCount := c.GetWordCounts(entryId, ids[i]);
      k := k + (if wordCount == Some(0) then 0 else 1);
      weight := weight + (match wordCount
                          case None => BaseWordWeight - 1
                          case Some(n) => Min(MaxWordWeight, BaseWordWeight + (n - 1)));
      i := i + 1;
    }
    assert ids[..|ids|] == ids;
  }

  lemma SearchWeightStep(c: CGCounts.Counts, entryId: int, ids: seq<int>, i: nat)
    requires i < |ids|
    ensures SearchWeight(c, entryId, ids[..i + 1]).0
            == SearchWeight(c, entryId, ids[..i]).0 + WordTerm(c.GetWordCounts(entryId, ids[i])).0
    ensures SearchWeight(c, entryId, ids[..i + 1]).1
            == SearchWeight(c, entryId, ids[..i]).1 + WordTerm(c.GetWordCounts(entryId, ids[i])).1
  {
    assert ids[..i + 1][..i] == ids[..i];
  }

  /** What one document adds to the vote of its layer: nothing when it uses none of the words. */
  function Bump(s: Sources, entryId: int, ids: seq<int>): real {
    var w := SearchWeight(s.counts, entryId, ids);
    if w.1 != 0 then s.boost(w.0, w.1) else 0.0
  }

  /** The vote of layer `l` (0-indexed) in a cell: the documents assigned in that layer, summed. */
  function LayerSum(s: Sources, docs: seq<CGMappings.DocEntryWeight>, ids: seq<int>, l: int): real {
    if |docs| == 0 then 0.0
    else
      LayerSum(s, docs[..|docs| - 1], ids, l)
        + (if docs[|docs| - 1].layer == l then Bump(s, docs[|docs| - 1].entryId, ids) else 0.0)
  }

  /** A cell's `layeredWeights`, one slot per layer, filled document by document. A document whose
      layer has no slot is a TypeError (`layeredWeights[layer]` is undefined). */
  function CellLayered(s: Sources, docs: seq<CGMappings.DocEntryWeight>, ids: seq<int>, L: nat): (r: Result<seq<real>>)
    ensures r.Ok? <==> forall i :: 0 <= i < |docs| ==> 0 <= docs[i].layer < L
    ensures r.Err? ==> r.error == TypeError
    ensures r.Ok? ==> |r.value| == L && forall l :: 0 <= l < L ==> r.value[l] == LayerSum(s, docs, ids, l)
  {
    if |docs| == 0 then Ok(seq(L, _ => 0.0))
    else
      var init, d := docs[..|docs| - 1], docs[|docs| - 1];
      assert forall i :: 0 <= i < |init| ==> init[i] == docs[i];
      match CellLayered(s, init, ids, L)
      case Err(err) => Err(err)
      case Ok(vec) =>
        if 0 <= d.layer < L then Ok(vec[d.layer := vec[d.layer] + Bump(s, d.entryId, ids)]) else Err(TypeError)
  }

  /** The `docMappings.forEach` of one cell. */
  method CellWeights(s: Sources, docs: seq<CGMappings.DocEntryWeight>, ids: seq<int>, L: nat) returns (r: Result<seq<real>>)
    ensures r == CellLayered(s, docs, ids, L)
  {
    var vec := seq(L, _ => 0.0);
    var i := 0;
    while i < |docs|
      invariant 0 <= i <= |docs|
      invariant CellLayered(s, docs[..i], ids, L) == Ok(vec)
    {
      CellLayeredStep(s, docs, ids, L, i, vec);
      var d := docs[i];
      var weight, k := MappingWeight(s.counts, d.entryId, ids);
      if !(0 <= d.layer < |vec|) {
        CellLayeredBad(s, docs, ids, L, i);
        return Err(TypeError);
      }
      vec := vec[d.layer := vec[d.layer] + (if k != 0 then s.boost(weight, k) else 0.0)];
      i := i + 1;
    }
    assert docs[..|docs|] == docs;
    return Ok(vec);
  }

  lemma CellLayeredStep(s: Sources, docs: seq<CGMappings.DocEntryWeight>, ids: seq<int>, L: nat, i: nat, vec: seq<real>)
    requires i < |docs| && CellLayered(s, docs[..i], ids, L) == Ok(vec)
    ensures 0 <= docs[i].layer < L ==>
      CellLayered(s, docs[..i + 1], ids, L) == Ok(vec[docs[i].layer := vec[docs[i].layer] + Bump(s, docs[i].entryId, ids)])
  {
    assert docs[..i + 1][..i] == docs[..i];
  }

  lemma CellLayeredBad(s: Sources, docs: seq<CGMappings.DocEntryWeight>, ids: seq<int>, L: nat, i: nat)
    requires i < |docs| && !(0 <= docs[i].layer < L)
    ensures CellLayered(s, docs, ids, L) == Err(TypeError)
  {
  }

  /** The votes of cell (`row`, `col`); a missing row or cell list is a TypeError. */
  function CellVector(s: Sources, ids: seq<int>, L: nat, row: int, col: int): (r: Result<seq<real>>)
    ensures r.Ok? ==> |r.value| == L
    ensures r.Err? ==> r.error == TypeError
    ensures !(s.mappings.GetMappings(row, col).Ok? && s.mappings.GetMappings(row, col).value.Some?)
            ==> r == Err(TypeError)
  {
    match s.mappings.GetMappings(row, col)
    case Ok(Some(docs)) => CellLayered(s, docs, ids, L)
    case _ => Err(TypeError)
  }

  /** `layeredWeights[lay - 1][row - 1][col - 1]` once the cell has been weighted. */
  function Layered(s: Sources, ids: seq<int>, L: nat, row: int, col: int, lay: int): real {
    match CellVector(s, ids, L, row, col)
    case Ok(v) => if 1 <= lay <= |v| then v[lay - 1] else 0.0
    case Err(_) => 0.0
  }

  /** The running maximum carried over one cell's layers. */
  function LayersMax(m: real, vec: seq<real>): (r: real)
    ensures m <= r && forall i :: 0 <= i < |vec| ==> vec[i] <= r
    ensures r == m || r in vec
  {
    if |vec| == 0 then m
    else
      var r := LayersMax(m, vec[..|vec| - 1]);
      assert forall i :: 0 <= i < |vec| - 1 ==> vec[..|vec| - 1][i] == vec[i];
      if vec[|vec| - 1] > r then vec[|vec| - 1] else r
  }

  /** The `for (lay …)` maximum loop of one cell. */
  method RaiseMax(m: real, vec: seq<real>) returns (r: real)
    ensures r == LayersMax(m, vec)
  {
    r := m;
    var i := 0;
    while i < |vec|
      invariant 0 <= i <= |vec|
      invariant r == LayersMax(m, vec[..i])
    {
      assert vec[..i + 1][..i] == vec[..i];
      if vec[i] > r {
        r := vec[i];
      }
      i := i + 1;
    }
    assert vec[..|vec|] == vec;
  }

  /** The maximum after cells 1 to `c` of row `row`, starting from `m`. */
  function ColsMax(s: Sources, ids: seq<int>, L: nat, m: real, row: int, c: nat): (r: Result<real>)
    ensures r.Ok? <==> forall k :: 1 <= k <= c ==> CellVector(s, ids, L, row, k).Ok?
    ensures r.Err? ==> r.error == TypeError
    ensures r.Ok? ==> m <= r.value
  {
    if c == 0 then Ok(m)
    else
      match ColsMax(s, ids, L, m, row, c - 1)
      case Err(err) => Err(err)
      case Ok(m') =>
        match CellVector(s, ids, L, row, c)
        case Err(err) => Err(err)
        case Ok(vec) =>
          Ok(LayersMax(m', vec))
  }

  /** `maxLayeredWeight` after rows 1 to `r`. */
  function RowsMax(s: Sources, ids: seq<int>, L: nat, C: nat, r: nat): (res: Result<real>)
    ensures res.Err? ==> res.error == TypeError
    ensures res.Ok? ==> 0.0 <= res.value
  {
    if r == 0 then Ok(0.0)
    else match RowsMax(s, ids, L, C, r - 1)
      case Err(e) => Err(e)
      case Ok(m) => ColsMax(s, ids, L, m, r, C)
  }

  /** Once a row fails, every later maximum fails. */
  lemma {:induction false} RowsMaxFails(s: Sources, ids: seq<int>, L: nat, C: nat, r: nat, R: nat)
    requires r <= R && RowsMax(s, ids, L, C, r).Err?
    ensures RowsMax(s, ids, L, C, R) == Err(TypeError)
    decreases R
  {
    if r < R {
      RowsMaxFails(s, ids, L, C, r, R - 1);
    }
  }

  /** The maximum over the first `r` rows exists exactly when every cell of those rows can be
      weighted. */
  lemma {:induction false} RowsMaxOk(s: Sources, ids: seq<int>, L: nat, C: nat, r: nat)
    ensures RowsMax(s, ids, L, C, r).Ok? <==> forall j, k :: 1 <= j <= r && 1 <= k <= C ==> CellVector(s, ids, L, j, k).Ok?
  {
    if r > 0 {
      RowsMaxOk(s, ids, L, C, r - 1);
      var prev := RowsMax(s, ids, L, C, r - 1);
      var earlier := forall j, k :: 1 <= j <= r - 1 && 1 <= k <= C ==> CellVector(s, ids, L, j, k).Ok?;
      var last := forall k :: 1 <= k <= C ==> CellVector(s, ids, L, r, k).Ok?;
      assert (forall j, k :: 1 <= j <= r && 1 <= k <= C ==> CellVector(s, ids, L, j, k).Ok?) <==> earlier && last;
      if prev.Ok? {
        assert RowsMax(s, ids, L, C, r) == ColsMax(s, ids, L, prev.value, r, C);
      } else {
        assert RowsMax(s, ids, L, C, r).Err?;
      }
    }
  }

  /** Every vote in `votes` is at most `m`. */
  predicate Bounds(votes: seq<seq<real>>, m: real) {
    forall k, l :: 0 <= k < |votes| && 0 <= l < |votes[k]| ==> votes[k][l] <= m
  }

  lemma BoundsRaise(votes: seq<seq<real>>, m: real, m': real)
    requires Bounds(votes, m) && m <= m'
    ensures Bounds(votes, m')
  {
  }

  lemma BoundsAppend(votes: seq<seq<real>>, m: real, vec: seq<real>, m': real)
    requires Bounds(votes, m) && m' == LayersMax(m, vec)
    ensures Bounds(votes + [vec], m')
  {
  }

  /** `rowVotes[k - 1]` holds the votes of cell (`row`, `k`), for the `C` cells of the row. */
  predicate RowWeighted(s: Sources, ids: seq<int>, L: nat, row: int, C: nat, rowVotes: seq<seq<real>>) {
    |rowVotes| == C && forall k :: 1 <= k <= C ==> CellVector(s, ids, L, row, k) == Ok(rowVotes[k - 1])
  }

  /** `layered[j]` holds the votes of row `j + 1`, for the first `R` rows. */
  predicate RowsWeighted(s: Sources, ids: seq<int>, L: nat, R: nat, C: nat, layered: seq<seq<seq<real>>>) {
    |layered| == R && forall j :: 0 <= j < R ==> RowWeighted(s, ids, L, j + 1, C, layered[j])
  }

  /** The body of the first double loop for one cell: its mappings, weighted. */
  method CellStep(s: Sources, ids: seq<int>, L: nat, row: int, col: int) returns (r: Result<seq<real>>)
    ensures r == CellVector(s, ids, L, row, col)
  {
    var docMappings := s.mappings.GetMappings(row, col);
    if !(docMappings.Ok? && docMappings.value.Some?) {
      return Err(TypeError);
    }
    r := CellWeights(s, docMappings.value.value, ids, L);
  }

  /** The inner `for (col …)` of the first double loop: the votes of one row and the maximum
      after it. */
  method RowWeights(s: Sources, ids: seq<int>, L: nat, C: nat, row: int, start: real)
    returns (r: Result<real>, rowVotes: seq<seq<real>>)
    ensures r == ColsMax(s, ids, L, start, row, C)
    ensures r.Ok? ==> RowWeighted(s, ids, L, row, C, rowVotes)
    ensures r.Ok? ==> start <= r.value && Bounds(rowVotes, r.value)
  {
    rowVotes := [];
    var maxLayered := start;
    var col := 1;
    while col < C + 1
      invariant 1 <= col <= C + 1
      invariant ColsMax(s, ids, L, start, row, col - 1) == Ok(maxLayered)
      invariant RowWeighted(s, ids, L, row, col - 1, rowVotes)
      invariant start <= maxLayered && Bounds(rowVotes, maxLayered)
    {
      var vec := CellStep(s, ids, L, row, col);
      if vec.Err? {
        ColsMaxFails(s, ids, L, start, row, col, C);
        r := Err(TypeError);
        return;
      }
      ColsMaxStep(s, ids, L, start, row, col, maxLayered, vec.value);
      var raised := RaiseMax(maxLayered, vec.value);
      BoundsAppend(rowVotes, maxLayered, vec.value, raised);
      rowVotes := rowVotes + [vec.value];
      maxLayered := raised;
      col := col + 1;
    }
    r := Ok(maxLayered);
  }

  lemma ColsMaxStep(s: Sources, ids: seq<int>, L: nat, m: real, row: int, col: nat, m': real, vec: seq<real>)
    requires 1 <= col && ColsMax(s, ids, L, m, row, col - 1) == Ok(m') && CellVector(s, ids, L, row, col) == Ok(vec)
    ensures ColsMax(s, ids, L, m, row, col) == Ok(LayersMax(m', vec))
  {
  }

  lemma ColsMaxFails(s: Sources, ids: seq<int>, L: nat, m: real, row: int, col: int, C: nat)
    requires 1 <= col <= C && !CellVector(s, ids, L, row, col).Ok?
    ensures ColsMax(s, ids, L, m, row, C) == Err(TypeError)
  {
  }

  /** The first double loop of `getWordTags`: the votes of every cell and their maximum. */
  method LayeredWeights(s: Sources, ids: seq<int>, L: nat, C: nat, R: nat)
    returns (r: Result<real>, layered: seq<seq<seq<real>>>)
    ensures r == RowsMax(s, ids, L, C, R)
    ensures r.Ok? ==> RowsWeighted(s, ids, L, R, C, layered)
    ensures r.Ok? ==> 0.0 <= r.value && forall j :: 0 <= j < |layered| ==> Bounds(layered[j], r.value)
  {
    layered := [];
    var maxLayered := 0.0;
    var row := 1;
    while row < R + 1
      invariant 1 <= row <= R + 1
      invariant RowsMax(s, ids, L, C, row - 1) == Ok(maxLayered)
      invariant RowsWeighted(s, ids, L, row - 1, C, layered)
      invariant 0.0 <= maxLayered && forall j :: 0 <= j < |layered| ==> Bounds(layered[j], maxLayered)
    {
      var next, rowVotes := RowWeights(s, ids, L, C, row, maxLayered);
      if next.Err? {
        RowsMaxFails(s, ids, L, C, row, R);
        r := Err(TypeError);
        return;
      }
      forall j | 0 <= j < |layered|
        ensures Bounds(layered[j], next.value)
      {
        BoundsRaise(layered[j], maxLayered, next.value);
      }
      layered := layered + [rowVotes];
      maxLayered := next.value;
      row := row + 1;
    }
    r := Ok(maxLayered);
  }

  /** `wordEntry.weight * layered / maxLayeredWeight`. Dividing by a zero maximum gives NaN or
      minus infinity in the host (every vote is then at most 0), which no threshold test passes;
      None stands for both. */
  function SearchWeightOf(weight: real, layered: real, maxLayered: real): Option<real> {
    if maxLayered == 0.0 then None else Some(weight * layered / maxLayered)
  }

  predicate Kept(w: Option<real>) {
    w.Some? && w.value > CGTopGrid.PiThreshold
  }

  /** Every entry that is kept names a word of the lexicon. */
  predicate EntriesKnown(s: Sources, entries: seq<CGTopGrid.WordEntry>, layered: real, maxLayered: real) {
    forall i :: 0 <= i < |entries| && Kept(SearchWeightOf(entries[i].weight, layered, maxLayered)) ==>
      entries[i].wordId in s.vocabulary.lexicon.elems
  }

  /** One kept entry becomes a tag named from the lexicon (a TypeError when the lexicon lacks it)
      and moves the extremes. */
  function AddTag(s: Sources, acc: WordTagsWithMetadata, e: CGTopGrid.WordEntry, weight: real, row: int, col: int)
    : (r: Result<WordTagsWithMetadata>)
  {
    match s.vocabulary.lexicon.Get(e.wordId)
    case None => Err(TypeError)
    case Some(lw) =>
      Ok(WordTagsWithMetadata(acc.wordTags + [CGTopGrid.WordTag(lw.word, e.wordId, weight, row, col)],
                              if weight < acc.minWeight then weight else acc.minWeight,
                              if weight > acc.maxWeight then weight else acc.maxWeight))
  }

  /** The tags one layer's entry list adds at cell (`row`, `col`). */
  function EntriesTags(s: Sources, acc: WordTagsWithMetadata, entries: seq<CGTopGrid.WordEntry>,
                       layered: real, maxLayered: real, row: int, col: int): (r: Result<WordTagsWithMetadata>)
    ensures r.Ok? <==> EntriesKnown(s, entries, layered, maxLayered)
    ensures r.Err? ==> r.error == TypeError
  {
    if |entries| == 0 then Ok(acc)
    else
      var init, e := entries[..|entries| - 1], entries[|entries| - 1];
      assert forall i :: 0 <= i < |init| ==> init[i] == entries[i];
      match EntriesTags(s, acc, init, layered, maxLayered, row, col)
      case Err(err) => Err(err)
      case Ok(earlier) =>
        var w := SearchWeightOf(e.weight, layered, maxLayered);
        if Kept(w) then AddTag(s, earlier, e, w.value, row, col) else Ok(earlier)
  }

  /** A layer's pass keeps the tags found so far, and every entry whose rescaled weight passes the
      threshold becomes a tag at the cell, named from the lexicon and carrying that weight. */
  lemma {:induction false} EntriesTagsKept(s: Sources, acc: WordTagsWithMetadata, entries: seq<CGTopGrid.WordEntry>,
                                           layered: real, maxLayered: real, row: int, col: int, i: nat)
    requires EntriesTags(s, acc, entries, layered, maxLayered, row, col).Ok?
    requires i < |entries| && Kept(SearchWeightOf(entries[i].weight, layered, maxLayered))
    ensures var tags := EntriesTags(s, acc, entries, layered, maxLayered, row, col).value.wordTags;
      && |acc.wordTags| <= |tags| && tags[..|acc.wordTags|] == acc.wordTags
      && entries[i].wordId in s.vocabulary.lexicon.elems
      && CGTopGrid.WordTag(s.vocabulary.lexicon.elems[entries[i].wordId].word, entries[i].wordId,
                           SearchWeightOf(entries[i].weight, layered, maxLayered).value, row, col) in tags
  {
    var init, e := entries[..|entries| - 1], entries[|entries| - 1];
    assert forall j :: 0 <= j < |init| ==> init[j] == entries[j];
    var earlier := EntriesTags(s, acc, init, layered, maxLayered, row, col).value;
    EntriesTagsPrefix(s, acc, init, layered, maxLayered, row, col);
    if i < |init| {
      EntriesTagsKept(s, acc, init, layered, maxLayered, row, col, i);
    }
  }

  /** A layer's pass only appends tags. */
  lemma {:induction false} EntriesTagsPrefix(s: Sources, acc: WordTagsWithMetadata, entries: seq<CGTopGrid.WordEntry>,
                                             layered: real, maxLayered: real, row: int, col: int)
    requires EntriesTags(s, acc, entries, layered, maxLayered, row, col).Ok?
    ensures var tags := EntriesTags(s, acc, entries, layered, maxLayered, row, col).value.wordTags;
      |acc.wordTags| <= |tags| && tags[..|acc.wordTags|] == acc.wordTags
  {
    if |entries| > 0 {
      var init := entries[..|entries| - 1];
      assert forall j :: 0 <= j < |init| ==> init[j] == entries[j];
      EntriesTagsPrefix(s, acc, init, layered, maxLayered, row, col);
    }
  }

  /** The `getWordEntryList(lay, row, col).forEach` of one layer. */
  method EntryTags(s: Sources, acc: WordTagsWithMetadata, entries: seq<CGTopGrid.WordEntry>,
                   layered: real, maxLayered: real, row: int, col: int) returns (r: Result<WordTagsWithMetadata>)
    ensures r == EntriesTags(s, acc, entries, layered, maxLayered, row, col)
  {
    var tags, minWeight, maxWeight := acc.wordTags, acc.minWeight, acc.maxWeight;
    var i := 0;
    while i < |entries|
      invariant 0 <= i <= |entries|
      invariant EntriesTags(s, acc, entries[..i], layered, maxLayered, row, col)
                == Ok(WordTagsWithMetadata(tags, minWeight, maxWeight))
    {
      assert entries[..i + 1][..i] == entries[..i];
      var e := entries[i];
      var weight := if maxLayered == 0.0 then None else Some(e.weight * layered / maxLayered);
      assert weight == SearchWeightOf(e.weight, layered, maxLayered);
      if weight.Some? && weight.value > CGTopGrid.PiThreshold {
        var lw := s.vocabulary.lexicon.Get(e.wordId);
        if lw.None? {
          assert !EntriesKnown(s, entries, layered, maxLayered) by {
            assert Kept(SearchWeightOf(entries[i].weight, layered, maxLayered));
          }
          return Err(TypeError);
        }
        tags := tags + [CGTopGrid.WordTag(lw.value.word, e.wordId, weight.value, row, col)];
        if weight.value > maxWeight {
          maxWeight := weight.value;
        }
        if weight.value < minWeight {
          minWeight := weight.value;
        }
      }
      i := i + 1;
    }
    assert entries[..|entries|] == entries;
    r := Ok(WordTagsWithMetadata(tags, minWeight, maxWeight));
  }

  /** `getWordEntryList(lay, row, col)` read with `forEach`: a missing layer, row or cell is a
      TypeError. */
  function EntryList(s: Sources, lay: int, row: int, col: int): Result<seq<CGTopGrid.WordEntry>> {
    match s.layers.GetWordEntryList(lay, row, col)
    case Ok(Some(entries)) => Ok(entries)
    case _ => Err(TypeError)
  }

  /** Layer `lay` of cell (`row`, `col`) can be read and names only known words. */
  predicate LayerReadable(s: Sources, ids: seq<int>, L: nat, maxLayered: real, row: int, col: int, lay: int) {
    EntryList(s, lay, row, col).Ok?
    && EntriesKnown(s, EntryList(s, lay, row, col).value, Layered(s, ids, L, row, col, lay), maxLayered)
  }

  function LaysTags(s: Sources, ids: seq<int>, L: nat, maxLayered: real, acc: WordTagsWithMetadata,
                    row: int, col: int, l: nat): (r: Result<WordTagsWithMetadata>)
    ensures r.Ok? <==> forall lay :: 1 <= lay <= l ==> LayerReadable(s, ids, L, maxLayered, row, col, lay)
    ensures r.Err? ==> r.error == TypeError
  {
    if l == 0 then Ok(acc)
    else
      match LaysTags(s, ids, L, maxLayered, acc, row, col, l - 1)
      case Err(err) => Err(err)
      case Ok(earlier) =>
        match EntryList(s, l, row, col)
        case Err(_) =>
          assert !LayerReadable(s, ids, L, maxLayered, row, col, l);
          Err(TypeError)
        case Ok(entries) =>
          assert LayerReadable(s, ids, L, maxLayered, row, col, l)
                 <==> EntriesKnown(s, entries, Layered(s, ids, L, row, col, l), maxLayered);
          EntriesTags(s, earlier, entries, Layered(s, ids, L, row, col, l), maxLayered, row, col)
  }

  function ColsTags(s: Sources, ids: seq<int>, L: nat, maxLayered: real, acc: WordTagsWithMetadata,
                    row: int, c: nat): (r: Result<WordTagsWithMetadata>)
    ensures r.Ok? <==> forall k, lay :: 1 <= k <= c && 1 <= lay <= L ==> LayerReadable(s, ids, L, maxLayered, row, k, lay)
    ensures r.Err? ==> r.error == TypeError
  {
    if c == 0 then Ok(acc)
    else
      match ColsTags(s, ids, L, maxLayered, acc, row, c - 1)
      case Err(err) => Err(err)
      case Ok(earlier) =>
        LaysTags(s, ids, L, maxLayered, earlier, row, c, L)
  }

  function RowsTags(s: Sources, ids: seq<int>, L: nat, C: nat, maxLayered: real, r: nat): (res: Result<WordTagsWithMetadata>)
    ensures res.Ok? <==> forall j, k, lay :: 1 <= j <= r && 1 <= k <= C && 1 <= lay <= L ==>
                           LayerReadable(s, ids, L, maxLayered, j, k, lay)
    ensures res.Err? ==> res.error == TypeError
  {
    if r == 0 then Ok(NoTags)
    else
      match RowsTags(s, ids, L, C, maxLayered, r - 1)
      case Err(err) => Err(err)
      case Ok(earlier) =>
        ColsTags(s, ids, L, maxLayered, earlier, r, C)
  }

  /** The `for (lay …)` loop of one cell, `vec` holding its votes. */
  method CellTags(s: Sources, ids: seq<int>, L: nat, maxLayered: real, acc: WordTagsWithMetadata,
                  row: int, col: int, vec: seq<real>) returns (r: Result<WordTagsWithMetadata>)
    requires CellVector(s, ids, L, row, col) == Ok(vec)
    ensures r == LaysTags(s, ids, L, maxLayered, acc, row, col, L)
  {
    var a := acc;
    var lay := 1;
    while lay < L + 1
      invariant 1 <= lay <= L + 1
      invariant LaysTags(s, ids, L, maxLayered, acc, row, col, lay - 1) == Ok(a)
    {
      var next := LayerTags(s, ids, L, maxLayered, acc, row, col, vec, lay, a);
      if next.Err? {
        LaysTagsFail(s, ids, L, maxLayered, acc, row, col, lay, L);
        return Err(TypeError);
      }
      a := next.value;
      lay := lay + 1;
    }
    r := Ok(a);
  }

  /** One layer of the `for (lay …)` loop. */
  method LayerTags(s: Sources, ids: seq<int>, L: nat, maxLayered: real, acc: WordTagsWithMetadata,
                   row: int, col: int, vec: seq<real>, lay: nat, a: WordTagsWithMetadata)
    returns (r: Result<WordTagsWithMetadata>)
    requires CellVector(s, ids, L, row, col) == Ok(vec) && 1 <= lay <= L
    requires LaysTags(s, ids, L, maxLayered, acc, row, col, lay - 1) == Ok(a)
    ensures r == LaysTags(s, ids, L, maxLayered, acc, row, col, lay)
  {
    LaysTagsStep(s, ids, L, maxLayered, acc, row, col, lay, a);
    var list := s.layers.GetWordEntryList(lay, row, col);
    if !(list.Ok? && list.value.Some?) {
      return Err(TypeError);
    }
    assert vec[lay - 1] == Layered(s, ids, L, row, col, lay);
    r := EntryTags(s, a, list.value.value, vec[lay - 1], maxLayered, row, col);
  }

  /** One pass of the `for (lay …)` loop. */
  lemma LaysTagsStep(s: Sources, ids: seq<int>, L: nat, maxLayered: real, acc: WordTagsWithMetadata,
                     row: int, col: int, lay: nat, a: WordTagsWithMetadata)
    requires 1 <= lay && LaysTags(s, ids, L, maxLayered, acc, row, col, lay - 1) == Ok(a)
    ensures EntryList(s, lay, row, col).Err? ==> LaysTags(s, ids, L, maxLayered, acc, row, col, lay) == Err(TypeError)
    ensures EntryList(s, lay, row, col).Ok? ==>
      LaysTags(s, ids, L, maxLayered, acc, row, col, lay)
      == EntriesTags(s, a, EntryList(s, lay, row, col).value, Layered(s, ids, L, row, col, lay), maxLayered, row, col)
  {
  }

  /** Once a layer fails, the whole cell fails. */
  lemma {:induction false} LaysTagsFail(s: Sources, ids: seq<int>, L: nat, maxLayered: real, acc: WordTagsWithMetadata,
                                        row: int, col: int, l: nat, l': nat)
    requires l <= l' && LaysTags(s, ids, L, maxLayered, acc, row, col, l).Err?
    ensures LaysTags(s, ids, L, maxLayered, acc, row, col, l') == Err(TypeError)
    decreases l'
  {
    if l < l' {
      LaysTagsFail(s, ids, L, maxLayered, acc, row, col, l, l' - 1);
    }
  }

  /** The `for (col …)` loop of one row. */
  method RowTags(s: Sources, ids: seq<int>, L: nat, C: nat, maxLayered: real, acc: WordTagsWithMetadata,
                 row: int, rowVotes: seq<seq<real>>) returns (r: Result<WordTagsWithMetadata>)
    requires RowWeighted(s, ids, L, row, C, rowVotes)
    ensures r == ColsTags(s, ids, L, maxLayered, acc, row, C)
  {
    var a := acc;
    var col := 1;
    while col < C + 1
      invariant 1 <= col <= C + 1
      invariant ColsTags(s, ids, L, maxLayered, acc, row, col - 1) == Ok(a)
    {
      assert CellVector(s, ids, L, row, col) == Ok(rowVotes[col - 1]);
      var next := CellTags(s, ids, L, maxLayered, a, row, col, rowVotes[col - 1]);
      ColsTagsStep(s, ids, L, maxLayered, acc, row, col);
      if next.Err? {
        ColsErrorPersists(s, ids, L, maxLayered, acc, row, col, C);
        return Err(TypeError);
      }
      a := next.value;
      col := col + 1;
    }
    r := Ok(a);
  }

  lemma ColsTagsStep(s: Sources, ids: seq<int>, L: nat, maxLayered: real, acc: WordTagsWithMetadata, row: int, c: nat)
    requires c >= 1 && ColsTags(s, ids, L, maxLayered, acc, row, c - 1).Ok?
    ensures ColsTags(s, ids, L, maxLayered, acc, row, c)
            == LaysTags(s, ids, L, maxLayered, ColsTags(s, ids, L, maxLayered, acc, row, c - 1).value, row, c, L)
  {
  }

  lemma RowsTagsStep(s: Sources, ids: seq<int>, L: nat, C: nat, maxLayered: real, r: nat)
    requires r >= 1 && RowsTags(s, ids, L, C, maxLayered, r - 1).Ok?
    ensures RowsTags(s, ids, L, C, maxLayered, r)
            == ColsTags(s, ids, L, maxLayered, RowsTags(s, ids, L, C, maxLayered, r - 1).value, r, C)
  {
  }

  lemma {:induction false} ColsErrorPersists(s: Sources, ids: seq<int>, L: nat, maxLayered: real, acc: WordTagsWithMetadata,
                                             row: int, c: nat, C: nat)
    requires c <= C && ColsTags(s, ids, L, maxLayered, acc, row, c).Err?
    ensures ColsTags(s, ids, L, maxLayered, acc, row, C) == Err(TypeError)
  {
    if c < C {
      ColsErrorPersists(s, ids, L, maxLayered, acc, row, c, C - 1);
    }
  }

  lemma {:induction false} RowsErrorPersists(s: Sources, ids: seq<int>, L: nat, C: nat, maxLayered: real, r: nat, R: nat)
    requires r <= R && RowsTags(s, ids, L, C, maxLayered, r).Err?
    ensures RowsTags(s, ids, L, C, maxLayered, R) == Err(TypeError)
  {
    if r < R {
      RowsErrorPersists(s, ids, L, C, maxLayered, r, R - 1);
    }
  }

  /** The second triple loop of `getWordTags`: the rescaled tags, row by row, column by column,
      layer by layer. */
  method SearchTagsOf(s: Sources, ids: seq<int>, L: nat, C: nat, R: nat, maxLayered: real,
                      layered: seq<seq<seq<real>>>) returns (r: Result<WordTagsWithMetadata>)
    requires RowsWeighted(s, ids, L, R, C, layered)
    ensures r == RowsTags(s, ids, L, C, maxLayered, R)
  {
    var acc := NoTags;
    var row := 1;
    while row < R + 1
      invariant 1 <= row <= R + 1
      invariant RowsTags(s, ids, L, C, maxLayered, row - 1) == Ok(acc)
    {
      assert RowWeighted(s, ids, L, row, C, layered[row - 1]);
      var next := RowTags(s, ids, L, C, maxLayered, acc, row, layered[row - 1]);
      RowsTagsStep(s, ids, L, C, maxLayered, row);
      if next.Err? {
        RowsErrorPersists(s, ids, L, C, maxLayered, row, R);
        return Err(TypeError);
      }
      acc := next.value;
      row := row + 1;
    }
    r := Ok(acc);
  }

  /** What the search tags promise: every tag lies above the threshold, between the extremes, at a
      cell of the `R` by `C` grid, and names the lexicon's word for its id; each extreme is its
      starting value or some tag's weight. */
  predicate TagsHold(s: Sources, R: int, C: int, acc: WordTagsWithMetadata) {
    TagsHoldFor(s.vocabulary, R, C, acc)
  }

  /** The same, for the lexicon `v` alone: the rest of the sources does not enter it. */
  predicate TagsHoldFor(v: CGVocabulary.Vocabulary, R: int, C: int, acc: WordTagsWithMetadata) {
    && (forall i :: 0 <= i < |acc.wordTags| ==>
          var t := acc.wordTags[i];
          && CGTopGrid.PiThreshold < t.weight && acc.minWeight <= t.weight <= acc.maxWeight
          && 1 <= t.row <= R && 1 <= t.col <= C
          && t.wordId in v.lexicon.elems && t.word == v.lexicon.elems[t.wordId].word)
    && 0.0 <= acc.maxWeight && acc.minWeight <= 1.0
    && (acc.maxWeight == 0.0 || CGTopGrid.SomeTagWeighs(acc.wordTags, acc.maxWeight))
    && (acc.minWeight == 1.0 || CGTopGrid.SomeTagWeighs(acc.wordTags, acc.minWeight))
  }

  lemma AddTagHolds(s: Sources, R: int, C: int, acc: WordTagsWithMetadata, e: CGTopGrid.WordEntry,
                    weight: real, row: int, col: int)
    requires TagsHold(s, R, C, acc) && weight > CGTopGrid.PiThreshold && 1 <= row <= R && 1 <= col <= C
    requires AddTag(s, acc, e, weight, row, col).Ok?
    ensures TagsHold(s, R, C, AddTag(s, acc, e, weight, row, col).value)
  {
    var acc' := AddTag(s, acc, e, weight, row, col).value;
    var t := acc'.wordTags[|acc'.wordTags| - 1];
    assert acc'.wordTags == acc.wordTags + [t];
    if acc'.maxWeight != 0.0 && acc'.maxWeight != weight {
      CGTopGrid.SomeTagWeighsAppend(acc.wordTags, t, acc'.maxWeight);
    }
    if acc'.minWeight != 1.0 && acc'.minWeight != weight {
      CGTopGrid.SomeTagWeighsAppend(acc.wordTags, t, acc'.minWeight);
    }
    assert (acc.wordTags + [t])[..|acc.wordTags|] == acc.wordTags;
  }

  lemma {:induction false} EntriesTagsHold(s: Sources, R: int, C: int, acc: WordTagsWithMetadata,
                                           entries: seq<CGTopGrid.WordEntry>, layered: real, maxLayered: real,
                                           row: int, col: int)
    requires TagsHold(s, R, C, acc) && 1 <= row <= R && 1 <= col <= C
    requires EntriesTags(s, acc, entries, layered, maxLayered, row, col).Ok?
    ensures TagsHold(s, R, C, EntriesTags(s, acc, entries, layered, maxLayered, row, col).value)
  {
    if |entries| > 0 {
      var init, e := entries[..|entries| - 1], entries[|entries| - 1];
      EntriesTagsHold(s, R, C, acc, init, layered, maxLayered, row, col);
      var w := SearchWeightOf(e.weight, layered, maxLayered);
      if Kept(w) {
        AddTagHolds(s, R, C, EntriesTags(s, acc, init, layered, maxLayered, row, col).value, e, w.value, row, col);
      }
    }
  }

  lemma {:induction false} LaysTagsHold(s: Sources, ids: seq<int>, L: nat, maxLayered: real, acc: WordTagsWithMetadata,
                                        R: int, C: int, row: int, col: int, l: nat)
    requires TagsHold(s, R, C, acc) && 1 <= row <= R && 1 <= col <= C
    requires LaysTags(s, ids, L, maxLayered, acc, row, col, l).Ok?
    ensures TagsHold(s, R, C, LaysTags(s, ids, L, maxLayered, acc, row, col, l).value)
  {
    if l > 0 {
      LaysTagsHold(s, ids, L, maxLayered, acc, R, C, row, col, l - 1);
      var earlier := LaysTags(s, ids, L, maxLayered, acc, row, col, l - 1).value;
      EntriesTagsHold(s, R, C, earlier, EntryList(s, l, row, col).value, Layered(s, ids, L, row, col, l),
                      maxLayered, row, col);
    }
  }

  lemma {:induction false} ColsTagsHold(s: Sources, ids: seq<int>, L: nat, maxLayered: real, acc: WordTagsWithMetadata,
                                        R: int, C: int, row: int, c: nat)
    requires TagsHold(s, R, C, acc) && 1 <= row <= R && c <= C
    requires ColsTags(s, ids, L, maxLayered, acc, row, c).Ok?
    ensures TagsHold(s, R, C, ColsTags(s, ids, L, maxLayered, acc, row, c).value)
  {
    if c > 0 {
      ColsTagsHold(s, ids, L, maxLayered, acc, R, C, row, c - 1);
      LaysTagsHold(s, ids, L, maxLayered, ColsTags(s, ids, L, maxLayered, acc, row, c - 1).value, R, C, row, c, L);
    }
  }

  lemma {:induction false} RowsTagsHold(s: Sources, ids: seq<int>, L: nat, C: nat, maxLayered: real, R: int, r: nat)
    requires r <= R
    requires RowsTags(s, ids, L, C, maxLayered, r).Ok?
    ensures TagsHold(s, R, C, RowsTags(s, ids, L, C, maxLayered, r).value)
  {
    if r > 0 {
      RowsTagsHold(s, ids, L, C, maxLayered, R, r - 1);
      ColsTagsHold(s, ids, L, maxLayered, RowsTags(s, ids, L, C, maxLayered, r - 1).value, R, C, r, C);
    }
  }

  /** `getWordTags` for a non-empty list of search words, before caching. */
  function SearchTags(s: Sources, ids: seq<int>): (r: Result<WordTagsWithMetadata>)
    ensures r.Err? ==> r.error == TypeError
  {
    var R := s.topGrid.RowLength();
    match s.topGrid.ColumnLength()
    case Err(err) => Err(err)
    case Ok(C) =>
      var L := s.layers.topGridLayers.length;
      match RowsMax(s, ids, L, C, R)
      case Err(err) => Err(err)
      case Ok(maxLayered) =>
        RowsTags(s, ids, L, C, maxLayered, R)
  }

  /** A search either fails with a TypeError (a missing grid row, cell list or layer, a document
      assigned beyond the last layer, a kept word the lexicon lacks), or its tags hold. */
  lemma SearchTagsHold(s: Sources, ids: seq<int>)
    requires SearchTags(s, ids).Ok?
    ensures TagsHold(s, s.topGrid.RowLength(), s.topGrid.ColumnLength().value, SearchTags(s, ids).value)
  {
    var C := s.topGrid.ColumnLength().value;
    var L := s.layers.topGridLayers.length;
    var maxLayered := RowsMax(s, ids, L, C, s.topGrid.RowLength()).value;
    RowsTagsHold(s, ids, L, C, maxLayered, s.topGrid.RowLength(), s.topGrid.RowLength());
  }

  /** The computation `getWordTags` performs on a cache miss. */
  method ComputeSearchTags(s: Sources, ids: seq<int>) returns (r: Result<WordTagsWithMetadata>)
    ensures r == SearchTags(s, ids)
  {
    var R := s.topGrid.RowLength();
    var columns := s.topGrid.ColumnLength();
    if columns.Err? {
      return Err(TypeError);
    }
    var C := columns.value;
    var L := s.layers.topGridLayers.length;
    var maxLayered, layered := LayeredWeights(s, ids, L, C, R);
    if maxLayered.Err? {
      return Err(TypeError);
    }
    r := SearchTagsOf(s, ids, L, C, R, maxLayered.value, layered);
  }
}
