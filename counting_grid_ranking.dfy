/** The ranking of `getDocumentEntryList`: every document of a cell gets a final weight, and the
    cell's list is sorted by it, highest first. With search words, a document's weight counts the
    search words it uses and how strongly the deeper layers at the cell hold the cell's
    best-matching tags that it uses; without them, how strongly the top grid holds the cell's
    leading words that it uses. */
module CGRanking {
  import opened Js
  import Sorting
  import CGCounts
  import CGMappings
  import CGTopGrid
  import CGTopGridLayers
  import CGDatabase

  type DocEntryWeight = CGMappings.DocEntryWeight

  /** `maxDocuments` */
  const MaxDocuments: nat := 100

  /** `wordCounts > 0`: null (a word without a line) is not. */
  predicate Uses(c: CGCounts.Counts, entryId: int, wordId: int) {
    var n := c.GetWordCounts(entryId, wordId);
    n.Some? && n.value > 0
  }

  /** The elements a `forEach` with `if (wordIndex < k)` acts on. */
  function Leading<T>(s: seq<T>, k: int): (r: seq<T>)
    ensures |r| == if k <= 0 then 0 else if k < |s| then k else |s|
    ensures forall i :: 0 <= i < |r| ==> r[i] == s[i]
  {
    if k <= 0 then [] else if k < |s| then s[..k] else s
  }

  /** How many documents of the list carry `entryId`. */
  function Occurrences(docs: seq<DocEntryWeight>, entryId: int): (r: nat)
    ensures r <= |docs|
    ensures r == 0 <==> forall i :: 0 <= i < |docs| ==> docs[i].entryId != entryId
  {
    if |docs| == 0 then 0
    else
      var init := docs[..|docs| - 1];
      assert forall i :: 0 <= i < |init| ==> init[i] == docs[i];
      Occurrences(init, entryId) + (if docs[|docs| - 1].entryId == entryId then 1 else 0)
  }

  function Weight(m: map<int, real>, e: int): real {
    if e in m then m[e] else 0.0
  }

  function Count(m: map<int, nat>, e: int): nat {
    if e in m then m[e] else 0
  }

  /** `x` added up `n` times. */
  function Times(n: nat, x: real): real {
    if n == 0 then 0.0 else Times(n - 1, x) + x
  }

  lemma {:induction false} TimesIsProduct(n: nat, x: real)
    ensures Times(n, x) == n as real * x
  {
    if n > 0 {
      TimesIsProduct(n - 1, x);
    }
  }

  lemma {:induction false} TimesZero(n: nat)
    ensures Times(n, 0.0) == 0.0
  {
    if n > 0 {
      TimesZero(n - 1);
    }
  }

  lemma {:induction false} Spread(n: nat, a: real, b: real)
    ensures Times(n, a + b) == Times(n, a) + Times(n, b)
  {
    if n > 0 {
      Spread(n - 1, a, b);
    }
  }

  // ---------------------------------------------------------------------------------------------
  // With search words: the votes of the deeper layers

  /** `.filter((wordTag) => wordTag.col === col && wordTag.row === row)` */
  function AtCell(tags: seq<CGTopGrid.WordTag>, row: int, col: int): (r: seq<CGTopGrid.WordTag>)
    ensures |r| <= |tags|
    ensures forall i :: 0 <= i < |r| ==> r[i].row == row && r[i].col == col
    ensures forall i :: 0 <= i < |tags| && tags[i].row == row && tags[i].col == col ==> tags[i] in r
  {
    if |tags| == 0 then []
    else
      var init, t := tags[..|tags| - 1], tags[|tags| - 1];
      assert forall i :: 0 <= i < |init| ==> init[i] == tags[i];
      var earlier := AtCell(init, row, col);
      if t.row == row && t.col == col then earlier + [t] else earlier
  }

  /** The filter keeps only tags it was given. */
  lemma {:induction false} AtCellSound(tags: seq<CGTopGrid.WordTag>, row: int, col: int)
    ensures forall t :: t in AtCell(tags, row, col) ==> t in tags
  {
    if |tags| > 0 {
      var init := tags[..|tags| - 1];
      AtCellSound(init, row, col);
      assert forall t :: t in init ==> t in tags;
    }
  }

  /** A single tag is kept exactly when it sits at the cell. */
  lemma AtCellSingle(t: CGTopGrid.WordTag, row: int, col: int)
    ensures AtCell([t], row, col) == if t.row == row && t.col == col then [t] else []
  {
    assert [t][..0] == [];
  }

  /** The filter distributes over concatenation: together with `AtCellSingle` this says that it
      keeps the tags at the cell in their order and with their multiplicity, and drops the rest. */
  lemma {:induction false} AtCellAppend(a: seq<CGTopGrid.WordTag>, b: seq<CGTopGrid.WordTag>, row: int, col: int)
    ensures AtCell(a + b, row, col) == AtCell(a, row, col) + AtCell(b, row, col)
  {
    if |b| == 0 {
      assert a + b == a;
    } else {
      var init := b[..|b| - 1];
      assert (a + b)[..|a + b| - 1] == a + init;
      assert (a + b)[|a + b| - 1] == b[|b| - 1];
      AtCellAppend(a, init, row, col);
    }
  }

  function TagWeight(t: CGTopGrid.WordTag): real {
    t.weight
  }

  /** `wordTagsForPoint`: the tags at the cell, in ascending weight. */
  function PointTags(tags: seq<CGTopGrid.WordTag>, row: int, col: int): seq<CGTopGrid.WordTag> {
    Sorting.SortBy(AtCell(tags, row, col), TagWeight)
  }

  /** The tags for the point are the tags at the cell, each of them, in ascending weight. */
  lemma PointTagsMeaning(tags: seq<CGTopGrid.WordTag>, row: int, col: int)
    ensures var r := PointTags(tags, row, col);
      && (forall t :: t in r <==> t in tags && t.row == row && t.col == col)
      && (forall i, j :: 0 <= i < j < |r| ==> r[i].weight <= r[j].weight)
  {
    var at := AtCell(tags, row, col);
    var r := PointTags(tags, row, col);
    Sorting.SortBySorted(at, TagWeight);
    assert forall t :: t in r <==> t in multiset(at);
    assert forall t :: t in at ==> t in tags by {
      AtCellSound(tags, row, col);
    }
  }

  /** `docWeights` and `maxDocWeight` */
  datatype Votes = Votes(weights: map<int, real>, maxWeight: real)

  const NoVotes: Votes := Votes(map[], 0.0)

  /** The running maximum never falls below 0 or below a document's vote. */
  predicate Bounded(v: Votes) {
    0.0 <= v.maxWeight && forall e :: e in v.weights ==> v.weights[e] <= v.maxWeight
  }

  /** `getWordProbability(lay, row, col, wordId)` for the layers 1 to `topGridLayers.length`, in
      the order the `for (lay …)` loop reads them. */
  function LayerProbabilities(layers: CGTopGridLayers.TopGridLayers, row: int, col: int, wordId: int)
    : (ps: seq<Result<real>>)
    ensures |ps| == layers.topGridLayers.length
  {
    seq(layers.topGridLayers.length, k => layers.GetWordProbability(k + 1, row, col, wordId))
  }

  /** Every layer holds the word at the cell. */
  predicate Defined(ps: seq<Result<real>>) {
    forall k :: 0 <= k < |ps| ==> ps[k].Ok?
  }

  /** The probabilities added up, a failing one read as 0. */
  function ProbabilitySum(ps: seq<Result<real>>): real {
    if |ps| == 0 then 0.0
    else ProbabilitySum(ps[..|ps| - 1]) + (match ps[|ps| - 1] case Ok(p) => p case Err(_) => 0.0)
  }

  /** The `for (lay …)` loop for document `e` and one word: each layer's probability of the word is
      added to the document's vote, and the maximum follows. A layer without the word at the cell is
      a TypeError (`find(…)` is undefined). */
  function AddLayers(v: Votes, e: int, ps: seq<Result<real>>): (r: Result<Votes>)
    ensures r.Ok? <==> Defined(ps)
    ensures r.Err? ==> r.error == TypeError
  {
    if |ps| == 0 then Ok(v)
    else
      var init := ps[..|ps| - 1];
      assert forall k :: 0 <= k < |init| ==> init[k] == ps[k];
      match AddLayers(v, e, init)
      case Err(err) => Err(err)
      case Ok(earlier) =>
        match ps[|ps| - 1]
        case Err(_) => Err(TypeError)
        case Ok(p) => Ok(AddVote(earlier, e, p))
  }

  /** `docWeights[e] += p`, then `maxDocWeight` follows. */
  function AddVote(v: Votes, e: int, p: real): Votes {
    var w := Weight(v.weights, e) + p;
    Votes(v.weights[e := w], if w > v.maxWeight then w else v.maxWeight)
  }

  lemma AddLayersNext(v: Votes, e: int, ps: seq<Result<real>>, k: int, votes: Votes)
    requires 0 <= k < |ps| && AddLayers(v, e, ps[..k]) == Ok(votes)
    ensures AddLayers(v, e, ps[..k + 1]) == if ps[k].Err? then Err(TypeError) else Ok(AddVote(votes, e, ps[k].value))
  {
    assert ps[..k + 1][..k] == ps[..k];
  }

  lemma {:induction false} AddLayersFailed(v: Votes, e: int, ps: seq<Result<real>>, k: nat)
    requires k <= |ps| && AddLayers(v, e, ps[..k]).Err?
    ensures AddLayers(v, e, ps).Err?
  {
    if k < |ps| {
      assert ps[..|ps| - 1][..k] == ps[..k];
      AddLayersFailed(v, e, ps[..|ps| - 1], k);
    } else {
      assert ps[..k] == ps;
    }
  }

  /** Only document `e`'s vote moves, by the word's probability summed over the layers. */
  lemma {:induction false} AddLayersWeight(v: Votes, e: int, ps: seq<Result<real>>, k: int)
    requires AddLayers(v, e, ps).Ok?
    ensures Weight(AddLayers(v, e, ps).value.weights, k) == Weight(v.weights, k) + (if k == e then ProbabilitySum(ps) else 0.0)
  {
    if |ps| > 0 {
      AddLayersWeight(v, e, ps[..|ps| - 1], k);
    }
  }

  /** The `docList.forEach` for one tag: the documents using its word gain their votes. */
  function DocVotes(counts: CGCounts.Counts, layers: CGTopGridLayers.TopGridLayers, v: Votes,
                    docs: seq<DocEntryWeight>, wordId: int, row: int, col: int): (r: Result<Votes>)
    ensures r.Err? ==> r.error == TypeError
  {
    if |docs| == 0 then Ok(v)
    else
      var init, d := docs[..|docs| - 1], docs[|docs| - 1];
      assert forall i :: 0 <= i < |init| ==> init[i] == docs[i];
      match DocVotes(counts, layers, v, init, wordId, row, col)
      case Err(err) => Err(err)
      case Ok(earlier) =>
        if Uses(counts, d.entryId, wordId) then AddLayers(earlier, d.entryId, LayerProbabilities(layers, row, col, wordId))
        else Ok(earlier)
  }

  /** A document's vote grows by the word's summed probability once per listing, when it uses the word. */
  lemma {:induction false} DocVotesWeight(counts: CGCounts.Counts, layers: CGTopGridLayers.TopGridLayers, v: Votes,
                                          docs: seq<DocEntryWeight>, wordId: int, row: int, col: int, e: int)
    requires DocVotes(counts, layers, v, docs, wordId, row, col).Ok?
    ensures Weight(DocVotes(counts, layers, v, docs, wordId, row, col).value.weights, e) == Weight(v.weights, e)
              + Times(Occurrences(docs, e),
                      if Uses(counts, e, wordId) then ProbabilitySum(LayerProbabilities(layers, row, col, wordId)) else 0.0)
  {
    if |docs| > 0 {
      var init := docs[..|docs| - 1];
      DocVotesLast(counts, layers, v, docs, wordId, row, col, e);
      DocVotesWeight(counts, layers, v, init, wordId, row, col, e);
      var x := if Uses(counts, e, wordId) then ProbabilitySum(LayerProbabilities(layers, row, col, wordId)) else 0.0;
      TimesStep(Weight(v.weights, e), Weight(DocVotes(counts, layers, v, init, wordId, row, col).value.weights, e),
                Weight(DocVotes(counts, layers, v, docs, wordId, row, col).value.weights, e),
                Occurrences(init, e), Occurrences(docs, e), x, docs[|docs| - 1].entryId == e);
    }
  }

  /** One more listing: the count grows by one exactly when the vote grows by `x`. */
  lemma TimesStep(base: real, before: real, after: real, n: nat, occ: nat, x: real, hit: bool)
    requires before == base + Times(n, x)
    requires after == before + (if hit then x else 0.0)
    requires occ == n + (if hit then 1 else 0)
    ensures after == base + Times(occ, x)
  {
  }

  /** The last document of the fold adds the word's summed probability to its own vote, when it
      uses the word. */
  lemma DocVotesLast(counts: CGCounts.Counts, layers: CGTopGridLayers.TopGridLayers, v: Votes,
                     docs: seq<DocEntryWeight>, wordId: int, row: int, col: int, e: int)
    requires |docs| > 0 && DocVotes(counts, layers, v, docs, wordId, row, col).Ok?
    ensures DocVotes(counts, layers, v, docs[..|docs| - 1], wordId, row, col).Ok?
    ensures Weight(DocVotes(counts, layers, v, docs, wordId, row, col).value.weights, e)
            == Weight(DocVotes(counts, layers, v, docs[..|docs| - 1], wordId, row, col).value.weights, e)
               + (if docs[|docs| - 1].entryId == e && Uses(counts, e, wordId)
                  then ProbabilitySum(LayerProbabilities(layers, row, col, wordId)) else 0.0)
  {
    var d := docs[|docs| - 1];
    var earlier := DocVotes(counts, layers, v, docs[..|docs| - 1], wordId, row, col).value;
    if Uses(counts, d.entryId, wordId) {
      AddLayersWeight(earlier, d.entryId, LayerProbabilities(layers, row, col, wordId), e);
    }
  }


  /** One tag's votes fail exactly when a document using its word meets a layer without it. */
  lemma {:induction false} DocVotesOk(counts: CGCounts.Counts, layers: CGTopGridLayers.TopGridLayers, v: Votes,
                                      docs: seq<DocEntryWeight>, wordId: int, row: int, col: int)
    ensures DocVotes(counts, layers, v, docs, wordId, row, col).Ok?
            <==> forall i :: 0 <= i < |docs| && Uses(counts, docs[i].entryId, wordId) ==>
                   Defined(LayerProbabilities(layers, row, col, wordId))
  {
    if |docs| > 0 {
      var init := docs[..|docs| - 1];
      assert forall i :: 0 <= i < |init| ==> init[i] == docs[i];
      DocVotesOk(counts, layers, v, init, wordId, row, col);
    }
  }

  /** Once a prefix fails, the whole fold fails. */
  lemma {:induction false} DocVotesFailed(counts: CGCounts.Counts, layers: CGTopGridLayers.TopGridLayers, v: Votes, docs: seq<DocEntryWeight>, wordId: int, row: int, col: int, k: nat)
    requires k <= |docs| && DocVotes(counts, layers, v, docs[..k], wordId, row, col).Err?
    ensures DocVotes(counts, layers, v, docs, wordId, row, col).Err?
  {
    if k < |docs| {
      assert docs[..|docs| - 1][..k] == docs[..k];
      DocVotesFailed(counts, layers, v, docs[..|docs| - 1], wordId, row, col, k);
    } else {
      assert docs[..k] == docs;
    }
  }

  /** What the leading tags of the cell add to document `e`'s vote, per occurrence. */
  function WordsSum(counts: CGCounts.Counts, layers: CGTopGridLayers.TopGridLayers, e: int,
                    words: seq<CGTopGrid.WordTag>, row: int, col: int): real {
    if |words| == 0 then 0.0
    else
      var w := words[|words| - 1].wordId;
      WordsSum(counts, layers, e, words[..|words| - 1], row, col)
        + (if Uses(counts, e, w) then ProbabilitySum(LayerProbabilities(layers, row, col, w)) else 0.0)
  }

  /** The `wordTagsForPoint.forEach` over the leading tags. */
  function TagVotes(counts: CGCounts.Counts, layers: CGTopGridLayers.TopGridLayers, v: Votes,
                    docs: seq<DocEntryWeight>, words: seq<CGTopGrid.WordTag>, row: int, col: int): (r: Result<Votes>)
    ensures r.Err? ==> r.error == TypeError
  {
    if |words| == 0 then Ok(v)
    else
      var init := words[..|words| - 1];
      assert forall j :: 0 <= j < |init| ==> init[j] == words[j];
      match TagVotes(counts, layers, v, docs, init, row, col)
      case Err(err) => Err(err)
      case Ok(earlier) =>
        DocVotes(counts, layers, earlier, docs, words[|words| - 1].wordId, row, col)
  }

  /** A document's vote is, per listing, the summed probabilities of the leading words it uses. */
  lemma {:induction false} TagVotesWeight(counts: CGCounts.Counts, layers: CGTopGridLayers.TopGridLayers, v: Votes,
                                          docs: seq<DocEntryWeight>, words: seq<CGTopGrid.WordTag>, row: int, col: int, e: int)
    requires TagVotes(counts, layers, v, docs, words, row, col).Ok?
    ensures Weight(TagVotes(counts, layers, v, docs, words, row, col).value.weights, e)
            == Weight(v.weights, e) + Times(Occurrences(docs, e), WordsSum(counts, layers, e, words, row, col))
  {
    if |words| > 0 {
      var init := words[..|words| - 1];
      var w := words[|words| - 1].wordId;
      TagVotesWeight(counts, layers, v, docs, init, row, col, e);
      DocVotesWeight(counts, layers, TagVotes(counts, layers, v, docs, init, row, col).value, docs, w, row, col, e);
      var x := if Uses(counts, e, w) then ProbabilitySum(LayerProbabilities(layers, row, col, w)) else 0.0;
      Spread(Occurrences(docs, e), WordsSum(counts, layers, e, init, row, col), x);
    } else {
      TimesZero(Occurrences(docs, e));
    }
  }

  /** The search votes fail exactly when a document using one of the leading words meets a layer
      without that word at the cell. */
  lemma {:induction false} TagVotesOk(counts: CGCounts.Counts, layers: CGTopGridLayers.TopGridLayers, v: Votes,
                                      docs: seq<DocEntryWeight>, words: seq<CGTopGrid.WordTag>, row: int, col: int)
    ensures TagVotes(counts, layers, v, docs, words, row, col).Ok?
            <==> forall j, i :: 0 <= j < |words| && 0 <= i < |docs| && Uses(counts, docs[i].entryId, words[j].wordId) ==>
                   Defined(LayerProbabilities(layers, row, col, words[j].wordId))
  {
    if |words| > 0 {
      var init := words[..|words| - 1];
      assert forall j :: 0 <= j < |init| ==> init[j] == words[j];
      TagVotesOk(counts, layers, v, docs, init, row, col);
      if TagVotes(counts, layers, v, docs, init, row, col).Ok? {
        DocVotesOk(counts, layers, TagVotes(counts, layers, v, docs, init, row, col).value, docs, words[|words| - 1].wordId, row, col);
      }
    }
  }

  /** Once a prefix fails, the whole fold fails. */
  lemma {:induction false} TagVotesFailed(counts: CGCounts.Counts, layers: CGTopGridLayers.TopGridLayers, v: Votes, docs: seq<DocEntryWeight>, words: seq<CGTopGrid.WordTag>, row: int, col: int, k: nat)
    requires k <= |words| && TagVotes(counts, layers, v, docs, words[..k], row, col).Err?
    ensures TagVotes(counts, layers, v, docs, words, row, col).Err?
  {
    if k < |words| {
      assert words[..|words| - 1][..k] == words[..k];
      TagVotesFailed(counts, layers, v, docs, words[..|words| - 1], row, col, k);
    } else {
      assert words[..k] == words;
    }
  }

  lemma {:induction false} AddLayersBounded(v: Votes, e: int, ps: seq<Result<real>>)
    requires Bounded(v) && AddLayers(v, e, ps).Ok?
    ensures Bounded(AddLayers(v, e, ps).value)
  {
    if |ps| > 0 {
      AddLayersBounded(v, e, ps[..|ps| - 1]);
    }
  }

  lemma {:induction false} DocVotesBounded(counts: CGCounts.Counts, layers: CGTopGridLayers.TopGridLayers, v: Votes,
                                           docs: seq<DocEntryWeight>, wordId: int, row: int, col: int)
    requires Bounded(v) && DocVotes(counts, layers, v, docs, wordId, row, col).Ok?
    ensures Bounded(DocVotes(counts, layers, v, docs, wordId, row, col).value)
  {
    if |docs| > 0 {
      var init, d := docs[..|docs| - 1], docs[|docs| - 1];
      DocVotesBounded(counts, layers, v, init, wordId, row, col);
      if Uses(counts, d.entryId, wordId) {
        AddLayersBounded(DocVotes(counts, layers, v, init, wordId, row, col).value, d.entryId,
                         LayerProbabilities(layers, row, col, wordId));
      }
    }
  }

  /** `maxDocWeight` is at least 0 and at least every document's vote, so a document's share
      `docWeights / maxDocWeight` is at most 1 once the maximum is positive. */
  lemma {:induction false} TagVotesBounded(counts: CGCounts.Counts, layers: CGTopGridLayers.TopGridLayers, v: Votes,
                                           docs: seq<DocEntryWeight>, words: seq<CGTopGrid.WordTag>, row: int, col: int)
    requires Bounded(v) && TagVotes(counts, layers, v, docs, words, row, col).Ok?
    ensures Bounded(TagVotes(counts, layers, v, docs, words, row, col).value)
  {
    if |words| > 0 {
      var init := words[..|words| - 1];
      TagVotesBounded(counts, layers, v, docs, init, row, col);
      DocVotesBounded(counts, layers, TagVotes(counts, layers, v, docs, init, row, col).value, docs,
                      words[|words| - 1].wordId, row, col);
    }
  }

  /** The `for (lay …)` loop of one document and word. */
  method LayersLoop(layers: CGTopGridLayers.TopGridLayers, v: Votes, e: int, wordId: int, row: int, col: int)
    returns (r: Result<Votes>)
    ensures r == AddLayers(v, e, LayerProbabilities(layers, row, col, wordId))
  {
    ghost var ps := LayerProbabilities(layers, row, col, wordId);
    var votes := v;
    var lay := 1;
    while lay < layers.topGridLayers.length + 1
      invariant 1 <= lay <= layers.topGridLayers.length + 1
      invariant AddLayers(v, e, ps[..lay - 1]) == Ok(votes)
    {
      var p := layers.GetWordProbability(lay, row, col, wordId);
      AddLayersNext(v, e, ps, lay - 1, votes);
      if p.Err? {
        AddLayersFailed(v, e, ps, lay);
        return Err(TypeError);
      }
      votes := AddVote(votes, e, p.value);
      lay := lay + 1;
    }
    assert ps[..|ps|] == ps;
    r := Ok(votes);
  }

  /** The `docList.forEach` for one tag. */
  method DocsLoop(counts: CGCounts.Counts, layers: CGTopGridLayers.TopGridLayers, v: Votes,
                  docs: seq<DocEntryWeight>, wordId: int, row: int, col: int) returns (r: Result<Votes>)
    ensures r == DocVotes(counts, layers, v, docs, wordId, row, col)
  {
    var acc := v;
    var i := 0;
    while i < |docs|
      invariant 0 <= i <= |docs|
      invariant DocVotes(counts, layers, v, docs[..i], wordId, row, col) == Ok(acc)
    {
      assert docs[..i + 1][..i] == docs[..i];
      var wordCounts := counts.GetWordCounts(docs[i].entryId, wordId);
      if wordCounts.Some? && wordCounts.value > 0 {
        var next := LayersLoop(layers, acc, docs[i].entryId, wordId, row, col);
        if next.Err? {
          DocVotesFailed(counts, layers, v, docs, wordId, row, col, i + 1);
          return Err(TypeError);
        }
        acc := next.value;
      }
      i := i + 1;
    }
    assert docs[..|docs|] == docs;
    r := Ok(acc);
  }

  /** The `wordTagsForPoint.forEach`, over the tags below `maxWordsInSearch`. */
  method TagsLoop(counts: CGCounts.Counts, layers: CGTopGridLayers.TopGridLayers,
                  docs: seq<DocEntryWeight>, words: seq<CGTopGrid.WordTag>, row: int, col: int) returns (r: Result<Votes>)
    ensures r == TagVotes(counts, layers, NoVotes, docs, words, row, col)
  {
    var acc := NoVotes;
    var j := 0;
    while j < |words|
      invariant 0 <= j <= |words|
      invariant TagVotes(counts, layers, NoVotes, docs, words[..j], row, col) == Ok(acc)
    {
      assert words[..j + 1][..j] == words[..j];
      var next := DocsLoop(counts, layers, acc, docs, words[j].wordId, row, col);
      if next.Err? {
        TagVotesFailed(counts, layers, NoVotes, docs, words, row, col, j + 1);
        return Err(TypeError);
      }
      acc := next.value;
      j := j + 1;
    }
    assert words[..|words|] == words;
    r := Ok(acc);
  }

  // ---------------------------------------------------------------------------------------------
  // With search words: how many of them each document uses

  /** How many of the search words document `e` uses. */
  function UsedCount(counts: CGCounts.Counts, e: int, ids: seq<int>): (r: nat)
    ensures r <= |ids|
  {
    if |ids| == 0 then 0
    else UsedCount(counts, e, ids[..|ids| - 1]) + (if Uses(counts, e, ids[|ids| - 1]) then 1 else 0)
  }

  /** The inner `docList.forEach` for one search word of `docWeightsSearch`. */
  function DocHits(counts: CGCounts.Counts, m: map<int, nat>, docs: seq<DocEntryWeight>, id: int): map<int, nat> {
    if |docs| == 0 then m
    else
      var d := docs[|docs| - 1];
      var earlier := DocHits(counts, m, docs[..|docs| - 1], id);
      earlier[d.entryId := Count(earlier, d.entryId) + (if Uses(counts, d.entryId, id) then 1 else 0)]
  }

  lemma {:induction false} DocHitsCount(counts: CGCounts.Counts, m: map<int, nat>, docs: seq<DocEntryWeight>, id: int, e: int)
    ensures Count(DocHits(counts, m, docs, id), e) == Count(m, e) + (if Uses(counts, e, id) then Occurrences(docs, e) else 0)
  {
    if |docs| > 0 {
      DocHitsCount(counts, m, docs[..|docs| - 1], id, e);
    }
  }

  /** `docWeightsSearch` */
  function Hits(counts: CGCounts.Counts, m: map<int, nat>, docs: seq<DocEntryWeight>, ids: seq<int>): map<int, nat> {
    if |ids| == 0 then m
    else DocHits(counts, Hits(counts, m, docs, ids[..|ids| - 1]), docs, ids[|ids| - 1])
  }

  /** A document's count is the number of search words it uses, once per time it is listed. */
  lemma {:induction false} HitsCount(counts: CGCounts.Counts, m: map<int, nat>, docs: seq<DocEntryWeight>, ids: seq<int>, e: int)
    ensures Count(Hits(counts, m, docs, ids), e) == Count(m, e) + Occurrences(docs, e) * UsedCount(counts, e, ids)
  {
    if |ids| > 0 {
      var init := ids[..|ids| - 1];
      HitsCount(counts, m, docs, init, e);
      DocHitsCount(counts, Hits(counts, m, docs, init), docs, ids[|ids| - 1], e);
      var b := if Uses(counts, e, ids[|ids| - 1]) then 1 else 0;
      assert UsedCount(counts, e, ids) == UsedCount(counts, e, init) + b;
      assert Occurrences(docs, e) * (UsedCount(counts, e, init) + b)
          == Occurrences(docs, e) * UsedCount(counts, e, init) + Occurrences(docs, e) * b;
    }
  }

  /** The inner `docList.forEach` of one search word. */
  method DocHitsLoop(counts: CGCounts.Counts, m: map<int, nat>, docs: seq<DocEntryWeight>, id: int) returns (r: map<int, nat>)
    ensures r == DocHits(counts, m, docs, id)
  {
    r := m;
    var i := 0;
    while i < |docs|
      invariant 0 <= i <= |docs|
      invariant DocHits(counts, m, docs[..i], id) == r
    {
      assert docs[..i + 1][..i] == docs[..i];
      var e := docs[i].entryId;
      var wordCounts := counts.GetWordCounts(e, id);
      // an absent count starts at 0
      var c := if e in r then r[e] else 0;
      r := r[e := if wordCounts.Some? && wordCounts.value > 0 then c + 1 else c];
      i := i + 1;
    }
    assert docs[..|docs|] == docs;
  }

  /** The `searchWordIds.forEach` filling `docWeightsSearch`. */
  method HitsLoop(counts: CGCounts.Counts, docs: seq<DocEntryWeight>, ids: seq<int>) returns (r: map<int, nat>)
    ensures r == Hits(counts, map[], docs, ids)
  {
    r := map[];
    var j := 0;
    while j < |ids|
      invariant 0 <= j <= |ids|
      invariant Hits(counts, map[], docs, ids[..j]) == r
    {
      assert ids[..j + 1][..j] == ids[..j];
      r := DocHitsLoop(counts, r, docs, ids[j]);
      j := j + 1;
    }
    assert ids[..|ids|] == ids;
  }

  // ---------------------------------------------------------------------------------------------
  // Without search words: the votes of the top grid

  /** `topGrid.getWordProbability(row, col, wordId)`, read as 0 where it fails. */
  function TopProbabilityOr0(g: CGTopGrid.TopGrid, row: int, col: int, wordId: int): real {
    match g.GetWordProbability(row, col, wordId)
    case Ok(p) => p
    case Err(_) => 0.0
  }

  /** The `docList.forEach` of one top grid entry: the documents using its word gain the word's
      probability at the cell, which must exist (a TypeError otherwise). */
  function PlainDocVotes(g: CGTopGrid.TopGrid, counts: CGCounts.Counts, m: map<int, real>,
                         docs: seq<DocEntryWeight>, wordId: int, row: int, col: int): (r: Result<map<int, real>>)
    ensures r.Err? ==> r.error == TypeError
  {
    if |docs| == 0 then Ok(m)
    else
      var init, d := docs[..|docs| - 1], docs[|docs| - 1];
      assert forall i :: 0 <= i < |init| ==> init[i] == docs[i];
      match PlainDocVotes(g, counts, m, init, wordId, row, col)
      case Err(err) => Err(err)
      case Ok(earlier) =>
        if Uses(counts, d.entryId, wordId) then
          match g.GetWordProbability(row, col, wordId)
          case Err(err) => Err(err)
          case Ok(p) =>
            Ok(earlier[d.entryId := Weight(earlier, d.entryId) + p])
        else Ok(earlier)
  }

  lemma {:induction false} PlainDocVotesWeight(g: CGTopGrid.TopGrid, counts: CGCounts.Counts, m: map<int, real>,
                                               docs: seq<DocEntryWeight>, wordId: int, row: int, col: int, e: int)
    requires PlainDocVotes(g, counts, m, docs, wordId, row, col).Ok?
    ensures Weight(PlainDocVotes(g, counts, m, docs, wordId, row, col).value, e) == Weight(m, e)
              + Times(Occurrences(docs, e), if Uses(counts, e, wordId) then TopProbabilityOr0(g, row, col, wordId) else 0.0)
  {
    if |docs| > 0 {
      var init, d := docs[..|docs| - 1], docs[|docs| - 1];
      PlainDocVotesWeight(g, counts, m, init, wordId, row, col, e);
      var x := if Uses(counts, e, wordId) then TopProbabilityOr0(g, row, col, wordId) else 0.0;
      var before := Weight(PlainDocVotes(g, counts, m, init, wordId, row, col).value, e);
      assert Weight(PlainDocVotes(g, counts, m, docs, wordId, row, col).value, e) == before + (if d.entryId == e then x else 0.0);
      TimesStep(Weight(m, e), before, Weight(PlainDocVotes(g, counts, m, docs, wordId, row, col).value, e),
                Occurrences(init, e), Occurrences(docs, e), x, d.entryId == e);
    }
  }

  /** One entry's weights fail exactly when a document uses a word the top grid lacks at the cell. */
  lemma {:induction false} PlainDocVotesOk(g: CGTopGrid.TopGrid, counts: CGCounts.Counts, m: map<int, real>,
                                           docs: seq<DocEntryWeight>, wordId: int, row: int, col: int)
    ensures PlainDocVotes(g, counts, m, docs, wordId, row, col).Ok?
            <==> forall i :: 0 <= i < |docs| && Uses(counts, docs[i].entryId, wordId) ==> g.GetWordProbability(row, col, wordId).Ok?
  {
    if |docs| > 0 {
      var init := docs[..|docs| - 1];
      assert forall i :: 0 <= i < |init| ==> init[i] == docs[i];
      PlainDocVotesOk(g, counts, m, init, wordId, row, col);
    }
  }

  /** One more document of the fold. */
  lemma PlainDocVotesStep(g: CGTopGrid.TopGrid, counts: CGCounts.Counts, m: map<int, real>, docs: seq<DocEntryWeight>,
                          wordId: int, row: int, col: int, i: nat, acc: map<int, real>)
    requires i < |docs| && PlainDocVotes(g, counts, m, docs[..i], wordId, row, col) == Ok(acc)
    ensures !Uses(counts, docs[i].entryId, wordId) ==> PlainDocVotes(g, counts, m, docs[..i + 1], wordId, row, col) == Ok(acc)
    ensures Uses(counts, docs[i].entryId, wordId) && g.GetWordProbability(row, col, wordId).Err? ==>
              PlainDocVotes(g, counts, m, docs[..i + 1], wordId, row, col).Err?
    ensures Uses(counts, docs[i].entryId, wordId) && g.GetWordProbability(row, col, wordId).Ok? ==>
              PlainDocVotes(g, counts, m, docs[..i + 1], wordId, row, col)
              == Ok(acc[docs[i].entryId := Weight(acc, docs[i].entryId) + g.GetWordProbability(row, col, wordId).value])
  {
    assert docs[..i + 1][..i] == docs[..i];
  }

  /** Once a prefix fails, the whole fold fails. */
  lemma {:induction false} PlainDocVotesFailed(g: CGTopGrid.TopGrid, counts: CGCounts.Counts, m: map<int, real>, docs: seq<DocEntryWeight>, wordId: int, row: int, col: int, k: nat)
    requires k <= |docs| && PlainDocVotes(g, counts, m, docs[..k], wordId, row, col).Err?
    ensures PlainDocVotes(g, counts, m, docs, wordId, row, col).Err?
  {
    if k < |docs| {
      assert docs[..|docs| - 1][..k] == docs[..k];
      PlainDocVotesFailed(g, counts, m, docs[..|docs| - 1], wordId, row, col, k);
    } else {
      assert docs[..k] == docs;
    }
  }

  /** What the leading top grid entries add to document `e`'s weight, per occurrence. */
  function EntriesSum(g: CGTopGrid.TopGrid, counts: CGCounts.Counts, e: int, entries: seq<CGTopGrid.WordEntry>,
                      row: int, col: int): real {
    if |entries| == 0 then 0.0
    else
      var w := entries[|entries| - 1].wordId;
      EntriesSum(g, counts, e, entries[..|entries| - 1], row, col)
        + (if Uses(counts, e, w) then TopProbabilityOr0(g, row, col, w) else 0.0)
  }

  /** The `getWordEntryList(row, col).forEach` over the leading entries. */
  function PlainVotes(g: CGTopGrid.TopGrid, counts: CGCounts.Counts, m: map<int, real>,
                      docs: seq<DocEntryWeight>, entries: seq<CGTopGrid.WordEntry>, row: int, col: int)
    : (r: Result<map<int, real>>)
    ensures r.Err? ==> r.error == TypeError
  {
    if |entries| == 0 then Ok(m)
    else
      var init := entries[..|entries| - 1];
      assert forall j :: 0 <= j < |init| ==> init[j] == entries[j];
      match PlainVotes(g, counts, m, docs, init, row, col)
      case Err(err) => Err(err)
      case Ok(earlier) =>
        PlainDocVotes(g, counts, earlier, docs, entries[|entries| - 1].wordId, row, col)
  }

  /** The plain weights fail exactly when a document uses one of the leading words and the top grid
      lacks it at the cell. */
  lemma {:induction false} PlainVotesOk(g: CGTopGrid.TopGrid, counts: CGCounts.Counts, m: map<int, real>,
                                        docs: seq<DocEntryWeight>, entries: seq<CGTopGrid.WordEntry>, row: int, col: int)
    ensures PlainVotes(g, counts, m, docs, entries, row, col).Ok?
            <==> forall j, i :: 0 <= j < |entries| && 0 <= i < |docs| && Uses(counts, docs[i].entryId, entries[j].wordId) ==>
                   g.GetWordProbability(row, col, entries[j].wordId).Ok?
  {
    if |entries| > 0 {
      var init := entries[..|entries| - 1];
      assert forall j :: 0 <= j < |init| ==> init[j] == entries[j];
      PlainVotesOk(g, counts, m, docs, init, row, col);
      if PlainVotes(g, counts, m, docs, init, row, col).Ok? {
        PlainDocVotesOk(g, counts, PlainVotes(g, counts, m, docs, init, row, col).value, docs, entries[|entries| - 1].wordId, row, col);
      }
    }
  }

  /** Once a prefix fails, the whole fold fails. */
  lemma {:induction false} PlainVotesFailed(g: CGTopGrid.TopGrid, counts: CGCounts.Counts, m: map<int, real>, docs: seq<DocEntryWeight>, entries: seq<CGTopGrid.WordEntry>, row: int, col: int, k: nat)
    requires k <= |entries| && PlainVotes(g, counts, m, docs, entries[..k], row, col).Err?
    ensures PlainVotes(g, counts, m, docs, entries, row, col).Err?
  {
    if k < |entries| {
      assert entries[..|entries| - 1][..k] == entries[..k];
      PlainVotesFailed(g, counts, m, docs, entries[..|entries| - 1], row, col, k);
    } else {
      assert entries[..k] == entries;
    }
  }

  /** A document's weight is, per listing, the top grid probabilities of the leading words it uses. */
  lemma {:induction false} PlainVotesWeight(g: CGTopGrid.TopGrid, counts: CGCounts.Counts, m: map<int, real>,
                                            docs: seq<DocEntryWeight>, entries: seq<CGTopGrid.WordEntry>, row: int, col: int, e: int)
    requires PlainVotes(g, counts, m, docs, entries, row, col).Ok?
    ensures Weight(PlainVotes(g, counts, m, docs, entries, row, col).value, e)
            == Weight(m, e) + Times(Occurrences(docs, e), EntriesSum(g, counts, e, entries, row, col))
  {
    if |entries| > 0 {
      var init := entries[..|entries| - 1];
      var w := entries[|entries| - 1].wordId;
      PlainVotesWeight(g, counts, m, docs, init, row, col, e);
      assert EntriesSum(g, counts, e, entries, row, col) == EntriesSum(g, counts, e, init, row, col)
        + (if Uses(counts, e, w) then TopProbabilityOr0(g, row, col, w) else 0.0);
      PlainDocVotesWeight(g, counts, PlainVotes(g, counts, m, docs, init, row, col).value, docs, w, row, col, e);
      Spread(Occurrences(docs, e), EntriesSum(g, counts, e, init, row, col),
             if Uses(counts, e, w) then TopProbabilityOr0(g, row, col, w) else 0.0);
    } else {
      TimesZero(Occurrences(docs, e));
    }
  }

  /** The inner `docList.forEach` of one top grid entry. */
  method PlainDocsLoop(g: CGTopGrid.TopGrid, counts: CGCounts.Counts, m: map<int, real>,
                       docs: seq<DocEntryWeight>, wordId: int, row: int, col: int) returns (r: Result<map<int, real>>)
    ensures r == PlainDocVotes(g, counts, m, docs, wordId, row, col)
  {
    var acc := m;
    var i := 0;
    while i < |docs|
      invariant 0 <= i <= |docs|
      invariant PlainDocVotes(g, counts, m, docs[..i], wordId, row, col) == Ok(acc)
    {
      var next := PlainDocStep(g, counts, m, docs, wordId, row, col, i, acc);
      if next.Err? {
        PlainDocVotesFailed(g, counts, m, docs, wordId, row, col, i + 1);
        return Err(TypeError);
      }
      acc := next.value;
      i := i + 1;
    }
    assert docs[..|docs|] == docs;
    r := Ok(acc);
  }

  /** One document of the inner `docList.forEach`. */
  method PlainDocStep(g: CGTopGrid.TopGrid, counts: CGCounts.Counts, m: map<int, real>, docs: seq<DocEntryWeight>,
                      wordId: int, row: int, col: int, i: nat, acc: map<int, real>) returns (r: Result<map<int, real>>)
    requires i < |docs| && PlainDocVotes(g, counts, m, docs[..i], wordId, row, col) == Ok(acc)
    ensures r == PlainDocVotes(g, counts, m, docs[..i + 1], wordId, row, col)
  {
    PlainDocVotesStep(g, counts, m, docs, wordId, row, col, i, acc);
    var e := docs[i].entryId;
    if Uses(counts, e, wordId) {
      var p := g.GetWordProbability(row, col, wordId);
      if p.Err? {
        return Err(TypeError);
      }
      // an absent weight starts at 0
      return Ok(acc[e := Weight(acc, e) + p.value]);
    }
    r := Ok(acc);
  }

  /** The `getWordEntryList(row, col).forEach`, over the entries below `maxWordsInSearch`. */
  method PlainEntriesLoop(g: CGTopGrid.TopGrid, counts: CGCounts.Counts, docs: seq<DocEntryWeight>,
                          entries: seq<CGTopGrid.WordEntry>, row: int, col: int) returns (r: Result<map<int, real>>)
    ensures r == PlainVotes(g, counts, map[], docs, entries, row, col)
  {
    var acc := map[];
    var j := 0;
    while j < |entries|
      invariant 0 <= j <= |entries|
      invariant PlainVotes(g, counts, map[], docs, entries[..j], row, col) == Ok(acc)
    {
      assert entries[..j + 1][..j] == entries[..j];
      var next := PlainDocsLoop(g, counts, acc, docs, entries[j].wordId, row, col);
      if next.Err? {
        PlainVotesFailed(g, counts, map[], docs, entries, row, col, j + 1);
        return Err(TypeError);
      }
      acc := next.value;
      j := j + 1;
    }
    assert entries[..|entries|] == entries;
    r := Ok(acc);
  }

  // ---------------------------------------------------------------------------------------------
  // Final weights and the order

  /** A final weight: a number, NaN, or an infinity. */
  datatype Score = Finite(value: real) | NaN | Infinite

  /** `docWeightsSearch * weight * (docWeights / maxDocWeight)`. With a zero maximum the share is
      0 / 0 (NaN) or an infinity, and an infinity times 0 is NaN. A NaN weight gives NaN. */
  function SearchScore(hits: nat, w: Option<real>, vote: real, maxVote: real): (r: Score)
    ensures r.Finite? <==> w.Some? && maxVote != 0.0
    ensures r == NaN <==> w.None? || (maxVote == 0.0 && (vote == 0.0 || hits as real * w.value == 0.0))
  {
    if w.None? then NaN
    else if maxVote != 0.0 then Finite(hits as real * w.value * (vote / maxVote))
    else if vote == 0.0 || hits as real * w.value == 0.0 then NaN
    else Infinite
  }

  /** `weight * docWeights` */
  function PlainScore(w: Option<real>, vote: real): (r: Score)
    ensures r.Finite? <==> w.Some?
    ensures r.Infinite? == false
  {
    if w.None? then NaN else Finite(w.value * vote)
  }

  /** Document `i` is the last of the list with its entry id. */
  predicate LastOfId(docs: seq<DocEntryWeight>, i: int)
    requires 0 <= i < |docs|
  {
    forall j :: i < j < |docs| ==> docs[j].entryId != docs[i].entryId
  }

  /** The `docList.forEach` filling `docFinalWeights` with search words: a document listed twice
      keeps the weight its last listing computes. */
  function SearchFinals(m: map<int, Score>, docs: seq<DocEntryWeight>, hits: map<int, nat>, votes: Votes)
    : (r: map<int, Score>)
    ensures forall e :: e in m ==> e in r
    ensures forall i :: 0 <= i < |docs| ==> docs[i].entryId in r
    ensures forall i :: 0 <= i < |docs| && LastOfId(docs, i) ==>
              r[docs[i].entryId] == SearchScore(Count(hits, docs[i].entryId), docs[i].weight,
                                                Weight(votes.weights, docs[i].entryId), votes.maxWeight)
  {
    if |docs| == 0 then m
    else
      var init, d := docs[..|docs| - 1], docs[|docs| - 1];
      assert forall i :: 0 <= i < |init| ==> init[i] == docs[i];
      var earlier := SearchFinals(m, init, hits, votes);
      earlier[d.entryId := SearchScore(Count(hits, d.entryId), d.weight, Weight(votes.weights, d.entryId), votes.maxWeight)]
  }

  /** The same without search words. */
  function PlainFinals(m: map<int, Score>, docs: seq<DocEntryWeight>, weights: map<int, real>): (r: map<int, Score>)
    ensures forall e :: e in m ==> e in r
    ensures forall i :: 0 <= i < |docs| ==> docs[i].entryId in r
    ensures forall i :: 0 <= i < |docs| && LastOfId(docs, i) ==>
              r[docs[i].entryId] == PlainScore(docs[i].weight, Weight(weights, docs[i].entryId))
  {
    if |docs| == 0 then m
    else
      var init, d := docs[..|docs| - 1], docs[|docs| - 1];
      assert forall i :: 0 <= i < |init| ==> init[i] == docs[i];
      var earlier := PlainFinals(m, init, weights);
      earlier[d.entryId := PlainScore(d.weight, Weight(weights, d.entryId))]
  }

  /** The final `docList.forEach` with search words. */
  method SearchFinalsLoop(docs: seq<DocEntryWeight>, hits: map<int, nat>, votes: Votes) returns (r: map<int, Score>)
    ensures r == SearchFinals(map[], docs, hits, votes)
  {
    r := map[];
    var i := 0;
    while i < |docs|
      invariant 0 <= i <= |docs|
      invariant SearchFinals(map[], docs[..i], hits, votes) == r
    {
      assert docs[..i + 1][..i] == docs[..i];
      var d := docs[i];
      var search := if d.entryId in hits then hits[d.entryId] else 0;
      var vote := if d.entryId in votes.weights then votes.weights[d.entryId] else 0.0;
      r := r[d.entryId := SearchScore(search, d.weight, vote, votes.maxWeight)];
      i := i + 1;
    }
    assert docs[..|docs|] == docs;
  }

  /** The final `docList.forEach` without search words. */
  method PlainFinalsLoop(docs: seq<DocEntryWeight>, weights: map<int, real>) returns (r: map<int, Score>)
    ensures r == PlainFinals(map[], docs, weights)
  {
    r := map[];
    var i := 0;
    while i < |docs|
      invariant 0 <= i <= |docs|
      invariant PlainFinals(map[], docs[..i], weights) == r
    {
      assert docs[..i + 1][..i] == docs[..i];
      var d := docs[i];
      r := r[d.entryId := PlainScore(d.weight, if d.entryId in weights then weights[d.entryId] else 0.0)];
      i := i + 1;
    }
    assert docs[..|docs|] == docs;
  }

  predicate AllFinite(docs: seq<DocEntryWeight>, finals: map<int, Score>) {
    forall i :: 0 <= i < |docs| ==> docs[i].entryId in finals && finals[docs[i].entryId].Finite?
  }

  predicate AllNaN(docs: seq<DocEntryWeight>, finals: map<int, Score>) {
    forall i :: 0 <= i < |docs| ==> docs[i].entryId in finals && finals[docs[i].entryId] == NaN
  }

  /** The sort key of `(a, b) => docFinalWeights[b.entryId] - docFinalWeights[a.entryId]`: the
      weight, negated, so that ascending keys are descending weights. */
  function ScoreKey(finals: map<int, Score>, d: DocEntryWeight): real {
    if d.entryId in finals && finals[d.entryId].Finite? then -finals[d.entryId].value else 0.0
  }

  /** `docList.sort(…)`, stable. The comparator is consistent when every weight is a number (the
      order by weight) or every weight is NaN (every comparison is 0, so the order is kept); for
      any other mix the host's order is implementation-defined, and None says so. */
  function Ranked(docs: seq<DocEntryWeight>, finals: map<int, Score>): (r: Option<seq<DocEntryWeight>>)
    ensures r.Some? <==> AllFinite(docs, finals) || AllNaN(docs, finals)
    ensures r.Some? ==> multiset(r.value) == multiset(docs)
    ensures AllNaN(docs, finals) ==> r == Some(docs)
  {
    if AllNaN(docs, finals) then Some(docs)
    else if AllFinite(docs, finals) then Some(Sorting.SortBy(docs, d => ScoreKey(finals, d)))
    else None
  }

  /** With numeric weights the cell comes out highest weight first. */
  lemma RankedDescending(docs: seq<DocEntryWeight>, finals: map<int, Score>)
    requires AllFinite(docs, finals)
    ensures var out := Ranked(docs, finals).value;
      forall i, j :: 0 <= i < j < |out| ==>
        && out[i].entryId in finals && finals[out[i].entryId].Finite?
        && out[j].entryId in finals && finals[out[j].entryId].Finite?
        && finals[out[i].entryId].value >= finals[out[j].entryId].value
  {
    if |docs| > 0 {
      assert finals[docs[0].entryId].Finite?;
      var key := d => ScoreKey(finals, d);
      var out := Sorting.SortBy(docs, key);
      assert Ranked(docs, finals) == Some(out);
      Sorting.SortBySorted(docs, key);
      forall i | 0 <= i < |out|
        ensures out[i].entryId in finals && finals[out[i].entryId].Finite?
      {
        assert out[i] in multiset(docs);
        var k :| 0 <= k < |docs| && docs[k] == out[i];
      }
    }
  }

  /** `.map(getDocEntry).slice(0, maxDocuments)` */
  function Entries(db: CGDatabase.Database, ranked: seq<DocEntryWeight>): (r: seq<Lookup<CGDatabase.DocEntry>>)
    ensures |r| == if |ranked| < MaxDocuments then |ranked| else MaxDocuments
    ensures forall i :: 0 <= i < |r| ==> r[i] == db.GetDocEntry(ranked[i].entryId)
  {
    var n := if |ranked| < MaxDocuments then |ranked| else MaxDocuments;
    seq(n, i requires 0 <= i < n => db.GetDocEntry(ranked[i].entryId))
  }

  // ---------------------------------------------------------------------------------------------
  // The two rankings

  /** With search words, given the search's tags. */
  function SearchRanking(counts: CGCounts.Counts, layers: CGTopGridLayers.TopGridLayers, docs: seq<DocEntryWeight>,
                         tags: seq<CGTopGrid.WordTag>, ids: seq<int>, row: int, col: int, maxWords: int)
    : (r: Result<Option<seq<DocEntryWeight>>>)
    ensures r.Err? ==> r.error == TypeError
  {
    match TagVotes(counts, layers, NoVotes, docs, Leading(PointTags(tags, row, col), maxWords), row, col)
    case Err(err) => Err(err)
    case Ok(votes) =>
      Ok(Ranked(docs, SearchFinals(map[], docs, Hits(counts, map[], docs, ids), votes)))
  }

  /** Without search words: the top grid's entry list at the cell must exist. */
  function PlainRanking(g: CGTopGrid.TopGrid, counts: CGCounts.Counts, docs: seq<DocEntryWeight>,
                        row: int, col: int, maxWords: int) : (r: Result<Option<seq<DocEntryWeight>>>)
    ensures r.Err? ==> r.error == TypeError
    ensures !(g.GetWordEntryList(row, col).Ok? && g.GetWordEntryList(row, col).value.Some?) ==> r == Err(TypeError)
  {
    match g.GetWordEntryList(row, col)
    case Ok(Some(entries)) =>
      (match PlainVotes(g, counts, map[], docs, Leading(entries, maxWords), row, col)
       case Err(err) => Err(err)
       case Ok(weights) => Ok(Ranked(docs, PlainFinals(map[], docs, weights))))
    case _ => Err(TypeError)
  }

  method ComputeSearchRanking(counts: CGCounts.Counts, layers: CGTopGridLayers.TopGridLayers, docs: seq<DocEntryWeight>,
                              tags: seq<CGTopGrid.WordTag>, ids: seq<int>, row: int, col: int, maxWords: int)
    returns (r: Result<Option<seq<DocEntryWeight>>>)
    ensures r == SearchRanking(counts, layers, docs, tags, ids, row, col, maxWords)
  {
    var votes := TagsLoop(counts, layers, docs, Leading(PointTags(tags, row, col), maxWords), row, col);
    if votes.Err? {
      return Err(TypeError);
    }
    var hits := HitsLoop(counts, docs, ids);
    var finals := SearchFinalsLoop(docs, hits, votes.value);
    r := Ok(Ranked(docs, finals));
  }

  method ComputePlainRanking(g: CGTopGrid.TopGrid, counts: CGCounts.Counts, docs: seq<DocEntryWeight>,
                             row: int, col: int, maxWords: int) returns (r: Result<Option<seq<DocEntryWeight>>>)
    ensures r == PlainRanking(g, counts, docs, row, col, maxWords)
  {
    var entries := g.GetWordEntryList(row, col);
    if !(entries.Ok? && entries.value.Some?) {
      return Err(TypeError);
    }
    var weights := PlainEntriesLoop(g, counts, docs, Leading(entries.value.value, maxWords), row, col);
    if weights.Err? {
      return Err(TypeError);
    }
    var finals := PlainFinalsLoop(docs, weights.value);
    r := Ok(Ranked(docs, finals));
  }

  // ---------------------------------------------------------------------------------------------
  // What the weights mean

  /** With search words, a document listed once (or by its last listing) scores the number of
      search words it uses, times its mapping weight, times its share of the maximum vote, which is
      at most 1: its vote is what the deeper layers give the leading tags of the cell that it uses,
      once per listing. */
  lemma SearchScoreMeaning(counts: CGCounts.Counts, layers: CGTopGridLayers.TopGridLayers, docs: seq<DocEntryWeight>,
                           words: seq<CGTopGrid.WordTag>, ids: seq<int>, row: int, col: int, votes: Votes, i: int)
    requires 0 <= i < |docs| && LastOfId(docs, i)
    requires TagVotes(counts, layers, NoVotes, docs, words, row, col) == Ok(votes)
    ensures var e := docs[i].entryId;
      && Weight(votes.weights, e) == Times(Occurrences(docs, e), WordsSum(counts, layers, e, words, row, col))
      && Weight(votes.weights, e) <= votes.maxWeight
      && Count(Hits(counts, map[], docs, ids), e) == Occurrences(docs, e) * UsedCount(counts, e, ids)
      && SearchFinals(map[], docs, Hits(counts, map[], docs, ids), votes)[e]
         == SearchScore(Count(Hits(counts, map[], docs, ids), e), docs[i].weight, Weight(votes.weights, e), votes.maxWeight)
  {
    TagVotesBounded(counts, layers, NoVotes, docs, words, row, col);
    TagVotesWeight(counts, layers, NoVotes, docs, words, row, col, docs[i].entryId);
    HitsCount(counts, map[], docs, ids, docs[i].entryId);
  }

  /** Without search words a document listed once (or by its last listing) scores its mapping
      weight times what the top grid gives the cell's leading words it uses, once per listing. */
  lemma PlainScoreMeaning(g: CGTopGrid.TopGrid, counts: CGCounts.Counts, docs: seq<DocEntryWeight>,
                          entries: seq<CGTopGrid.WordEntry>, row: int, col: int, weights: map<int, real>, i: int)
    requires 0 <= i < |docs| && LastOfId(docs, i)
    requires PlainVotes(g, counts, map[], docs, entries, row, col) == Ok(weights)
    ensures var e := docs[i].entryId;
      PlainFinals(map[], docs, weights)[e]
        == PlainScore(docs[i].weight, Times(Occurrences(docs, e), EntriesSum(g, counts, e, entries, row, col)))
  {
    PlainVotesWeight(g, counts, map[], docs, entries, row, col, docs[i].entryId);
  }
}
