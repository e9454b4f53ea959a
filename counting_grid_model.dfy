/** `CountingGridModel`: the decoded artifacts of one counting grid, a random label offset per
    lexicon word, the cache of search tags, and the three queries the map view makes: the labels
    to draw, the documents of a cell, and the tags of a search. */
module CGModel {
  import opened Js
  import Sorting
  import CGColor
  import CGVocabulary
  import CGTopGrid
  import CGMappings
  import CGCounts
  import CGDatabase
  import CGLegend
  import CGTopGridLayers
  import CountingGridSearch
  import CGView
  import CGRanking

  type WordTagsWithMetadata = CountingGridSearch.WordTagsWithMetadata

  /** The artifacts the constructor decodes. */
  datatype Decoded = Decoded(
    color: CGColor.ColorMap,
    vocabulary: CGVocabulary.Vocabulary,
    topGrid: CGTopGrid.TopGrid,
    mappings: CGMappings.Mappings,
    counts: CGCounts.Counts,
    database: CGDatabase.Database,
    legend: CGLegend.Legend,
    topGridLayers: CGTopGridLayers.TopGridLayers)

  /** What the decoders guarantee the model: a lexicon whose words sit at their ids, a top grid
      written only by index, and tags that lie between the grid's extremes, name the lexicon's
      word for their id and are held by their cell. */
  ghost predicate DecodedValid(d: Decoded) {
    && d.vocabulary.Valid()
    && CGTopGrid.GridValid(d.topGrid.topGrid)
    && CGTopGrid.ExtremesHold(d.topGrid)
    && CGTopGrid.TagsConsistent(d.topGrid, d.vocabulary)
  }

  /** The decoders in the constructor's order: colors, correspondences, the top grid (which reads
      the lexicon), document mappings, word counts, the database, the legend and the layers. The
      first decoder that throws decides the error; a model that decodes is valid. */
  function DecodeAll(topPiText: string, colorBrowserText: string, wordsText: string, docMapText: string,
                     databaseText: string, legendText: Option<string>, correspondencesText: string,
                     topPiLayersText: string): (r: Result<Decoded>)
    ensures r.Ok? ==> DecodedValid(r.value)
    ensures r.Ok? ==> r.value.color == CGColor.ParseAll(SplitLines(colorBrowserText))
                      && r.value.database == CGDatabase.ParseAll(SplitLines(databaseText))
  {
    var color := CGColor.ParseAll(SplitLines(colorBrowserText));
    var vocabulary :- CGVocabulary.ParseAll(SplitLines(correspondencesText));
    var topGrid :- CGTopGrid.ParseAll(vocabulary, SplitLines(topPiText));
    CGTopGrid.ParsedGridValid(vocabulary, SplitLines(topPiText));
    CGTopGrid.ParsedExtremes(vocabulary, SplitLines(topPiText));
    CGTopGrid.ParsedConsistent(vocabulary, SplitLines(topPiText));
    var mappings :- CGMappings.ParseAll(SplitLines(docMapText));
    var counts :- CGCounts.ParseAll(SplitLines(wordsText));
    var database := CGDatabase.ParseAll(SplitLines(databaseText));
    var legend :- CGLegend.ParseLegend(legendText);
    var topGridLayers :- CGTopGridLayers.ParseAll(SplitLines(topPiLayersText));
    Ok(Decoded(color, vocabulary, topGrid, mappings, counts, database, legend, topGridLayers))
  }

  /** `Math.floor(Math.random() * 15)` for each of the `n` lexicon words, the draws being `random`. */
  function Offsets(random: nat -> real, n: nat): (r: seq<int>)
    requires forall i :: 0.0 <= random(i) < 1.0
    ensures |r| == n
    ensures forall i :: 0 <= i < n ==> 0 <= r[i] < 15 && r[i] as real <= random(i) * 15.0 < r[i] as real + 1.0
  {
    seq(n, i requires 0 <= i < n => (random(i) * 15.0).Floor)
  }

  /** `Math.max(n, 1)` */
  function AtLeastOne(n: nat): (r: real)
    ensures r >= 1.0 && (n >= 1 ==> r == n as real)
  {
    if n >= 1 then n as real else 1.0
  }

  class CountingGridModel {
    const vocabulary: CGVocabulary.Vocabulary
    const topGrid: CGTopGrid.TopGrid
    const color: CGColor.ColorMap
    /** Reassigned only by the in-place sort of a cell's list in `GetDocumentEntryList`. */
    var mappings: CGMappings.Mappings
    const counts: CGCounts.Counts
    const database: CGDatabase.Database
    const legend: CGLegend.Legend
    const topGridLayers: CGTopGridLayers.TopGridLayers
    const randomOffsets: seq<int>
    /** The host's `Math.pow(w, 1 + Math.log(k))`, which the search reads. */
    const boost: (int, nat) -> real
    /** `searchWordTagsCache`, keyed by the search word ids (their `JSON.stringify` is injective). */
    var cache: map<seq<int>, WordTagsWithMetadata>

    /** The decoded artifacts the search reads. */
    function Src(): (s: CountingGridSearch.Sources)
      reads this
      ensures s.vocabulary == vocabulary && s.topGrid == topGrid && s.mappings == mappings
    {
      CountingGridSearch.Sources(vocabulary, topGrid, mappings, counts, topGridLayers, boost)
    }

    /** What a cached search promises: the grid has a column length and the tags hold on it. */
    predicate Cached(t: WordTagsWithMetadata) {
      topGrid.ColumnLength().Ok?
      && CountingGridSearch.TagsHoldFor(vocabulary, topGrid.RowLength(), topGrid.ColumnLength().value, t)
    }

    ghost predicate Valid()
      reads this
    {
      && DecodedValid(Decoded(color, vocabulary, topGrid, mappings, counts, database, legend, topGridLayers))
      && |randomOffsets| == vocabulary.lexicon.length
      && (forall i :: 0 <= i < |randomOffsets| ==> 0 <= randomOffsets[i] < 15)
      && (forall ids :: ids in cache ==> |ids| > 0 && Cached(cache[ids]))
    }

    constructor (d: Decoded, randomOffsets: seq<int>, boost: (int, nat) -> real)
      ensures color == d.color && vocabulary == d.vocabulary && topGrid == d.topGrid && mappings == d.mappings
      ensures counts == d.counts && database == d.database && legend == d.legend
      ensures topGridLayers == d.topGridLayers
      ensures this.randomOffsets == randomOffsets && this.boost == boost && cache == map[]
    {
      color := d.color;
      vocabulary := d.vocabulary;
      topGrid := d.topGrid;
      mappings := d.mappings;
      counts := d.counts;
      database := d.database;
      legend := d.legend;
      topGridLayers := d.topGridLayers;
      this.randomOffsets := randomOffsets;
      this.boost := boost;
      cache := map[];
    }

    /** The constructor: decodes every artifact in order, failing with the first decoder's error,
        and draws one offset in 0 .. 14 per lexicon word; the cache starts empty. */
    static method Create(topPiText: string, colorBrowserText: string, wordsText: string, docMapText: string,
                         databaseText: string, legendText: Option<string>, correspondencesText: string,
                         topPiLayersText: string, random: nat -> real, boost: (int, nat) -> real)
      returns (r: Result<CountingGridModel>)
      requires forall i :: 0.0 <= random(i) < 1.0
      ensures var d := DecodeAll(topPiText, colorBrowserText, wordsText, docMapText, databaseText, legendText,
                                 correspondencesText, topPiLayersText);
        && (r.Ok? <==> d.Ok?)
        && (r.Err? ==> r.error == d.error)
        && (r.Ok? ==> && fresh(r.value) && r.value.Valid()
                      && d.value == Decoded(r.value.color, r.value.vocabulary, r.value.topGrid, r.value.mappings,
                                            r.value.counts, r.value.database, r.value.legend, r.value.topGridLayers)
                      && r.value.randomOffsets == Offsets(random, d.value.vocabulary.lexicon.length)
                      && r.value.boost == boost && r.value.cache == map[])
    {
      var color := CGColor.ParseColor(colorBrowserText);
      var vocabulary := CGVocabulary.ParseCorrespondences(correspondencesText);
      if vocabulary.Err? {
        return Err(vocabulary.error);
      }
      var topGrid := CGTopGrid.ParseTopPi(topPiText, vocabulary.value);
      if topGrid.Err? {
        return Err(topGrid.error);
      }
      var mappings := CGMappings.ParseMappings(docMapText);
      if mappings.Err? {
        return Err(mappings.error);
      }
      var counts := CGCounts.ParseCounts(wordsText);
      if counts.Err? {
        return Err(counts.error);
      }
      var database := CGDatabase.ParseDatabase(databaseText);
      var legend := CGLegend.ParseLegend(legendText);
      if legend.Err? {
        return Err(legend.error);
      }
      var topGridLayers := CGTopGridLayers.ParseTopPiLayers(topPiLayersText);
      if topGridLayers.Err? {
        return Err(topGridLayers.error);
      }
      var d := Decoded(color, vocabulary.value, topGrid.value, mappings.value, counts.value, database,
                       legend.value, topGridLayers.value);
      var m := new CountingGridModel(d, Offsets(random, vocabulary.value.lexicon.length), boost);
      r := Ok(m);
    }

    // -------------------------------------------------------------------------------------------
    // getWordTags

    /** What `getWordTags(ids)` returns in the current state: the top grid's tags for no search
        words, the cached tags for a repeated search, otherwise a fresh search. */
    function WordTagsOf(ids: seq<int>): Result<WordTagsWithMetadata>
      reads this
    {
      if |ids| == 0 then Ok(CountingGridSearch.TopGridTags(topGrid))
      else if ids in cache then Ok(cache[ids])
      else CountingGridSearch.SearchTags(Src(), ids)
    }

    /** The cache once `getWordTags(ids)` has returned: a fresh search that succeeded is stored. */
    function CacheAfter(ids: seq<int>): map<seq<int>, WordTagsWithMetadata>
      reads this
    {
      if |ids| > 0 && ids !in cache && WordTagsOf(ids).Ok? then cache[ids := WordTagsOf(ids).value] else cache
    }

    /** `getWordTags`, memoizing searches: the result is what the current state says, a repeated
        call gives the same result, and the tags of a search hold on the grid. */
    method GetWordTags(ids: seq<int>) returns (r: Result<WordTagsWithMetadata>)
      requires Valid()
      modifies this
      ensures Valid()
      ensures r == old(WordTagsOf(ids))
      ensures r.Err? ==> r.error == TypeError
      ensures cache == old(CacheAfter(ids)) && mappings == old(mappings)
      ensures r.Ok? ==> WordTagsOf(ids) == r
      ensures |ids| > 0 && r.Ok? ==> Cached(r.value)
    {
      if |ids| == 0 {
        return Ok(CountingGridSearch.TopGridTags(topGrid));
      }
      if ids in cache {
        return Ok(cache[ids]);
      }
      r := CountingGridSearch.ComputeSearchTags(Src(), ids);
      if r.Ok? {
        CountingGridSearch.SearchTagsHold(Src(), ids);
        cache := cache[ids := r.value];
      }
    }

    // -------------------------------------------------------------------------------------------
    // getScaledGridData

    /** The drawing's scene once the column length `C` is known: one grid line every
        `height / max(rowLength, 1)` down and `width / max(columnLength, 1)` across. */
    function SceneFor(C: nat, width: real, height: real, translationX: real, translationY: real,
                      zoomRatio: real): (sc: CGView.Scene)
      ensures sc.R == topGrid.RowLength() && sc.C == C
      ensures sc.viewport.rowDistance * AtLeastOne(sc.R) == height
      ensures sc.viewport.colDistance * AtLeastOne(C) == width
    {
      var R := topGrid.RowLength();
      var vp := CGView.Viewport(translationX, translationY, height / AtLeastOne(R), width / AtLeastOne(C), zoomRatio);
      CGView.Scene(R, C, vp, width, height, randomOffsets, color)
    }

    /** The visibility walk of a drawing ends (see `CGView.Terminates`). */
    predicate DrawEnds(width: real, height: real, translationX: real, translationY: real, zoomRatio: real) {
      topGrid.ColumnLength().Ok? ==>
        var sc := SceneFor(topGrid.ColumnLength().value, width, height, translationX, translationY, zoomRatio);
        CGView.Terminates(sc.R, sc.C, sc.viewport)
    }

    /** The drawing reaches `getWordTags`: the grid has a column length and the visibility walk
        does not fail. */
    predicate Draws(width: real, height: real, translationX: real, translationY: real, zoomRatio: real) {
      topGrid.ColumnLength().Ok? &&
        var sc := SceneFor(topGrid.ColumnLength().value, width, height, translationX, translationY, zoomRatio);
        !CGView.Fails(sc.R, sc.viewport)
    }

    /** What `getScaledGridData` returns in the current state. */
    function GridDataFor(ids: seq<int>, width: real, height: real, translationX: real, translationY: real,
                         zoomRatio: real): Result<CGView.ScaledGridData>
      reads this
      requires DrawEnds(width, height, translationX, translationY, zoomRatio)
    {
      var C :- topGrid.ColumnLength();
      var sc := SceneFor(C, width, height, translationX, translationY, zoomRatio);
      if CGView.Fails(sc.R, sc.viewport) then Err(TypeError)
      else
        var tags :- WordTagsOf(ids);
        CGView.GridData(sc, tags.wordTags, tags.minWeight, tags.maxWeight)
    }

    /** `getScaledGridData`: a visibility table, the tags of the search, the labels of the visible
        tags with a non-zero scaled weight, sorted by that weight. */
    method GetScaledGridData(ids: seq<int>, width: real, height: real, translationX: real, translationY: real,
                             zoomRatio: real) returns (r: Result<CGView.ScaledGridData>)
      requires Valid()
      requires DrawEnds(width, height, translationX, translationY, zoomRatio)
      modifies this
      ensures Valid()
      ensures r == old(GridDataFor(ids, width, height, translationX, translationY, zoomRatio))
      ensures r.Err? ==> r.error == TypeError
      ensures mappings == old(mappings)
      ensures cache == if Draws(width, height, translationX, translationY, zoomRatio) then old(CacheAfter(ids))
                       else old(cache)
    {
      var columns := topGrid.ColumnLength();
      if columns.Err? {
        return Err(TypeError);
      }
      var sc := SceneFor(columns.value, width, height, translationX, translationY, zoomRatio);
      var visibility := CGView.ConstructVisibility(sc.R, sc.C, sc.viewport);
      if visibility.Err? {
        return Err(TypeError);
      }
      var tags := GetWordTags(ids);
      if tags.Err? {
        return Err(TypeError);
      }
      var t := tags.value;
      var labels := CGView.CollectLabels(sc, t.wordTags, t.minWeight, t.maxWeight, visibility.value);
      if labels.Err? {
        return Err(TypeError);
      }
      r := Ok(CGView.ScaledGridData(Sorting.SortBy(labels.value, CGView.LabelKey),
                                    sc.viewport.rowDistance, sc.viewport.colDistance));
    }

    // -------------------------------------------------------------------------------------------
    // getDocumentEntryList

    /** The cell's list and, in the current state, its ranking: `None` when the final weights mix
        NaN with numbers, which leaves the order to the engine's sort. */
    function CellRanking(row: int, col: int, ids: seq<int>, maxWords: int)
      : Result<(seq<CGMappings.DocEntryWeight>, Option<seq<CGMappings.DocEntryWeight>>)>
      reads this
    {
      var cell :- mappings.GetMappings(row, col);
      if |ids| > 0 then
        var tags :- WordTagsOf(ids);
        if cell.None? then Err(TypeError)
        else
          var ranked :- CGRanking.SearchRanking(counts, topGridLayers, cell.value, tags.wordTags, ids, row, col, maxWords);
          Ok((cell.value, ranked))
      else if cell.None? then Err(TypeError)
      else
        var ranked :- CGRanking.PlainRanking(topGrid, counts, cell.value, row, col, maxWords);
        Ok((cell.value, ranked))
    }

    /** The cell's list and its ranking, as `getDocumentEntryList` computes them before sorting. */
    method RankCell(row: int, col: int, ids: seq<int>, maxWords: int)
      returns (r: Result<(seq<CGMappings.DocEntryWeight>, Option<seq<CGMappings.DocEntryWeight>>)>)
      requires Valid()
      modifies this
      ensures Valid()
      ensures r == old(CellRanking(row, col, ids, maxWords))
      ensures mappings == old(mappings)
      ensures cache == if old(mappings.GetMappings(row, col)).Ok? then old(CacheAfter(ids)) else old(cache)
    {
      var cell := mappings.GetMappings(row, col);
      if cell.Err? {
        return Err(TypeError);
      }
      var ranked;
      if |ids| > 0 {
        var tags := GetWordTags(ids);
        if tags.Err? {
          return Err(TypeError);
        }
        if cell.value.None? {
          return Err(TypeError);
        }
        ranked := CGRanking.ComputeSearchRanking(counts, topGridLayers, cell.value.value, tags.value.wordTags,
                                                 ids, row, col, maxWords);
      } else {
        if cell.value.None? {
          return Err(TypeError);
        }
        ranked := CGRanking.ComputePlainRanking(topGrid, counts, cell.value.value, row, col, maxWords);
      }
      if ranked.Err? {
        return Err(TypeError);
      }
      r := Ok((cell.value.value, ranked.value));
    }

    /** `getDocumentEntryList`: no documents without a point; otherwise the cell's list is sorted
        in place by final weight, and the database entries of its first 100 documents are
        returned. A search first computes (and caches) its tags. */
    method GetDocumentEntryList(row: Option<int>, col: Option<int>, ids: seq<int>, maxWords: int)
      returns (r: Result<seq<Lookup<CGDatabase.DocEntry>>>)
      requires Valid()
      modifies this
      ensures Valid()
      ensures row.None? || col.None? ==> r == Ok([]) && mappings == old(mappings) && cache == old(cache)
      ensures row.Some? && col.Some? ==> (r.Ok? <==> old(CellRanking(row.value, col.value, ids, maxWords)).Ok?)
      ensures r.Err? ==> r.error == TypeError && mappings == old(mappings)
      ensures row.Some? && col.Some? ==>
        cache == if old(mappings.GetMappings(row.value, col.value)).Ok? then old(CacheAfter(ids)) else old(cache)
      ensures row.Some? && col.Some? && r.Ok? ==>
        && mappings.GetMappings(row.value, col.value).Ok? && mappings.GetMappings(row.value, col.value).value.Some?
        && var docs := old(CellRanking(row.value, col.value, ids, maxWords)).value.0;
           var ranked := old(CellRanking(row.value, col.value, ids, maxWords)).value.1;
           var cell := mappings.GetMappings(row.value, col.value).value.value;
           && mappings == old(mappings).Reorder(row.value, col.value, cell)
           && multiset(cell) == multiset(docs)
           && (ranked.Some? ==> cell == ranked.value)
           && r.value == CGRanking.Entries(database, cell)
    {
      if row.None? || col.None? {
        return Ok([]);
      }
      var ranking := RankCell(row.value, col.value, ids, maxWords);
      if ranking.Err? {
        return Err(TypeError);
      }
      var (docs, ranked) := ranking.value;
      var sorted := if ranked.Some? then ranked.value else docs;
      mappings := mappings.Reorder(row.value, col.value, sorted);
      r := Ok(CGRanking.Entries(database, sorted));
    }
  }
}
