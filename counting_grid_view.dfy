/** What `getScaledGridData` draws: the part of the torus-shaped grid the viewport shows, and one
    label per visible word tag, placed at its cell plus the word's random offset, wrapped around the
    canvas, and ordered by its weight rescaled between the tags' extremes. */
module CGView {
  import opened Js
  import Sorting
  import CGColor
  import CGTopGrid

  // ---------------------------------------------------------------------------------------------
  // Cyclic counting

  lemma ModSmall(x: int, n: int)
    requires 0 <= x < n
    ensures x % n == x
  {
  }

  lemma ModWrap(x: int, n: int)
    requires n <= x < 2 * n
    ensures x % n == x - n
  {
  }

  lemma ModNeg(x: int, n: int)
    requires -n <= x < 0
    ensures x % n == x + n
  {
  }

  /** How many `(v + 1) % n` steps lead from `a` to `b` on the cycle 0 .. n - 1: between 1 and `n`,
      `n` meaning once round back to `a`. */
  function Steps(a: int, b: int, n: int): (r: int)
    requires n > 0
    ensures 1 <= r <= n
  {
    var d := (b - a) % n;
    if d == 0 then n else d
  }

  /** One step from `a` is one step. */
  lemma FirstStep(a: int, n: int)
    requires 2 <= n && 0 <= a < n
    ensures Steps(a, (a + 1) % n, n) == 1
  {
    if a + 1 < n {
      ModSmall(a + 1, n);
      ModSmall(1, n);
    } else {
      ModWrap(a + 1, n);
      ModNeg(0 - a, n);
    }
  }

  /** One more step from a point short of the full round. */
  lemma StepAdvance(a: int, x: int, n: int)
    requires 0 <= a < n && 0 <= x < n && Steps(a, x, n) < n
    ensures Steps(a, (x + 1) % n, n) == Steps(a, x, n) + 1
  {
    if x >= a { ModSmall(x - a, n); } else { ModNeg(x - a, n); }
    if x + 1 < n {
      ModSmall(x + 1, n);
      if x + 1 >= a { ModSmall(x + 1 - a, n); } else { ModNeg(x + 1 - a, n); }
    } else {
      ModWrap(x + 1, n);
      if a == 0 { ModSmall(0, n); } else { ModNeg(0 - a, n); }
    }
  }

  /** Different points are reached after different numbers of steps. */
  lemma StepsInjective(a: int, x: int, y: int, n: int)
    requires 0 <= a < n && 0 <= x < n && 0 <= y < n && Steps(a, x, n) == Steps(a, y, n)
    ensures x == y
  {
    if x >= a { ModSmall(x - a, n); } else { ModNeg(x - a, n); }
    if y >= a { ModSmall(y - a, n); } else { ModNeg(y - a, n); }
  }

  lemma StepsDiffer(a: int, x: int, y: int, n: int)
    requires 0 <= a < n && 0 <= x < n && 0 <= y < n && x != y
    ensures Steps(a, x, n) != Steps(a, y, n)
  {
    if Steps(a, x, n) == Steps(a, y, n) {
      StepsInjective(a, x, y, n);
    }
  }

  // ---------------------------------------------------------------------------------------------
  // Visibility

  /** The translation, the distance between grid lines on the canvas, and the zoom. */
  datatype Viewport = Viewport(translationX: real, translationY: real, rowDistance: real, colDistance: real,
                               zoomRatio: real)

  /** `m > 0 ? m : m + n` */
  function Wrap(m: int, n: int): int {
    if m > 0 then m else m + n
  }

  /** `minY` (or `minX`): one line before the first one on the canvas, wrapped into 1 .. n. */
  function WindowStart(t: real, dist: real, n: nat): (r: int)
    requires dist != 0.0 && n > 0
    ensures 1 <= r <= n
  {
    Wrap(IntRem((-t / dist).Floor - 1, n), n)
  }

  /** `maxY` (or `maxX`): one line after the last one on the canvas, wrapped into 1 .. n. */
  function WindowEnd(t: real, dist: real, n: nat, zoom: real): (r: int)
    requires dist != 0.0 && n > 0 && zoom > 0.0
    ensures 1 <= r <= n
  {
    Wrap(IntRem((-t / dist + (n as real) / zoom).Floor + 1, n), n)
  }

  /** The zoomed walk ends: with at least one row and a non-zero row distance (otherwise `minY` is
      NaN and the first write fails), it needs a column and a non-zero column distance, without
      which `currX` is NaN and the outer do-while never stops. */
  predicate Terminates(R: nat, C: nat, vp: Viewport) {
    vp.zoomRatio > 1.5 && R >= 1 && vp.rowDistance != 0.0 ==> C >= 1 && vp.colDistance != 0.0
  }

  /** The zoomed walk writes through `visibility[NaN]`, a TypeError. */
  predicate Fails(R: nat, vp: Viewport) {
    vp.zoomRatio > 1.5 && (R == 0 || vp.rowDistance == 0.0)
  }

  /** The rows the inner do-while marks: `minY` and the steps up to `maxY` on the cycle 0 .. R. */
  predicate RowShown(minY: int, maxY: int, R: nat, y: int) {
    y == minY || Steps(minY, y, R + 1) <= Steps(minY, maxY, R + 1)
  }

  /** The columns the outer do-while marks: the steps after `minX` up to `maxX` on the cycle 0 .. C. */
  predicate ColumnShown(minX: int, maxX: int, C: nat, x: int) {
    Steps(minX, x, C + 1) <= Steps(minX, maxX, C + 1)
  }

  /** `visibility[y][x]` as `constructVisibilityArray` leaves it. */
  predicate Shown(R: nat, C: nat, vp: Viewport, y: int, x: int)
    requires Terminates(R, C, vp) && !Fails(R, vp)
  {
    vp.zoomRatio <= 1.5 ||
      (&& RowShown(WindowStart(vp.translationY, vp.rowDistance, R),
                   WindowEnd(vp.translationY, vp.rowDistance, R, vp.zoomRatio), R, y)
       && ColumnShown(WindowStart(vp.translationX, vp.colDistance, C),
                      WindowEnd(vp.translationX, vp.colDistance, C, vp.zoomRatio), C, x))
  }

  /** The inner do-while: marks column `x` of the rows from `minY` round to `maxY`. */
  method MarkColumn(vis: array2<bool>, x: int, minY: int, maxY: int, R: nat)
    requires vis.Length0 == R + 1 && 0 <= x < vis.Length1
    requires 1 <= minY <= R && 1 <= maxY <= R
    modifies vis
    ensures forall y, x' :: 0 <= y <= R && 0 <= x' < vis.Length1 ==>
              vis[y, x'] == ((x' == x && RowShown(minY, maxY, R, y)) || old(vis[y, x']))
  {
    var currY := minY;
    vis[currY, x] := true;
    currY := (currY + 1) % (R + 1);
    FirstStep(minY, R + 1);
    ghost var k := 1;
    vis[currY, x] := true;
    forall y, x' | 0 <= y <= R && 0 <= x' < vis.Length1
      ensures vis[y, x'] == ((x' == x && (y == minY || Steps(minY, y, R + 1) <= k)) || old(vis[y, x']))
    {
      if Steps(minY, y, R + 1) == 1 {
        StepsInjective(minY, y, currY, R + 1);
      }
    }
    while currY != maxY
      invariant 0 <= currY <= R && Steps(minY, currY, R + 1) == k
      invariant 1 <= k <= Steps(minY, maxY, R + 1)
      invariant forall y, x' :: 0 <= y <= R && 0 <= x' < vis.Length1 ==>
                  vis[y, x'] == ((x' == x && (y == minY || Steps(minY, y, R + 1) <= k)) || old(vis[y, x']))
      decreases Steps(minY, maxY, R + 1) - k
    {
      StepsDiffer(minY, currY, maxY, R + 1);
      StepAdvance(minY, currY, R + 1);
      currY := (currY + 1) % (R + 1);
      k := k + 1;
      vis[currY, x] := true;
      forall y, x' | 0 <= y <= R && 0 <= x' < vis.Length1
        ensures vis[y, x'] == ((x' == x && (y == minY || Steps(minY, y, R + 1) <= k)) || old(vis[y, x']))
      {
        if Steps(minY, y, R + 1) == k {
          StepsInjective(minY, y, currY, R + 1);
        }
      }
    }
  }

  /** `constructVisibilityArray`: a fresh (R + 1) by (C + 1) table, every cell true unless zoomed in
      by more than 1.5, when exactly the cycle window spanned by the wrapped bounds is true. */
  method ConstructVisibility(R: nat, C: nat, vp: Viewport) returns (r: Result<array2<bool>>)
    requires Terminates(R, C, vp)
    ensures r.Err? <==> Fails(R, vp)
    ensures r.Err? ==> r.error == TypeError
    ensures r.Ok? ==> fresh(r.value) && r.value.Length0 == R + 1 && r.value.Length1 == C + 1
    ensures r.Ok? ==> forall y, x :: 0 <= y <= R && 0 <= x <= C ==> r.value[y, x] == Shown(R, C, vp, y, x)
  {
    if vp.zoomRatio > 1.5 {
      if R == 0 || vp.rowDistance == 0.0 {
        return Err(TypeError);
      }
      var minY := WindowStart(vp.translationY, vp.rowDistance, R);
      var minX := WindowStart(vp.translationX, vp.colDistance, C);
      var maxY := WindowEnd(vp.translationY, vp.rowDistance, R, vp.zoomRatio);
      var maxX := WindowEnd(vp.translationX, vp.colDistance, C, vp.zoomRatio);
      var vis := new bool[R + 1, C + 1]((_, _) => false);
      var currX := (minX + 1) % (C + 1);
      FirstStep(minX, C + 1);
      ghost var j := 1;
      MarkColumn(vis, currX, minY, maxY, R);
      forall y, x | 0 <= y <= R && 0 <= x <= C
        ensures vis[y, x] == (RowShown(minY, maxY, R, y) && Steps(minX, x, C + 1) <= j)
      {
        if Steps(minX, x, C + 1) == j {
          StepsInjective(minX, x, currX, C + 1);
        }
      }
      while currX != maxX
        invariant 0 <= currX <= C && Steps(minX, currX, C + 1) == j
        invariant 1 <= j <= Steps(minX, maxX, C + 1)
        invariant forall y, x :: 0 <= y <= R && 0 <= x <= C ==>
                    vis[y, x] == (RowShown(minY, maxY, R, y) && Steps(minX, x, C + 1) <= j)
        decreases Steps(minX, maxX, C + 1) - j
      {
        StepsDiffer(minX, currX, maxX, C + 1);
        StepAdvance(minX, currX, C + 1);
        currX := (currX + 1) % (C + 1);
        j := j + 1;
        MarkColumn(vis, currX, minY, maxY, R);
        forall y, x | 0 <= y <= R && 0 <= x <= C
          ensures vis[y, x] == (RowShown(minY, maxY, R, y) && Steps(minX, x, C + 1) <= j)
        {
          if Steps(minX, x, C + 1) == j {
            StepsInjective(minX, x, currX, C + 1);
          }
        }
      }
      return Ok(vis);
    }
    var vis := new bool[R + 1, C + 1]((_, _) => true);
    return Ok(vis);
  }

  /** The window holds both of its bounds: the row and column before the first drawn line and the
      ones after the last. Zooming out to 1.5 or less shows everything. */
  lemma WindowHoldsBounds(R: nat, C: nat, vp: Viewport)
    requires Terminates(R, C, vp) && !Fails(R, vp)
    ensures vp.zoomRatio > 1.5 ==>
      var minY, maxY := WindowStart(vp.translationY, vp.rowDistance, R),
                        WindowEnd(vp.translationY, vp.rowDistance, R, vp.zoomRatio);
      var minX, maxX := WindowStart(vp.translationX, vp.colDistance, C),
                        WindowEnd(vp.translationX, vp.colDistance, C, vp.zoomRatio);
      && Shown(R, C, vp, minY, maxX) && Shown(R, C, vp, maxY, maxX)
      && (minX != maxX ==> !Shown(R, C, vp, minY, minX))
    ensures vp.zoomRatio <= 1.5 ==> forall y, x :: Shown(R, C, vp, y, x)
  {
    if vp.zoomRatio > 1.5 {
      var minX, maxX := WindowStart(vp.translationX, vp.colDistance, C),
                        WindowEnd(vp.translationX, vp.colDistance, C, vp.zoomRatio);
      if minX != maxX {
        ModSmall(0, C + 1);
        if maxX >= minX { ModSmall(maxX - minX, C + 1); } else { ModNeg(maxX - minX, C + 1); }
      }
    }
  }

  /** When the wrapped bounds meet, the walk goes once round: every row, or every column, is shown. */
  lemma MeetingBoundsShowAll(R: nat, C: nat, vp: Viewport, y: int, x: int)
    requires Terminates(R, C, vp) && !Fails(R, vp) && vp.zoomRatio > 1.5
    requires WindowStart(vp.translationX, vp.colDistance, C) == WindowEnd(vp.translationX, vp.colDistance, C, vp.zoomRatio)
    requires WindowStart(vp.translationY, vp.rowDistance, R) == WindowEnd(vp.translationY, vp.rowDistance, R, vp.zoomRatio)
    ensures Shown(R, C, vp, y, x)
  {
    var a := WindowStart(vp.translationX, vp.colDistance, C);
    var b := WindowStart(vp.translationY, vp.rowDistance, R);
    ModSmall(0, C + 1);
    ModSmall(0, R + 1);
    assert Steps(a, a, C + 1) == C + 1;
    assert Steps(b, b, R + 1) == R + 1;
  }

  // ---------------------------------------------------------------------------------------------
  // Word labels

  /** Coordinates on the canvas; None stands for NaN. */
  datatype Point = Point(x: Option<real>, y: Option<real>)

  datatype WordLabel = WordLabel(word: string, wordId: int, scaledWeight: Option<real>, point: Point,
                                 color: Lookup<CGColor.RgbColor>)

  datatype ScaledGridData = ScaledGridData(wordLabels: seq<WordLabel>, rowDistance: real, colDistance: real)

  /** What a drawing depends on besides the tags: the grid's size, the viewport, the canvas, each
      word's random offset and the cell colors. */
  datatype Scene = Scene(R: nat, C: nat, viewport: Viewport, width: real, height: real,
                         randomOffsets: seq<int>, colors: CGColor.ColorMap)

  predicate Drawable(sc: Scene) {
    Terminates(sc.R, sc.C, sc.viewport) && !Fails(sc.R, sc.viewport)
  }

  /** `(weight - minWeight) / (maxWeight - minWeight)`. Equal extremes give NaN (None): the tags
      between them then all weigh the minimum, so the host divides 0 by 0. */
  function ScaledWeight(w: real, minWeight: real, maxWeight: real): (r: Option<real>)
    ensures r.None? <==> maxWeight == minWeight
    ensures minWeight <= w <= maxWeight && r.Some? ==> 0.0 <= r.value <= 1.0
    ensures minWeight < w <= maxWeight ==> r.Some? && 0.0 < r.value
  {
    if maxWeight - minWeight == 0.0 then None
    else
      QuotientBounds(w - minWeight, maxWeight - minWeight);
      Some((w - minWeight) / (maxWeight - minWeight))
  }

  lemma QuotientBounds(a: real, b: real)
    requires b != 0.0
    ensures 0.0 <= a <= b ==> 0.0 <= a / b <= 1.0
    ensures 0.0 < a <= b ==> 0.0 < a / b
  {
    if 0.0 <= a <= b {
      var q := a / b;
      assert q * b == a;
      if q > 1.0 { PositiveProduct(q - 1.0, b); }
      if q < 0.0 { PositiveProduct(-q, b); }
      if q == 0.0 { assert a == 0.0; }
    }
  }

  /** `this.randomOffsets[wordId]`, None when undefined. */
  function Offset(offsets: seq<int>, wordId: int): Option<int> {
    if 0 <= wordId < |offsets| then Some(offsets[wordId]) else None
  }

  /** `preY = Math.floor((row * rowDistance + offset * zoomRatio + translationY) % height)` and then
      `preY > 0 ? preY : preY + height` (and the same for x). On a positive extent it lies in
      (-1, extent], and in [0, extent] when the extent is a whole number. */
  function Position(cell: int, dist: real, offset: Option<int>, zoom: real, shift: real, extent: real)
    : (r: Option<real>)
    ensures r.Some? <==> offset.Some? && extent != 0.0
    ensures r.Some? && extent > 0.0 ==> -1.0 < r.value <= extent
    ensures r.Some? && extent > 0.0 && extent == extent.Floor as real ==> 0.0 <= r.value
  {
    if offset.None? || extent == 0.0 then None
    else
      var rem := Rem(cell as real * dist + offset.value as real * zoom + shift, extent);
      var pre := rem.Floor;
      PreBounds(cell as real * dist + offset.value as real * zoom + shift, extent);
      Some(if pre > 0 then pre as real else pre as real + extent)
  }

  /** The wrap `preY > 0 ? preY : preY + height` does not keep a label strictly inside the canvas:
      a remainder whose floor is exactly `-height` puts it on the edge 0, and on a canvas whose
      extent is not a whole number a label can be placed just above or left of it. */
  lemma PositionOutsideCanvas()
    ensures Position(1, 1.0, Some(0), 1.0, -10.5, 10.0) == Some(0.0)
    ensures Position(0, 1.0, Some(0), 1.0, -10.2, 10.5) == Some(-0.5)
  {
    assert Trunc(-9.5 / 10.0) == 0;
    assert Rem(-9.5, 10.0) == -9.5;
    assert (-9.5).Floor == -10;
    assert Trunc(-10.2 / 10.5) == 0;
    assert Rem(-10.2, 10.5) == -10.2;
    assert (-10.2).Floor == -11;
  }

  lemma PreBounds(a: real, extent: real)
    requires extent != 0.0
    ensures extent > 0.0 ==> -extent - 1.0 < Rem(a, extent).Floor as real < extent
    ensures extent > 0.0 && extent == extent.Floor as real ==> -extent <= Rem(a, extent).Floor as real
  {
    if extent > 0.0 {
      var rem := Rem(a, extent);
      RemBounds(a, extent);
      FloorBounds(rem, extent);
    }
  }

  lemma FloorBounds(rem: real, extent: real)
    requires -extent < rem < extent
    ensures -extent - 1.0 < rem.Floor as real < extent
    ensures extent == extent.Floor as real ==> -extent <= rem.Floor as real
  {
    var fr := rem.Floor as real;
    assert fr <= rem < fr + 1.0;
    if extent == extent.Floor as real {
      IntegerBelow(-extent.Floor, rem);
    }
  }

  lemma IntegerBelow(m: int, x: real)
    requires m as real < x
    ensures m <= x.Floor
  {
  }

  /** What one word tag contributes: a TypeError when its row is outside the visibility table,
      nothing when its cell is hidden (or outside the row) or its scaled weight is 0, and otherwise
      its label. */
  function LabelOf(sc: Scene, t: CGTopGrid.WordTag, minWeight: real, maxWeight: real): (r: Result<Option<WordLabel>>)
    requires Drawable(sc)
    ensures r.Err? <==> !(0 <= t.row <= sc.R)
    ensures r.Err? ==> r.error == TypeError
    ensures r.Ok? && r.value.Some? ==> LabelMatches(sc, t, r.value.value)
  {
    if !(0 <= t.row <= sc.R) then Err(TypeError)
    else if !(0 <= t.col <= sc.C && Shown(sc.R, sc.C, sc.viewport, t.row, t.col)) then Ok(None)
    else
      var sw := ScaledWeight(t.weight, minWeight, maxWeight);
      if sw == Some(0.0) then Ok(None)
      else
        var vp := sc.viewport;
        var off := Offset(sc.randomOffsets, t.wordId);
        Ok(Some(WordLabel(t.word, t.wordId, sw,
                          Point(Position(t.col, vp.colDistance, off, vp.zoomRatio, vp.translationX, sc.width),
                                Position(t.row, vp.rowDistance, off, vp.zoomRatio, vp.translationY, sc.height)),
                          sc.colors.GetColor(t.row, t.col))))
  }

  /** A label drawn for tag `t`: the tag's word at a shown cell, with a non-zero scaled weight and
      the cell's color. */
  predicate LabelMatches(sc: Scene, t: CGTopGrid.WordTag, l: WordLabel)
    requires Drawable(sc)
  {
    && l.word == t.word && l.wordId == t.wordId
    && 0 <= t.row <= sc.R && 0 <= t.col <= sc.C && Shown(sc.R, sc.C, sc.viewport, t.row, t.col)
    && l.scaledWeight != Some(0.0)
    && l.color == sc.colors.GetColor(t.row, t.col)
  }

  /** The labels of the `wordTags.forEach`, in tag order. */
  function Labels(sc: Scene, tags: seq<CGTopGrid.WordTag>, minWeight: real, maxWeight: real)
    : (r: Result<seq<WordLabel>>)
    requires Drawable(sc)
    ensures r.Ok? <==> forall i :: 0 <= i < |tags| ==> 0 <= tags[i].row <= sc.R
    ensures r.Err? ==> r.error == TypeError
    ensures r.Ok? ==> |r.value| <= |tags|
  {
    if |tags| == 0 then Ok([])
    else
      var init := tags[..|tags| - 1];
      assert forall i :: 0 <= i < |init| ==> init[i] == tags[i];
      match Labels(sc, init, minWeight, maxWeight)
      case Err(err) => Err(err)
      case Ok(earlier) =>
        match LabelOf(sc, tags[|tags| - 1], minWeight, maxWeight)
        case Err(err) => Err(err)
        case Ok(l) =>
          Ok(if l.Some? then earlier + [l.value] else earlier)
  }

  /** The `wordTags.forEach` of `getScaledGridData`, reading the visibility table. */
  method CollectLabels(sc: Scene, tags: seq<CGTopGrid.WordTag>, minWeight: real, maxWeight: real,
                       vis: array2<bool>) returns (r: Result<seq<WordLabel>>)
    requires Drawable(sc)
    requires vis.Length0 == sc.R + 1 && vis.Length1 == sc.C + 1
    requires forall y, x :: 0 <= y <= sc.R && 0 <= x <= sc.C ==> vis[y, x] == Shown(sc.R, sc.C, sc.viewport, y, x)
    ensures r == Labels(sc, tags, minWeight, maxWeight)
  {
    var labels := [];
    var i := 0;
    while i < |tags|
      invariant 0 <= i <= |tags|
      invariant Labels(sc, tags[..i], minWeight, maxWeight) == Ok(labels)
    {
      assert tags[..i + 1][..i] == tags[..i];
      var t := tags[i];
      if !(0 <= t.row < vis.Length0) {
        assert !(0 <= tags[i].row <= sc.R);
        return Err(TypeError);
      }
      if 0 <= t.col < vis.Length1 && vis[t.row, t.col] {
        var sw := ScaledWeight(t.weight, minWeight, maxWeight);
        if sw != Some(0.0) {
          var vp := sc.viewport;
          var off := Offset(sc.randomOffsets, t.wordId);
          var y := Position(t.row, vp.rowDistance, off, vp.zoomRatio, vp.translationY, sc.height);
          var x := Position(t.col, vp.colDistance, off, vp.zoomRatio, vp.translationX, sc.width);
          labels := labels + [WordLabel(t.word, t.wordId, sw, Point(x, y), sc.colors.GetColor(t.row, t.col))];
        }
      }
      i := i + 1;
    }
    assert tags[..|tags|] == tags;
    r := Ok(labels);
  }

  /** The sort key of `(a, b) => a.scaledWeight - b.scaledWeight`; NaN weights compare equal to
      everything, which is what a constant key gives when every weight is NaN. */
  function LabelKey(l: WordLabel): real {
    if l.scaledWeight.Some? then l.scaledWeight.value else 0.0
  }

  /** `getScaledGridData` once the visibility table and the tags are known. */
  function GridData(sc: Scene, tags: seq<CGTopGrid.WordTag>, minWeight: real, maxWeight: real)
    : (r: Result<ScaledGridData>)
    requires Drawable(sc)
    ensures r.Ok? <==> forall i :: 0 <= i < |tags| ==> 0 <= tags[i].row <= sc.R
    ensures r.Ok? ==> r.value.rowDistance == sc.viewport.rowDistance && r.value.colDistance == sc.viewport.colDistance
  {
    match Labels(sc, tags, minWeight, maxWeight)
    case Err(err) => Err(err)
    case Ok(labels) =>
      Ok(ScaledGridData(Sorting.SortBy(labels, LabelKey), sc.viewport.rowDistance, sc.viewport.colDistance))
  }

  /** Every label was drawn for some tag at a shown cell, and, when the tags lie between the
      extremes, its scaled weight lies in (0, 1], or is NaN exactly when the extremes are equal. */
  lemma {:induction false} LabelsFromShownTags(sc: Scene, tags: seq<CGTopGrid.WordTag>, minWeight: real, maxWeight: real)
    requires Drawable(sc) && Labels(sc, tags, minWeight, maxWeight).Ok?
    ensures var ls := Labels(sc, tags, minWeight, maxWeight).value;
      forall j :: 0 <= j < |ls| ==> exists i :: 0 <= i < |tags| && LabelMatches(sc, tags[i], ls[j])
    ensures (forall i :: 0 <= i < |tags| ==> minWeight <= tags[i].weight <= maxWeight) ==>
      var ls := Labels(sc, tags, minWeight, maxWeight).value;
      forall j :: 0 <= j < |ls| ==>
        (ls[j].scaledWeight.None? <==> maxWeight == minWeight)
        && (ls[j].scaledWeight.Some? ==> 0.0 < ls[j].scaledWeight.value <= 1.0)
  {
    if |tags| > 0 {
      var init, t := tags[..|tags| - 1], tags[|tags| - 1];
      LabelsFromShownTags(sc, init, minWeight, maxWeight);
      var earlier := Labels(sc, init, minWeight, maxWeight).value;
      var ls := Labels(sc, tags, minWeight, maxWeight).value;
      forall j | 0 <= j < |ls|
        ensures exists i :: 0 <= i < |tags| && LabelMatches(sc, tags[i], ls[j])
      {
        if j < |earlier| {
          var i :| 0 <= i < |init| && LabelMatches(sc, init[i], earlier[j]);
          assert tags[i] == init[i];
        } else {
          assert LabelMatches(sc, tags[|tags| - 1], ls[j]);
        }
      }
    }
  }

  /** The labels come out in ascending scaled weight, as a reordering of those drawn; with equal
      extremes every weight is NaN and the order of the tags is kept. */
  lemma GridDataOrdered(sc: Scene, tags: seq<CGTopGrid.WordTag>, minWeight: real, maxWeight: real)
    requires Drawable(sc) && GridData(sc, tags, minWeight, maxWeight).Ok?
    ensures var ls := Labels(sc, tags, minWeight, maxWeight).value;
      var out := GridData(sc, tags, minWeight, maxWeight).value.wordLabels;
      && Sorting.SortedBy(out, LabelKey)
      && multiset(out) == multiset(ls)
      && (maxWeight == minWeight ==> out == ls)
  {
    var ls := Labels(sc, tags, minWeight, maxWeight).value;
    Sorting.SortBySorted(ls, LabelKey);
    if maxWeight == minWeight {
      LabelsWeightless(sc, tags, minWeight, maxWeight);
      Sorting.SortByConstantKey(ls, LabelKey);
    }
  }

  lemma {:induction false} LabelsWeightless(sc: Scene, tags: seq<CGTopGrid.WordTag>, minWeight: real, maxWeight: real)
    requires Drawable(sc) && Labels(sc, tags, minWeight, maxWeight).Ok? && maxWeight == minWeight
    ensures var ls := Labels(sc, tags, minWeight, maxWeight).value;
      forall j :: 0 <= j < |ls| ==> LabelKey(ls[j]) == 0.0
  {
    if |tags| > 0 {
      LabelsWeightless(sc, tags[..|tags| - 1], minWeight, maxWeight);
    }
  }
}
