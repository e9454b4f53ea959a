/** legend.txt: an optional single record of eleven tab-separated fields, `name1 r g b  r g b  name2
    r g b`, giving the labels and colors of the two ends of a feature scale and the color of its
    middle. Features in [0, 1] are colored by fading linearly between them. */
module CGLegend {
  import opened Js
  import opened CGColor

  datatype LegendItem = LegendItem(name: string, color: RgbColor)

  /** The three parts are set together or not at all. */
  datatype Legend = Legend(first: Option<LegendItem>, middle: Option<RgbColor>, second: Option<LegendItem>)
  {
    predicate Valid() {
      first.Some? == middle.Some? == second.Some?
    }

    /** `hasLegend` */
    predicate HasLegend() {
      first.Some? && second.Some?
    }

    /** `getColorForFeature`: the fade from the first color to the middle one over [0, 0.5], from
        the middle one to the second over (0.5, 1], and null outside [0, 1] or for NaN. Reading the
        colors of an absent legend is a TypeError. */
    function GetColorForFeature(feature: Option<real>): (r: Result<Option<RgbColor>>)
      requires Valid()
      ensures r.Err? <==> !HasLegend() && feature.Some? && 0.0 <= feature.value <= 1.0
      ensures r.Err? ==> r.error == TypeError
      ensures r == Ok(None) <==> feature.None? || feature.value < 0.0 || feature.value > 1.0
      ensures HasLegend() && feature.Some? && 0.0 <= feature.value <= 0.5 ==>
                r == Ok(Some(Fade(first.value.color, middle.value, 2.0 * feature.value)))
      ensures HasLegend() && feature.Some? && 0.5 < feature.value <= 1.0 ==>
                r == Ok(Some(Fade(middle.value, second.value.color, 2.0 * (feature.value - 0.5))))
    {
      if feature.None? then Ok(None)
      else if 0.0 <= feature.value <= 0.5 then
        if first.None? || middle.None? then Err(TypeError)
        else Ok(Some(Fade(first.value.color, middle.value, feature.value * 2.0)))
      else if 0.5 < feature.value <= 1.0 then
        if middle.None? || second.None? then Err(TypeError)
        else Ok(Some(Fade(middle.value, second.value.color, (feature.value - 0.5) * 2.0)))
      else Ok(None)
    }
  }

  /** `calculateColorFade`: each channel moves the fraction `t` of the way from `start` to `end`. */
  function Fade(start: RgbColor, end: RgbColor, t: real): RgbColor {
    RgbColor(FadeChannel(start.red, end.red, t), FadeChannel(start.green, end.green, t),
             FadeChannel(start.blue, end.blue, t))
  }

  function FadeChannel(start: Option<real>, end: Option<real>, t: real): Option<real> {
    Add(Mul(Sub(end, start), Some(t)), start)
  }

  const LegendError: string := "legend.txt improperly formatted."

  /** `parseLegend`: a null or blank text is no legend; otherwise it must have exactly eleven
      tab-separated fields. */
  function ParseLegend(text: Option<string>): (r: Result<Legend>)
    ensures r.Ok? ==> r.value.Valid()
    ensures r.Err? <==> text.Some? && !IsBlank(text.value) && |Split(text.value, '\t')| != 11
    ensures r.Err? ==> r.error == FormatError(LegendError)
    ensures r.Ok? ==> (r.value.HasLegend() <==> text.Some? && !IsBlank(text.value))
    ensures r.Ok? && r.value.HasLegend() ==>
      var parts := Split(text.value, '\t');
      && r.value.first.value == LegendItem(Trim(parts[0]), ColorOf(parts, 1))
      && r.value.middle.value == ColorOf(parts, 4)
      && r.value.second.value == LegendItem(Trim(parts[7]), ColorOf(parts, 8))
  {
    if text.None? || IsBlank(text.value) then Ok(Legend(None, None, None))
    else
      var parts := Split(text.value, '\t');
      if |parts| != 11 then Err(FormatError(LegendError))
      else Ok(Legend(Some(LegendItem(Trim(parts[0]), ColorOf(parts, 1))), Some(ColorOf(parts, 4)),
                     Some(LegendItem(Trim(parts[7]), ColorOf(parts, 8)))))
  }

  /** The color whose channels are the three fields from `i`, each times 255. */
  function ColorOf(parts: seq<string>, i: nat): RgbColor
    requires i + 2 < |parts|
  {
    RgbColor(Channel(Some(parts[i])), Channel(Some(parts[i + 1])), Channel(Some(parts[i + 2])))
  }

  // ---------------------------------------------------------------------------------------------
  // Properties

  predicate Numeric(c: RgbColor) {
    c.red.Some? && c.green.Some? && c.blue.Some?
  }

  /** The scale's landmarks: feature 0 is the first color, 0.5 the middle one, 1 the second, and the
      two halves meet at the middle color. */
  lemma FeatureLandmarks(l: Legend)
    requires l.Valid() && l.HasLegend()
    requires Numeric(l.first.value.color) && Numeric(l.middle.value) && Numeric(l.second.value.color)
    ensures l.GetColorForFeature(Some(0.0)) == Ok(Some(l.first.value.color))
    ensures l.GetColorForFeature(Some(0.5)) == Ok(Some(l.middle.value))
    ensures l.GetColorForFeature(Some(1.0)) == Ok(Some(l.second.value.color))
    ensures Fade(l.middle.value, l.second.value.color, 0.0) == l.middle.value
  {
    FadeEnds(l.first.value.color, l.middle.value);
    FadeEnds(l.middle.value, l.second.value.color);
  }

  lemma FadeEnds(a: RgbColor, b: RgbColor)
    requires Numeric(a) && Numeric(b)
    ensures Fade(a, b, 0.0) == a && Fade(a, b, 1.0) == b
  {
    assert a == RgbColor(Some(a.red.value), Some(a.green.value), Some(a.blue.value));
    assert b == RgbColor(Some(b.red.value), Some(b.green.value), Some(b.blue.value));
  }

  /** A faded channel lies between its two ends. */
  lemma FadeChannelBetween(s: real, e: real, t: real)
    requires 0.0 <= t <= 1.0
    ensures var v := FadeChannel(Some(s), Some(e), t).value;
      (s <= e ==> s <= v <= e) && (e <= s ==> e <= v <= s)
  {
    var d := e - s;
    assert FadeChannel(Some(s), Some(e), t).value == d * t + s;
    if d >= 0.0 {
      assert 0.0 <= d * t <= d by {
        assert d * t <= d * 1.0;
      }
    } else {
      assert d <= d * t <= 0.0 by {
        assert (-d) * t <= (-d) * 1.0;
      }
    }
  }

  /** Every color of the scale's first half lies, channel by channel, between the first and the
      middle color. */
  lemma FirstHalfBetween(l: Legend, f: real)
    requires l.Valid() && l.HasLegend() && 0.0 <= f <= 0.5
    requires Numeric(l.first.value.color) && Numeric(l.middle.value)
    ensures var c := l.GetColorForFeature(Some(f)).value.value;
      var a, b := l.first.value.color, l.middle.value;
      && Numeric(c)
      && Min(a.red.value, b.red.value) <= c.red.value <= Max(a.red.value, b.red.value)
      && Min(a.green.value, b.green.value) <= c.green.value <= Max(a.green.value, b.green.value)
      && Min(a.blue.value, b.blue.value) <= c.blue.value <= Max(a.blue.value, b.blue.value)
  {
    var a, b := l.first.value.color, l.middle.value;
    FadeChannelBetween(a.red.value, b.red.value, 2.0 * f);
    FadeChannelBetween(a.green.value, b.green.value, 2.0 * f);
    FadeChannelBetween(a.blue.value, b.blue.value, 2.0 * f);
  }

  function Min(a: real, b: real): real { if a <= b then a else b }
  function Max(a: real, b: real): real { if a <= b then b else a }

  /** A legend written as the eleven fields joined by tabs (the way the pipeline writes legend.txt,
      with a trailing line feed on the last field) reads back with trimmed names and the fields'
      channel values. */
  lemma LegendRoundTrip(fields: seq<string>)
    requires |fields| == 11 && !IsBlank(fields[0])
    requires forall i, j :: 0 <= i < 11 && 0 <= j < |fields[i]| ==> fields[i][j] != '\t'
    ensures var r := ParseLegend(Some(Join(fields, "\t")));
      && r.Ok? && r.value.HasLegend()
      && r.value.first.value == LegendItem(Trim(fields[0]), ColorOf(fields, 1))
      && r.value.middle.value == ColorOf(fields, 4)
      && r.value.second.value == LegendItem(Trim(fields[7]), ColorOf(fields, 8))
  {
    var text := Join(fields, "\t");
    SplitJoin(fields, '\t');
    JoinStartsWithFirst(fields, "\t");
    assert !IsBlank(text) by {
      var k :| 0 <= k < |fields[0]| && !IsSpace(fields[0][k]);
      assert text[k] == fields[0][k];
    }
  }
}
