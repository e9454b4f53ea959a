/** The regular expressions the decoders read tokens with. An anchored one (`/^id:(\d+)/`) matches at
    the start of the token or not at all; an unanchored one (`/(\d+):(\d+)/`) is tried at each position
    from the left and the first position that matches wins. In every pattern here a greedy group is
    followed by a character its class does not contain (or by nothing), so backtracking never gives a
    shorter group: each group is the maximal run of its class at that point. */
module Patterns {
  import opened Js

  /** The class `[eE+\-.\d]` of a weight literal. */
  predicate IsWeightChar(c: char) {
    IsDigit(c) || c == 'e' || c == 'E' || c == '+' || c == '-' || c == '.'
  }

  predicate AllWeightChars(s: string) {
    forall i :: 0 <= i < |s| ==> IsWeightChar(s[i])
  }

  /** The longest prefix of `s` made of weight characters. */
  function WeightPrefix(s: string): (r: string)
    ensures |r| <= |s| && r == s[..|r|] && AllWeightChars(r)
    ensures |r| < |s| ==> !IsWeightChar(s[|r|])
  {
    if |s| > 0 && IsWeightChar(s[0]) then
      var r := WeightPrefix(s[1..]);
      assert [s[0]] + r == s[..|r| + 1];
      [s[0]] + r
    else ""
  }

  /** Group 1 of `/^<prefix>(\d+)/.exec(s)`, None when the pattern does not match. */
  function PrefixedNumber(s: string, prefix: string): (r: Option<string>)
    ensures r.Some? <==> StartsWith(s, prefix) && |s| > |prefix| && IsDigit(s[|prefix|])
    ensures r.Some? ==> r.value == DigitPrefix(s[|prefix|..]) && |r.value| >= 1
  {
    if StartsWith(s, prefix) && DigitPrefix(s[|prefix|..]) != "" then Some(DigitPrefix(s[|prefix|..]))
    else None
  }

  /** The groups of `/(\d+):(\d+)/` matched at the very start of `s`. */
  function CountAt(s: string): Option<(string, string)> {
    var a := DigitPrefix(s);
    if a != "" && |a| < |s| && s[|a|] == ':' && DigitPrefix(s[|a| + 1..]) != "" then
      Some((a, DigitPrefix(s[|a| + 1..])))
    else None
  }

  /** `/(\d+):(\d+)/.exec(s)`: groups 1 and 2 of the leftmost match. */
  function FindCount(s: string): (r: Option<(string, string)>)
    ensures r.Some? ==> |r.value.0| >= 1 && AllDigits(r.value.0) && |r.value.1| >= 1 && AllDigits(r.value.1)
  {
    if |s| == 0 then None
    else if CountAt(s).Some? then CountAt(s)
    else FindCount(s[1..])
  }

  /** Somewhere in `s` a digit is followed by a colon and another digit. */
  predicate HasCountShape(s: string) {
    exists i {:trigger s[i]} :: 0 <= i && i + 2 < |s| && IsDigit(s[i]) && s[i + 1] == ':' && IsDigit(s[i + 2])
  }

  /** The pattern finds a match exactly when the token has the shape `digit:digit` somewhere. */
  lemma {:induction false} FindCountIffShape(s: string)
    ensures FindCount(s).Some? <==> HasCountShape(s)
  {
    if |s| > 0 {
      FindCountIffShape(s[1..]);
      if HasCountShape(s[1..]) {
        ShapeOfTail(s);
      }
      if CountAt(s).Some? {
        CountAtHasShape(s);
      } else if HasCountShape(s) {
        ShapeAfterFirst(s);
      }
    }
  }

  /** A match at the start shows the shape: the last digit of group 1, the colon, the first of group 2. */
  lemma CountAtHasShape(s: string)
    requires CountAt(s).Some?
    ensures HasCountShape(s)
  {
    var a := DigitPrefix(s);
    var b := DigitPrefix(s[|a| + 1..]);
    assert s[..|a|] == a;
    assert s[|a| + 1..][0] == b[0];
    assert IsDigit(s[|a| - 1]) && s[|a|] == ':' && IsDigit(s[|a| + 1]);
  }

  /** The shape in `s[1..]` is the shape in `s`, one position on. */
  lemma ShapeOfTail(s: string)
    requires |s| > 0 && HasCountShape(s[1..])
    ensures HasCountShape(s)
  {
    var t := s[1..];
    var i :| 0 <= i && i + 2 < |t| && IsDigit(t[i]) && t[i + 1] == ':' && IsDigit(t[i + 2]);
    assert s[i + 1] == t[i] && s[i + 2] == t[i + 1] && s[i + 3] == t[i + 2];
  }

  /** Without a match at the start, a shape in `s` lies wholly in `s[1..]`. */
  lemma ShapeAfterFirst(s: string)
    requires |s| > 0 && CountAt(s).None? && HasCountShape(s)
    ensures HasCountShape(s[1..])
  {
    var i :| 0 <= i && i + 2 < |s| && IsDigit(s[i]) && s[i + 1] == ':' && IsDigit(s[i + 2]);
    if i == 0 {
      assert false;
    }
    assert s[1..][i - 1] == s[i] && s[1..][i] == s[i + 1] && s[1..][i + 1] == s[i + 2];
  }

  /** The groups of `/(\d+):([eE+\-.\d]+)/` matched at the very start of `s`. */
  function WeightAt(s: string): Option<(string, string)> {
    var a := DigitPrefix(s);
    if a != "" && |a| < |s| && s[|a|] == ':' && WeightPrefix(s[|a| + 1..]) != "" then
      Some((a, WeightPrefix(s[|a| + 1..])))
    else None
  }

  /** `/(\d+):([eE+\-.\d]+)/.exec(s)`: groups 1 and 2 of the leftmost match. */
  function FindWeight(s: string): (r: Option<(string, string)>)
    ensures r.Some? ==> |r.value.0| >= 1 && AllDigits(r.value.0) && |r.value.1| >= 1 && AllWeightChars(r.value.1)
  {
    if |s| == 0 then None
    else if WeightAt(s).Some? then WeightAt(s)
    else FindWeight(s[1..])
  }

  /** The groups of `/(\d+):([eE+\-.\d]+):(\d+)/` matched at the very start of `s`. */
  function WeightLayerAt(s: string): Option<(string, string, string)> {
    var a := DigitPrefix(s);
    if a != "" && |a| < |s| && s[|a|] == ':' then WeightLayerAfter(a, s[|a| + 1..]) else None
  }

  /** The rest of that match once group 1, `a`, and its colon are read: `t` is what follows. */
  function WeightLayerAfter(a: string, t: string): Option<(string, string, string)> {
    var w := WeightPrefix(t);
    if w != "" && |w| < |t| && t[|w|] == ':' && DigitPrefix(t[|w| + 1..]) != "" then
      Some((a, w, DigitPrefix(t[|w| + 1..])))
    else None
  }

  /** `/(\d+):([eE+\-.\d]+):(\d+)/.exec(s)`: groups 1 to 3 of the leftmost match. */
  function FindWeightLayer(s: string): (r: Option<(string, string, string)>)
    ensures r.Some? ==> |r.value.0| >= 1 && AllDigits(r.value.0) && |r.value.1| >= 1
                        && AllWeightChars(r.value.1) && |r.value.2| >= 1 && AllDigits(r.value.2)
  {
    if |s| == 0 then None
    else if WeightLayerAt(s).Some? then WeightLayerAt(s)
    else FindWeightLayer(s[1..])
  }

  // ---------------------------------------------------------------------------------------------
  // The tokens the pipeline writes are read back whole

  lemma WeightPrefixOf(w: string, rest: string)
    requires AllWeightChars(w)
    requires rest == [] || !IsWeightChar(rest[0])
    ensures WeightPrefix(w + rest) == w
  {
    if |w| > 0 {
      WeightPrefixOf(w[1..], rest);
      assert (w + rest)[1..] == w[1..] + rest;
    } else {
      assert w + rest == rest;
    }
  }

  /** A `"%1d" % a + ":" + "%1d" % b` token. */
  lemma CountToken(s: string, a: nat, b: nat)
    requires s == NatToString(a) + ":" + NatToString(b)
    ensures FindCount(s) == Some((NatToString(a), NatToString(b)))
  {
    var da, db := NatToString(a), NatToString(b);
    DigitPrefixOfDigits(da, ":" + db);
    assert s == da + (":" + db);
    assert s[|da| + 1..] == db;
    DigitPrefixOfDigits(db, "");
    assert db + "" == db;
  }

  /** A `"%1d" % a + ":" + w` token, `w` a weight literal such as `"%1.3f"` writes. */
  lemma WeightToken(s: string, a: nat, w: string)
    requires |w| >= 1 && AllWeightChars(w)
    requires s == NatToString(a) + ":" + w
    ensures FindWeight(s) == Some((NatToString(a), w))
  {
    var da := NatToString(a);
    DigitPrefixOfDigits(da, ":" + w);
    assert s == da + (":" + w);
    assert s[|da| + 1..] == w;
    WeightPrefixOf(w, "");
    assert w + "" == w;
  }

  /** A `"%1d" % a + ":" + w + ":" + "%1d" % b` token. */
  lemma WeightLayerToken(s: string, a: nat, w: string, b: nat)
    requires |w| >= 1 && AllWeightChars(w)
    requires s == NatToString(a) + ":" + w + ":" + NatToString(b)
    ensures FindWeightLayer(s) == Some((NatToString(a), w, NatToString(b)))
  {
    WeightLayerDigits(s, NatToString(a), w, NatToString(b));
  }

  lemma WeightLayerDigits(s: string, da: string, w: string, db: string)
    requires |da| >= 1 && AllDigits(da) && |db| >= 1 && AllDigits(db)
    requires |w| >= 1 && AllWeightChars(w)
    requires s == da + ":" + w + ":" + db
    ensures FindWeightLayer(s) == Some((da, w, db))
  {
    var t2 := ":" + db;
    var u := w + t2;
    var t1 := ":" + u;
    assert s == da + t1;
    DigitPrefixOfDigits(da, t1);
    assert s[|da| + 1..] == u by {
      assert s[|da|..] == t1;
      assert t1[1..] == u;
    }
    WeightAfterDigits(da, w, db);
    WeightLayerMatchesAt(s);
  }

  lemma WeightAfterDigits(da: string, w: string, db: string)
    requires |db| >= 1 && AllDigits(db)
    requires |w| >= 1 && AllWeightChars(w)
    ensures WeightLayerAfter(da, w + (":" + db)) == Some((da, w, db))
  {
    var t2 := ":" + db;
    var u := w + t2;
    WeightPrefixOf(w, t2);
    assert u[|w| + 1..] == db by {
      assert u[|w|..] == t2;
    }
    DigitPrefixOfDigits(db, "");
    assert db + "" == db;
  }

  /** Where the pattern matches at the start, the leftmost match is that one. */
  lemma WeightLayerMatchesAt(s: string)
    requires WeightLayerAt(s).Some?
    ensures FindWeightLayer(s) == WeightLayerAt(s)
  {
  }

  /** A `prefix + "%1d" % n` field. */
  lemma PrefixedToken(s: string, prefix: string, n: nat)
    requires s == prefix + NatToString(n)
    ensures PrefixedNumber(s, prefix) == Some(NatToString(n))
  {
    var d := NatToString(n);
    assert s[..|prefix|] == prefix;
    assert s[|prefix|..] == d;
    DigitPrefixOfDigits(d, "");
    assert d + "" == d;
  }

  /** No tab in `s`: it stays one field of a tab-separated line. */
  predicate NoTab(s: string) {
    forall j :: 0 <= j < |s| ==> s[j] != '\t'
  }

  lemma DigitsHaveNoTab(d: string)
    requires AllDigits(d)
    ensures NoTab(d)
  {
  }

  lemma WeightCharsHaveNoTab(w: string)
    requires AllWeightChars(w)
    ensures NoTab(w)
  {
  }

  lemma NoTabConcat(a: string, b: string)
    requires NoTab(a) && NoTab(b)
    ensures NoTab(a + b)
  {
    forall j | 0 <= j < |a + b| ensures (a + b)[j] != '\t' {
      if j >= |a| {
        assert (a + b)[j] == b[j - |a|];
      }
    }
  }

  /** A `prefix + "%1d" % n` field is one field when the prefix has no tab. */
  lemma PrefixedFieldHasNoTab(prefix: string, n: nat)
    requires NoTab(prefix)
    ensures NoTab(prefix + NatToString(n))
  {
    NoTabConcat(prefix, NatToString(n));
  }

  /** The number after `prefix` in a field that starts with it: `exec` returning null (no digit after
      the prefix) makes reading its group a TypeError. */
  function Coordinate(field: string, prefix: string): Result<int> {
    match PrefixedNumber(field, prefix)
    case None => Err(TypeError)
    case Some(digits) => Ok(DigitsValue(digits))
  }

  /** The row and column of a non-blank `row:…⇥col:…` line; `error` when its first two fields do not
      start with those prefixes. */
  function RowColumn(line: string, error: JsError): Result<(int, int)> {
    var parts := Split(line, '\t');
    if |parts| < 2 || !StartsWith(parts[0], "row:") || !StartsWith(parts[1], "col:") then
      Err(error)
    else
      match Coordinate(parts[0], "row:")
      case Err(err) => Err(err)
      case Ok(row) =>
        match Coordinate(parts[1], "col:")
        case Err(err) => Err(err)
        case Ok(col) =>
          Ok((row, col))
  }

  /** The `row:` and `col:` fields the pipeline writes are read back as the cell they name. */
  lemma RowColumnOfFields(line: string, pieces: seq<string>, r: nat, c: nat, error: JsError)
    requires |pieces| >= 2 && pieces[0] == "row:" + NatToString(r) && pieces[1] == "col:" + NatToString(c)
    requires Split(line, '\t') == pieces
    ensures RowColumn(line, error) == Ok((r, c))
  {
    PrefixedToken(pieces[0], "row:", r);
    PrefixedToken(pieces[1], "col:", c);
    assert pieces[0][..4] == "row:" && pieces[1][..4] == "col:";
  }

  /** The coordinate fields of a written line hold no tab, so with a tail of tab-free fields every
      field stays one field. */
  lemma CellFieldsHaveNoTab(r: nat, c: nat, tail: seq<string>)
    requires forall i :: 0 <= i < |tail| ==> NoTab(tail[i])
    ensures var pieces := ["row:" + NatToString(r), "col:" + NatToString(c)] + tail;
      forall i :: 0 <= i < |pieces| ==> NoTab(pieces[i])
  {
    PrefixedFieldHasNoTab("row:", r);
    PrefixedFieldHasNoTab("col:", c);
    var pieces := ["row:" + NatToString(r), "col:" + NatToString(c)] + tail;
    forall i | 0 <= i < |pieces| ensures NoTab(pieces[i]) {
      if i >= 2 {
        assert pieces[i] == tail[i - 2];
      }
    }
  }

  /** Splitting tab-joined fields that hold no tab gives the fields back. */
  lemma SplitJoinedFields(pieces: seq<string>)
    requires |pieces| >= 1
    requires forall i :: 0 <= i < |pieces| ==> NoTab(pieces[i])
    ensures Split(Join(pieces, "\t"), '\t') == pieces
  {
    assert forall i, j :: 0 <= i < |pieces| && 0 <= j < |pieces[i]| ==> pieces[i][j] != '\t' by {
      forall i, j | 0 <= i < |pieces| && 0 <= j < |pieces[i]| ensures pieces[i][j] != '\t' {
        assert NoTab(pieces[i]);
      }
    }
    SplitJoin(pieces, '\t');
  }

  /** A line of tab-joined fields starts with its first field, so it is blank only if that one is. */
  lemma JoinedFieldsNotBlank(pieces: seq<string>, k: nat)
    requires |pieces| >= 1 && k < |pieces[0]| && !IsSpace(pieces[0][k])
    ensures !IsBlank(Join(pieces, "\t"))
  {
    JoinStartsWithFirst(pieces, "\t");
    assert Join(pieces, "\t")[k] == pieces[0][k];
  }
}
