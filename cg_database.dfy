/** database.txt: one line per document entry, tab-separated `key:value` fields. `id` and `layer`
    (1-indexed) identify the entry; `title`, `abstract`, `link` and `feature` are read into named
    fields, `image` is dropped, and every other key is kept as an extra column. */
module CGDatabase {
  import opened Js
  import Sorting

  // ---------------------------------------------------------------------------------------------
  // Plain objects

  /** The own properties of a plain object, in creation order, each key once. */
  type Props = seq<(string, string)>

  function KeySet(o: Props): (r: set<string>)
    ensures forall i :: 0 <= i < |o| ==> o[i].0 in r
  {
    if |o| == 0 then {} else KeySet(o[..|o| - 1]) + {o[|o| - 1].0}
  }

  predicate UniqueKeys(o: Props) {
    |o| == 0 || (UniqueKeys(o[..|o| - 1]) && o[|o| - 1].0 !in KeySet(o[..|o| - 1]))
  }

  /** `o[k]`, None standing for undefined. */
  function PropGet(o: Props, k: string): (r: Option<string>)
    ensures r.None? <==> k !in KeySet(o)
  {
    if |o| == 0 then None
    else if o[|o| - 1].0 == k then Some(o[|o| - 1].1)
    else PropGet(o[..|o| - 1], k)
  }

  /** The key of the accessor every plain object inherits; its setter ignores a string. */
  const ProtoKey := "__proto__"

  /** `o[k] = v` with a string `v`: an existing property keeps its place, a new one goes last.
      Under `__proto__` the assignment reaches the inherited setter, which ignores a value that is
      not an object, so no own property is made. */
  function PropSet(o: Props, k: string, v: string): (r: Props)
    requires UniqueKeys(o)
    ensures UniqueKeys(r)
    ensures KeySet(r) == if k == ProtoKey then KeySet(o) else KeySet(o) + {k}
    ensures k != ProtoKey ==> PropGet(r, k) == Some(v)
    ensures forall k' :: k' != k ==> PropGet(r, k') == PropGet(o, k')
    ensures k == ProtoKey ==> r == o
  {
    if k == ProtoKey then o
    else if |o| == 0 then [(k, v)]
    else
      var init := o[..|o| - 1];
      if o[|o| - 1].0 == k then
        var r := init + [(k, v)];
        assert r[..|r| - 1] == init;
        r
      else
        var r := PropSet(init, k, v) + [o[|o| - 1]];
        assert r[..|r| - 1] == PropSet(init, k, v);
        r
  }

  /** `delete o[k]` */
  function PropDelete(o: Props, k: string): (r: Props)
    requires UniqueKeys(o)
    ensures UniqueKeys(r)
    ensures KeySet(r) == KeySet(o) - {k}
    ensures PropGet(r, k) == None
    ensures forall k' :: k' != k ==> PropGet(r, k') == PropGet(o, k')
  {
    if |o| == 0 then []
    else
      var init := o[..|o| - 1];
      if o[|o| - 1].0 == k then init
      else
        var r := PropDelete(init, k) + [o[|o| - 1]];
        assert r[..|r| - 1] == PropDelete(init, k);
        r
  }

  /** A key that is an array index: the canonical decimal form of an integer below 2^32 - 1. */
  predicate IsArrayIndex(k: string) {
    |k| >= 1 && AllDigits(k) && (|k| == 1 || k[0] != '0') && DigitsValue(k) < 0xFFFF_FFFF
  }

  function IndexValue(k: string): real {
    if AllDigits(k) then DigitsValue(k) as real else 0.0
  }

  function KeysWhere(o: Props, index: bool): (r: seq<string>)
    ensures forall x :: x in r <==> x in KeySet(o) && IsArrayIndex(x) == index
  {
    if |o| == 0 then []
    else
      var init := KeysWhere(o[..|o| - 1], index);
      if IsArrayIndex(o[|o| - 1].0) == index then init + [o[|o| - 1].0] else init
  }

  /** `Object.keys(o)`: array-index keys first in ascending numeric order, then the other keys in
      creation order. */
  function Keys(o: Props): (r: seq<string>)
    ensures forall x :: x in r <==> x in KeySet(o)
  {
    var indexKeys := Sorting.SortBy(KeysWhere(o, true), IndexValue);
    assert forall x :: x in indexKeys <==> x in multiset(indexKeys);
    indexKeys + KeysWhere(o, false)
  }

  // ---------------------------------------------------------------------------------------------
  // Lines

  /** The property one field writes: the text before its first colon names it, the rest is the
      value. A field without a colon is written under the empty key (`substring(0, -1)` is empty)
      with the whole field as its value. */
  function FieldKey(field: string): string {
    var c := IndexOf(field, ':');
    if c == -1 then "" else field[..c]
  }

  function FieldValue(field: string): string {
    var c := IndexOf(field, ':');
    field[c + 1..]
  }

  /** `lineComponents` after its fields are written in order. */
  function Components(fields: seq<string>): (r: Props)
    ensures UniqueKeys(r)
    ensures ProtoKey !in KeySet(r)
  {
    if |fields| == 0 then []
    else
      var f := fields[|fields| - 1];
      PropSet(Components(fields[..|fields| - 1]), FieldKey(f), FieldValue(f))
  }

  /** The inner `forEach` over a line's fields. */
  method ReadComponents(fields: seq<string>) returns (o: Props)
    ensures o == Components(fields)
  {
    o := [];
    var i := 0;
    while i < |fields|
      invariant 0 <= i <= |fields|
      invariant o == Components(fields[..i])
    {
      assert fields[..i + 1][..i] == fields[..i];
      o := PropSet(o, FieldKey(fields[i]), FieldValue(fields[i]));
      i := i + 1;
    }
    assert fields[..|fields|] == fields;
  }

  const ReservedKeys: seq<string> := ["id", "title", "abstract", "link", "layer", "feature", "image"]

  function DeleteAll(o: Props, keys: seq<string>): (r: Props)
    requires UniqueKeys(o)
    ensures UniqueKeys(r)
    ensures forall k :: k in keys ==> PropGet(r, k) == None
    ensures forall k :: k !in keys ==> PropGet(r, k) == PropGet(o, k)
    ensures KeySet(r) == KeySet(o) - set k | k in keys
    decreases |keys|
  {
    if |keys| == 0 then o else DeleteAll(PropDelete(o, keys[0]), keys[1..])
  }

  datatype DocEntry = DocEntry(
    id: Option<int>, title: string, abstractText: string, link: string,
    layer: Option<int>, feature: Option<real>, otherFields: Option<Props>)

  function TrimmedOrEmpty(v: Option<string>): string {
    if v.None? then "" else Trim(v.value)
  }

  /** A line is kept when its `id` and `layer` values are present and non-empty. */
  predicate Identified(o: Props) {
    PropGet(o, "id").Some? && PropGet(o, "id") != Some("")
    && PropGet(o, "layer").Some? && PropGet(o, "layer") != Some("")
  }

  /** `parseInt(x, 10) - 1`, NaN staying NaN. */
  function Minus1(x: Option<int>): Option<int> {
    if x.None? then None else Some(x.value - 1)
  }

  /** The entry a kept line describes, and the keys it adds to the extra columns. */
  function EntryOf(o: Props): (r: (DocEntry, seq<string>))
    requires UniqueKeys(o)
    ensures forall k :: k in r.1 <==> k !in ReservedKeys && k in KeySet(o)
    ensures r.0.otherFields.Some? <==> |r.1| > 0
    ensures r.0.otherFields.Some? ==> forall k :: k in ReservedKeys ==> k !in KeySet(r.0.otherFields.value)
  {
    var rest := DeleteAll(o, ReservedKeys);
    var extra := Keys(rest);
    (DocEntry(Minus1(ParseIntOf(PropGet(o, "id"))),
              TrimmedOrEmpty(PropGet(o, "title")), TrimmedOrEmpty(PropGet(o, "abstract")),
              TrimmedOrEmpty(PropGet(o, "link")),
              Minus1(ParseIntOf(PropGet(o, "layer"))), ParseFloatOf(PropGet(o, "feature")),
              if |extra| > 0 then Some(rest) else None),
     extra)
  }

  /** `Set.add` on a set kept as its insertion order. */
  function AddAll(columns: seq<string>, keys: seq<string>): (r: seq<string>)
    ensures forall x :: x in r <==> x in columns || x in keys
    ensures |columns| <= |r| && columns == r[..|columns|]
    decreases |keys|
  {
    if |keys| == 0 then columns
    else AddAll(if keys[0] in columns then columns else columns + [keys[0]], keys[1..])
  }

  /** `database`, keyed by 0-indexed entry id, and `extraColumnsSet` in insertion order. An entry
      whose id is NaN is stored under the property "NaN", which `getDocEntry` never reaches; its
      extra keys are still added to the columns. */
  datatype Database = Database(entries: JsArray<DocEntry>, extraColumns: seq<string>)
  {
    ghost predicate Valid() {
      && entries.Valid()
      && (forall k :: k in entries.elems ==> entries.elems[k].id == Some(k))
      && Distinct(extraColumns)
    }

    /** `getDocEntry` */
    function GetDocEntry(entryId: int): (r: Lookup<DocEntry>)
      ensures r != Null
      ensures r.Found? <==> entryId in entries.elems
      ensures r.Found? ==> r.value == entries.elems[entryId]
    {
      if entryId in entries.elems then Found(entries.elems[entryId]) else Undefined
    }
  }

  function EmptyDatabase(): (d: Database)
    ensures d.Valid()
  {
    Database(EmptyArray(), [])
  }

  predicate Distinct(s: seq<string>) {
    forall i, j :: 0 <= i < j < |s| ==> s[i] != s[j]
  }

  lemma AddAllUnique(columns: seq<string>, keys: seq<string>)
    requires Distinct(columns)
    ensures Distinct(AddAll(columns, keys))
    decreases |keys|
  {
    if |keys| > 0 {
      AddAllUnique(if keys[0] in columns then columns else columns + [keys[0]], keys[1..]);
    }
  }

  /** What a kept line writes: its entry under its id (when the id is a number), and its extra
      keys. */
  function Record(d: Database, entry: DocEntry, extra: seq<string>): (r: Database)
    requires d.Valid()
    ensures r.Valid()
    ensures forall k :: r.GetDocEntry(k) == if entry.id == Some(k) then Found(entry) else d.GetDocEntry(k)
    ensures forall x :: x in r.extraColumns <==> x in d.extraColumns || x in extra
  {
    AddAllUnique(d.extraColumns, extra);
    var entries := if entry.id.Some? then
        SetKeepsValid(d.entries, entry.id.value, entry);
        d.entries.Set(entry.id.value, entry)
      else d.entries;
    assert forall k :: k in entries.elems ==> entries.elems[k].id == Some(k) by {
      if entry.id.Some? {
        assert entry.id == Some(entry.id.value);
      }
    }
    var r := Database(entries, AddAll(d.extraColumns, extra));
    assert forall k :: r.GetDocEntry(k) == if entry.id == Some(k) then Found(entry) else d.GetDocEntry(k) by {
      forall k ensures r.GetDocEntry(k) == if entry.id == Some(k) then Found(entry) else d.GetDocEntry(k) {
        if entry.id == Some(k) {
          assert k in entries.elems && entries.elems[k] == entry;
        } else {
          assert (k in entries.elems) == (k in d.entries.elems);
          assert k in entries.elems ==> entries.elems[k] == d.entries.elems[k];
        }
      }
    }
    r
  }

  /** The properties of a line that is kept, or None. */
  function KeptLine(line: string): (r: Option<Props>)
    ensures r.Some? ==> UniqueKeys(r.value) && ProtoKey !in KeySet(r.value)
  {
    if IsBlank(line) then None
    else
      var o := Components(Split(line, '\t'));
      if Identified(o) then Some(o) else None
  }

  /** One turn of the `forEach` over lines: blank lines and lines without an id or a layer are
      skipped. Nothing is ever rejected. */
  function ParseLine(d: Database, line: string): (r: Database)
    requires d.Valid()
    ensures r.Valid()
  {
    match KeptLine(line)
    case None => d
    case Some(o) => var e := EntryOf(o); Record(d, e.0, e.1)
  }

  function ParseAll(lines: seq<string>): (r: Database)
    ensures r.Valid()
  {
    if |lines| == 0 then EmptyDatabase()
    else ParseLine(ParseAll(lines[..|lines| - 1]), lines[|lines| - 1])
  }

  /** `parseDatabase`, run by the constructor. */
  method ParseDatabase(text: string) returns (d: Database)
    ensures d == ParseAll(SplitLines(text))
  {
    var lines := SplitLines(text);
    d := EmptyDatabase();
    var i := 0;
    while i < |lines|
      invariant 0 <= i <= |lines|
      invariant d == ParseAll(lines[..i])
    {
      ParseAllStep(lines, i);
      if !IsBlank(lines[i]) {
        var o := ReadComponents(Split(lines[i], '\t'));
        if Identified(o) {
          var e := EntryOf(o);
          d := Record(d, e.0, e.1);
        }
      }
      i := i + 1;
    }
    assert lines[..|lines|] == lines;
  }

  lemma ParseAllStep(lines: seq<string>, i: nat)
    requires i < |lines|
    ensures ParseAll(lines[..i + 1]) == ParseLine(ParseAll(lines[..i]), lines[i])
  {
    assert lines[..i + 1][..i] == lines[..i];
  }

  // ---------------------------------------------------------------------------------------------
  // Properties

  /** The entry of the last kept line whose id reads as `k + 1`. */
  function LastEntryFor(lines: seq<string>, k: int): Option<DocEntry> {
    if |lines| == 0 then None
    else
      var kept := KeptLine(lines[|lines| - 1]);
      if kept.Some? && EntryOf(kept.value).0.id == Some(k) then Some(EntryOf(kept.value).0)
      else LastEntryFor(lines[..|lines| - 1], k)
  }

  /** Some kept line carries the non-reserved key `x`. */
  predicate ExtraKeyIn(lines: seq<string>, x: string) {
    |lines| > 0 &&
      var kept := KeptLine(lines[|lines| - 1]);
      (kept.Some? && x in EntryOf(kept.value).1) || ExtraKeyIn(lines[..|lines| - 1], x)
  }

  /** What a decoded database holds: `getDocEntry(k)` is the entry of the last kept line with that
      id. */
  lemma {:induction false} ParsedEntries(lines: seq<string>, k: int)
    ensures var d := ParseAll(lines);
      && (d.GetDocEntry(k).Found? <==> LastEntryFor(lines, k).Some?)
      && (d.GetDocEntry(k).Found? ==> d.GetDocEntry(k).value == LastEntryFor(lines, k).value)
  {
    if |lines| > 0 {
      var init := lines[..|lines| - 1];
      ParsedEntries(init, k);
      LineStep(init, lines);
      var kept := KeptLine(lines[|lines| - 1]);
      if kept.Some? {
        var e := EntryOf(kept.value);
        assert LastEntryFor(lines, k) == if e.0.id == Some(k) then Some(e.0) else LastEntryFor(init, k);
        assert ParseAll(lines) == Record(ParseAll(init), e.0, e.1);
      }
    }
  }

  /** The extra columns are exactly the non-reserved keys of kept lines, each once (`Valid`);
      a `__proto__` field never becomes one. */
  lemma {:induction false} ParsedColumns(lines: seq<string>, x: string)
    ensures x in ParseAll(lines).extraColumns <==> ExtraKeyIn(lines, x)
    ensures x in ParseAll(lines).extraColumns ==> x !in ReservedKeys && x != ProtoKey
  {
    if |lines| > 0 {
      var init := lines[..|lines| - 1];
      ParsedColumns(init, x);
      LineStep(init, lines);
    }
  }

  lemma LineStep(init: seq<string>, lines: seq<string>)
    requires |lines| > 0 && init == lines[..|lines| - 1]
    ensures var kept := KeptLine(lines[|lines| - 1]);
      ParseAll(lines) == if kept.None? then ParseAll(init)
                         else Record(ParseAll(init), EntryOf(kept.value).0, EntryOf(kept.value).1)
  {
  }

  /** A field the pipeline writes, `column + ":" + value`, names its column and carries its whole
      value, colons in the value included. */
  lemma FieldRoundTrip(field: string, column: string, value: string)
    requires forall i :: 0 <= i < |column| ==> column[i] != ':'
    requires field == column + ":" + value
    ensures FieldKey(field) == column && FieldValue(field) == value
  {
    assert field[|column|] == ':';
    assert forall i :: 0 <= i < |column| ==> field[i] == column[i];
    assert field[|column| + 1..] == value;
  }

  function FieldTokens(pairs: seq<(string, string)>): (r: seq<string>)
    ensures |r| == |pairs|
    ensures forall i :: 0 <= i < |pairs| ==> r[i] == pairs[i].0 + ":" + pairs[i].1
  {
    seq(|pairs|, i requires 0 <= i < |pairs| => pairs[i].0 + ":" + pairs[i].1)
  }

  /** A line of distinct columns, as the pipeline writes them, reads back each column's value,
      except a column named `__proto__`, which the decoder never holds. */
  lemma {:induction false} ComponentsOfWritten(pairs: seq<(string, string)>, i: nat)
    requires forall p, j :: 0 <= p < |pairs| && 0 <= j < |pairs[p].0| ==> pairs[p].0[j] != ':'
    requires forall p, q :: 0 <= p < q < |pairs| ==> pairs[p].0 != pairs[q].0
    requires i < |pairs|
    ensures PropGet(Components(FieldTokens(pairs)), pairs[i].0)
            == if pairs[i].0 == ProtoKey then None else Some(pairs[i].1)
  {
    var fields := FieldTokens(pairs);
    var n := |pairs| - 1;
    var init := pairs[..n];
    assert fields[..n] == FieldTokens(init);
    FieldRoundTrip(fields[n], pairs[n].0, pairs[n].1);
    if i < n {
      ComponentsOfWritten(init, i);
    }
  }
}
