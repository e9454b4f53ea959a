/** Checking and normalising an uploaded training text. The text must hold between 1000 and 20000
    rows after a title row. It is accepted as metadata input (a header row naming title, abstract,
    link and other columns) when its rows pass the metadata rules; otherwise it is converted to
    simple input (one to three columns: title, abstract, link), each row written as three quoted,
    tab-separated cells.

    The CSV reader is abstract: `ParsedRows` is what it delivers for a text and a column delimiter,
    the rows it read (cells already trimmed) and the message of the error it raised at the next
    read, if any. A row's number is its position among the data rows, from 1. */
module DocumentHelper {
  import opened Js
  import DocumentExtensions

  type InputType = DocumentExtensions.InputType

  /** How a check ends: a value, or a validation error with its message. */
  datatype Checked<+T> = Accepted(value: T) | Rejected(message: string)

  datatype ParsedRows<R> = ParsedRows(rows: seq<R>, failure: Option<string>)

  // ---------------------------------------------------------------------------------------------
  // .NET string operations

  /** `char.IsWhiteSpace`: the Unicode space separators, line and paragraph separators, and the
      control characters tab through carriage return and next line. */
  predicate IsWhiteSpace(c: char) {
    || c == ' ' || ('\t' <= c <= '\r') || c == '\U{0085}' || c == '\U{00A0}' || c == '\U{1680}'
    || ('\U{2000}' <= c <= '\U{200A}') || c == '\U{2028}' || c == '\U{2029}' || c == '\U{202F}'
    || c == '\U{205F}' || c == '\U{3000}'
  }

  /** `string.IsNullOrWhiteSpace`. */
  predicate IsNullOrWhiteSpace(s: Option<string>) {
    s.None? || forall i :: 0 <= i < |s.value| ==> IsWhiteSpace(s.value[i])
  }

  /** The characters `drop` selects, removed from the front. */
  function TrimStartWhere(s: string, drop: char -> bool): (r: string)
    ensures |r| <= |s| && r == s[|s| - |r|..]
    ensures r == [] || !drop(r[0])
    ensures forall i :: 0 <= i < |s| - |r| ==> drop(s[i])
  {
    if |s| > 0 && drop(s[0]) then
      var r := TrimStartWhere(s[1..], drop);
      assert s[1..][|s[1..]| - |r|..] == s[|s| - |r|..];
      r
    else s
  }

  /** The characters `drop` selects, removed from the back. */
  function TrimEndWhere(s: string, drop: char -> bool): (r: string)
    ensures |r| <= |s| && r == s[..|r|]
    ensures r == [] || !drop(r[|r| - 1])
    ensures forall i :: |r| <= i < |s| ==> drop(s[i])
  {
    if |s| > 0 && drop(s[|s| - 1]) then TrimEndWhere(s[..|s| - 1], drop) else s
  }

  function TrimWhere(s: string, drop: char -> bool): string {
    TrimEndWhere(TrimStartWhere(s, drop), drop)
  }

  /** `s.Trim()` */
  function CsTrim(s: string): string {
    TrimWhere(s, IsWhiteSpace)
  }

  /** Trimming leaves nothing exactly when the text is white space (or empty). */
  lemma CsTrimEmptyIffWhiteSpace(s: string)
    ensures CsTrim(s) == "" <==> IsNullOrWhiteSpace(Some(s))
  {
    var front := TrimStartWhere(s, IsWhiteSpace);
    if front != "" {
      assert !IsWhiteSpace(s[|s| - |front|]);
    }
  }

  function UpperChar(c: char): char {
    if 'a' <= c <= 'z' then (c as int - 32) as char else c
  }

  /** `ToUpperInvariant`, on the ASCII letters. */
  function ToUpper(s: string): (r: string)
    ensures |r| == |s|
  {
    seq(|s|, i requires 0 <= i < |s| => UpperChar(s[i]))
  }

  /** `s.StartsWith(prefix, StringComparison.InvariantCultureIgnoreCase)`. */
  predicate StartsWithIgnoreCase(s: string, prefix: string) {
    |prefix| <= |s| && ToUpper(s[..|prefix|]) == ToUpper(prefix)
  }

  predicate IsUrl(s: string) {
    StartsWithIgnoreCase(s, "https://") || StartsWithIgnoreCase(s, "http://")
  }

  /** `s.Split(new[] { "\r\n", "\n", "\r" }, StringSplitOptions.None)`: at each position "\r\n" is
      tried first, so a CR LF pair is one separator. */
  function SplitNewlines(s: string): (r: seq<string>)
    ensures |r| >= 1
    ensures forall i, j :: 0 <= i < |r| && 0 <= j < |r[i]| ==> r[i][j] != '\n' && r[i][j] != '\r'
  {
    if |s| == 0 then [""]
    else if |s| >= 2 && s[0] == '\r' && s[1] == '\n' then [""] + SplitNewlines(s[2..])
    else if s[0] == '\n' || s[0] == '\r' then [""] + SplitNewlines(s[1..])
    else
      var rest := SplitNewlines(s[1..]);
      [[s[0]] + rest[0]] + rest[1..]
  }

  predicate NoLineBreak(s: string) {
    forall j :: 0 <= j < |s| ==> s[j] != '\n' && s[j] != '\r'
  }

  lemma {:induction false} SplitNewlinesNoBreak(s: string)
    requires NoLineBreak(s)
    ensures SplitNewlines(s) == [s]
  {
    if |s| > 0 {
      SplitNewlinesNoBreak(s[1..]);
      assert [s[0]] + s[1..] == s;
    }
  }

  /** Splitting `a + newline + b`, where `a` has no line break, gives `a` and then the lines of `b`. */
  lemma {:induction false} SplitNewlinesAppend(a: string, newline: string, b: string)
    requires NoLineBreak(a)
    requires newline == "\n" || newline == "\r\n"
    ensures SplitNewlines(a + newline + b) == [a] + SplitNewlines(b)
  {
    if |a| == 0 {
      assert a + newline + b == newline + b;
      SplitNewlinesAfterBreak(newline, b);
    } else {
      var s := a + newline + b;
      SplitNewlinesAppend(a[1..], newline, b);
      assert s[1..] == a[1..] + newline + b;
      assert s[0] == a[0] && a[0] != '\n' && a[0] != '\r';
      assert [a[0]] + a[1..] == a;
    }
  }

  lemma SplitNewlinesAfterBreak(newline: string, b: string)
    requires newline == "\n" || newline == "\r\n"
    ensures SplitNewlines(newline + b) == [""] + SplitNewlines(b)
  {
    if newline == "\r\n" {
      assert (newline + b)[2..] == b;
    } else {
      assert (newline + b)[1..] == b;
    }
  }

  // ---------------------------------------------------------------------------------------------
  // Row count

  /** `IsValidDocumentLength`: an optional header row and then 1000 to 20000 rows. */
  predicate IsValidDocumentLength(documentText: string, hasTitle: bool) {
    var lines := SplitNewlines(documentText);
    var extra := if hasTitle then 1 else 0;
    1000 + extra <= |lines| <= 20000 + extra
  }

  /** Rows written out with a line-feed or CR-LF separator are counted back one for one. */
  lemma {:induction false} JoinedRowsSplitBack(rows: seq<string>, newline: string)
    requires |rows| >= 1 && forall k :: 0 <= k < |rows| ==> NoLineBreak(rows[k])
    requires newline == "\n" || newline == "\r\n"
    ensures SplitNewlines(Join(rows, newline)) == rows
  {
    if |rows| == 1 {
      SplitNewlinesNoBreak(rows[0]);
    } else {
      JoinedRowsSplitBack(rows[1..], newline);
      SplitNewlinesAppend(rows[0], newline, Join(rows[1..], newline));
      assert rows == [rows[0]] + rows[1..];
    }
  }

  /** On such a text the length rule asks for a title row and 1000 to 20000 more. */
  lemma ValidLengthCountsRows(rows: seq<string>, newline: string)
    requires |rows| >= 1 && forall k :: 0 <= k < |rows| ==> NoLineBreak(rows[k])
    requires newline == "\n" || newline == "\r\n"
    ensures IsValidDocumentLength(Join(rows, newline), true) <==> 1001 <= |rows| <= 20001
  {
    JoinedRowsSplitBack(rows, newline);
  }

  // ---------------------------------------------------------------------------------------------
  // Header detection

  /** `documentText.IndexOf("\r\n")`, -1 when absent. */
  function IndexOfCrLf(s: string): (r: int)
    ensures -1 <= r < |s|
    ensures r == -1 <==> (forall j :: 0 <= j < |s| - 1 ==> !(s[j] == '\r' && s[j + 1] == '\n'))
    ensures r >= 0 ==> r + 1 < |s| && s[r] == '\r' && s[r + 1] == '\n'
  {
    if |s| < 2 then -1
    else if s[0] == '\r' && s[1] == '\n' then 0
    else
      var k := IndexOfCrLf(s[1..]);
      assert forall j :: 1 <= j < |s| - 1 ==> s[j] == s[1..][j - 1] && s[j + 1] == s[1..][j];
      if k == -1 then -1 else k + 1
  }

  function Min3(a: int, b: int, c: int): int {
    if a <= b && a <= c then a else if b <= c then b else c
  }

  /** `Math.Max(new[] { IndexOf("\r\n"), IndexOf('\n'), IndexOf('\r') }.Min(), 0)` */
  function FirstLineLength(s: string): (r: nat)
    ensures r <= |s|
  {
    var m := Min3(IndexOfCrLf(s), IndexOf(s, '\n'), IndexOf(s, '\r'));
    if m < 0 then 0 else m
  }

  /** Since a missing separator counts as -1, the first line is empty unless the text holds a
      CR LF pair; when it does, the first line runs up to the first line break. */
  lemma FirstLineLengthMeaning(s: string)
    ensures IndexOfCrLf(s) == -1 ==> FirstLineLength(s) == 0
    ensures IndexOfCrLf(s) >= 0 ==> NoLineBreak(s[..FirstLineLength(s)]) &&
                                     (s[FirstLineLength(s)] == '\n' || s[FirstLineLength(s)] == '\r')
  {
    if IndexOfCrLf(s) >= 0 {
      var k := FirstLineLength(s);
      assert IndexOf(s, '\r') >= 0 && IndexOf(s, '\n') >= 0;
      assert forall j :: 0 <= j < k ==> s[..k][j] == s[j];
    }
  }

  /** A header line ended by CR LF is read in full. */
  lemma FirstLineOfCrLfText(header: string, rest: string)
    requires NoLineBreak(header)
    ensures FirstLineLength(header + "\r\n" + rest) == |header|
  {
    var s := header + "\r\n" + rest;
    assert s[|header|] == '\r' && s[|header| + 1] == '\n';
    assert forall j :: 0 <= j < |header| ==> s[j] == header[j];
  }

  predicate IsHeaderSeparator(c: char) {
    c == ',' || c == '\t'
  }

  /** `s.Split(new char[] { ',', '\t' })` */
  function SplitHeader(s: string): (r: seq<string>)
    ensures |r| >= 1
  {
    if |s| == 0 then [""]
    else
      var rest := SplitHeader(s[1..]);
      if IsHeaderSeparator(s[0]) then [""] + rest
      else [[s[0]] + rest[0]] + rest[1..]
  }

  /** `title.Trim().Trim('"').ToUpperInvariant()` */
  function HeaderName(cell: string): string {
    ToUpper(TrimWhere(CsTrim(cell), c => c == '"'))
  }

  /** `throwErrors`: some cell of the first line names TITLE or ABSTRACT, so the text is taken to
      be meant as metadata input and its errors are reported. */
  predicate ThrowErrors(documentText: string) {
    var cells := SplitHeader(documentText[..FirstLineLength(documentText)]);
    exists k :: 0 <= k < |cells| && (HeaderName(cells[k]) == "TITLE" || HeaderName(cells[k]) == "ABSTRACT")
  }

  /** Without a CR LF pair no header is recognised, so metadata errors are never reported. */
  lemma NoCrLfNoThrow(documentText: string)
    requires IndexOfCrLf(documentText) == -1
    ensures !ThrowErrors(documentText)
  {
    FirstLineLengthMeaning(documentText);
    assert documentText[..0] == "";
    assert SplitHeader("") == [""];
    assert |HeaderName("")| == 0;
  }

  // ---------------------------------------------------------------------------------------------
  // Metadata input

  function Field(row: map<string, string>, name: string): Option<string> {
    if name in row then Some(row[name]) else None
  }

  function MissingTextMessage(n: nat): string {
    "Row " + NatToString(n) + " must contain at least a title or abstract field."
  }

  function BadLinkMessage(n: nat): string {
    "Row " + NatToString(n) + " has a link that is not formatted like a url."
  }

  /** The rule a metadata row breaks, if any: it needs a title or an abstract, and a link, when
      given, must be a URL. */
  function MetadataRowError(row: map<string, string>, n: nat): (r: Option<string>)
    ensures r.None? <==> (!IsNullOrWhiteSpace(Field(row, "title")) || !IsNullOrWhiteSpace(Field(row, "abstract"))) &&
                         (IsNullOrWhiteSpace(Field(row, "link")) || IsUrl(Field(row, "link").value))
  {
    if IsNullOrWhiteSpace(Field(row, "title")) && IsNullOrWhiteSpace(Field(row, "abstract")) then
      Some(MissingTextMessage(n))
    else if !IsNullOrWhiteSpace(Field(row, "link")) && !IsUrl(Field(row, "link").value) then
      Some(BadLinkMessage(n))
    else None
  }

  /** The message for the first row that breaks a rule, rows numbered from 1. */
  function MetadataError(rows: seq<map<string, string>>): Option<string> {
    if |rows| == 0 then None
    else match MetadataError(rows[..|rows| - 1])
      case Some(m) => Some(m)
      case None => MetadataRowError(rows[|rows| - 1], |rows|)
  }

  /** Metadata rows pass exactly when every row keeps the rules; otherwise the message is that of
      the first row that does not. */
  lemma {:induction false} MetadataErrorMeaning(rows: seq<map<string, string>>)
    ensures MetadataError(rows).None? <==> forall k :: 0 <= k < |rows| ==> MetadataRowError(rows[k], k + 1).None?
    ensures MetadataError(rows).Some? ==>
              exists k :: 0 <= k < |rows| && MetadataError(rows) == MetadataRowError(rows[k], k + 1) &&
                          forall j :: 0 <= j < k ==> MetadataRowError(rows[j], j + 1).None?
  {
    if |rows| > 0 {
      var init := rows[..|rows| - 1];
      MetadataErrorMeaning(init);
      assert forall k :: 0 <= k < |init| ==> init[k] == rows[k];
    }
  }

  /** `ValidateMetadataInput`: true when every row keeps the metadata rules and the reader raised
      nothing; otherwise the first error is reported when the header names a title or abstract
      column, and the answer is false when it does not. */
  function ValidateMetadataInput(documentText: string, parsed: ParsedRows<map<string, string>>): (r: Checked<bool>)
    ensures r == Accepted(true) <==> MetadataError(parsed.rows).None? && parsed.failure.None?
    ensures r.Rejected? ==> ThrowErrors(documentText)
    ensures r.Rejected? ==> r.message == if MetadataError(parsed.rows).Some? then MetadataError(parsed.rows).value
                                         else parsed.failure.value
    ensures r == Accepted(false) ==> !ThrowErrors(documentText)
  {
    var error := if MetadataError(parsed.rows).Some? then MetadataError(parsed.rows) else parsed.failure;
    if error.None? then Accepted(true)
    else if ThrowErrors(documentText) then Rejected(error.value)
    else Accepted(false)
  }

  // ---------------------------------------------------------------------------------------------
  // Simple input

  function ColumnCountMessage(n: nat, count: nat): string {
    "Row " + NatToString(n) + " has " + NatToString(count) + " columns. It needs to have between 1 and 3 columns."
  }

  function BadUrlMessage(n: nat): string {
    "Row " + NatToString(n) + " has a third column that is not formatted like a url."
  }

  /** `parser[i]`: null past the row's last column. */
  function Column(row: seq<string>, i: nat): Option<string> {
    if i < |row| then Some(row[i]) else None
  }

  /** The rule a simple row breaks, if any: one to three columns, and a third column, when not
      blank, must be a URL. */
  function SimpleRowError(row: seq<string>, n: nat): Option<string> {
    if |row| > 3 || |row| < 1 then Some(ColumnCountMessage(n, |row|))
    else if !IsNullOrWhiteSpace(Column(row, 2)) && !IsUrl(row[2]) then Some(BadUrlMessage(n))
    else None
  }

  /** A row passes exactly when it has one to three columns and its third, when present and not
      blank, is a URL; the message names the row. */
  lemma SimpleRowPasses(row: seq<string>, n: nat)
    ensures SimpleRowError(row, n).None? <==> 1 <= |row| <= 3 && (IsNullOrWhiteSpace(Column(row, 2)) || IsUrl(row[2]))
    ensures !(1 <= |row| <= 3) ==> SimpleRowError(row, n) == Some(ColumnCountMessage(n, |row|))
    ensures 1 <= |row| <= 3 && SimpleRowError(row, n).Some? ==> SimpleRowError(row, n) == Some(BadUrlMessage(n))
  {
  }

  function CleanChar(c: char): char {
    if c == '"' then '\'' else if c == '\t' || c == '\n' || c == '\r' then ' ' else c
  }

  predicate IsCleanChar(c: char) {
    c != '"' && c != '\t' && c != '\n' && c != '\r'
  }

  /** A cell's quotes become apostrophes and its tabs and line breaks spaces; a null cell is empty. */
  function Clean(cell: Option<string>): (r: string)
    ensures forall i :: 0 <= i < |r| ==> IsCleanChar(r[i])
    ensures cell.Some? ==> |r| == |cell.value|
    ensures cell.Some? ==> forall i :: 0 <= i < |r| && IsCleanChar(cell.value[i]) ==> r[i] == cell.value[i]
    ensures cell.Some? ==> forall i :: 0 <= i < |r| && cell.value[i] == '"' ==> r[i] == '\''
    ensures cell.Some? ==> forall i :: 0 <= i < |r| && !IsCleanChar(cell.value[i]) && cell.value[i] != '"' ==> r[i] == ' '
    ensures cell.None? ==> r == ""
  {
    match cell
    case None => ""
    case Some(s) => seq(|s|, i requires 0 <= i < |s| => CleanChar(s[i]))
  }

  function Quote(s: string): string {
    "\"" + s + "\""
  }

  /** The three cleaned cells of a row, quoted. */
  function OutputCells(row: seq<string>): seq<string> {
    [Quote(Clean(Column(row, 0))), Quote(Clean(Column(row, 1))), Quote(Clean(Column(row, 2)))]
  }

  /** One simple row written out: its cells, tab separated. */
  function FormatRow(row: seq<string>): string {
    Join(OutputCells(row), "\t")
  }

  /** A written row splits back on tabs into exactly its three quoted cells, and holds no line break. */
  lemma FormatRowShape(row: seq<string>)
    ensures Split(FormatRow(row), '\t') == OutputCells(row)
    ensures NoLineBreak(FormatRow(row))
  {
    var cells := OutputCells(row);
    forall i, j | 0 <= i < |cells| && 0 <= j < |cells[i]|
      ensures cells[i][j] != '\t' && cells[i][j] != '\n' && cells[i][j] != '\r'
    {
      var c := Clean(Column(row, i));
      assert cells[i] == "\"" + c + "\"";
      if 0 < j < |cells[i]| - 1 {
        assert cells[i][j] == c[j - 1];
      }
    }
    SplitJoin(cells, '\t');
    NoBreakJoin(cells, "\t");
  }

  lemma {:induction false} NoBreakJoin(pieces: seq<string>, sep: string)
    requires NoLineBreak(sep)
    requires forall i, j :: 0 <= i < |pieces| && 0 <= j < |pieces[i]| ==> pieces[i][j] != '\n' && pieces[i][j] != '\r'
    ensures NoLineBreak(Join(pieces, sep))
  {
    if |pieces| > 1 {
      NoBreakJoin(pieces[1..], sep);
      var rest := Join(pieces[1..], sep);
      var s := pieces[0] + sep + rest;
      forall j | 0 <= j < |s|
        ensures s[j] != '\n' && s[j] != '\r'
      {
        if j < |pieces[0]| {
          assert s[j] == pieces[0][j];
        } else if j < |pieces[0]| + |sep| {
          assert s[j] == sep[j - |pieces[0]|];
        } else {
          assert s[j] == rest[j - |pieces[0]| - |sep|];
        }
      }
    }
  }

  /** The written rows for the first rows read, or the message of the first row that breaks a rule. */
  function SimpleRows(rows: seq<seq<string>>): Checked<seq<string>> {
    if |rows| == 0 then Accepted([])
    else match SimpleRows(rows[..|rows| - 1])
      case Rejected(m) => Rejected(m)
      case Accepted(out) =>
        match SimpleRowError(rows[|rows| - 1], |rows|)
        case Some(m) => Rejected(m)
        case None => Accepted(out + [FormatRow(rows[|rows| - 1])])
  }

  /** Simple rows are converted exactly when every row keeps the rules, one written row per row
      read, in order. */
  lemma {:induction false} SimpleRowsAccepted(rows: seq<seq<string>>)
    ensures SimpleRows(rows).Accepted? <==> forall k :: 0 <= k < |rows| ==> SimpleRowError(rows[k], k + 1).None?
    ensures SimpleRows(rows).Accepted? ==>
              |SimpleRows(rows).value| == |rows| &&
              forall k :: 0 <= k < |rows| ==> SimpleRows(rows).value[k] == FormatRow(rows[k])
  {
    if |rows| > 0 {
      var n := |rows|;
      var init := rows[..n - 1];
      SimpleRowsAccepted(init);
      var before := SimpleRows(init);
      var error := SimpleRowError(rows[n - 1], n);
      if before.Rejected? {
        assert !forall k :: 0 <= k < |init| ==> SimpleRowError(init[k], k + 1).None?;
        var k :| 0 <= k < |init| && SimpleRowError(init[k], k + 1).Some?;
        assert init[k] == rows[k];
      } else if error.Some? {
      } else {
        var out := before.value + [FormatRow(rows[n - 1])];
        assert SimpleRows(rows) == Accepted(out);
        forall k | 0 <= k < n
          ensures SimpleRowError(rows[k], k + 1).None? && out[k] == FormatRow(rows[k])
        {
          if k < n - 1 {
            assert init[k] == rows[k];
          }
        }
      }
    }
  }

  /** A rejection carries the message of the first row that breaks a rule. */
  lemma {:induction false} SimpleRowsRejected(rows: seq<seq<string>>)
    ensures SimpleRows(rows).Rejected? ==>
              exists k :: 0 <= k < |rows| && Some(SimpleRows(rows).message) == SimpleRowError(rows[k], k + 1) &&
                          forall j :: 0 <= j < k ==> SimpleRowError(rows[j], j + 1).None?
  {
    if |rows| > 0 && SimpleRows(rows).Rejected? {
      var n := |rows|;
      var init := rows[..n - 1];
      var k: nat;
      if SimpleRows(init).Rejected? {
        SimpleRowsRejected(init);
        k :| 0 <= k < |init| && Some(SimpleRows(init).message) == SimpleRowError(init[k], k + 1) &&
             forall j :: 0 <= j < k ==> SimpleRowError(init[j], j + 1).None?;
        assert SimpleRows(rows) == SimpleRows(init);
        assert init[k] == rows[k];
        assert Some(SimpleRows(rows).message) == SimpleRowError(rows[k], k + 1);
        forall j | 0 <= j < k
          ensures SimpleRowError(rows[j], j + 1).None?
        {
          assert init[j] == rows[j];
        }
      } else {
        SimpleRowsAccepted(init);
        k := n - 1;
        var error := SimpleRowError(rows[n - 1], n);
        assert error.Some?;
        assert SimpleRows(rows) == Rejected(error.value);
        forall j | 0 <= j < k
          ensures SimpleRowError(rows[j], j + 1).None?
        {
          assert init[j] == rows[j];
        }
      }
    }
  }

  /** The converted text: the written rows joined by `newline` (`Environment.NewLine`), unless a row
      broke a rule or the reader raised an error. */
  function SimpleInput(parsed: ParsedRows<seq<string>>, newline: string): Checked<string> {
    match SimpleRows(parsed.rows)
    case Rejected(m) => Rejected(m)
    case Accepted(out) => if parsed.failure.Some? then Rejected(parsed.failure.value) else Accepted(Join(out, newline))
  }

  /** A converted text reads back, line by line, as the written rows. */
  lemma SimpleInputLines(parsed: ParsedRows<seq<string>>, newline: string)
    requires SimpleInput(parsed, newline).Accepted? && |parsed.rows| >= 1
    requires newline == "\n" || newline == "\r\n"
    ensures |SimpleRows(parsed.rows).value| == |parsed.rows|
    ensures SplitNewlines(SimpleInput(parsed, newline).value) == SimpleRows(parsed.rows).value
    ensures forall k :: 0 <= k < |parsed.rows| ==>
              Split(SimpleRows(parsed.rows).value[k], '\t') == OutputCells(parsed.rows[k])
  {
    SimpleRowsAccepted(parsed.rows);
    var out := SimpleRows(parsed.rows).value;
    forall k | 0 <= k < |out|
      ensures NoLineBreak(out[k]) && Split(out[k], '\t') == OutputCells(parsed.rows[k])
    {
      FormatRowShape(parsed.rows[k]);
    }
    JoinedRowsSplitBack(out, newline);
  }

  /** `MakeSimpleInput`: reads the rows one by one, stopping at the first that breaks a rule. */
  method MakeSimpleInput(parsed: ParsedRows<seq<string>>, newline: string) returns (r: Checked<string>)
    ensures r == SimpleInput(parsed, newline)
  {
    var rowList: seq<string> := [];
    var rows := parsed.rows;
    var i := 0;
    while i < |rows|
      invariant 0 <= i <= |rows|
      invariant SimpleRows(rows[..i]) == Accepted(rowList)
    {
      assert rows[..i + 1][..i] == rows[..i];
      var error := SimpleRowError(rows[i], i + 1);
      if error.Some? {
        SimpleRowsRejectedPrefix(rows, i + 1);
        return Rejected(error.value);
      }
      rowList := rowList + [FormatRow(rows[i])];
      i := i + 1;
    }
    assert rows[..|rows|] == rows;
    if parsed.failure.Some? {
      return Rejected(parsed.failure.value);
    }
    r := Accepted(Join(rowList, newline));
  }

  /** A rejection among the first rows stands for the whole list. */
  lemma {:induction false} SimpleRowsRejectedPrefix(rows: seq<seq<string>>, n: nat)
    requires n <= |rows| && SimpleRows(rows[..n]).Rejected?
    ensures SimpleRows(rows) == SimpleRows(rows[..n])
    decreases |rows| - n
  {
    if n < |rows| {
      assert rows[..n + 1][..n] == rows[..n];
      SimpleRowsRejectedPrefix(rows, n + 1);
    } else {
      assert rows[..n] == rows;
    }
  }

  // ---------------------------------------------------------------------------------------------
  // Preparing a text

  const MustExistMessage: string := "The file must exist."
  const RowCountMessage: string := "The file needs to have between 1000 and 20000 rows."

  /** The reader's column delimiter: a tab if the text holds one, else a comma. */
  function Delimiter(documentText: string): char {
    if '\t' in documentText then '\t' else ','
  }

  /** `PrepareInputText`: a missing or blank text and a text with the wrong number of rows are
      rejected; after trimming, a text that passes as metadata input is kept as it is, and any
      other is converted to simple input, a conversion error becoming a validation error with the
      same message. The readers stand for the CSV reader on the trimmed text, with and without a
      header row. */
  method PrepareInputText(documentText: Option<string>,
                          readHeaded: (string, char) -> ParsedRows<map<string, string>>,
                          readPlain: (string, char) -> ParsedRows<seq<string>>,
                          newline: string)
    returns (r: Checked<(InputType, string)>)
    ensures IsNullOrWhiteSpace(documentText) ==> r == Rejected(MustExistMessage)
    ensures !IsNullOrWhiteSpace(documentText) ==>
              var text := CsTrim(documentText.value);
              var metadata := ValidateMetadataInput(text, readHeaded(text, Delimiter(text)));
              var simple := SimpleInput(readPlain(text, Delimiter(text)), newline);
              (!IsValidDocumentLength(text, true) ==> r == Rejected(RowCountMessage)) &&
              (IsValidDocumentLength(text, true) ==>
                 (metadata.Rejected? ==> r == Rejected(metadata.message)) &&
                 (metadata == Accepted(true) ==> r == Accepted((DocumentExtensions.MetadataInput, text))) &&
                 (metadata == Accepted(false) && simple.Rejected? ==> r == Rejected(simple.message)) &&
                 (metadata == Accepted(false) && simple.Accepted? ==>
                    r == Accepted((DocumentExtensions.SimpleInput, simple.value))))
  {
    if IsNullOrWhiteSpace(documentText) {
      return Rejected(MustExistMessage);
    }
    var text := CsTrim(documentText.value);
    if !IsValidDocumentLength(text, true) {
      return Rejected(RowCountMessage);
    }
    var metadata := ValidateMetadataInput(text, readHeaded(text, Delimiter(text)));
    if metadata.Rejected? {
      return Rejected(metadata.message);
    }
    if metadata.value {
      return Accepted((DocumentExtensions.MetadataInput, text));
    }
    var simple := MakeSimpleInput(readPlain(text, Delimiter(text)), newline);
    if simple.Rejected? {
      return Rejected(simple.message);
    }
    r := Accepted((DocumentExtensions.SimpleInput, simple.value));
  }
}
