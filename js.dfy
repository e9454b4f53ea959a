/** The JavaScript semantics the client-side decoders rely on: the error kinds they raise, sparse
    arrays, `String.prototype.split`, `trim`, `startsWith`, `parseInt`, `parseFloat`, and the
    truncating `%` operator. Only the behaviour the decoders can reach is modelled. */
module Js {

  datatype Option<+T> = None | Some(value: T)

  /** The two ways a decoder or a query can fail: the decoder's own `throw new Error(msg)`, and the
      TypeError the engine raises when code dereferences `null` or `undefined`. */
  datatype JsError = FormatError(message: string) | TypeError

  datatype Result<+T> = Ok(value: T) | Err(error: JsError) {
    predicate IsFailure() { Err? }
    function PropagateFailure<U>(): Result<U>
      requires Err?
    {
      Err(error)
    }
    function Extract(): T
      requires Ok?
    {
      value
    }
  }

  /** What a property read gives: `null` (a getter's explicit "missing"), `undefined` (an absent
      array slot or object key), or a value. */
  datatype Lookup<+T> = Null | Undefined | Found(value: T)

  // ---------------------------------------------------------------------------------------------
  // Sparse arrays

  /** A JavaScript array written only by index assignment: its slots, and the `length` property the
      engine keeps at one more than the highest non-negative index written. A negative key is an
      ordinary property: it reads back but does not count towards `length`. */
  datatype JsArray<T> = JsArray(elems: map<int, T>, length: nat) {

    ghost predicate Valid() {
      && (forall k :: k in elems && k >= 0 ==> k < length)
      && (length > 0 ==> length - 1 in elems)
    }

    function Get(k: int): (r: Option<T>)
      ensures r.Some? <==> k in elems
      ensures r.Some? ==> r.value == elems[k]
    {
      if k in elems then Some(elems[k]) else None
    }

    /** `a[k] = v` */
    function Set(k: int, v: T): (r: JsArray<T>)
      ensures r.elems == elems[k := v]
      ensures r.length == if k >= length then k + 1 else length
    {
      JsArray(elems[k := v], if k >= length then k + 1 else length)
    }
  }

  /** Writing by index keeps `length` one past the highest index. */
  lemma SetKeepsValid<T>(a: JsArray<T>, k: int, v: T)
    requires a.Valid()
    ensures a.Set(k, v).Valid()
  {
  }

  function EmptyArray<T>(): (r: JsArray<T>)
    ensures r.Valid() && r.elems == map[] && r.length == 0
  {
    JsArray(map[], 0)
  }

  // ---------------------------------------------------------------------------------------------
  // Strings

  /** ECMAScript WhiteSpace and LineTerminator code points: what `trim` removes and what
      `parseInt`/`parseFloat` skip at the front. */
  predicate IsSpace(c: char) {
    || c == ' ' || c == '\t' || c == '\n' || c == '\r' || c == '\U{000B}' || c == '\U{000C}'
    || c == '\U{00A0}' || c == '\U{1680}' || ('\U{2000}' <= c <= '\U{200A}')
    || c == '\U{2028}' || c == '\U{2029}' || c == '\U{202F}' || c == '\U{205F}'
    || c == '\U{3000}' || c == '\U{FEFF}'
  }

  /** `s.trim() === ''` */
  predicate IsBlank(s: string) {
    forall i :: 0 <= i < |s| ==> IsSpace(s[i])
  }

  function TrimStart(s: string): (r: string)
    ensures |r| <= |s| && r == s[|s| - |r|..]
    ensures r == [] || !IsSpace(r[0])
    ensures forall i :: 0 <= i < |s| - |r| ==> IsSpace(s[i])
  {
    if |s| > 0 && IsSpace(s[0]) then
      var r := TrimStart(s[1..]);
      assert s[1..][|s[1..]| - |r|..] == s[|s| - |r|..];
      r
    else s
  }

  function TrimEnd(s: string): (r: string)
    ensures |r| <= |s| && r == s[..|r|]
    ensures r == [] || !IsSpace(r[|r| - 1])
    ensures forall i :: |r| <= i < |s| ==> IsSpace(s[i])
  {
    if |s| > 0 && IsSpace(s[|s| - 1]) then TrimEnd(s[..|s| - 1]) else s
  }

  /** `s.trim()` */
  function Trim(s: string): string {
    TrimEnd(TrimStart(s))
  }

  lemma TrimIsEmptyIffBlank(s: string)
    ensures Trim(s) == "" <==> IsBlank(s)
  {
  }

  predicate StartsWith(s: string, prefix: string) {
    |prefix| <= |s| && s[..|prefix|] == prefix
  }

  /** `s.split(sep)` for a one-character separator: the pieces between separators, so there is always
      at least one piece and no piece contains the separator. */
  function Split(s: string, sep: char): (r: seq<string>)
    ensures |r| >= 1
    ensures forall i, j :: 0 <= i < |r| && 0 <= j < |r[i]| ==> r[i][j] != sep
  {
    if |s| == 0 then [""]
    else
      var rest := Split(s[1..], sep);
      if s[0] == sep then [""] + rest
      else [[s[0]] + rest[0]] + rest[1..]
  }

  /** `pieces.join(sep)` */
  function Join(pieces: seq<string>, sep: string): string {
    if |pieces| == 0 then ""
    else if |pieces| == 1 then pieces[0]
    else pieces[0] + sep + Join(pieces[1..], sep)
  }

  lemma JoinStartsWithFirst(pieces: seq<string>, sep: string)
    requires |pieces| >= 1
    ensures |pieces[0]| <= |Join(pieces, sep)| && Join(pieces, sep)[..|pieces[0]|] == pieces[0]
  {
  }

  lemma {:induction false} JoinSplit(s: string, sep: char)
    ensures Join(Split(s, sep), [sep]) == s
  {
    if |s| > 0 {
      var rest := Split(s[1..], sep);
      JoinSplit(s[1..], sep);
      if s[0] != sep {
        if |rest| == 1 {
          assert Split(s, sep) == [[s[0]] + rest[0]];
        } else {
          assert Split(s, sep)[1..] == rest[1..];
          assert Join(rest, [sep]) == rest[0] + [sep] + Join(rest[1..], [sep]);
        }
      }
    }
  }

  lemma {:induction false} SplitJoin(pieces: seq<string>, sep: char)
    requires |pieces| >= 1
    requires forall i, j :: 0 <= i < |pieces| && 0 <= j < |pieces[i]| ==> pieces[i][j] != sep
    ensures Split(Join(pieces, [sep]), sep) == pieces
  {
    if |pieces| == 1 {
      SplitNoSep(pieces[0], sep);
    } else {
      SplitJoin(pieces[1..], sep);
      SplitAppend(pieces[0], Join(pieces[1..], [sep]), sep);
      assert pieces == [pieces[0]] + pieces[1..];
    }
  }

  lemma {:induction false} SplitNoSep(s: string, sep: char)
    requires forall j :: 0 <= j < |s| ==> s[j] != sep
    ensures Split(s, sep) == [s]
  {
    if |s| > 0 {
      SplitNoSep(s[1..], sep);
      assert [s[0]] + s[1..] == s;
    }
  }

  /** Splitting `a + sep + b`, where `a` holds no separator, gives `a` followed by the pieces of `b`. */
  lemma {:induction false} SplitAppend(a: string, b: string, sep: char)
    requires forall j :: 0 <= j < |a| ==> a[j] != sep
    ensures Split(a + [sep] + b, sep) == [a] + Split(b, sep)
  {
    if |a| == 0 {
      assert ([sep] + b)[1..] == b;
    } else {
      SplitAppend(a[1..], b, sep);
      assert (a + [sep] + b)[1..] == a[1..] + [sep] + b;
      assert [a[0]] + a[1..] == a;
    }
  }

  function DropTrailingCR(s: string): string {
    if |s| > 0 && s[|s| - 1] == '\r' then s[..|s| - 1] else s
  }

  /** `s.split(/\r?\n/)`: a separator is a line feed together with one carriage return right before
      it, if there is one. A carriage return not followed by a line feed is kept in its line. */
  function SplitLines(s: string): (r: seq<string>)
    ensures |r| == |Split(s, '\n')| >= 1
  {
    var pieces := Split(s, '\n');
    seq(|pieces|, i requires 0 <= i < |pieces| =>
      if i < |pieces| - 1 then DropTrailingCR(pieces[i]) else pieces[i])
  }

  lemma SplitLinesWithoutLineFeed(s: string)
    requires forall j :: 0 <= j < |s| ==> s[j] != '\n'
    ensures SplitLines(s) == [s]
  {
    SplitNoSep(s, '\n');
  }

  /** `s.indexOf(c)`, -1 when absent. */
  function IndexOf(s: string, c: char): (r: int)
    ensures -1 <= r < |s|
    ensures r == -1 <==> (forall j :: 0 <= j < |s| ==> s[j] != c)
    ensures r >= 0 ==> s[r] == c && forall j :: 0 <= j < r ==> s[j] != c
  {
    if |s| == 0 then -1
    else if s[0] == c then 0
    else var k := IndexOf(s[1..], c); if k == -1 then -1 else k + 1
  }

  // ---------------------------------------------------------------------------------------------
  // Numbers

  predicate IsDigit(c: char) { '0' <= c <= '9' }

  predicate AllDigits(s: string) {
    forall i :: 0 <= i < |s| ==> IsDigit(s[i])
  }

  /** The longest prefix of `s` made of decimal digits. */
  function DigitPrefix(s: string): (r: string)
    ensures |r| <= |s| && r == s[..|r|] && AllDigits(r)
    ensures |r| < |s| ==> !IsDigit(s[|r|])
  {
    if |s| > 0 && IsDigit(s[0]) then
      var r := DigitPrefix(s[1..]);
      assert [s[0]] + r == s[..|r| + 1];
      [s[0]] + r
    else ""
  }

  function DigitValue(c: char): nat
    requires IsDigit(c)
  {
    (c as int - '0' as int) as nat
  }

  function DigitsValue(s: string): nat
    requires AllDigits(s)
  {
    if |s| == 0 then 0 else DigitsValue(s[..|s| - 1]) * 10 + DigitValue(s[|s| - 1])
  }

  /** The decimal digits of `n`, as Python's `str` and `"%1d"` write a non-negative integer. */
  function NatToString(n: nat): (r: string)
    ensures |r| >= 1 && AllDigits(r)
    ensures DigitsValue(r) == n
    decreases n
  {
    var last := [('0' as int + n % 10) as char];
    if n < 10 then last else NatToString(n / 10) + last
  }

  /** `parseInt(s, 10)`, None standing for NaN: skip leading white space, read an optional sign, then
      as many digits as follow. No digit at all is NaN. */
  function ParseInt(s: string): Option<int> {
    if |s| > 0 && IsSpace(s[0]) then ParseInt(s[1..])
    else
      var negative := |s| > 0 && s[0] == '-';
      var digits := DigitPrefix(if |s| > 0 && (s[0] == '-' || s[0] == '+') then s[1..] else s);
      if digits == "" then None
      else Some(if negative then -(DigitsValue(digits) as int) else DigitsValue(digits))
  }

  /** `parseInt` reads back what `NatToString` writes, whatever follows the digits. */
  lemma ParseIntOfNatToString(n: nat, rest: string)
    requires rest == [] || !IsDigit(rest[0])
    ensures ParseInt(NatToString(n) + rest) == Some(n)
  {
    ParseIntOfDigits(NatToString(n), rest);
  }

  lemma ParseIntOfDigits(d: string, rest: string)
    requires |d| >= 1 && AllDigits(d)
    requires rest == [] || !IsDigit(rest[0])
    ensures ParseInt(d + rest) == Some(DigitsValue(d))
  {
    var s := d + rest;
    DigitPrefixOfDigits(d, rest);
    assert s[0] == d[0];
    DigitIsNotSpace(s[0]);
  }

  lemma DigitIsNotSpace(c: char)
    requires IsDigit(c)
    ensures !IsSpace(c) && c != '-' && c != '+' && c != ':' && c != '.'
  {
  }

  lemma {:induction false} DigitPrefixOfDigits(d: string, rest: string)
    requires AllDigits(d)
    requires rest == [] || !IsDigit(rest[0])
    ensures DigitPrefix(d + rest) == d
  {
    if |d| > 0 {
      DigitPrefixOfDigits(d[1..], rest);
      assert (d + rest)[1..] == d[1..] + rest;
    } else {
      assert d + rest == rest;
    }
  }

  function Pow10(e: nat): (r: nat)
    ensures r >= 1
  {
    if e == 0 then 1 else 10 * Pow10(e - 1)
  }

  function Scale10(x: real, e: int): real {
    if e >= 0 then x * (Pow10(e) as real) else x / (Pow10(-e) as real)
  }

  /** The exponent part of a decimal literal at the front of `s` (`e` or `E`, an optional sign, at
      least one digit); 0 when there is none. */
  function ExponentOf(s: string): int {
    if |s| > 0 && (s[0] == 'e' || s[0] == 'E') then
      var body := if |s| > 1 && (s[1] == '-' || s[1] == '+') then s[2..] else s[1..];
      var digits := DigitPrefix(body);
      if digits == "" then 0
      else if |s| > 1 && s[1] == '-' then -(DigitsValue(digits) as int) else DigitsValue(digits)
    else 0
  }

  /** `parseFloat(s)`, None standing for NaN: skip leading white space, then read the longest prefix
      that is a decimal literal `[sign] digits [. digits] [exponent]` or `[sign] . digits [exponent]`. */
  function ParseFloat(s: string): Option<real> {
    if |s| > 0 && IsSpace(s[0]) then ParseFloat(s[1..])
    else if |s| > 0 && s[0] == '-' then
      var m := Mantissa(s[1..], 0, 0, false, false);
      if m.None? then None else Some(-m.value)
    else if |s| > 0 && s[0] == '+' then Mantissa(s[1..], 0, 0, false, false)
    else Mantissa(s, 0, 0, false, false)
  }

  /** The rest of an unsigned decimal literal, character by character: `digits` is the value of the
      digits read so far, `places` how many of them follow the point, `dotted` whether the point
      was read and `seen` whether any digit was; the literal ends at the first character that
      cannot continue it, where an exponent may follow. */
  function Mantissa(s: string, digits: nat, places: nat, dotted: bool, seen: bool): Option<real> {
    if |s| > 0 && IsDigit(s[0]) then
      Mantissa(s[1..], 10 * digits + DigitValue(s[0]), if dotted then places + 1 else places, dotted, true)
    else if |s| > 0 && s[0] == '.' && !dotted then Mantissa(s[1..], digits, places, true, seen)
    else if !seen then None
    else Some(Scale10((digits as real) / (Pow10(places) as real), ExponentOf(s)))
  }

  /** Reading a run of digits before the point adds them to the integer read so far. */
  lemma {:induction false} MantissaDigits(d: string, rest: string, acc: nat, seen: bool)
    requires AllDigits(d)
    ensures Mantissa(d + rest, acc, 0, false, seen)
            == Mantissa(rest, acc * Pow10(|d|) + DigitsValue(d), 0, false, seen || |d| > 0)
    decreases |d|
  {
    if |d| == 0 {
      assert d + rest == rest;
    } else {
      var init, c := d[..|d| - 1], d[|d| - 1];
      assert AllDigits(init);
      assert d + rest == init + ([c] + rest);
      MantissaDigits(init, [c] + rest, acc, seen);
      var p, v := Pow10(|init|), DigitsValue(init);
      MantissaStep(c, rest, acc * p + v, seen || |init| > 0);
      assert DigitsValue(d) == v * 10 + DigitValue(c);
      assert Pow10(|d|) == 10 * p;
      ShiftDigit(acc, p, v, DigitValue(c));
    }
  }

  lemma MantissaStep(c: char, rest: string, before: nat, seen: bool)
    requires IsDigit(c)
    ensures Mantissa([c] + rest, before, 0, false, seen) == Mantissa(rest, 10 * before + DigitValue(c), 0, false, true)
  {
    assert ([c] + rest)[1..] == rest;
  }

  lemma ShiftDigit(acc: nat, p: nat, v: nat, c: nat)
    ensures 10 * (acc * p + v) + c == acc * (10 * p) + (v * 10 + c)
  {
  }

  /** `parseFloat` of a digit run that no digit, point or exponent continues is the run's value,
      as `parseInt` reads it. */
  lemma ParseFloatOfDigits(d: string, rest: string)
    requires |d| >= 1 && AllDigits(d)
    requires rest == [] || !(IsDigit(rest[0]) || rest[0] == '.' || rest[0] == 'e' || rest[0] == 'E')
    ensures ParseFloat(d + rest) == Some(DigitsValue(d) as real)
    ensures ParseInt(d + rest) == Some(DigitsValue(d))
  {
    var s := d + rest;
    assert s[0] == d[0];
    DigitIsNotSpace(s[0]);
    assert ParseFloat(s) == Mantissa(s, 0, 0, false, false);
    MantissaDigits(d, rest, 0, false);
    MantissaEnd(rest, DigitsValue(d));
    ParseIntOfDigits(d, rest);
  }

  /** A literal ends, without an exponent, where no digit, point or exponent continues it. */
  lemma MantissaEnd(rest: string, v: nat)
    requires rest == [] || !(IsDigit(rest[0]) || rest[0] == '.' || rest[0] == 'e' || rest[0] == 'E')
    ensures Mantissa(rest, 0 * Pow10(0) + v, 0, false, true) == Some(v as real)
  {
    assert ExponentOf(rest) == 0;
    assert Pow10(0) == 1;
  }

  /** Leading white space skipped, a text with no digit at all reads as NaN. */
  lemma {:induction false} ParseFloatWithoutDigits(s: string)
    requires forall i :: 0 <= i < |s| ==> !IsDigit(s[i])
    ensures ParseFloat(s) == None
  {
    if |s| > 0 && IsSpace(s[0]) {
      ParseFloatWithoutDigits(s[1..]);
    } else if |s| > 0 && (s[0] == '-' || s[0] == '+') {
      MantissaWithoutDigits(s[1..], false);
    } else {
      MantissaWithoutDigits(s, false);
    }
  }

  lemma {:induction false} MantissaWithoutDigits(s: string, dotted: bool)
    requires forall i :: 0 <= i < |s| ==> !IsDigit(s[i])
    ensures Mantissa(s, 0, 0, dotted, false) == None
  {
    if |s| > 0 && s[0] == '.' && !dotted {
      MantissaWithoutDigits(s[1..], true);
    }
  }

  /** The `i`-th binding of an array destructuring such as `const [a, b, c] = parts`: undefined
      (None) past the end. */
  function Part(parts: seq<string>, i: nat): (r: Option<string>)
    ensures r.Some? <==> i < |parts|
    ensures r.Some? ==> r.value == parts[i]
  {
    if i < |parts| then Some(parts[i]) else None
  }

  /** `parseInt(x, 10)` of a value that may be undefined, which reads as NaN. */
  function ParseIntOf(x: Option<string>): Option<int> {
    if x.None? then None else ParseInt(x.value)
  }

  /** `parseFloat(x)` of a value that may be undefined, which reads as NaN. */
  function ParseFloatOf(x: Option<string>): Option<real> {
    if x.None? then None else ParseFloat(x.value)
  }

  // A JavaScript number is modelled as Option<real>: a finite value, or None for NaN. Arithmetic
  // with NaN gives NaN, and every comparison with NaN is false.

  function Add(a: Option<real>, b: Option<real>): (r: Option<real>)
    ensures r.Some? <==> a.Some? && b.Some?
    ensures r.Some? ==> r.value == a.value + b.value
  {
    if a.Some? && b.Some? then Some(a.value + b.value) else None
  }

  function Sub(a: Option<real>, b: Option<real>): (r: Option<real>)
    ensures r.Some? <==> a.Some? && b.Some?
    ensures r.Some? ==> r.value == a.value - b.value
  {
    if a.Some? && b.Some? then Some(a.value - b.value) else None
  }

  function Mul(a: Option<real>, b: Option<real>): (r: Option<real>)
    ensures r.Some? <==> a.Some? && b.Some?
    ensures r.Some? ==> r.value == a.value * b.value
  {
    if a.Some? && b.Some? then Some(a.value * b.value) else None
  }

  /** `Math.trunc` */
  function Trunc(x: real): int {
    if x >= 0.0 then x.Floor else -((-x).Floor)
  }

  /** JavaScript's `%` on numbers: the remainder of truncating division, with the dividend's sign. */
  function Rem(a: real, b: real): (r: real)
    requires b != 0.0
  {
    a - b * (Trunc(a / b) as real)
  }

  lemma PositiveProduct(x: real, y: real)
    requires x > 0.0 && y > 0.0
    ensures x * y > 0.0
  {
  }

  /** With a positive divisor the remainder lies strictly between minus the divisor and the
      divisor. */
  lemma RemBounds(a: real, b: real)
    requires b > 0.0
    ensures -b < Rem(a, b) < b
  {
    var q := a / b;
    var f := q - Trunc(q) as real;
    assert -1.0 < f < 1.0;
    assert a == b * q;
    assert Rem(a, b) == b * f;
    PositiveProduct(b, 1.0 - f);
    PositiveProduct(b, 1.0 + f);
  }

  /** JavaScript's `%` on integral numbers and a positive divisor: the remainder keeps the sign of
      the dividend. */
  function IntRem(a: int, b: int): (r: int)
    requires b > 0
    ensures -b < r < b
    ensures a >= 0 ==> r == a % b
    ensures a < 0 ==> r <= 0
  {
    if a >= 0 then a % b else -((-a) % b)
  }
}
