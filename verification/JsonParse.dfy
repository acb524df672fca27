/**
 * The grant file's JSON: values, and the parser as functions of text and position.
 *
 * Text is a sequence of Unicode scalar values, and positions count these.
 */
module JsonParse {

  const MAX_DEPTH: nat := 16
  const MAX_FIELDS: nat := 32
  const MAX_ITEMS: nat := 1024
  const U64_MAX: nat := 0xFFFF_FFFF_FFFF_FFFF

  datatype Json = Object(fields: seq<Field>) | Array(items: seq<Json>) | Text(text: string) | Number(value: nat)

  datatype Field = Field(name: string, value: Json)

  function Names(fields: seq<Field>): (names: seq<string>)
    ensures |names| == |fields| && forall i :: 0 <= i < |fields| ==> names[i] == fields[i].name
  {
    seq(|fields|, i requires 0 <= i < |fields| => fields[i].name)
  }

  datatype Parsed<+T> = Ok(value: T, next: nat) | Err

  predicate IsSpace(c: char) { c == ' ' || c == '\t' || c == '\r' || c == '\n' }

  predicate IsDigit(c: char) { '0' <= c <= '9' }

  predicate IsHex(c: char) { IsDigit(c) || 'a' <= c <= 'f' || 'A' <= c <= 'F' }

  function HexValue(c: char): (r: nat)
    requires IsHex(c)
    ensures r < 16
  {
    if IsDigit(c) then c as int - '0' as int
    else if 'a' <= c then c as int - 'a' as int + 10
    else c as int - 'A' as int + 10
  }

  function HexNumber(digits: string): nat
    requires forall i :: 0 <= i < |digits| ==> IsHex(digits[i])
  {
    if digits == [] then 0 else 16 * HexNumber(digits[..|digits| - 1]) + HexValue(digits[|digits| - 1])
  }

  function Decimal(digits: string): nat
    requires forall i :: 0 <= i < |digits| ==> IsDigit(digits[i])
  {
    if digits == [] then 0
    else
      assert IsDigit(digits[|digits| - 1]);
      10 * Decimal(digits[..|digits| - 1]) + (digits[|digits| - 1] as int - '0' as int)
  }

  predicate IsHigh(unit: nat) { 0xD800 <= unit <= 0xDBFF }

  predicate IsLow(unit: nat) { 0xDC00 <= unit <= 0xDFFF }

  /** The character of one UTF-16 code unit that is no surrogate, and of a surrogate pair. */
  function FromUnit(unit: nat): char
    requires unit < 0x10000 && !IsHigh(unit) && !IsLow(unit)
  {
    unit as char
  }

  function FromPair(high: nat, low: nat): char
    requires IsHigh(high) && IsLow(low)
  {
    (0x10000 + 1024 * (high - 0xD800) + (low - 0xDC00)) as char
  }

  function Space(s: string, i: nat): (j: nat)
    requires i <= |s|
    ensures i <= j <= |s|
    decreases |s| - i
  {
    if i < |s| && IsSpace(s[i]) then Space(s, i + 1) else i
  }

  function DigitEnd(s: string, i: nat): (j: nat)
    requires i <= |s|
    ensures i <= j <= |s|
    ensures forall k :: i <= k < j ==> IsDigit(s[k])
    ensures j < |s| ==> !IsDigit(s[j])
    decreases |s| - i
  {
    if i < |s| && IsDigit(s[i]) then DigitEnd(s, i + 1) else i
  }

  predicate HexQuad(digits: string) {
    |digits| == 4 && forall i :: 0 <= i < 4 ==> IsHex(digits[i])
  }

  function Quad(s: string, i: nat): (r: Parsed<nat>)
    requires i <= |s|
    ensures r.Ok? ==> r.next == i + 4 <= |s|
  {
    if |s| < i + 4 || !HexQuad(s[i..i + 4]) then Err else Ok(HexNumber(s[i..i + 4]), i + 4)
  }

  lemma QuadBound(digits: string)
    requires HexQuad(digits)
    ensures HexNumber(digits) < 0x10000
  {
    var d3, d2, d1 := digits[..3], digits[..2], digits[..1];
    assert d3[..2] == d2 && d2[..1] == d1 && d1[..0] == [];
    assert HexNumber(d1) < 16 && HexNumber(d2) < 256 && HexNumber(d3) < 4096;
  }

  function UnicodeEscape(s: string, i: nat): (r: Parsed<char>)
    requires i <= |s|
    ensures r.Ok? ==> i < r.next <= |s|
  {
    var first := Quad(s, i);
    if first.Err? then Err
    else
      QuadBound(s[i..i + 4]);
      if IsHigh(first.value) then
        if first.next + 2 <= |s| && s[first.next] == '\\' && s[first.next + 1] == 'u' then
          var second := Quad(s, first.next + 2);
          if second.Ok? && IsLow(second.value) then Ok(FromPair(first.value, second.value), second.next) else Err
        else Err
      else if IsLow(first.value) then Err
      else Ok(FromUnit(first.value), first.next)
  }

  predicate IsShortMark(c: char) { c in "\"\\/bfnrt" }

  function ShortMeaning(mark: char): char
    requires IsShortMark(mark)
  {
    match mark
    case 'b' => '\U{08}'
    case 'f' => '\U{0C}'
    case 'n' => '\n'
    case 'r' => '\r'
    case 't' => '\t'
    case _ => mark
  }

  /** What follows a backslash. */
  function Escape(s: string, i: nat): (r: Parsed<char>)
    requires i <= |s|
    ensures r.Ok? ==> i < r.next <= |s|
  {
    if i == |s| then Err
    else if IsShortMark(s[i]) then Ok(ShortMeaning(s[i]), i + 1)
    else if s[i] == 'u' then UnicodeEscape(s, i + 1)
    else Err
  }

  function Cons<T>(head: T, tail: Parsed<seq<T>>): Parsed<seq<T>> {
    if tail.Ok? then Ok([head] + tail.value, tail.next) else Err
  }

  /** What follows an opening quote, up to and with the closing one. */
  function Chars(s: string, i: nat): (r: Parsed<string>)
    requires i <= |s|
    ensures r.Ok? ==> i < r.next <= |s|
    decreases |s| - i
  {
    if i == |s| then Err
    else if s[i] == '"' then Ok("", i + 1)
    else if s[i] == '\\' then
      var c := Escape(s, i + 1);
      if c.Err? then Err else Cons(c.value, Chars(s, c.next))
    else if s[i] < ' ' then Err
    else Cons(s[i], Chars(s, i + 1))
  }

  function Numeral(s: string, i: nat): (r: Parsed<Json>)
    requires i < |s| && IsDigit(s[i])
    ensures r.Ok? ==> i < r.next <= |s|
  {
    var j := if s[i] == '0' then i + 1 else DigitEnd(s, i);
    if s[i] == '0' && j < |s| && IsDigit(s[j]) then Err
    else if U64_MAX < Decimal(s[i..j]) then Err
    else Ok(Number(Decimal(s[i..j])), j)
  }

  function Value(s: string, i: nat, depth: nat): (r: Parsed<Json>)
    requires i <= |s|
    ensures r.Ok? ==> i < r.next <= |s|
    decreases |s| - i, 0
  {
    var k := Space(s, i);
    if MAX_DEPTH < depth || k == |s| then Err
    else if s[k] == '{' then ObjectBody(s, k + 1, depth + 1)
    else if s[k] == '[' then ArrayBody(s, k + 1, depth + 1)
    else if s[k] == '"' then
      var text := Chars(s, k + 1);
      if text.Ok? then Ok(Text(text.value), text.next) else Err
    else if IsDigit(s[k]) then Numeral(s, k)
    else Err
  }

  function ObjectBody(s: string, i: nat, depth: nat): (r: Parsed<Json>)
    requires i <= |s|
    ensures r.Ok? ==> i < r.next <= |s|
    decreases |s| - i, 2
  {
    var k := Space(s, i);
    if k < |s| && s[k] == '}' then Ok(Object([]), k + 1)
    else
      var fields := Fields(s, k, depth, []);
      if fields.Ok? then Ok(Object(fields.value), fields.next) else Err
  }

  /** The fields from a key on, after those named `seen`. */
  function Fields(s: string, i: nat, depth: nat, seen: seq<string>): (r: Parsed<seq<Field>>)
    requires i <= |s|
    ensures r.Ok? ==> i < r.next <= |s|
    decreases |s| - i, 1
  {
    if MAX_FIELDS <= |seen| || i == |s| || s[i] != '"' then Err
    else
      var key := Chars(s, i + 1);
      if key.Err? || key.value in seen then Err
      else
        var colon := Space(s, key.next);
        if colon == |s| || s[colon] != ':' then Err
        else
          var value := Value(s, colon + 1, depth);
          if value.Err? then Err
          else
            var end := Space(s, value.next);
            var field := Field(key.value, value.value);
            if end == |s| then Err
            else if s[end] == ',' then Cons(field, Fields(s, Space(s, end + 1), depth, seen + [key.value]))
            else if s[end] == '}' then Ok([field], end + 1)
            else Err
  }

  function ArrayBody(s: string, i: nat, depth: nat): (r: Parsed<Json>)
    requires i <= |s|
    ensures r.Ok? ==> i < r.next <= |s|
    decreases |s| - i, 2
  {
    var k := Space(s, i);
    if k < |s| && s[k] == ']' then Ok(Array([]), k + 1)
    else
      var items := Items(s, k, depth, 0);
      if items.Ok? then Ok(Array(items.value), items.next) else Err
  }

  /** The items from a value on, after `count` others. */
  function Items(s: string, i: nat, depth: nat, count: nat): (r: Parsed<seq<Json>>)
    requires i <= |s|
    ensures r.Ok? ==> i < r.next <= |s|
    decreases |s| - i, 1
  {
    if MAX_ITEMS <= count then Err
    else
      var item := Value(s, i, depth);
      if item.Err? then Err
      else
        var end := Space(s, item.next);
        if end == |s| then Err
        else if s[end] == ',' then Cons(item.value, Items(s, Space(s, end + 1), depth, count + 1))
        else if s[end] == ']' then Ok([item.value], end + 1)
        else Err
  }

  /** The whole text is one value, with space around it. */
  function Parse(s: string): (r: Parsed<Json>) {
    var value := Value(s, 0, 0);
    if value.Ok? && Space(s, value.next) == |s| then Ok(value.value, |s|) else Err
  }
}
