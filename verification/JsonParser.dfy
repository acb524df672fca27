/** The parser object: a cursor that its methods advance in loops, proved to compute `JsonParse.Parse`. */
module JsonParser {
  import opened Checked
  import opened JsonParse

  predicate Agrees<T(==)>(r: Option<T>, cursor: nat, p: Parsed<T>) {
    if r.None? then p.Err? else p == Parsed.Ok(r.value, cursor)
  }

  function Prepend<T>(front: seq<T>, p: Parsed<seq<T>>): Parsed<seq<T>> {
    if p.Ok? then Parsed.Ok(front + p.value, p.next) else Err
  }

  lemma PrependCons<T>(front: seq<T>, head: T, p: Parsed<seq<T>>)
    ensures Prepend(front, Cons(head, p)) == Prepend(front + [head], p)
  {
    if p.Ok? {
      assert front + ([head] + p.value) == front + [head] + p.value;
    }
  }

  lemma PrependNothing<T>(p: Parsed<seq<T>>)
    ensures Prepend([], p) == p
  {
    if p.Ok? {
      assert [] + p.value == p.value;
    }
  }

  /** One turn of the loop over an object's fields, up to the comma or brace. */
  function OneField(s: string, i: nat, depth: nat, seen: seq<string>): (r: Parsed<Field>)
    requires i <= |s|
    ensures r.Ok? ==> i < r.next <= |s|
  {
    if MAX_FIELDS <= |seen| || i == |s| || s[i] != '"' then Err
    else
      var key := Chars(s, i + 1);
      if key.Err? || key.value in seen then Err
      else
        var colon := Space(s, key.next);
        if colon == |s| || s[colon] != ':' then Err
        else
          var value := Value(s, colon + 1, depth);
          if value.Err? then Err else Parsed.Ok(Field(key.value, value.value), value.next)
  }

  lemma FieldsTurn(s: string, i: nat, depth: nat, seen: seq<string>)
    requires i <= |s|
    ensures var field := OneField(s, i, depth, seen);
            Fields(s, i, depth, seen)
            == if field.Err? then Err
               else
                 var end := Space(s, field.next);
                 if end == |s| then Err
                 else if s[end] == ','
                     then Cons(field.value, Fields(s, Space(s, end + 1), depth, seen + [field.value.name]))
                 else if s[end] == '}' then Parsed.Ok([field.value], end + 1)
                 else Err
  {
    hide Chars, Space, Value;
  }

  class Parser {
    const input: string
    var cursor: nat

    ghost predicate Valid()
      reads this
    {
      cursor <= |input|
    }

    constructor (input: string)
      ensures Valid() && this.input == input && cursor == 0
    {
      this.input, cursor := input, 0;
    }

    method SkipSpace()
      requires Valid()
      modifies this`cursor
      ensures Valid() && cursor == Space(input, old(cursor))
    {
      while cursor < |input| && IsSpace(input[cursor])
        invariant Valid() && Space(input, old(cursor)) == Space(input, cursor)
      {
        cursor := cursor + 1;
      }
    }

    method ReadQuad() returns (r: Option<nat>)
      requires Valid()
      modifies this`cursor
      ensures Valid() && Agrees(r, cursor, Quad(input, old(cursor)))
    {
      if |input| < cursor + 4 {
        return None;
      }
      var digits := input[cursor..cursor + 4];
      var value := 0;
      for i := 0 to 4
        invariant forall k :: 0 <= k < i ==> IsHex(digits[k])
        invariant value == HexNumber(digits[..i])
      {
        if !IsHex(digits[i]) {
          return None;
        }
        assert digits[..i + 1][..i] == digits[..i];
        value := 16 * value + HexValue(digits[i]);
      }
      assert digits[..4] == digits;
      cursor := cursor + 4;
      return Some(value);
    }

    /** What follows `\u`. */
    method ReadUnicode() returns (r: Option<char>)
      requires Valid()
      modifies this`cursor
      ensures Valid() && Agrees(r, cursor, UnicodeEscape(input, old(cursor)))
    {
      ghost var start := cursor;
      var first := ReadQuad();
      if first.None? {
        return None;
      }
      QuadBound(input[start..start + 4]);
      hide HexNumber, HexQuad;
      if IsHigh(first.value) {
        if |input| < cursor + 2 || input[cursor] != '\\' || input[cursor + 1] != 'u' {
          return None;
        }
        cursor := cursor + 2;
        var second := ReadQuad();
        if second.None? || !IsLow(second.value) {
          return None;
        }
        return Some(FromPair(first.value, second.value));
      }
      if IsLow(first.value) {
        return None;
      }
      return Some(FromUnit(first.value));
    }

    method ReadEscape() returns (r: Option<char>)
      requires Valid()
      modifies this`cursor
      ensures Valid() && Agrees(r, cursor, Escape(input, old(cursor)))
    {
      hide UnicodeEscape;
      if cursor == |input| {
        return None;
      }
      var escape := input[cursor];
      cursor := cursor + 1;
      if IsShortMark(escape) {
        return Some(ShortMeaning(escape));
      }
      if escape == 'u' {
        r := ReadUnicode();
        return;
      }
      return None;
    }

    /** Unescaped characters are copied in chunks, from `start` to the cursor. */
    method ReadString() returns (r: Option<string>)
      requires Valid() && cursor < |input|
      modifies this`cursor
      ensures Valid() && Agrees(r, cursor, Chars(input, old(cursor) + 1))
    {
      hide Escape;
      cursor := cursor + 1;
      ghost var begin := cursor;
      var output, start := "", cursor;
      PrependNothing(Chars(input, begin));
      assert output + input[start..cursor] == [];
      while cursor < |input|
        invariant Valid() && begin <= start <= cursor
        invariant Chars(input, begin) == Prepend(output + input[start..cursor], Chars(input, cursor))
        decreases |input| - cursor
      {
        var c := input[cursor];
        ghost var so := output + input[start..cursor];
        if c == '"' {
          output := output + input[start..cursor];
          cursor := cursor + 1;
          assert so + [] == so;
          return Some(output);
        }
        if c == '\\' {
          output := output + input[start..cursor];
          cursor := cursor + 1;
          var escaped := ReadEscape();
          if escaped.None? {
            return None;
          }
          output := output + [escaped.value];
          start := cursor;
          PrependCons(so, escaped.value, Chars(input, cursor));
          assert output + input[start..cursor] == so + [escaped.value];
        } else if c < ' ' {
          return None;
        } else {
          cursor := cursor + 1;
          PrependCons(so, c, Chars(input, cursor));
          assert output + input[start..cursor] == so + [c];
        }
      }
      return None;
    }

    method ReadNumber() returns (r: Option<Json>)
      requires Valid() && cursor < |input| && IsDigit(input[cursor])
      modifies this`cursor
      ensures Valid() && Agrees(r, cursor, Numeral(input, old(cursor)))
    {
      hide Decimal;
      var start := cursor;
      if input[cursor] == '0' {
        cursor := cursor + 1;
        if cursor < |input| && IsDigit(input[cursor]) {
          return None;
        }
      } else {
        while cursor < |input| && IsDigit(input[cursor])
          invariant start <= cursor <= |input| && DigitEnd(input, start) == DigitEnd(input, cursor)
          invariant forall k :: start <= k < cursor ==> IsDigit(input[k])
        {
          cursor := cursor + 1;
        }
      }
      var value := Decimal(input[start..cursor]);
      return if U64_MAX < value then None else Some(Number(value));
    }

    method ReadValue(depth: nat) returns (r: Option<Json>)
      requires Valid()
      modifies this`cursor
      ensures Valid() && Agrees(r, cursor, Value(input, old(cursor), depth))
      ensures r.Some? ==> old(cursor) < cursor
      decreases |input| - cursor, 1
    {
      hide Space, Chars, Numeral, ObjectBody, ArrayBody;
      if MAX_DEPTH < depth {
        return None;
      }
      SkipSpace();
      if cursor == |input| {
        return None;
      }
      var c := input[cursor];
      if c == '{' {
        r := ReadObject(depth + 1);
      } else if c == '[' {
        r := ReadArray(depth + 1);
      } else if c == '"' {
        var text := ReadString();
        r := if text.Some? then Some(Text(text.value)) else None;
      } else if IsDigit(c) {
        r := ReadNumber();
      } else {
        r := None;
      }
    }

    method ReadField(depth: nat, fields: seq<Field>) returns (r: Option<Field>)
      requires Valid()
      modifies this`cursor
      ensures Valid() && Agrees(r, cursor, OneField(input, old(cursor), depth, Names(fields)))
      decreases |input| - cursor, 2
    {
      hide Space, Chars, Value;
      if MAX_FIELDS <= |fields| {
        return None;
      }
      if cursor == |input| || input[cursor] != '"' {
        return None;
      }
      var key := ReadString();
      if key.None? {
        return None;
      }
      if exists f :: f in fields && f.name == key.value {
        return None;
      }
      SkipSpace();
      if cursor == |input| || input[cursor] != ':' {
        return None;
      }
      cursor := cursor + 1;
      var value := ReadValue(depth);
      return if value.None? then None else Some(Field(key.value, value.value));
    }

    method ReadObject(depth: nat) returns (r: Option<Json>)
      requires Valid() && cursor < |input|
      modifies this`cursor
      ensures Valid() && Agrees(r, cursor, ObjectBody(input, old(cursor) + 1, depth))
      decreases |input| - cursor, 0
    {
      hide Space, OneField, Fields;
      cursor := cursor + 1;
      SkipSpace();
      var fields: seq<Field> := [];
      if cursor < |input| && input[cursor] == '}' {
        cursor := cursor + 1;
        return Some(Object(fields));
      }
      ghost var begin := cursor;
      assert Names(fields) == [];
      PrependNothing(Fields(input, begin, depth, []));
      while true
        invariant Valid() && begin <= cursor
        invariant Fields(input, begin, depth, []) == Prepend(fields, Fields(input, cursor, depth, Names(fields)))
        decreases |input| - cursor
      {
        FieldsTurn(input, cursor, depth, Names(fields));
        var found := ReadField(depth, fields);
        if found.None? {
          return None;
        }
        var field := found.value;
        ghost var before := fields;
        fields := fields + [field];
        assert Names(fields) == Names(before) + [field.name];
        SkipSpace();
        if cursor == |input| {
          return None;
        }
        if input[cursor] == ',' {
          cursor := cursor + 1;
          SkipSpace();
          PrependCons(before, field, Fields(input, cursor, depth, Names(fields)));
        } else if input[cursor] == '}' {
          cursor := cursor + 1;
          return Some(Object(fields));
        } else {
          return None;
        }
      }
    }

    method ReadArray(depth: nat) returns (r: Option<Json>)
      requires Valid() && cursor < |input|
      modifies this`cursor
      ensures Valid() && Agrees(r, cursor, ArrayBody(input, old(cursor) + 1, depth))
      decreases |input| - cursor, 0
    {
      hide Space, Value;
      cursor := cursor + 1;
      SkipSpace();
      var values: seq<Json> := [];
      if cursor < |input| && input[cursor] == ']' {
        cursor := cursor + 1;
        return Some(Array(values));
      }
      ghost var begin := cursor;
      PrependNothing(Items(input, begin, depth, 0));
      while true
        invariant Valid() && begin <= cursor
        invariant Items(input, begin, depth, 0) == Prepend(values, Items(input, cursor, depth, |values|))
        decreases |input| - cursor
      {
        if MAX_ITEMS <= |values| {
          return None;
        }
        var value := ReadValue(depth);
        if value.None? {
          return None;
        }
        ghost var before := values;
        values := values + [value.value];
        SkipSpace();
        if cursor == |input| {
          return None;
        }
        if input[cursor] == ',' {
          cursor := cursor + 1;
          SkipSpace();
          PrependCons(before, value.value, Items(input, cursor, depth, |values|));
        } else if input[cursor] == ']' {
          cursor := cursor + 1;
          return Some(Array(values));
        } else {
          return None;
        }
      }
    }
  }

  /** Accepts exactly the texts that the grammar derives, and ends on every input. */
  method ParseText(input: string) returns (r: Option<Json>)
    ensures Agrees(r, |input|, Parse(input))
  {
    hide Space, Value;
    var parser := new Parser(input);
    var value := parser.ReadValue(0);
    if value.None? {
      return None;
    }
    parser.SkipSpace();
    return if parser.cursor == |input| then value else None;
  }
}
