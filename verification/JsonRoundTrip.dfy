/** What the JSON parser accepts, exactly, and that it undoes printing. */
module JsonRoundTrip {
  import opened JsonParse
  import opened JsonGrammar

  // Values within the limits: depth, number of fields and items, distinct names, 64-bit numbers.

  predicate DistinctNames(fields: seq<Field>) {
    forall i, j :: 0 <= i < j < |fields| ==> fields[i].name != fields[j].name
  }

  predicate WellFormed(v: Json, depth: nat) {
    depth <= MAX_DEPTH &&
    match v
    case Text(_) => true
    case Number(n) => n <= U64_MAX
    case Array(items) =>
      |items| <= MAX_ITEMS && forall i :: 0 <= i < |items| ==> WellFormed(items[i], depth + 1)
    case Object(fields) =>
      |fields| <= MAX_FIELDS && DistinctNames(fields)
      && forall i :: 0 <= i < |fields| ==> WellFormed(fields[i].value, depth + 1)
  }

  lemma {:induction false} MeaningIsWellFormed(t: Tree, depth: nat)
    requires ValidTree(t, depth)
    ensures WellFormed(Meaning(t, depth), depth)
    decreases t
  {
    hide ItemsMeaning, MembersMeaning, ValidItems, ValidMembers, Decimal;
    match t {
      case ArrayTree(items) => ItemsAreWellFormed(items, depth + 1, 0);
      case ObjectTree(members) => MembersAreWellFormed(members, depth + 1, []);
      case _ =>
    }
  }

  lemma {:induction false} ItemsAreWellFormed(t: ItemTrees, depth: nat, count: nat)
    requires ValidItems(t, depth, count)
    ensures count + |ItemsMeaning(t, depth, count)| <= MAX_ITEMS
    ensures forall v :: v in ItemsMeaning(t, depth, count) ==> WellFormed(v, depth)
    decreases t
  {
    hide Meaning, ValidTree, WellFormed;
    MeaningIsWellFormed(t.item, depth);
    if t.more.Item? {
      ItemsAreWellFormed(t.more.items, depth, count + 1);
    }
  }

  ghost predicate NewNames(fields: seq<Field>, seen: seq<string>) {
    DistinctNames(fields) && forall i :: 0 <= i < |fields| ==> fields[i].name !in seen
  }

  lemma {:induction false} MembersAreWellFormed(t: MemberTrees, depth: nat, seen: seq<string>)
    requires ValidMembers(t, depth, seen)
    ensures |seen| + |MembersMeaning(t, depth, seen)| <= MAX_FIELDS
    ensures NewNames(MembersMeaning(t, depth, seen), seen)
    ensures forall f :: f in MembersMeaning(t, depth, seen) ==> WellFormed(f.value, depth)
    decreases t
  {
    hide Meaning, ValidTree, WellFormed, PiecesMeaning, ValidPieces;
    MeaningIsWellFormed(t.value, depth);
    if t.more.Member? {
      var name := PiecesMeaning(t.key);
      MembersAreWellFormed(t.more.members, depth, seen + [name]);
      NewNamesGrow(Field(name, Meaning(t.value, depth)), MembersMeaning(t.more.members, depth, seen + [name]), seen);
    }
  }

  lemma NewNamesGrow(first: Field, rest: seq<Field>, seen: seq<string>)
    requires NewNames(rest, seen + [first.name]) && first.name !in seen
    ensures NewNames([first] + rest, seen)
  {
    forall i | 0 <= i < |rest| ensures rest[i].name != first.name && rest[i].name !in seen {
      assert first.name in seen + [first.name];
    }
  }

  // The language of the parser.

  /** Spaces, a valid tree, spaces. */
  datatype Document = Document(before: string, tree: Tree, after: string)

  predicate ValidDocument(d: Document) {
    IsSpaces(d.before) && ValidTree(d.tree, 0) && IsSpaces(d.after)
  }

  function DocumentText(d: Document): string { d.before + (TreeText(d.tree) + d.after) }

  ghost predicate Denotes(d: Document, s: string, v: Json) {
    ValidDocument(d) && DocumentText(d) == s && Meaning(d.tree, 0) == v
  }

  lemma DocumentIsParsed(d: Document)
    requires ValidDocument(d)
    ensures var s := DocumentText(d); Parse(s) == Ok(Meaning(d.tree, 0), |s|)
  {
    hide Value, Space, Meaning, TreeText, ValidTree, Occurs, IsSpaces;
    var s, text := DocumentText(d), TreeText(d.tree);
    TreeStart(d.tree, 0);
    OccursWhole(s);
    SpacesBefore(s, 0, d.before, text + d.after);
    var k := |d.before|;
    OccursPlus(s, k, text, d.after);
    NoDigitAfter(s, k + |text|, d.after);
    TreeIsRead(s, k, d.tree, 0);
    ValueSkipsSpace(s, 0, 0);
    SpacesAreSkipped(s, k + |text|, d.after);
  }

  lemma OccursWhole(s: string)
    ensures Occurs(s, 0, s)
  {
    assert s[0..|s|] == s;
  }

  lemma NoDigitAfter(s: string, i: nat, after: string)
    requires IsSpaces(after) && Occurs(s, i, after) && i + |after| == |s|
    ensures i < |s| ==> !IsDigit(s[i])
  {
    if i < |s| {
      OccursFirst(s, i, after);
    }
  }

  lemma ParsedHasDocument(s: string) returns (d: Document)
    requires Parse(s).Ok?
    ensures Denotes(d, s, Parse(s).value)
  {
    hide Value, Space, Meaning, TreeText, ValidTree, Occurs, IsSpaces, Blank;
    var value := Value(s, 0, 0);
    var tree := ValueHasTree(s, 0, 0);
    SkippedIsBlank(s, 0);
    SkippedIsBlank(s, value.next);
    var start := Space(s, 0);
    OccursEnd(s);
    Composed(s, 0, start, TreeText(tree), |s|, []);
    d := Document(s[0..start], tree, s[value.next..|s|]);
    assert d.after + [] == d.after;
    OccursAll(s, DocumentText(d));
  }

  lemma OccursEnd(s: string)
    ensures Occurs(s, |s|, [])
  {
  }

  lemma OccursAll(s: string, text: string)
    requires Occurs(s, 0, text) && |text| == |s|
    ensures text == s
  {
    assert s[0..|s|] == s;
  }

  /** A text is accepted as a value exactly if the grammar derives it with that meaning. */
  lemma ParseIsExact(s: string, v: Json)
    ensures Parse(s) == Ok(v, |s|) <==> exists d :: Denotes(d, s, v)
  {
    hide Parse, ValidDocument, DocumentText, Meaning;
    if Parse(s) == Ok(v, |s|) {
      var d := ParsedHasDocument(s);
    }
    if d :| Denotes(d, s, v) {
      DocumentIsParsed(d);
    }
  }

  /** Accepted values keep the limits and repeat no name, at any depth; nothing is left unread. */
  lemma AcceptedIsWellFormed(s: string)
    requires Parse(s).Ok?
    ensures WellFormed(Parse(s).value, 0) && Parse(s).next == |s|
  {
    hide WellFormed, Meaning, ValidTree;
    var d := ParsedHasDocument(s);
    MeaningIsWellFormed(d.tree, 0);
  }

  /** No text has two readings. */
  lemma ReadingIsUnique(s: string, v: Json, w: Json, d: Document, e: Document)
    requires Denotes(d, s, v) && Denotes(e, s, w)
    ensures v == w
  {
    hide Parse;
    DocumentIsParsed(d);
    DocumentIsParsed(e);
  }

  // Printing, in ASCII: other characters become one escape or a surrogate pair.

  function HexDigit(n: nat): (c: char)
    requires n < 16
    ensures IsHex(c) && HexValue(c) == n
  {
    if n < 10 then ('0' as int + n) as char else ('a' as int + n - 10) as char
  }

  function HexText(unit: nat): (d: string)
    requires unit < 0x10000
    ensures HexQuad(d) && HexNumber(d) == unit
  {
    HexTextRoundTrip(unit);
    HexDigits(unit)
  }

  function HexDigits(unit: nat): (d: string)
    requires unit < 0x10000
    ensures HexQuad(d)
  {
    [HexDigit(unit / 16 / 16 / 16), HexDigit(unit / 16 / 16 % 16), HexDigit(unit / 16 % 16), HexDigit(unit % 16)]
  }

  lemma HexTextRoundTrip(unit: nat)
    requires unit < 0x10000
    ensures HexNumber(HexDigits(unit)) == unit
  {
    hide HexNumber;
    HexTextValue(HexDigits(unit));
    var a := unit / 16;
    var b := a / 16;
    assert unit == 16 * a + unit % 16 && a == 16 * b + a % 16 && b == 16 * (b / 16) + b % 16;
  }

  lemma HexTextValue(d: string)
    requires HexQuad(d)
    ensures HexNumber(d) == 4096 * HexValue(d[0]) + 256 * HexValue(d[1]) + 16 * HexValue(d[2]) + HexValue(d[3])
  {
    var d3, d2, d1 := d[..3], d[..2], d[..1];
    assert d3[..2] == d2 && d2[..1] == d1 && d1[..0] == [];
    assert HexNumber(d1) == HexValue(d[0]);
    assert HexNumber(d2) == 16 * HexNumber(d1) + HexValue(d[1]);
    assert HexNumber(d3) == 16 * HexNumber(d2) + HexValue(d[2]);
  }

  /** Section 7 of RFC 8259: the twelve-character escape of a character outside the basic plane. */
  function HighOf(c: char): (unit: nat)
    requires 0x10000 <= c as int
    ensures IsHigh(unit)
  {
    0xD800 + (c as int - 0x10000) / 1024
  }

  function LowOf(c: char): (unit: nat)
    requires 0x10000 <= c as int
    ensures IsLow(unit)
  {
    0xDC00 + (c as int - 0x10000) % 1024
  }

  lemma PairIsInverted(c: char)
    requires 0x10000 <= c as int
    ensures FromPair(HighOf(c), LowOf(c)) == c
  {
  }

  lemma PairIsOnlyOne(high: nat, low: nat)
    requires IsHigh(high) && IsLow(low)
    ensures var c := FromPair(high, low); 0x10000 <= c as int && HighOf(c) == high && LowOf(c) == low
  {
  }

  function PrintChar(c: char): (p: Piece)
    ensures ValidPiece(p) && PieceMeaning(p) == c
  {
    if c == '"' || c == '\\' then Short(c)
    else if ' ' <= c <= '~' then Plain(c)
    else if c as int < 0x10000 then Unit(HexText(c as int))
    else PairIsInverted(c); Pair(HexText(HighOf(c)), HexText(LowOf(c)))
  }

  function PrintString(s: string): (ps: seq<Piece>)
    ensures ValidPieces(ps) && PiecesMeaning(ps) == s
  {
    if s == [] then []
    else
      var rest := PrintString(s[1..]);
      assert ([PrintChar(s[0])] + rest)[1..] == rest;
      [PrintChar(s[0])] + rest
  }

  function PrintNumber(n: nat): (d: string)
    ensures d != [] && forall i :: 0 <= i < |d| ==> IsDigit(d[i])
    ensures Decimal(d) == n
    ensures d[0] == '0' ==> n == 0 && |d| == 1
  {
    var last := [('0' as int + n % 10) as char];
    if n < 10 then last
    else
      var d := PrintNumber(n / 10);
      assert (d + last)[..|d|] == d;
      d + last
  }

  lemma ElementIsWellFormed(v: Json, depth: nat, k: nat)
    requires WellFormed(v, depth)
    ensures v.Array? && k < |v.items| ==> WellFormed(v.items[k], depth + 1)
    ensures v.Object? && k < |v.fields| ==> WellFormed(v.fields[k].value, depth + 1)
  {
  }

  function PrintTree(v: Json, depth: nat): (t: Tree)
    requires WellFormed(v, depth)
    ensures ValidTree(t, depth) && Meaning(t, depth) == v
    decreases v, 1, 0
  {
    match v
    case Text(text) => TextTree(PrintString(text))
    case Number(n) => NumberTree(PrintNumber(n))
    case Array(items) =>
      if items == [] then EmptyArray("")
      else
        assert items[0..] == items;
        ArrayTree(PrintItems(v, depth, 0))
    case Object(fields) =>
      if fields == [] then EmptyObject("")
      else
        assert fields[0..] == fields;
        assert Names(fields[..0]) == [];
        ObjectTree(PrintMembers(v, depth, 0))
  }

  function PrintItems(v: Json, depth: nat, k: nat): (t: ItemTrees)
    requires WellFormed(v, depth) && v.Array? && k < |v.items|
    ensures ValidItems(t, depth + 1, k) && ItemsMeaning(t, depth + 1, k) == v.items[k..]
    decreases v, 0, |v.items| - k
  {
    ElementIsWellFormed(v, depth, k);
    assert v.items[k..] == [v.items[k]] + v.items[k + 1..];
    ItemTrees("", PrintTree(v.items[k], depth + 1), "",
              if k + 1 < |v.items| then Item(PrintItems(v, depth, k + 1)) else NoItem)
  }

  function PrintMembers(v: Json, depth: nat, k: nat): (t: MemberTrees)
    requires WellFormed(v, depth) && v.Object? && k < |v.fields|
    ensures ValidMembers(t, depth + 1, Names(v.fields[..k]))
    ensures MembersMeaning(t, depth + 1, Names(v.fields[..k])) == v.fields[k..]
    decreases v, 0, |v.fields| - k
  {
    ElementIsWellFormed(v, depth, k);
    assert v.fields[k..] == [v.fields[k]] + v.fields[k + 1..];
    assert Names(v.fields[..k + 1]) == Names(v.fields[..k]) + [v.fields[k].name];
    MemberTrees("", PrintString(v.fields[k].name), "", "", PrintTree(v.fields[k].value, depth + 1), "",
                if k + 1 < |v.fields| then Member(PrintMembers(v, depth, k + 1)) else NoMember)
  }

  function Print(v: Json): string
    requires WellFormed(v, 0)
  {
    TreeText(PrintTree(v, 0))
  }

  /** Parsing undoes printing for every value within the limits. */
  lemma ParseUndoesPrint(v: Json)
    requires WellFormed(v, 0)
    ensures Parse(Print(v)) == Ok(v, |Print(v)|)
  {
    hide Parse, TreeText, PrintTree, ValidTree;
    var d := Document("", PrintTree(v, 0), "");
    assert DocumentText(d) == Print(v);
    DocumentIsParsed(d);
  }
}
