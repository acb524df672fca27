/**
 * The grammar of the grant file's JSON, after RFC 8259: a tree records every choice a writer
 * has (spaces, escapes), `TreeText` writes it down and `Meaning` is the value it stands for.
 */
module JsonGrammar {
  import opened JsonParse

  // Strings, section 7 of RFC 8259.

  datatype Piece = Plain(c: char) | Short(mark: char) | Unit(digits: string) | Pair(high: string, low: string)

  predicate ValidPiece(p: Piece) {
    match p
    case Plain(c) => ' ' <= c && c != '"' && c != '\\'
    case Short(mark) => IsShortMark(mark)
    case Unit(d) => HexQuad(d) && !IsHigh(HexNumber(d)) && !IsLow(HexNumber(d))
    case Pair(h, l) => HexQuad(h) && HexQuad(l) && IsHigh(HexNumber(h)) && IsLow(HexNumber(l))
  }

  function PieceText(p: Piece): string {
    match p
    case Plain(c) => [c]
    case Short(mark) => "\\" + [mark]
    case Unit(d) => "\\u" + d
    case Pair(h, l) => "\\u" + (h + ("\\u" + l))
  }

  function PieceMeaning(p: Piece): char
    requires ValidPiece(p)
  {
    match p
    case Plain(c) => c
    case Short(mark) => ShortMeaning(mark)
    case Unit(d) => QuadBound(d); FromUnit(HexNumber(d))
    case Pair(h, l) => FromPair(HexNumber(h), HexNumber(l))
  }

  predicate ValidPieces(ps: seq<Piece>) {
    forall i :: 0 <= i < |ps| ==> ValidPiece(ps[i])
  }

  /** The pieces and the closing quote. */
  function PiecesText(ps: seq<Piece>): string {
    if ps == [] then "\"" else PieceText(ps[0]) + PiecesText(ps[1..])
  }

  function PiecesMeaning(ps: seq<Piece>): string
    requires ValidPieces(ps)
  {
    if ps == [] then "" else [PieceMeaning(ps[0])] + PiecesMeaning(ps[1..])
  }

  // Values. Spaces stand where RFC 8259 allows them.

  datatype Tree =
    | TextTree(pieces: seq<Piece>)
    | NumberTree(digits: string)
    | EmptyArray(space: string)
    | ArrayTree(items: ItemTrees)
    | EmptyObject(space: string)
    | ObjectTree(members: MemberTrees)

  datatype ItemTrees = ItemTrees(before: string, item: Tree, after: string, more: MoreItems)

  datatype MoreItems = NoItem | Item(items: ItemTrees)

  datatype MemberTrees =
    MemberTrees(before: string, key: seq<Piece>, beforeColon: string, afterColon: string, value: Tree, after: string,
        more: MoreMembers)

  datatype MoreMembers = NoMember | Member(members: MemberTrees)

  predicate IsSpaces(s: string) { forall i :: 0 <= i < |s| ==> IsSpace(s[i]) }

  predicate IsNumeral(d: string) {
    && d != [] && (forall i :: 0 <= i < |d| ==> IsDigit(d[i]))
    && (d[0] == '0' ==> |d| == 1)
    && Decimal(d) <= U64_MAX
  }

  predicate ValidTree(t: Tree, depth: nat) {
    depth <= MAX_DEPTH &&
    match t
    case TextTree(pieces) => ValidPieces(pieces)
    case NumberTree(digits) => IsNumeral(digits)
    case EmptyArray(space) => IsSpaces(space)
    case ArrayTree(items) => ValidItems(items, depth + 1, 0)
    case EmptyObject(space) => IsSpaces(space)
    case ObjectTree(members) => ValidMembers(members, depth + 1, [])
  }

  predicate ValidItems(t: ItemTrees, depth: nat, count: nat) {
    && count < MAX_ITEMS
    && IsSpaces(t.before) && IsSpaces(t.after)
    && ValidTree(t.item, depth)
    && (t.more.Item? ==> ValidItems(t.more.items, depth, count + 1))
  }

  predicate ValidMembers(t: MemberTrees, depth: nat, seen: seq<string>) {
    && |seen| < MAX_FIELDS
    && IsSpaces(t.before) && IsSpaces(t.beforeColon) && IsSpaces(t.afterColon) && IsSpaces(t.after)
    && ValidPieces(t.key)
    && PiecesMeaning(t.key) !in seen
    && ValidTree(t.value, depth)
    && (t.more.Member? ==> ValidMembers(t.more.members, depth, seen + [PiecesMeaning(t.key)]))
  }

  function TreeText(t: Tree): string {
    match t
    case TextTree(pieces) => "\"" + PiecesText(pieces)
    case NumberTree(digits) => digits
    case EmptyArray(space) => "[" + (space + "]")
    case ArrayTree(items) => "[" + ItemsText(items)
    case EmptyObject(space) => "{" + (space + "}")
    case ObjectTree(members) => "{" + MembersText(members)
  }

  /** The items and the closing bracket. */
  function ItemsText(t: ItemTrees): string {
    t.before + (TreeText(t.item) + (t.after + ItemsTail(t.more)))
  }

  function ItemsTail(t: MoreItems): string {
    match t case NoItem => "]" case Item(items) => "," + ItemsText(items)
  }

  /** The members and the closing brace. */
  function MembersText(t: MemberTrees): string {
    t.before + ("\"" + (PiecesText(t.key) + (t.beforeColon + (":" + (t.afterColon + (TreeText(t.value) + (t.after
        + MembersTail(t.more))))))))
  }

  function MembersTail(t: MoreMembers): string {
    match t case NoMember => "}" case Member(members) => "," + MembersText(members)
  }

  function Meaning(t: Tree, depth: nat): Json
    requires ValidTree(t, depth)
  {
    match t
    case TextTree(pieces) => Text(PiecesMeaning(pieces))
    case NumberTree(digits) => Number(Decimal(digits))
    case EmptyArray(_) => Array([])
    case ArrayTree(items) => Array(ItemsMeaning(items, depth + 1, 0))
    case EmptyObject(_) => Object([])
    case ObjectTree(members) => Object(MembersMeaning(members, depth + 1, []))
  }

  function ItemsMeaning(t: ItemTrees, depth: nat, count: nat): seq<Json>
    requires ValidItems(t, depth, count)
  {
    [Meaning(t.item, depth)] +
    match t.more
    case NoItem => []
    case Item(items) => ItemsMeaning(items, depth, count + 1)
  }

  function MembersMeaning(t: MemberTrees, depth: nat, seen: seq<string>): seq<Field>
    requires ValidMembers(t, depth, seen)
  {
    [Field(PiecesMeaning(t.key), Meaning(t.value, depth))] +
    match t.more
    case NoMember => []
    case Member(members) => MembersMeaning(members, depth, seen + [PiecesMeaning(t.key)])
  }

  // Texts inside texts.

  predicate Occurs(s: string, i: nat, text: string) {
    i + |text| <= |s| && s[i..i + |text|] == text
  }

  lemma OccursPlus(s: string, i: nat, a: string, b: string)
    ensures Occurs(s, i, a + b) <==> Occurs(s, i, a) && Occurs(s, i + |a|, b)
  {
    var n := i + |a| + |b|;
    if n <= |s| {
      var t := s[i..n];
      assert s[i..i + |a|] == t[..|a|] && s[i + |a|..n] == t[|a|..];
      assert (a + b)[..|a|] == a && (a + b)[|a|..] == b;
      assert t == t[..|a|] + t[|a|..];
    }
  }

  lemma OccursChar(s: string, i: nat, c: char)
    ensures Occurs(s, i, [c]) <==> i < |s| && s[i] == c
  {
    if i < |s| {
      assert s[i..i + 1] == [s[i]];
    }
  }

  // Every valid tree is parsed to its meaning.

  lemma {:induction false} SpacesAreSkipped(s: string, i: nat, space: string)
    requires IsSpaces(space) && Occurs(s, i, space)
    requires i + |space| < |s| ==> !IsSpace(s[i + |space|])
    ensures Space(s, i) == i + |space|
    decreases |space|
  {
    if space != [] {
      assert s[i] == s[i..i + |space|][0] == space[0];
      assert s[i + 1..i + |space|] == s[i..i + |space|][1..] == space[1..];
      SpacesAreSkipped(s, i + 1, space[1..]);
    }
  }

  lemma QuadIsRead(s: string, i: nat, digits: string)
    requires HexQuad(digits) && Occurs(s, i, digits)
    ensures Quad(s, i) == Ok(HexNumber(digits), i + 4)
  {
  }

  lemma PieceIsRead(s: string, i: nat, p: Piece)
    requires ValidPiece(p) && Occurs(s, i, PieceText(p))
    ensures i < |s| && s[i] != '"'
    ensures s[i] == '\\' <==> !p.Plain?
    ensures p.Plain? ==> s[i] == p.c && !(s[i] < ' ')
    ensures !p.Plain? ==> Escape(s, i + 1) == Ok(PieceMeaning(p), i + |PieceText(p)|)
  {
    hide HexQuad, HexNumber, Quad;
    match p {
      case Plain(c) => OccursChar(s, i, c);
      case Short(mark) =>
        OccursPlus(s, i, "\\", [mark]);
        OccursChar(s, i, '\\');
        OccursChar(s, i + 1, mark);
      case Unit(d) =>
        BackslashU(s, i, d);
        QuadIsRead(s, i + 2, d);
        QuadBound(d);
        QuadLength(d);
      case Pair(h, l) =>
        BackslashU(s, i, h + ("\\u" + l));
        OccursPlus(s, i + 2, h, "\\u" + l);
        QuadIsRead(s, i + 2, h);
        QuadLength(h);
        BackslashU(s, i + 6, l);
        QuadIsRead(s, i + 8, l);
        QuadLength(l);
    }
  }

  lemma QuadLength(d: string)
    requires HexQuad(d)
    ensures |d| == 4
  {
  }

  lemma BackslashU(s: string, i: nat, rest: string)
    ensures Occurs(s, i, "\\u" + rest) <==> i + 2 <= |s| && s[i] == '\\' && s[i + 1] == 'u' && Occurs(s, i + 2, rest)
  {
    OccursPlus(s, i, "\\u", rest);
    OccursPlus(s, i, "\\", "u");
    assert "\\u" == "\\" + "u";
    OccursChar(s, i, '\\');
    OccursChar(s, i + 1, 'u');
  }

  lemma {:induction false} PiecesAreRead(s: string, i: nat, ps: seq<Piece>)
    requires ValidPieces(ps) && Occurs(s, i, PiecesText(ps))
    ensures i <= |s| && Chars(s, i) == Ok(PiecesMeaning(ps), i + |PiecesText(ps)|)
    decreases |ps|
  {
    hide Escape, PieceText, PieceMeaning, ValidPiece;
    if ps == [] {
      OccursChar(s, i, '"');
    } else {
      OccursPlus(s, i, PieceText(ps[0]), PiecesText(ps[1..]));
      PieceIsRead(s, i, ps[0]);
      PiecesAreRead(s, i + |PieceText(ps[0])|, ps[1..]);
      if ps[0].Plain? {
        PlainText(ps[0].c);
      }
    }
  }

  lemma PlainText(c: char)
    ensures |PieceText(Plain(c))| == 1 && (ValidPiece(Plain(c)) ==> PieceMeaning(Plain(c)) == c)
  {
  }

  lemma NumeralIsRead(s: string, i: nat, d: string)
    requires IsNumeral(d) && Occurs(s, i, d)
    requires i + |d| < |s| ==> !IsDigit(s[i + |d|])
    ensures i < |s| && IsDigit(s[i]) && Numeral(s, i) == Ok(Number(Decimal(d)), i + |d|)
  {
    forall k | i <= k < i + |d| ensures s[k] == d[k - i] {
      assert s[k] == s[i..i + |d|][k - i];
    }
    var j := DigitEnd(s, i);
    assert j == i + |d|;
  }

  /** The first character tells what a value is, and is no space. */
  lemma TreeStart(t: Tree, depth: nat)
    requires ValidTree(t, depth)
    ensures var text := TreeText(t);
            && text != [] && !IsSpace(text[0])
            && (text[0] == '"' <==> t.TextTree?)
            && (IsDigit(text[0]) <==> t.NumberTree?)
            && (text[0] == '[' <==> t.EmptyArray? || t.ArrayTree?)
            && (text[0] == '{' <==> t.EmptyObject? || t.ObjectTree?)
  {
    hide ValidPieces, PiecesText, ItemsText, MembersText, Decimal, ValidItems, ValidMembers;
  }

  lemma {:induction false} TreeIsRead(s: string, i: nat, t: Tree, depth: nat)
    requires ValidTree(t, depth) && Occurs(s, i, TreeText(t))
    requires i + |TreeText(t)| < |s| ==> !IsDigit(s[i + |TreeText(t)|])
    ensures Value(s, i, depth) == Ok(Meaning(t, depth), i + |TreeText(t)|)
    decreases t
  {
    hide Chars, Numeral, Fields, Items, PiecesText, ItemsText, MembersText, PiecesMeaning, ItemsMeaning, MembersMeaning;
    hide Decimal, IsNumeral, ValidItems, ValidMembers, ValidPieces, Occurs, IsSpaces;
    TreeStart(t, depth);
    OccursStart(s, i, TreeText(t));
    match t {
      case TextTree(pieces) =>
        OccursPlus(s, i, "\"", PiecesText(pieces));
        PiecesAreRead(s, i + 1, pieces);
      case NumberTree(digits) =>
        NumeralIsRead(s, i, digits);
      case EmptyArray(space) =>
        OccursPlus(s, i, "[", space + "]");
        EmptyIsRead(s, i + 1, space, ']');
      case ArrayTree(items) =>
        OccursPlus(s, i, "[", ItemsText(items));
        ItemsAreRead(s, i + 1, items, depth + 1, 0);
      case EmptyObject(space) =>
        OccursPlus(s, i, "{", space + "}");
        EmptyIsRead(s, i + 1, space, '}');
      case ObjectTree(members) =>
        OccursPlus(s, i, "{", MembersText(members));
        MembersAreRead(s, i + 1, members, depth + 1, []);
    }
  }

  lemma OccursFirst(s: string, i: nat, text: string)
    requires Occurs(s, i, text) && text != []
    ensures i < |s| && s[i] == text[0]
  {
    assert s[i] == s[i..i + |text|][0];
  }

  lemma OccursStart(s: string, i: nat, text: string)
    requires Occurs(s, i, text) && text != [] && !IsSpace(text[0])
    ensures i + |text| <= |s| && s[i] == text[0] && Space(s, i) == i
  {
    assert s[i] == s[i..i + |text|][0];
  }

  lemma EmptyIsRead(s: string, i: nat, space: string, close: char)
    requires IsSpaces(space) && Occurs(s, i, space + [close]) && !IsSpace(close)
    ensures i + |space| < |s| && Space(s, i) == i + |space| && s[i + |space|] == close
  {
    OccursPlus(s, i, space, [close]);
    OccursChar(s, i + |space|, close);
    SpacesAreSkipped(s, i, space);
  }

  /** Spaces before a text that does not start with one. */
  lemma SpacesBefore(s: string, i: nat, space: string, text: string)
    requires IsSpaces(space) && Occurs(s, i, space + text) && text != [] && !IsSpace(text[0])
    ensures Occurs(s, i + |space|, text) && i + |space| < |s| && s[i + |space|] == text[0]
    ensures Space(s, i) == i + |space| && Space(s, i + |space|) == i + |space|
  {
    OccursPlus(s, i, space, text);
    OccursStart(s, i + |space|, text);
    SpacesAreSkipped(s, i, space);
  }

  /** A value is followed by spaces and then by a comma or a closing bracket. */
  lemma AfterValue(s: string, i: nat, text: string, after: string, tail: string)
    requires IsSpaces(after) && Occurs(s, i, text + (after + tail))
    requires tail != [] && !IsSpace(tail[0]) && !IsDigit(tail[0])
    ensures Occurs(s, i, text)
    ensures var j := i + |text|;
            && j < |s| && !IsDigit(s[j])
            && Space(s, j) == j + |after| < |s| && s[j + |after|] == tail[0]
            && Occurs(s, j + |after|, tail)
  {
    hide Space, Occurs;
    OccursPlus(s, i, text, after + tail);
    var j := i + |text|;
    SpacesBefore(s, j, after, tail);
    OccursPlus(s, j, after, tail);
    if after != [] {
      OccursFirst(s, j, after);
    }
  }

  lemma {:induction false} ItemsAreRead(s: string, i: nat, t: ItemTrees, depth: nat, count: nat)
    requires ValidItems(t, depth, count) && Occurs(s, i, ItemsText(t))
    ensures i <= |s| && Space(s, i) < |s| && s[Space(s, i)] != ']'
    ensures Items(s, Space(s, i), depth, count) == Ok(ItemsMeaning(t, depth, count), i + |ItemsText(t)|)
    decreases t
  {
    hide Value, Space, Meaning, TreeText, ValidTree, Occurs, IsSpaces;
    var item, tail := TreeText(t.item), ItemsTail(t.more);
    var k := i + |t.before|;
    TreeStart(t.item, depth);
    SpacesBefore(s, i, t.before, item + (t.after + tail));
    AfterValue(s, k, item, t.after, tail);
    TreeIsRead(s, k, t.item, depth);
    var end := k + |item| + |t.after|;
    if t.more.Item? {
      OccursPlus(s, end, ",", ItemsText(t.more.items));
      ItemsAreRead(s, end + 1, t.more.items, depth, count + 1);
    } else {
      assert ItemsMeaning(t, depth, count) == [Meaning(t.item, depth)];
    }
  }

  lemma ValueSkipsSpace(s: string, i: nat, depth: nat)
    requires i <= |s| && Space(s, Space(s, i)) == Space(s, i)
    ensures Value(s, i, depth) == Value(s, Space(s, i), depth)
  {
  }

  /** The key, the colon and the spaces around it; the value starts at the returned place. */
  lemma KeyIsRead(s: string, i: nat, t: MemberTrees, text: string) returns (key: nat, colon: nat, value: nat)
    requires ValidPieces(t.key) && IsSpaces(t.before) && IsSpaces(t.beforeColon) && IsSpaces(t.afterColon)
    requires text != [] && !IsSpace(text[0])
    requires Occurs(s, i, t.before + ("\"" + (PiecesText(t.key) + (t.beforeColon + (":" + (t.afterColon + text))))))
    ensures i <= |s| && key == Space(s, i) < |s| && s[key] == '"'
    ensures Chars(s, key + 1) == Ok(PiecesMeaning(t.key), key + 1 + |PiecesText(t.key)|)
    ensures colon == Space(s, key + 1 + |PiecesText(t.key)|) < |s| && s[colon] == ':'
    ensures value == Space(s, colon + 1) == Space(s, value) && Occurs(s, value, text)
    ensures value == i + |t.before| + 1 + |PiecesText(t.key)| + |t.beforeColon| + 1 + |t.afterColon|
  {
    hide Space, Chars, Occurs, IsSpaces, ValidPieces, PiecesText, PiecesMeaning;
    var rest4 := t.afterColon + text;
    var rest3 := ":" + rest4;
    var rest2 := t.beforeColon + rest3;
    var rest1 := PiecesText(t.key) + rest2;
    SpacesBefore(s, i, t.before, "\"" + rest1);
    key := i + |t.before|;
    OccursPlus(s, key, "\"", rest1);
    OccursPlus(s, key + 1, PiecesText(t.key), rest2);
    PiecesAreRead(s, key + 1, t.key);
    var after := key + 1 + |PiecesText(t.key)|;
    SpacesBefore(s, after, t.beforeColon, rest3);
    colon := after + |t.beforeColon|;
    OccursPlus(s, colon, ":", rest4);
    SpacesBefore(s, colon + 1, t.afterColon, text);
    value := colon + 1 + |t.afterColon|;
  }

  lemma {:induction false} MembersAreRead(s: string, i: nat, t: MemberTrees, depth: nat, seen: seq<string>)
    requires ValidMembers(t, depth, seen) && Occurs(s, i, MembersText(t))
    ensures i <= |s| && Space(s, i) < |s| && s[Space(s, i)] != '}'
    ensures Fields(s, Space(s, i), depth, seen) == Ok(MembersMeaning(t, depth, seen), i + |MembersText(t)|)
    decreases t
  {
    hide Value, Space, Chars, Meaning, TreeText, ValidTree, Occurs, IsSpaces, ValidPieces, PiecesText, PiecesMeaning;
    var text, tail := TreeText(t.value), MembersTail(t.more);
    TreeStart(t.value, depth);
    var key, colon, value := KeyIsRead(s, i, t, text + (t.after + tail));
    ValueSkipsSpace(s, colon + 1, depth);
    AfterValue(s, value, text, t.after, tail);
    TreeIsRead(s, value, t.value, depth);
    var end := value + |text| + |t.after|;
    if t.more.Member? {
      OccursPlus(s, end, ",", MembersText(t.more.members));
      MembersAreRead(s, end + 1, t.more.members, depth, seen + [PiecesMeaning(t.key)]);
    } else {
      assert MembersMeaning(t, depth, seen) == [Field(PiecesMeaning(t.key), Meaning(t.value, depth))];
    }
  }

  // Whatever is parsed is the text of a valid tree.

  predicate Blank(s: string, i: nat, j: nat) { i <= j <= |s| && forall k :: i <= k < j ==> IsSpace(s[k]) }

  lemma {:induction false} SkippedIsBlank(s: string, i: nat)
    requires i <= |s|
    ensures Blank(s, i, Space(s, i))
    decreases |s| - i
  {
    if i < |s| && IsSpace(s[i]) {
      SkippedIsBlank(s, i + 1);
    }
  }

  lemma OccursSlice(s: string, i: nat, j: nat)
    requires i <= j <= |s|
    ensures Occurs(s, i, s[i..j])
    ensures Blank(s, i, j) ==> IsSpaces(s[i..j])
  {
  }

  /** Spaces from `i` to `j`, and then a text. */
  lemma BlankBefore(s: string, i: nat, j: nat, text: string)
    requires Blank(s, i, j) && Occurs(s, j, text)
    ensures IsSpaces(s[i..j]) && Occurs(s, i, s[i..j] + text) && i + |s[i..j] + text| == j + |text|
  {
    OccursSlice(s, i, j);
    OccursPlus(s, i, s[i..j], text);
  }

  lemma CharBefore(s: string, i: nat, text: string)
    requires i < |s| && Occurs(s, i + 1, text)
    ensures Occurs(s, i, [s[i]] + text)
  {
    OccursChar(s, i, s[i]);
    OccursPlus(s, i, [s[i]], text);
  }

  lemma QuadHasDigits(s: string, i: nat) returns (d: string)
    requires i <= |s| && Quad(s, i).Ok?
    ensures HexQuad(d) && Occurs(s, i, d) && HexNumber(d) == Quad(s, i).value
  {
    d := s[i..i + 4];
    OccursSlice(s, i, i + 4);
  }

  lemma EscapeHasPiece(s: string, i: nat) returns (p: Piece)
    requires i < |s| && s[i] == '\\' && Escape(s, i + 1).Ok?
    ensures ValidPiece(p) && Occurs(s, i, PieceText(p))
    ensures Escape(s, i + 1) == Ok(PieceMeaning(p), i + |PieceText(p)|)
  {
    hide HexQuad, HexNumber, Quad, Occurs;
    if IsShortMark(s[i + 1]) {
      p := Short(s[i + 1]);
      OccursChar(s, i + 1, s[i + 1]);
      CharBefore(s, i, [s[i + 1]]);
    } else {
      var first := QuadHasDigits(s, i + 2);
      QuadLength(first);
      if IsHigh(HexNumber(first)) {
        var second := QuadHasDigits(s, i + 8);
        QuadLength(second);
        p := Pair(first, second);
        BackslashU(s, i + 6, second);
        OccursPlus(s, i + 2, first, "\\u" + second);
        BackslashU(s, i, first + ("\\u" + second));
      } else {
        p := Unit(first);
        BackslashU(s, i, first);
      }
    }
  }

  lemma {:induction false} CharsHavePieces(s: string, i: nat) returns (ps: seq<Piece>)
    requires i <= |s| && Chars(s, i).Ok?
    ensures ValidPieces(ps) && Occurs(s, i, PiecesText(ps))
    ensures Chars(s, i) == Ok(PiecesMeaning(ps), i + |PiecesText(ps)|)
    decreases |s| - i
  {
    hide Escape, PieceText, PieceMeaning, ValidPiece, Occurs;
    if s[i] == '"' {
      ps := [];
      OccursChar(s, i, '"');
    } else {
      var p: Piece;
      if s[i] == '\\' {
        p := EscapeHasPiece(s, i);
      } else {
        p := Plain(s[i]);
        PlainIsPiece(s, i);
      }
      var rest := CharsHavePieces(s, i + |PieceText(p)|);
      ps := [p] + rest;
      assert ps[1..] == rest;
      OccursPlus(s, i, PieceText(p), PiecesText(rest));
    }
  }

  lemma PlainIsPiece(s: string, i: nat)
    requires i < |s| && !(s[i] < ' ') && s[i] != '"' && s[i] != '\\'
    ensures ValidPiece(Plain(s[i])) && Occurs(s, i, PieceText(Plain(s[i])))
    ensures |PieceText(Plain(s[i]))| == 1 && PieceMeaning(Plain(s[i])) == s[i]
  {
    OccursChar(s, i, s[i]);
  }

  lemma NumeralHasDigits(s: string, i: nat) returns (d: string)
    requires i < |s| && IsDigit(s[i]) && Numeral(s, i).Ok?
    ensures IsNumeral(d) && Occurs(s, i, d) && Numeral(s, i) == Ok(Number(Decimal(d)), i + |d|)
  {
    d := s[i..Numeral(s, i).next];
    OccursSlice(s, i, Numeral(s, i).next);
  }

  lemma {:induction false} ValueHasTree(s: string, i: nat, depth: nat) returns (t: Tree)
    requires i <= |s| && Value(s, i, depth).Ok?
    ensures ValidTree(t, depth) && Occurs(s, Space(s, i), TreeText(t))
    ensures Value(s, i, depth) == Ok(Meaning(t, depth), Space(s, i) + |TreeText(t)|)
    decreases |s| - i, 0
  {
    hide Space, Chars, Numeral, Fields, Items, PiecesText, ItemsText, MembersText, PiecesMeaning, ItemsMeaning,
        MembersMeaning;
    hide Decimal, IsNumeral, ValidItems, ValidMembers, ValidPieces, Occurs, IsSpaces, Blank;
    var k := Space(s, i);
    if s[k] == '{' {
      var body := Space(s, k + 1);
      SkippedIsBlank(s, k + 1);
      if body < |s| && s[body] == '}' {
        t := EmptyObject(s[k + 1..body]);
        OccursChar(s, body, '}');
        BlankBefore(s, k + 1, body, "}");
        CharBefore(s, k, s[k + 1..body] + "}");
      } else {
        var members := FieldsHaveTrees(s, k + 1, body, depth + 1, []);
        t := ObjectTree(members);
        CharBefore(s, k, MembersText(members));
      }
    } else if s[k] == '[' {
      var body := Space(s, k + 1);
      SkippedIsBlank(s, k + 1);
      if body < |s| && s[body] == ']' {
        t := EmptyArray(s[k + 1..body]);
        OccursChar(s, body, ']');
        BlankBefore(s, k + 1, body, "]");
        CharBefore(s, k, s[k + 1..body] + "]");
      } else {
        var items := ItemsHaveTrees(s, k + 1, body, depth + 1, 0);
        t := ArrayTree(items);
        CharBefore(s, k, ItemsText(items));
      }
    } else if s[k] == '"' {
      var pieces := CharsHavePieces(s, k + 1);
      t := TextTree(pieces);
      CharBefore(s, k, PiecesText(pieces));
    } else {
      var digits := NumeralHasDigits(s, k);
      t := NumberTree(digits);
    }
  }

  lemma BlankJoin(s: string, i: nat, j: nat, k: nat)
    requires Blank(s, i, j) && Blank(s, j, k)
    ensures Blank(s, i, k)
  {
  }

  /** Spaces, a text, spaces and a tail, put together from their places. */
  lemma Composed(s: string, from: nat, start: nat, text: string, end: nat, tail: string)
    requires Blank(s, from, start) && Occurs(s, start, text)
    requires Blank(s, start + |text|, end) && Occurs(s, end, tail)
    ensures var after := s[start + |text|..end];
            && IsSpaces(s[from..start]) && IsSpaces(after)
            && Occurs(s, from, s[from..start] + (text + (after + tail)))
            && from + |s[from..start] + (text + (after + tail))| == end + |tail|
            && Occurs(s, start, text + (after + tail))
  {
    hide Occurs, IsSpaces;
    var after := s[start + |text|..end];
    BlankBefore(s, start + |text|, end, tail);
    OccursPlus(s, start, text, after + tail);
    BlankBefore(s, from, start, text + (after + tail));
    BlankEnds(s, from, start);
    BlankEnds(s, start + |text|, end);
  }

  lemma BlankEnds(s: string, i: nat, j: nat)
    requires Blank(s, i, j)
    ensures i <= j <= |s|
  {
  }

  lemma {:induction false} ItemsHaveTrees(s: string, from: nat, i: nat, depth: nat, count: nat) returns (t: ItemTrees)
    requires Blank(s, from, i) && Items(s, i, depth, count).Ok?
    ensures ValidItems(t, depth, count) && Occurs(s, from, ItemsText(t))
    ensures Items(s, i, depth, count) == Ok(ItemsMeaning(t, depth, count), from + |ItemsText(t)|)
    decreases |s| - i, 1
  {
    hide Value, Space, Meaning, TreeText, ValidTree, Occurs, IsSpaces, Blank;
    BlankEnds(s, from, i);
    var value := Value(s, i, depth);
    var start, end := Space(s, i), Space(s, value.next);
    var item := ValueHasTree(s, i, depth);
    SkippedIsBlank(s, i);
    SkippedIsBlank(s, value.next);
    BlankJoin(s, from, i, start);
    var more := NoItem;
    if s[end] == ',' {
      SkippedIsBlank(s, end + 1);
      var items := ItemsHaveTrees(s, end + 1, Space(s, end + 1), depth, count + 1);
      more := Item(items);
      CharBefore(s, end, ItemsText(items));
    } else {
      OccursChar(s, end, ']');
    }
    t := ItemTrees(s[from..start], item, s[value.next..end], more);
    Composed(s, from, start, TreeText(item), end, ItemsTail(more));
    assert more.NoItem? ==> ItemsMeaning(t, depth, count) == [value.value];
  }

  lemma {:induction false} FieldsHaveTrees(s: string, from: nat, i: nat, depth: nat, seen: seq<string>)
      returns (t: MemberTrees)
    requires Blank(s, from, i) && Fields(s, i, depth, seen).Ok?
    ensures ValidMembers(t, depth, seen) && Occurs(s, from, MembersText(t))
    ensures Fields(s, i, depth, seen) == Ok(MembersMeaning(t, depth, seen), from + |MembersText(t)|)
    decreases |s| - i, 1
  {
    hide Value, Space, Chars, Meaning, TreeText, ValidTree, Occurs, IsSpaces, Blank, ValidPieces, PiecesText,
        PiecesMeaning;
    hide MembersText;
    BlankEnds(s, from, i);
    var key := Chars(s, i + 1);
    var colon := Space(s, key.next);
    var value := Value(s, colon + 1, depth);
    var start, end := Space(s, colon + 1), Space(s, value.next);
    var pieces := CharsHavePieces(s, i + 1);
    var tree := ValueHasTree(s, colon + 1, depth);
    SkippedIsBlank(s, key.next);
    SkippedIsBlank(s, colon + 1);
    SkippedIsBlank(s, value.next);
    var more := NoMember;
    if s[end] == ',' {
      SkippedIsBlank(s, end + 1);
      var members := FieldsHaveTrees(s, end + 1, Space(s, end + 1), depth, seen + [key.value]);
      more := Member(members);
      CharBefore(s, end, MembersText(members));
    } else {
      OccursChar(s, end, '}');
    }
    t := MemberTrees(s[from..i], pieces, s[key.next..colon], s[colon + 1..start], tree, s[value.next..end], more);
    MembersComposed(s, from, i, t, key.next, colon, start, end);
    assert more.NoMember? ==> MembersMeaning(t, depth, seen) == [Field(key.value, value.value)];
  }

  /** A tree whose spaces are those found between the places of its parts. */
  lemma MembersComposed(s: string, from: nat, i: nat, t: MemberTrees, next: nat, colon: nat, start: nat, end: nat)
    requires Blank(s, from, i) && i < |s| && s[i] == '"' && Occurs(s, i + 1, PiecesText(t.key))
    requires next == i + 1 + |PiecesText(t.key)|
    requires Blank(s, next, colon) && colon < |s| && s[colon] == ':'
    requires Blank(s, colon + 1, start) && Occurs(s, start, TreeText(t.value))
    requires Blank(s, start + |TreeText(t.value)|, end) && Occurs(s, end, MembersTail(t.more))
    requires t.before == s[from..i] && t.beforeColon == s[next..colon]
    requires t.afterColon == s[colon + 1..start] && t.after == s[start + |TreeText(t.value)|..end]
    ensures IsSpaces(t.before) && IsSpaces(t.beforeColon) && IsSpaces(t.afterColon) && IsSpaces(t.after)
    ensures Occurs(s, from, MembersText(t)) && from + |MembersText(t)| == end + |MembersTail(t.more)|
  {
    hide TreeText, MembersTail, PiecesText, Occurs, IsSpaces, Blank;
    Composed(s, colon + 1, start, TreeText(t.value), end, MembersTail(t.more));
    KeyComposed(s, from, i, t.key, next, colon, t.afterColon + (TreeText(t.value) + (t.after + MembersTail(t.more))));
  }

  lemma KeyComposed(s: string, from: nat, i: nat, pieces: seq<Piece>, next: nat, colon: nat, rest: string)
    requires Blank(s, from, i) && i < |s| && s[i] == '"' && Occurs(s, i + 1, PiecesText(pieces))
    requires next == i + 1 + |PiecesText(pieces)|
    requires Blank(s, next, colon) && colon < |s| && s[colon] == ':' && Occurs(s, colon + 1, rest)
    ensures IsSpaces(s[from..i]) && IsSpaces(s[next..colon])
    ensures var text := s[from..i] + ("\"" + (PiecesText(pieces) + (s[next..colon] + (":" + rest))));
            Occurs(s, from, text) && from + |text| == colon + 1 + |rest|
  {
    hide Occurs, IsSpaces, Blank, PiecesText;
    CharBefore(s, colon, rest);
    BlankBefore(s, next, colon, ":" + rest);
    var tail := s[next..colon] + (":" + rest);
    OccursPlus(s, i + 1, PiecesText(pieces), tail);
    CharBefore(s, i, PiecesText(pieces) + tail);
    BlankBefore(s, from, i, "\"" + (PiecesText(pieces) + tail));
    BlankEnds(s, from, i);
    BlankEnds(s, next, colon);
  }
}
