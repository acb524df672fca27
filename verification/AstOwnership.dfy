/**
 * Which heap blocks a syntax tree owns, read off the plain tree: an expression that is a part of
 * an expression is in a box, because no Rust type contains itself; every vector has one buffer,
 * and every text one payload. Everything else lies inside the node that it is part of.
 */
module AstOwnership {
  import opened Checked
  import opened Ast
  import opened AstTree
  import opened AstMeter

  predicate InBox(parent: Head, head: Head) { IsExpression(parent) && IsExpression(head) }

  /** Boxes, vectors with the buffer asked for, bytes of all buffers under a layout, and bytes of text. */
  datatype Holding = Holding(boxes: nat, such: nat, bufferBytes: nat, textBytes: nat)

  function Sum(a: Holding, b: Holding): Holding {
    Holding(a.boxes + b.boxes, a.such + b.such, a.bufferBytes + b.bufferBytes, a.textBytes + b.textBytes)
  }

  datatype Query = Query(layout: Layout, buffer: Allocation)

  function BufferHolding(q: Query, buffer: Allocation): Holding {
    Holding(0, if buffer == q.buffer then 1 else 0, SizeOf(q.layout, buffer), 0)
  }

  /** What a node itself needs outside the node it is part of. */
  function OwnHolding(q: Query, t: Tree): Holding {
    match t.head
    case VectorHead(family, spare) => BufferHolding(q, Buffer(family, |t.parts|, |t.parts| + spare))
    case TextHead(_, text) => Holding(0, 0, 0, text.Capacity())
    case _ => Holding(0, 0, 0, 0)
  }

  /** What a tree needs in all: the sum over its nodes. */
  function TreeHolding(q: Query, t: Tree): Holding
    decreases t, 0
  {
    Sum(OwnHolding(q, t), PartsHolding(q, t.head, t.parts))
  }

  function PartsHolding(q: Query, parent: Head, parts: seq<Tree>): Holding
    decreases parts, 0
  {
    if |parts| == 0 then Holding(0, 0, 0, 0)
    else Sum(PartHolding(q, parent, parts[0]), PartsHolding(q, parent, parts[1..]))
  }

  function PartHolding(q: Query, parent: Head, part: Tree): Holding
    decreases part, 1
  {
    Sum(TreeHolding(q, part), Holding(if InBox(parent, part.head) then 1 else 0, 0, 0, 0))
  }

  // The same for a list of blocks.

  function BlockHolding(q: Query, block: Allocation): Holding {
    match block
    case Boxes(count) => Holding(count, 0, 0, 0)
    case Buffer(_, _, _) => BufferHolding(q, block)
    case Payload(capacity) => Holding(0, 0, 0, capacity)
  }

  function HoldingOf(q: Query, owned: Allocations): Holding {
    if |owned| == 0 then Holding(0, 0, 0, 0) else Sum(BlockHolding(q, owned[0]), HoldingOf(q, owned[1..]))
  }

  lemma {:induction false} HoldingOfConcat(q: Query, a: Allocations, b: Allocations)
    ensures HoldingOf(q, a + b) == Sum(HoldingOf(q, a), HoldingOf(q, b))
  {
    hide BlockHolding;
    if a == [] {
      assert a + b == b;
    } else {
      assert (a + b)[1..] == a[1..] + b;
      HoldingOfConcat(q, a[1..], b);
    }
  }

  lemma HoldingAdds(q: Query)
    ensures forall a: Allocations, b: Allocations {:trigger HoldingOf(q, a + b)} ::
              HoldingOf(q, a + b) == Sum(HoldingOf(q, a), HoldingOf(q, b))
    ensures forall x: Allocation {:trigger HoldingOf(q, [x])} :: HoldingOf(q, [x]) == BlockHolding(q, x)
    ensures HoldingOf(q, []) == Holding(0, 0, 0, 0)
  {
    hide BlockHolding;
    forall a: Allocations, b: Allocations ensures HoldingOf(q, a + b) == Sum(HoldingOf(q, a), HoldingOf(q, b)) {
      HoldingOfConcat(q, a, b);
    }
    forall x: Allocation ensures HoldingOf(q, [x]) == BlockHolding(q, x) {
      assert [x][1..] == [];
    }
  }

  lemma {:induction false} PartsOfConcat(q: Query, parent: Head, a: seq<Tree>, b: seq<Tree>)
    ensures PartsHolding(q, parent, a + b) == Sum(PartsHolding(q, parent, a), PartsHolding(q, parent, b))
  {
    hide PartHolding;
    if a == [] {
      assert a + b == b;
    } else {
      assert (a + b)[1..] == a[1..] + b;
      PartsOfConcat(q, parent, a[1..], b);
    }
  }

  lemma PartsAdd(q: Query, parent: Head)
    ensures forall a: seq<Tree>, b: seq<Tree> {:trigger PartsHolding(q, parent, a + b)} ::
              PartsHolding(q, parent, a + b) == Sum(PartsHolding(q, parent, a), PartsHolding(q, parent, b))
    ensures forall t: Tree {:trigger PartsHolding(q, parent, [t])} ::
              PartsHolding(q, parent, [t]) == PartHolding(q, parent, t)
    ensures PartsHolding(q, parent, []) == Holding(0, 0, 0, 0)
  {
    hide PartHolding;
    forall a: seq<Tree>, b: seq<Tree>
      ensures PartsHolding(q, parent, a + b) == Sum(PartsHolding(q, parent, a), PartsHolding(q, parent, b))
    {
      PartsOfConcat(q, parent, a, b);
    }
    forall t: Tree ensures PartsHolding(q, parent, [t]) == PartHolding(q, parent, t) {
      assert [t][1..] == [];
    }
  }

  // A node that owns nothing itself needs what its parts need.

  predicate IsPlain(head: Head) { !head.VectorHead? && !head.TextHead? }

  predicate IsNode(head: Head) { IsPlain(head) && !head.VarHead? }

  lemma NodeOfParts(q: Query, head: Head, parts: seq<Tree>)
    ensures IsPlain(head) ==> TreeHolding(q, Tree(head, parts)) == PartsHolding(q, head, parts)
    ensures TreeHolding(q, Tree(head, parts))
            == Sum(OwnHolding(q, Tree(head, parts)), PartsHolding(q, head, parts))
  {
  }

  lemma NodeOfNone(q: Query, head: Head)
    requires IsPlain(head)
    ensures TreeHolding(q, Tree(head, [])) == Holding(0, 0, 0, 0)
  {
  }

  lemma NodeOfOne(q: Query, head: Head, a: Tree)
    requires IsPlain(head)
    ensures TreeHolding(q, Tree(head, [a])) == PartHolding(q, head, a)
  {
    hide TreeHolding, PartHolding;
    NodeOfParts(q, head, [a]);
    PartsAdd(q, head);
  }

  lemma NodeOfTwo(q: Query, head: Head, a: Tree, b: Tree)
    requires IsPlain(head)
    ensures TreeHolding(q, Tree(head, [a, b])) == Sum(PartHolding(q, head, a), PartHolding(q, head, b))
  {
    hide TreeHolding, PartHolding, PartsHolding;
    NodeOfParts(q, head, [a, b]);
    PartsAdd(q, head);
    assert [a, b] == [a] + [b];
  }

  lemma NodeOfThree(q: Query, head: Head, a: Tree, b: Tree, c: Tree)
    requires IsPlain(head)
    ensures TreeHolding(q, Tree(head, [a, b, c]))
            == Sum(Sum(PartHolding(q, head, a), PartHolding(q, head, b)), PartHolding(q, head, c))
  {
    hide TreeHolding, PartHolding, PartsHolding;
    NodeOfParts(q, head, [a, b, c]);
    PartsAdd(q, head);
    assert [a, b, c] == [a] + [b] + [c];
  }

  lemma BlockBytes(q: Query, block: Allocation)
    ensures var h := BlockHolding(q, block);
            SizeOf(q.layout, block) == h.boxes * q.layout.expr + h.bufferBytes + h.textBytes
  {
  }

  lemma Distribute(a: nat, b: nat, width: nat)
    ensures (a + b) * width == a * width + b * width
  {
  }

  lemma {:induction false} BytesOfHolding(q: Query, owned: Allocations)
    ensures var h := HoldingOf(q, owned);
            TotalBytes(q.layout, owned) == h.boxes * q.layout.expr + h.bufferBytes + h.textBytes
  {
    if |owned| != 0 {
      hide SizeOf, BlockHolding;
      var first, rest := BlockHolding(q, owned[0]), HoldingOf(q, owned[1..]);
      BytesOfHolding(q, owned[1..]);
      BlockBytes(q, owned[0]);
      Distribute(first.boxes, rest.boxes, q.layout.expr);
    }
  }

  // Nodes by what their parts own; `Inside` lies in the node itself.

  ghost predicate Holds(q: Query, t: Tree, owned: Allocations) {
    TreeHolding(q, t) == HoldingOf(q, owned) && Uniform(t) && !IsMention(t.head)
  }

  ghost predicate Inside(q: Query, head: Head, t: Tree, owned: Allocations) {
    Holds(q, t, owned) && !InBox(head, t.head)
  }

  ghost predicate Outside(q: Query, head: Head, t: Tree, owned: Allocations) {
    Holds(q, t, owned) && InBox(head, t.head)
  }

  lemma InsideNone(q: Query, head: Head)
    requires IsNode(head)
    ensures Holds(q, Tree(head, []), [])
  {
    hide HoldingOf, TreeHolding;
    NodeOfNone(q, head);
    HoldingAdds(q);
  }

  lemma InsideOne(q: Query, head: Head, a: Tree, oa: Allocations)
    requires IsNode(head) && Inside(q, head, a, oa)
    ensures Holds(q, Tree(head, [a]), oa)
  {
    hide HoldingOf, TreeHolding, InBox;
    NodeOfOne(q, head, a);
  }

  lemma InsideTwo(q: Query, head: Head, a: Tree, b: Tree, oa: Allocations, ob: Allocations)
    requires IsNode(head) && Inside(q, head, a, oa) && Inside(q, head, b, ob)
    ensures Holds(q, Tree(head, [a, b]), oa + ob)
  {
    hide HoldingOf, TreeHolding, InBox;
    NodeOfTwo(q, head, a, b);
    HoldingOfConcat(q, oa, ob);
  }

  lemma InsideThree(
    q: Query, head: Head, a: Tree, b: Tree, c: Tree, oa: Allocations, ob: Allocations, oc: Allocations)
    requires IsNode(head) && Inside(q, head, a, oa) && Inside(q, head, b, ob) && Inside(q, head, c, oc)
    ensures Holds(q, Tree(head, [a, b, c]), oa + ob + oc)
  {
    hide HoldingOf, TreeHolding, InBox;
    NodeOfThree(q, head, a, b, c);
    HoldingOfConcat(q, oa, ob);
    HoldingOfConcat(q, oa + ob, oc);
  }

  /** One more part at the end. */
  lemma InsideMore(q: Query, head: Head, parts: seq<Tree>, a: Tree, owned: Allocations, oa: Allocations)
    requires IsNode(head) && Holds(q, Tree(head, parts), owned) && Inside(q, head, a, oa)
    ensures Holds(q, Tree(head, parts + [a]), owned + oa)
  {
    hide HoldingOf, TreeHolding, InBox, PartsHolding;
    NodeOfParts(q, head, parts);
    NodeOfParts(q, head, parts + [a]);
    PartsAdd(q, head);
    HoldingOfConcat(q, owned, oa);
  }

  lemma BoxedOne(q: Query, head: Head, a: Tree, oa: Allocations)
    requires IsNode(head) && Outside(q, head, a, oa)
    ensures Holds(q, Tree(head, [a]), Boxed(1) + oa)
  {
    hide HoldingOf, TreeHolding, InBox;
    NodeOfOne(q, head, a);
    HoldingOfConcat(q, Boxed(1), oa);
    BoxesHold(q, 1);
  }

  lemma BoxedTwo(q: Query, head: Head, a: Tree, b: Tree, oa: Allocations, ob: Allocations)
    requires IsNode(head) && Outside(q, head, a, oa) && Outside(q, head, b, ob)
    ensures Holds(q, Tree(head, [a, b]), Boxed(2) + oa + ob)
  {
    hide HoldingOf, TreeHolding, InBox;
    NodeOfTwo(q, head, a, b);
    HoldingOfConcat(q, Boxed(2), oa);
    HoldingOfConcat(q, Boxed(2) + oa, ob);
    BoxesHold(q, 2);
  }

  lemma BoxesHold(q: Query, n: nat)
    ensures HoldingOf(q, Boxed(n)) == Holding(n, 0, 0, 0)
  {
    assert Boxed(n)[1..] == [];
  }

  // Every part of the syntax owns what its tree needs.

  lemma LocalIsElement(local: LocalName)
    ensures FamilyOf(LocalTree(local).head) == Some(LocalFamily)
  {
  }

  lemma ExprIsElement(e: Expr)
    ensures IsExpression(ExprTree(e).head) && FamilyOf(ExprTree(e).head) == Some(ExprFamily)
  {
    hide FunctionTree, FieldVector, ExprVector;
  }

  lemma FieldIsElement(field: TableField)
    ensures FamilyOf(FieldTree(field).head) == Some(FieldFamily)
  {
    hide ExprTree;
  }

  lemma StmtIsElement(s: Stmt)
    ensures FamilyOf(StmtTree(s).head) == Some(StmtFamily)
  {
    hide ExprTree, BlockTree, FunctionTree, LocalTree, ExprVector, LocalVector, ClauseVector, CallTree;
  }

  lemma ClauseIsElement(clause: IfClause)
    ensures FamilyOf(ClauseTree(clause).head) == Some(ClauseFamily)
  {
    hide ExprTree, BlockTree;
  }

  lemma TextNode(q: Query, role: Role, text: Name)
    ensures TreeHolding(q, TextTree(role, text))
            == Sum(OwnHolding(q, TextTree(role, text)), PartsHolding(q, TextHead(role, text), []))
    ensures OwnHolding(q, TextTree(role, text)) == Holding(0, 0, 0, text.Capacity())
  {
    hide TreeHolding, PartsHolding;
    NodeOfParts(q, TextHead(role, text), []);
  }

  lemma NameHolding(q: Query, text: Name)
    ensures HoldingOf(q, NameOf(text)) == Holding(0, 0, 0, text.Capacity())
  {
    hide HoldingOf;
    OneBlock(q, Payload(text.Capacity()));
  }

  lemma TextSize(q: Query, role: Role, text: Name)
    ensures TreeHolding(q, TextTree(role, text)) == HoldingOf(q, NameOf(text)) && Uniform(TextTree(role, text))
  {
    TextIsUniform(TextHead(role, text));
    hide TreeHolding, HoldingOf, PartsHolding, OwnHolding, NameOf, Uniform;
    TextNode(q, role, text);
    NameHolding(q, text);
    EmptyParts(q, TextHead(role, text));
  }

  lemma TextIsUniform(head: Head)
    requires head.TextHead?
    ensures Uniform(Tree(head, []))
  {
  }

  lemma EmptyParts(q: Query, head: Head)
    ensures var h := PartsHolding(q, head, []);
            h.boxes == 0 && h.such == 0 && h.bufferBytes == 0 && h.textBytes == 0
  {
  }

  lemma OneBlock(q: Query, block: Allocation)
    ensures HoldingOf(q, [block]) == BlockHolding(q, block)
  {
    hide BlockHolding;
    assert [block][1..] == [];
  }

  lemma TextHolds(q: Query, role: Role, text: Name)
    requires role != Mention
    ensures Holds(q, TextTree(role, text), NameOf(text))
  {
    TextSize(q, role, text);
  }

  lemma LocalHolds(q: Query, local: LocalName)
    ensures Holds(q, LocalTree(local), LocalOwned(local))
  {
    hide Holds;
    var head, name := LocalTree(local).head, TextTree(Key, local.name);
    TextHolds(q, Key, local.name);
    match local.attribute {
      case NoAttribute =>
        InsideOne(q, head, name, NameOf(local.name));
        assert LocalTree(local).parts == [name] && LocalOwned(local) == NameOf(local.name);
      case Written(text) =>
        TextHolds(q, Other, text);
        InsideTwo(q, head, name, TextTree(Other, text), NameOf(local.name), NameOf(text));
        assert LocalTree(local).parts == [name, TextTree(Other, text)];
      case Inherited(close) =>
        TextHolds(q, Other, InheritedName(close));
        InsideTwo(q, head, name, TextTree(Other, InheritedName(close)), NameOf(local.name), Bytes(5));
        assert LocalTree(local).parts == [name, TextTree(Other, InheritedName(close))];
    }
  }

  /** A list of trees that can be the elements of a vector. */
  ghost predicate Listed(q: Query, parent: Head, parts: seq<Tree>, owned: Allocations) {
    && parent.VectorHead? && PartsHolding(q, parent, parts) == HoldingOf(q, owned)
    && forall i :: 0 <= i < |parts| ==> FitsIn(parent, parts[i].head) && Uniform(parts[i])
  }

  lemma OneMore(q: Query, parent: Head, first: Tree, rest: seq<Tree>, owned: Allocations, others: Allocations)
    requires Listed(q, parent, rest, others) && Holds(q, first, owned) && FamilyOf(first.head) == Some(parent.family)
    ensures Listed(q, parent, [first] + rest, owned + others)
  {
    hide TreeHolding, HoldingOf, FamilyOf;
    HoldingAdds(q);
    assert ([first] + rest)[1..] == rest;
    ElementIsNoText(first.head);
    forall i | 0 <= i < |[first] + rest|
      ensures FitsIn(parent, ([first] + rest)[i].head) && Uniform(([first] + rest)[i])
    {
      assert i > 0 ==> ([first] + rest)[i] == rest[i - 1];
    }
    assert PartsHolding(q, parent, [first] + rest) == HoldingOf(q, owned + others);
  }

  lemma ElementIsNoText(head: Head)
    requires FamilyOf(head).Some?
    ensures !head.TextHead?
  {
  }

  lemma NoParts(q: Query, parent: Head)
    requires parent.VectorHead?
    ensures Listed(q, parent, [], [])
  {
  }

  /** A vector: its buffer and its elements. */
  lemma VectorHolds(q: Query, family: Family, spare: nat, elements: seq<Tree>, owned: Allocations, length: nat)
    requires |elements| == length && Listed(q, VectorHead(family, spare), elements, owned)
    ensures Holds(q, Tree(VectorHead(family, spare), elements), [Buffer(family, length, length + spare)] + owned)
  {
    hide HoldingOf, PartsHolding, TreeHolding, SizeOf;
    NodeOfParts(q, VectorHead(family, spare), elements);
    HoldingAdds(q);
  }

  lemma {:induction false} LocalsHold(q: Query, parent: Head, locals: seq<LocalName>)
    requires parent.VectorHead? && parent.family == LocalFamily
    ensures Listed(q, parent, LocalTrees(locals), LocalListOwned(locals))
    ensures |LocalTrees(locals)| == |locals|
    decreases locals
  {
    hide Holds, Listed, LocalTree, LocalOwned;
    if |locals| == 0 {
      NoParts(q, parent);
    } else {
      LocalHolds(q, locals[0]);
      LocalIsElement(locals[0]);
      LocalsHold(q, parent, locals[1..]);
      OneMore(q, parent, LocalTree(locals[0]), LocalTrees(locals[1..]),
              LocalOwned(locals[0]), LocalListOwned(locals[1..]));
    }
  }

  lemma {:induction false} LocalVectorHolds(q: Query, locals: Vec<LocalName>)
    ensures Holds(q, LocalVector(locals), LocalsOwned(locals))
    decreases locals
  {
    hide Holds, Listed, LocalTrees, LocalListOwned;
    LocalsHold(q, LocalVector(locals).head, locals.items);
    VectorHolds(q, LocalFamily, locals.spare, LocalTrees(locals.items), LocalListOwned(locals.items), |locals.items|);
  }

  lemma {:induction false} ExprHolds(q: Query, e: Expr)
    ensures Holds(q, ExprTree(e), ExprOwned(e))
    decreases e
  {
    hide Holds, CallTree, CallOwned, FunctionTree, FunctionOwned, FieldVector, FieldsOwned, LiteralTree;
    match e {
      case Constant(literal) => LiteralHolds(q, literal);
      case Nil => InsideNone(q, NilHead);
      case Bool(value) => InsideNone(q, BoolHead(value));
      case Vararg => InsideNone(q, VarargHead);
      case Var(name) => VarHolds(q, name);
      case Unary(op, operand) =>
        ExprHolds(q, operand);
        ExprIsElement(operand);
        BoxedOne(q, UnaryHead(op), ExprTree(operand), ExprOwned(operand));
      case Paren(inner) =>
        ExprHolds(q, inner);
        ExprIsElement(inner);
        BoxedOne(q, ParenHead, ExprTree(inner), ExprOwned(inner));
      case Binary(op, left, right) =>
        ExprHolds(q, left);
        ExprHolds(q, right);
        ExprIsElement(left);
        ExprIsElement(right);
        BoxedTwo(q, BinaryHead(op), ExprTree(left), ExprTree(right), ExprOwned(left), ExprOwned(right));
      case Index(base, index) =>
        ExprHolds(q, base);
        ExprHolds(q, index);
        ExprIsElement(base);
        ExprIsElement(index);
        BoxedTwo(q, IndexHead, ExprTree(base), ExprTree(index), ExprOwned(base), ExprOwned(index));
      case Field(base, name) =>
        ExprHolds(q, base);
        ExprIsElement(base);
        TextHolds(q, Other, name);
        BoxedOne(q, FieldHead, ExprTree(base), ExprOwned(base));
        InsideMore(q, FieldHead, [ExprTree(base)], TextTree(Other, name), Boxed(1) + ExprOwned(base), NameOf(name));
        assert ExprTree(e).parts == [ExprTree(base)] + [TextTree(Other, name)];
      case CallExpr(call) => CallHolds(q, call);
      case Function(body) =>
        FunctionHolds(q, body, false);
        FunctionTreeHead(body);
        WrappedHolds(q, FunctionExprHead, FunctionTree(body, false), FunctionOwned(body));
      case Table(fields) =>
        FieldVectorHolds(q, fields);
        FieldVectorHead(fields);
        WrappedHolds(q, TableHead, FieldVector(fields), FieldsOwned(fields));
    }
  }

  lemma VarHolds(q: Query, name: Name)
    ensures Holds(q, Tree(VarHead, [TextTree(Mention, name)]), NameOf(name))
  {
    hide HoldingOf, TreeHolding;
    TextSize(q, Mention, name);
    NodeOfOne(q, VarHead, TextTree(Mention, name));
  }

  /** A function or a table is inside its expression. */
  lemma WrappedHolds(q: Query, head: Head, part: Tree, owned: Allocations)
    requires IsNode(head) && Holds(q, part, owned) && !IsExpression(part.head)
    ensures Holds(q, Tree(head, [part]), owned)
  {
    hide Holds;
    InsideOne(q, head, part, owned);
  }

  lemma FunctionTreeHead(body: FunctionBody)
    ensures !IsExpression(FunctionTree(body, false).head)
  {
    hide BlockTree, LocalVector, VarargTrees;
  }

  lemma FieldVectorHead(fields: Vec<TableField>)
    ensures !IsExpression(FieldVector(fields).head)
  {
    hide FieldTrees;
  }

  lemma EmptyHolds(q: Query, head: Head)
    requires IsNode(head)
    ensures Holds(q, Tree(head, []), Bytes(0))
  {
    hide HoldingOf, TreeHolding;
    NodeOfNone(q, head);
    HoldingAdds(q);
  }

  lemma LiteralHolds(q: Query, literal: Literal)
    ensures Holds(q, LiteralTree(literal), Bytes(LiteralCapacity(literal)))
  {
    hide Holds;
    match literal {
      case Integer => EmptyHolds(q, LiteralHead(IntegerLiteral));
      case Float => EmptyHolds(q, LiteralHead(FloatLiteral));
      case String(value) =>
        TextHolds(q, Content, value);
        InsideOne(q, LiteralHead(StringLiteral), TextTree(Content, value), NameOf(value));
    }
  }

  lemma {:induction false} CallHolds(q: Query, call: Call)
    ensures Holds(q, CallTree(call), CallOwned(call))
    decreases call
  {
    hide Holds, ExprTree, ExprOwned, ExprTrees, ExpressionsOwned;
    var arguments := call.arguments;
    ExprVectorHolds(q, arguments);
    match call {
      case Call(callee, _, bare) =>
        ExprHolds(q, callee);
        ExprIsElement(callee);
        BoxedOne(q, CallHead(bare), ExprTree(callee), ExprOwned(callee));
        InsideMore(q, CallHead(bare), [ExprTree(callee)], ExprVector(arguments), Boxed(1) + ExprOwned(callee),
                   ExpressionsOwned(arguments));
        assert CallTree(call).parts == [ExprTree(callee)] + [ExprVector(arguments)];
      case MethodCall(receiver, name, _, bare) =>
        var head, first := MethodCallHead(bare), Boxed(1) + ExprOwned(receiver);
        ExprHolds(q, receiver);
        ExprIsElement(receiver);
        TextHolds(q, Other, name);
        BoxedOne(q, head, ExprTree(receiver), ExprOwned(receiver));
        InsideMore(q, head, [ExprTree(receiver)], TextTree(Other, name), first, NameOf(name));
        InsideMore(q, head, [ExprTree(receiver)] + [TextTree(Other, name)], ExprVector(arguments),
                   first + NameOf(name), ExpressionsOwned(arguments));
        assert CallTree(call).parts == [ExprTree(receiver)] + [TextTree(Other, name)] + [ExprVector(arguments)];
    }
  }

  lemma {:induction false} ExprsHold(q: Query, parent: Head, es: seq<Expr>)
    requires parent.VectorHead? && parent.family == ExprFamily
    ensures Listed(q, parent, ExprTrees(es), ExprListOwned(es))
    ensures |ExprTrees(es)| == |es|
    decreases es
  {
    hide Holds, Listed, ExprTree, ExprOwned;
    if |es| == 0 {
      NoParts(q, parent);
    } else {
      ExprHolds(q, es[0]);
      ExprIsElement(es[0]);
      ExprsHold(q, parent, es[1..]);
      OneMore(q, parent, ExprTree(es[0]), ExprTrees(es[1..]),
              ExprOwned(es[0]), ExprListOwned(es[1..]));
    }
  }

  lemma {:induction false} ExprVectorHolds(q: Query, values: Vec<Expr>)
    ensures Holds(q, ExprVector(values), ExpressionsOwned(values))
    decreases values
  {
    hide Holds, Listed, ExprTrees, ExprListOwned;
    ExprsHold(q, ExprVector(values).head, values.items);
    VectorHolds(q, ExprFamily, values.spare, ExprTrees(values.items), ExprListOwned(values.items), |values.items|);
  }

  lemma {:induction false} FieldHolds(q: Query, field: TableField)
    ensures Holds(q, FieldTree(field), FieldOwned(field))
    decreases field
  {
    hide Holds, ExprTree, ExprOwned;
    ExprHolds(q, field.value);
    match field {
      case Array(value, separator) => InsideOne(q, ArrayFieldHead(separator), ExprTree(value), ExprOwned(value));
      case Named(name, value, separator) =>
        TextHolds(q, Other, name);
        InsideTwo(q, NamedFieldHead(separator), TextTree(Other, name), ExprTree(value), NameOf(name), ExprOwned(value));
      case Indexed(key, value, separator) =>
        ExprHolds(q, key);
        InsideTwo(q, IndexedFieldHead(separator), ExprTree(key), ExprTree(value), ExprOwned(key), ExprOwned(value));
    }
  }

  lemma {:induction false} FieldsHold(q: Query, parent: Head, fields: seq<TableField>)
    requires parent.VectorHead? && parent.family == FieldFamily
    ensures Listed(q, parent, FieldTrees(fields), FieldListOwned(fields))
    ensures |FieldTrees(fields)| == |fields|
    decreases fields
  {
    hide Holds, Listed, FieldTree, FieldOwned;
    if |fields| == 0 {
      NoParts(q, parent);
    } else {
      FieldHolds(q, fields[0]);
      FieldIsElement(fields[0]);
      FieldsHold(q, parent, fields[1..]);
      OneMore(q, parent, FieldTree(fields[0]), FieldTrees(fields[1..]),
              FieldOwned(fields[0]), FieldListOwned(fields[1..]));
    }
  }

  lemma {:induction false} FieldVectorHolds(q: Query, fields: Vec<TableField>)
    ensures Holds(q, FieldVector(fields), FieldsOwned(fields))
    decreases fields
  {
    hide Holds, Listed, FieldTrees, FieldListOwned;
    FieldsHold(q, FieldVector(fields).head, fields.items);
    VectorHolds(q, FieldFamily, fields.spare, FieldTrees(fields.items), FieldListOwned(fields.items), |fields.items|);
  }

  lemma {:induction false} FunctionHolds(q: Query, body: FunctionBody, hasSelf: bool)
    ensures Holds(q, FunctionTree(body, hasSelf), FunctionOwned(body))
    decreases body
  {
    hide Holds, BlockTree, BlockOwned, LocalVector, LocalsOwned, LocalTree, LocalOwned;
    LocalVectorHolds(q, body.parameters);
    BlockHolds(q, body.body);
    var t := FunctionTree(body, hasSelf);
    var parameters, block := LocalVector(body.parameters), BlockTree(body.body);
    match body.vararg {
      case NamedVararg(table) =>
        LocalHolds(q, table);
        assert t.parts == [parameters, LocalTree(table), block];
        InsideThree(q, t.head, parameters, LocalTree(table), block,
                    LocalsOwned(body.parameters), LocalOwned(table), BlockOwned(body.body));
      case _ =>
        assert t.parts == [parameters, block];
        InsideTwo(q, t.head, parameters, block, LocalsOwned(body.parameters), BlockOwned(body.body));
        assert LocalsOwned(body.parameters) + [] == LocalsOwned(body.parameters);
    }
  }

  lemma {:induction false} BlockHolds(q: Query, block: Block)
    ensures Holds(q, BlockTree(block), BlockOwned(block))
    decreases block
  {
    hide Holds, Listed, StmtTrees, StmtListOwned;
    var statements := block.statements;
    StmtsHold(q, StmtVector(statements).head, statements.items);
    VectorHolds(q, StmtFamily, statements.spare, StmtTrees(statements.items), StmtListOwned(statements.items),
                |statements.items|);
    InsideOne(q, BlockHead, StmtVector(statements), BlockOwned(block));
  }

  lemma {:induction false} StmtsHold(q: Query, parent: Head, statements: seq<Stmt>)
    requires parent.VectorHead? && parent.family == StmtFamily
    ensures Listed(q, parent, StmtTrees(statements), StmtListOwned(statements))
    ensures |StmtTrees(statements)| == |statements|
    decreases statements
  {
    hide Holds, Listed, StmtTree, StmtOwned;
    if |statements| == 0 {
      NoParts(q, parent);
    } else {
      StmtHolds(q, statements[0]);
      StmtIsElement(statements[0]);
      StmtsHold(q, parent, statements[1..]);
      OneMore(q, parent, StmtTree(statements[0]), StmtTrees(statements[1..]),
              StmtOwned(statements[0]), StmtListOwned(statements[1..]));
    }
  }

  lemma {:induction false} ClauseHolds(q: Query, clause: IfClause)
    ensures Holds(q, ClauseTree(clause), ClauseOwned(clause))
    decreases clause
  {
    hide Holds, ExprTree, ExprOwned, BlockTree, BlockOwned;
    ExprHolds(q, clause.condition);
    BlockHolds(q, clause.body);
    InsideTwo(q, ClauseHead, ExprTree(clause.condition), BlockTree(clause.body),
              ExprOwned(clause.condition), BlockOwned(clause.body));
  }

  lemma {:induction false} ClausesHold(q: Query, parent: Head, clauses: seq<IfClause>)
    requires parent.VectorHead? && parent.family == ClauseFamily
    ensures Listed(q, parent, ClauseTrees(clauses), ClauseListOwned(clauses))
    ensures |ClauseTrees(clauses)| == |clauses|
    decreases clauses
  {
    hide Holds, Listed, ClauseTree, ClauseOwned;
    if |clauses| == 0 {
      NoParts(q, parent);
    } else {
      ClauseHolds(q, clauses[0]);
      ClauseIsElement(clauses[0]);
      ClausesHold(q, parent, clauses[1..]);
      OneMore(q, parent, ClauseTree(clauses[0]), ClauseTrees(clauses[1..]),
              ClauseOwned(clauses[0]), ClauseListOwned(clauses[1..]));
    }
  }

  lemma {:induction false} ClauseVectorHolds(q: Query, clauses: Vec<IfClause>)
    ensures Holds(q, ClauseVector(clauses), ClausesOwned(clauses))
    decreases clauses
  {
    hide Holds, Listed, ClauseTrees, ClauseListOwned;
    ClausesHold(q, ClauseVector(clauses).head, clauses.items);
    VectorHolds(q, ClauseFamily, clauses.spare, ClauseTrees(clauses.items), ClauseListOwned(clauses.items),
                |clauses.items|);
  }

  /** A name that may be missing, as a last part. */
  lemma InsideName(q: Query, head: Head, parts: seq<Tree>, owned: Allocations, text: Option<Name>)
    requires IsNode(head) && Holds(q, Tree(head, parts), owned)
    ensures Holds(q, Tree(head, parts + OptionalText(Other, text)), owned + OptionalName(text))
  {
    hide Holds;
    if text.Some? {
      TextHolds(q, Other, text.value);
      InsideMore(q, head, parts, TextTree(Other, text.value), owned, NameOf(text.value));
    } else {
      assert parts + [] == parts && owned + [] == owned;
    }
  }

  lemma {:induction false} GlobalHolds(q: Query, declaration: GlobalDeclaration)
    ensures Holds(q, GlobalTree(declaration), GlobalOwned(declaration))
    decreases declaration
  {
    hide Holds, LocalVector, LocalsOwned, ExprVector, ExpressionsOwned, FunctionTree, FunctionOwned, OptionalText,
      OptionalName;
    var head := GlobalTree(declaration).head;
    match declaration {
      case GlobalNames(names, _, values, prefixAttribute) =>
        LocalVectorHolds(q, names);
        ExprVectorHolds(q, values);
        InsideTwo(q, head, LocalVector(names), ExprVector(values), LocalsOwned(names), ExpressionsOwned(values));
        InsideName(q, head, [LocalVector(names), ExprVector(values)], LocalsOwned(names) + ExpressionsOwned(values),
                   prefixAttribute);
      case GlobalStar(prefixAttribute) =>
        InsideNone(q, head);
        InsideName(q, head, [], [], prefixAttribute);
        assert [] + OptionalText(Other, prefixAttribute) == OptionalText(Other, prefixAttribute);
        assert [] + OptionalName(prefixAttribute) == OptionalName(prefixAttribute);
      case GlobalFunction(name, body) =>
        TextHolds(q, Key, name);
        FunctionHolds(q, body, false);
        InsideTwo(q, head, TextTree(Key, name), FunctionTree(body, false), NameOf(name), FunctionOwned(body));
    }
  }

  lemma {:induction false} StmtHolds(q: Query, s: Stmt)
    ensures Holds(q, StmtTree(s), StmtOwned(s))
    decreases s, 2
  {
    hide Holds, LocalVector, LocalsOwned, ExprVector, ExpressionsOwned, FunctionTree, FunctionOwned, BlockTree,
      BlockOwned, LocalTree, LocalOwned, GlobalTree, GlobalOwned, CallTree, CallOwned;
    match s {
      case Empty => InsideNone(q, EmptyHead);
      case Break => InsideNone(q, BreakHead);
      case Assignment(targets, values) =>
        ExprVectorHolds(q, targets);
        ExprVectorHolds(q, values);
        InsideTwo(q, AssignmentHead, ExprVector(targets), ExprVector(values), ExpressionsOwned(targets),
                  ExpressionsOwned(values));
      case CallStmt(call) =>
        CallHolds(q, call);
        InsideOne(q, CallStmtHead, CallTree(call), CallOwned(call));
      case Local(prefix, names, equals, values) =>
        LocalVectorHolds(q, names);
        ExprVectorHolds(q, values);
        InsideTwo(q, LocalHead(prefix, equals), LocalVector(names), ExprVector(values), LocalsOwned(names),
                  ExpressionsOwned(values));
      case Global(declaration) => GlobalHolds(q, declaration);
      case LocalFunction(name, definition) =>
        LocalHolds(q, name);
        FunctionHolds(q, definition, false);
        InsideTwo(q, LocalFunctionHead, LocalTree(name), FunctionTree(definition, false), LocalOwned(name),
                  FunctionOwned(definition));
      case Return(_, _) => PlainStmtHolds(q, s);
      case Goto(_) => PlainStmtHolds(q, s);
      case Label(_) => PlainStmtHolds(q, s);
      case Do(_) => PlainStmtHolds(q, s);
      case _ => CompoundHolds(q, s);
    }
  }

  lemma {:induction false} PlainStmtHolds(q: Query, s: Stmt)
    requires s.Return? || s.Goto? || s.Label? || s.Do?
    ensures Holds(q, StmtTree(s), StmtOwned(s))
    decreases s, 1
  {
    hide Holds, LocalVector, LocalsOwned, ExprVector, ExpressionsOwned, FunctionTree, FunctionOwned, BlockTree,
      BlockOwned, LocalTree, LocalOwned, GlobalTree, GlobalOwned, CallTree, CallOwned;
    match s {
      case Return(values, semicolon) =>
        ExprVectorHolds(q, values);
        InsideOne(q, ReturnHead(semicolon), ExprVector(values), ExpressionsOwned(values));
      case Goto(name) =>
        TextHolds(q, Key, name);
        InsideOne(q, GotoHead, TextTree(Key, name), NameOf(name));
      case Label(name) =>
        TextHolds(q, Key, name);
        InsideOne(q, LabelHead, TextTree(Key, name), NameOf(name));
      case Do(body) =>
        BlockHolds(q, body);
        InsideOne(q, DoHead, BlockTree(body), BlockOwned(body));
    }
  }

  /** The remaining statements: branches, loops and function definitions. */
  lemma {:induction false} CompoundHolds(q: Query, s: Stmt)
    requires s.If? || s.While? || s.Repeat? || s.NumericFor? || s.GenericFor? || s.FunctionStmt?
    ensures Holds(q, StmtTree(s), StmtOwned(s))
    decreases s, 1
  {
    hide Holds, LocalVector, LocalsOwned, ExprVector, ExpressionsOwned, FunctionTree, FunctionOwned, BlockTree,
      BlockOwned, ExprTree, ExprOwned, ClauseVector, ClausesOwned, OptionalText, OptionalName;
    match s {
      case If(clauses, elseBlock) =>
        ClauseVectorHolds(q, clauses);
        InsideOne(q, IfHead, ClauseVector(clauses), ClausesOwned(clauses));
        if elseBlock.Some? {
          BlockHolds(q, elseBlock.value);
          InsideMore(q, IfHead, [ClauseVector(clauses)], BlockTree(elseBlock.value), ClausesOwned(clauses),
                     BlockOwned(elseBlock.value));
        } else {
          assert [ClauseVector(clauses)] + [] == [ClauseVector(clauses)];
          assert ClausesOwned(clauses) + [] == ClausesOwned(clauses);
        }
      case While(condition, body) => LoopHolds(q, s, condition, body);
      case Repeat(body, condition) => LoopHolds(q, s, condition, body);
      case NumericFor(_, _, _, _, _) => NumericHolds(q, s);
      case GenericFor(names, values, body) =>
        LocalVectorHolds(q, names);
        ExprVectorHolds(q, values);
        BlockHolds(q, body);
        InsideThree(q, GenericForHead, LocalVector(names), ExprVector(values), BlockTree(body), LocalsOwned(names),
                    ExpressionsOwned(values), BlockOwned(body));
      case FunctionStmt(target, methodName, definition) =>
        ExprHolds(q, target);
        FunctionHolds(q, definition, methodName.Some?);
        InsideOne(q, FunctionStmtHead, ExprTree(target), ExprOwned(target));
        InsideName(q, FunctionStmtHead, [ExprTree(target)], ExprOwned(target), methodName);
        InsideMore(q, FunctionStmtHead, [ExprTree(target)] + OptionalText(Other, methodName),
                   FunctionTree(definition, methodName.Some?), ExprOwned(target) + OptionalName(methodName),
                   FunctionOwned(definition));
    }
  }

  lemma {:induction false} LoopHolds(q: Query, s: Stmt, condition: Expr, body: Block)
    requires (s.While? || s.Repeat?) && s.condition == condition && s.body == body
    ensures Holds(q, StmtTree(s), StmtOwned(s))
    decreases s, 0
  {
    hide Holds, BlockTree, BlockOwned, ExprTree, ExprOwned;
    ExprHolds(q, condition);
    BlockHolds(q, body);
    InsideTwo(q, StmtTree(s).head, ExprTree(condition), BlockTree(body), ExprOwned(condition), BlockOwned(body));
  }

  lemma {:induction false} NumericHolds(q: Query, s: Stmt)
    requires s.NumericFor?
    ensures Holds(q, StmtTree(s), StmtOwned(s))
    decreases s, 0
  {
    hide Holds, BlockTree, BlockOwned, ExprTree, ExprOwned, LocalTree, LocalOwned;
    var parts, owned := [LocalTree(s.name), ExprTree(s.initial), ExprTree(s.limit)],
      LocalOwned(s.name) + ExprOwned(s.initial) + ExprOwned(s.limit);
    LocalHolds(q, s.name);
    ExprHolds(q, s.initial);
    ExprHolds(q, s.limit);
    BlockHolds(q, s.body);
    InsideThree(q, NumericForHead, parts[0], parts[1], parts[2], LocalOwned(s.name), ExprOwned(s.initial),
                ExprOwned(s.limit));
    match s.step {
      case None =>
        assert parts + [] == parts && owned + [] == owned;
        InsideMore(q, NumericForHead, parts, BlockTree(s.body), owned, BlockOwned(s.body));
      case Some(e) =>
        ExprHolds(q, e);
        InsideMore(q, NumericForHead, parts, ExprTree(e), owned, ExprOwned(e));
        InsideMore(q, NumericForHead, parts + [ExprTree(e)], BlockTree(s.body), owned + ExprOwned(e),
                   BlockOwned(s.body));
    }
  }

  /** The blocks that the walk adds up are those of the tree: as many boxes, the same buffers, as many bytes of text. */
  lemma OwnershipIsExact(q: Query, root: Block)
    ensures HoldingOf(q, BlockOwned(root)) == TreeHolding(q, BlockTree(root))
  {
    hide HoldingOf, TreeHolding, BlockOwned, BlockTree;
    BlockHolds(q, root);
  }

  lemma BlockIsUniform(root: Block)
    ensures Uniform(BlockTree(root))
  {
    BlockHolds(Query(Layout(0, 0, 0, 0, 0), Boxes(0)), root);
  }

  /** The bytes of a tree under a layout. */
  function TreeBytes(layout: Layout, t: Tree): nat {
    var h := TreeHolding(Query(layout, Boxes(0)), t);
    h.boxes * layout.expr + h.bufferBytes + h.textBytes
  }

  lemma BlocksAreTree(layout: Layout, root: Block)
    ensures TotalBytes(layout, BlockOwned(root)) == TreeBytes(layout, BlockTree(root))
  {
    hide HoldingOf, TreeHolding, BlockOwned, BlockTree, TotalBytes;
    var q := Query(layout, Boxes(0));
    OwnershipIsExact(q, root);
    BytesOfHolding(q, BlockOwned(root));
  }

  // Where the expressions of a tree are.

  function Expressions(t: Tree): nat
    decreases t
  {
    (if IsExpression(t.head) then 1 else 0) + ExpressionsIn(t.parts)
  }

  function ExpressionsIn(parts: seq<Tree>): nat
    decreases parts
  {
    if |parts| == 0 then 0 else Expressions(parts[0]) + ExpressionsIn(parts[1..])
  }

  /** The lengths of the vectors of expressions in a tree. */
  function VectorLengths(t: Tree): nat
    decreases t
  {
    (if t.head.VectorHead? && t.head.family == ExprFamily then |t.parts| else 0) + VectorLengthsIn(t.parts)
  }

  function VectorLengthsIn(parts: seq<Tree>): nat
    decreases parts
  {
    if |parts| == 0 then 0 else VectorLengths(parts[0]) + VectorLengthsIn(parts[1..])
  }

  /** An expression that is part of a node which is neither an expression nor a vector. */
  predicate InField(parent: Head, head: Head) { IsExpression(head) && !IsExpression(parent) && !parent.VectorHead? }

  function Fields(t: Tree): nat
    decreases t
  {
    FieldsIn(t.head, t.parts)
  }

  function FieldsIn(parent: Head, parts: seq<Tree>): nat
    decreases parts
  {
    if |parts| == 0 then 0
    else (if InField(parent, parts[0].head) then 1 else 0) + Fields(parts[0]) + FieldsIn(parent, parts[1..])
  }

  /**
   * Every expression but the root is in exactly one place: in a box of its own, in a vector, or in
   * a field of another node.
   */
  lemma {:induction false} EveryExpressionHasAPlace(q: Query, t: Tree)
    requires Uniform(t)
    ensures Expressions(t)
            == (if IsExpression(t.head) then 1 else 0) + TreeHolding(q, t).boxes + VectorLengths(t) + Fields(t)
    decreases t
  {
    hide IsExpression, PartsHolding, ExpressionsIn, VectorLengthsIn, FieldsIn;
    PartsHaveAPlace(q, t.head, t.parts);
    NodeOfParts(q, t.head, t.parts);
  }

  lemma {:induction false} PartsHaveAPlace(q: Query, parent: Head, parts: seq<Tree>)
    requires forall i :: 0 <= i < |parts| ==> FitsIn(parent, parts[i].head) && Uniform(parts[i])
    ensures ExpressionsIn(parts)
            == PartsHolding(q, parent, parts).boxes
               + (if parent.VectorHead? && parent.family == ExprFamily then |parts| else 0)
               + VectorLengthsIn(parts) + FieldsIn(parent, parts)
    decreases parts
  {
    hide IsExpression, FitsIn, Uniform, TreeHolding, Expressions, VectorLengths, Fields, InField, InBox;
    if |parts| != 0 {
      var first, rest := parts[0], parts[1..];
      EveryExpressionHasAPlace(q, first);
      PartsHaveAPlace(q, parent, rest);
      OnePlace(parent, first.head);
    }
  }

  lemma OnePlace(parent: Head, head: Head)
    requires FitsIn(parent, head)
    ensures (if IsExpression(head) then 1 else 0)
            == (if InBox(parent, head) then 1 else 0) + (if InField(parent, head) then 1 else 0)
               + (if parent.VectorHead? && parent.family == ExprFamily then 1 else 0)
  {
  }

  /** `ast_allocation_bytes`: the exact size of the tree, or the overflow when it exceeds `usize`. */
  method AstAllocationBytes(layout: Layout, root: Block) returns (r: Sized<nat>)
    ensures r == Guard(TreeBytes(layout, BlockTree(root)))
    ensures r == Guard(TotalBytes(layout, BlockOwned(root)))
  {
    hide TreeBytes, TotalBytes;
    BlocksAreTree(layout, root);
    var meter := new AstMeter(layout);
    var outcome := meter.Block(root);
    match outcome {
      case Ok => return Fits(meter.bytes);
      case Overflow => return TooLarge;
    }
  }
}
