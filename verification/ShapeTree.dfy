/**
 * What the scope-shape walk counts, read off the plain tree: the events are those of the nodes in
 * preorder, with a function's kept apart, and so the counters are sums over the nodes.
 */
module ShapeTree {
  import opened Checked
  import opened Ast
  import opened AstTree
  import opened ShapeEvents

  /** The events of a node itself. A function is an event of its own, see `TreeEvents`. */
  function HeadEvents(head: Head): Events {
    match head
    case LocalNameHead(_) => [Binding]
    case GlobalFunctionHead => [Binding]
    case FunctionHead(hasSelf, _, _) => if hasSelf then [SelfBinding] else []
    case TextHead(Mention, text) => [Reference(text)]
    case TextHead(Key, text) => [KeyBytes(text.Capacity())]
    case TextHead(Other, text) => [NameBytes(text.Capacity())]
    case TextHead(Content, text) => [LiteralBytes(text.Capacity())]
    case LiteralHead(kind) => if kind == StringLiteral then [] else [LiteralBytes(0)]
    case BlockHead => [BlockStart, ClosePaths(2)]
    case ReturnHead(_) => [ClosePaths(1)]
    case BreakHead => [ClosePaths(1)]
    case GotoHead => [GotoStart, ClosePaths(1)]
    case LabelHead => [LabelStart]
    case GenericForHead => [GenericForStart, Binding, ClosePaths(1)]
    case _ => []
  }

  function TreeEvents(t: Tree): Events
    decreases t, 1
  {
    if t.head.FunctionHead? then [Nested(NodeEvents(t))] else NodeEvents(t)
  }

  function NodeEvents(t: Tree): Events
    decreases t, 0
  {
    HeadEvents(t.head) + PartsEvents(t.parts)
  }

  function PartsEvents(parts: seq<Tree>): Events
    decreases parts
  {
    if |parts| == 0 then [] else TreeEvents(parts[0]) + PartsEvents(parts[1..])
  }

  lemma {:induction false} EventsOfConcat(a: seq<Tree>, b: seq<Tree>)
    ensures PartsEvents(a + b) == PartsEvents(a) + PartsEvents(b)
    decreases a
  {
    hide TreeEvents;
    if |a| == 0 {
      assert a + b == b;
    } else {
      assert (a + b)[1..] == a[1..] + b;
      EventsOfConcat(a[1..], b);
    }
  }

  lemma EventsOfOne(a: Tree)
    ensures PartsEvents([a]) == TreeEvents(a)
  {
    hide TreeEvents;
    assert [a][1..] == [];
    assert PartsEvents([a]) == TreeEvents(a) + PartsEvents([a][1..]);
  }

  lemma EventsOfTwo(a: Tree, b: Tree)
    ensures PartsEvents([a, b]) == TreeEvents(a) + TreeEvents(b)
  {
    hide TreeEvents, PartsEvents;
    assert [a, b] == [a] + [b];
    EventsOfConcat([a], [b]);
    EventsOfOne(a);
    EventsOfOne(b);
  }

  lemma EventsOfThree(a: Tree, b: Tree, c: Tree)
    ensures PartsEvents([a, b, c]) == TreeEvents(a) + TreeEvents(b) + TreeEvents(c)
  {
    hide TreeEvents, PartsEvents;
    assert [a, b, c] == [a, b] + [c];
    EventsOfConcat([a, b], [c]);
    EventsOfTwo(a, b);
    EventsOfOne(c);
  }

  /** A node that is not a function: its own events, and those of its parts. */
  lemma EventsOfNode(head: Head, parts: seq<Tree>)
    ensures !head.FunctionHead? ==> TreeEvents(Tree(head, parts)) == HeadEvents(head) + PartsEvents(parts)
    ensures !head.FunctionHead? && HeadEvents(head) == [] ==> TreeEvents(Tree(head, parts)) == PartsEvents(parts)
    ensures head.FunctionHead? ==> TreeEvents(Tree(head, parts)) == [Nested(HeadEvents(head) + PartsEvents(parts))]
  {
  }

  /** Nodes without events of their own, and nodes of one part. */
  lemma QuietOne(head: Head, a: Tree)
    requires !head.FunctionHead?
    ensures TreeEvents(Tree(head, [a])) == HeadEvents(head) + TreeEvents(a)
    ensures HeadEvents(head) == [] ==> TreeEvents(Tree(head, [a])) == TreeEvents(a)
  {
    hide TreeEvents, PartsEvents, HeadEvents;
    EventsOfNode(head, [a]);
    EventsOfOne(a);
  }

  lemma QuietTwo(head: Head, a: Tree, b: Tree)
    requires !head.FunctionHead? && HeadEvents(head) == []
    ensures TreeEvents(Tree(head, [a, b])) == TreeEvents(a) + TreeEvents(b)
  {
    hide TreeEvents, PartsEvents, HeadEvents;
    EventsOfNode(head, [a, b]);
    EventsOfTwo(a, b);
  }

  lemma QuietLeaf(head: Head)
    requires !head.FunctionHead?
    ensures TreeEvents(Tree(head, [])) == HeadEvents(head)
  {
    assert PartsEvents([]) == [];
  }

  // The events of the walk are those of the tree.

  lemma TextEvents(role: Role, text: Name)
    ensures TreeEvents(TextTree(role, text)) == HeadEvents(TextHead(role, text))
  {
    assert PartsEvents([]) == [];
  }

  lemma LocalShape(local: LocalName)
    ensures TreeEvents(LocalTree(local)) == DeclarationEvents(local)
  {
    hide TreeEvents, PartsEvents;
    var t := LocalTree(local);
    var name := TextTree(Key, local.name);
    EventsOfNode(t.head, t.parts);
    TextEvents(Key, local.name);
    match local.attribute {
      case NoAttribute =>
        assert t.parts == [name];
        EventsOfOne(name);
      case Written(text) =>
        assert t.parts == [name, TextTree(Other, text)];
        EventsOfTwo(name, TextTree(Other, text));
        TextEvents(Other, text);
      case Inherited(close) =>
        assert t.parts == [name, TextTree(Other, InheritedName(close))];
        EventsOfTwo(name, TextTree(Other, InheritedName(close)));
        TextEvents(Other, InheritedName(close));
    }
  }

  lemma {:induction false} LocalsShape(locals: seq<LocalName>)
    ensures PartsEvents(LocalTrees(locals)) == DeclarationListEvents(locals)
  {
    hide LocalTree, DeclarationEvents, TreeEvents;
    if |locals| != 0 {
      LocalShape(locals[0]);
      LocalsShape(locals[1..]);
      assert LocalTrees(locals)[1..] == LocalTrees(locals[1..]);
    }
  }

  /** A vector has no events of its own. */
  lemma VectorShape(family: Family, spare: nat, elements: seq<Tree>)
    ensures TreeEvents(Tree(VectorHead(family, spare), elements)) == PartsEvents(elements)
  {
    hide TreeEvents, PartsEvents;
    EventsOfNode(VectorHead(family, spare), elements);
  }

  lemma LocalVectorShape(locals: Vec<LocalName>)
    ensures TreeEvents(LocalVector(locals)) == DeclarationListEvents(locals.items)
  {
    hide LocalTrees, DeclarationListEvents, TreeEvents, PartsEvents;
    VectorShape(LocalFamily, locals.spare, LocalTrees(locals.items));
    LocalsShape(locals.items);
  }

  lemma {:induction false} ExprShape(e: Expr)
    ensures TreeEvents(ExprTree(e)) == ExprEvents(e)
    decreases e, 1
  {
    hide TreeEvents, CallTree, CallEvents, FunctionTree, FunctionEvents, FieldVector, FieldListEvents, LiteralTree;
    match e {
      case Constant(literal) => LiteralShape(literal);
      case Nil => QuietLeaf(NilHead);
      case Bool(value) => QuietLeaf(BoolHead(value));
      case Vararg => QuietLeaf(VarargHead);
      case Var(name) => VarShape(name);
      case CallExpr(call) => CallShape(call);
      case Function(body) =>
        QuietOne(FunctionExprHead, FunctionTree(body, false));
        FunctionShape(body, false);
      case Table(fields) =>
        QuietOne(TableHead, FieldVector(fields));
        FieldVectorShape(fields);
      case _ => OperatorShape(e);
    }
  }

  lemma VarShape(name: Name)
    ensures TreeEvents(Tree(VarHead, [TextTree(Mention, name)])) == [Reference(name)]
  {
    hide TreeEvents;
    QuietOne(VarHead, TextTree(Mention, name));
    TextEvents(Mention, name);
  }

  lemma {:induction false} OperatorShape(e: Expr)
    requires e.Unary? || e.Paren? || e.Binary? || e.Index? || e.Field?
    ensures TreeEvents(ExprTree(e)) == ExprEvents(e)
    decreases e, 0
  {
    hide TreeEvents, CallTree, CallEvents, FunctionTree, FunctionEvents, FieldVector, FieldListEvents, LiteralTree;
    match e {
      case Unary(op, operand) =>
        QuietOne(UnaryHead(op), ExprTree(operand));
        ExprShape(operand);
      case Paren(inner) =>
        QuietOne(ParenHead, ExprTree(inner));
        ExprShape(inner);
      case Binary(op, left, right) =>
        QuietTwo(BinaryHead(op), ExprTree(left), ExprTree(right));
        ExprShape(left);
        ExprShape(right);
      case Index(base, index) =>
        QuietTwo(IndexHead, ExprTree(base), ExprTree(index));
        ExprShape(base);
        ExprShape(index);
      case Field(base, name) =>
        QuietTwo(FieldHead, ExprTree(base), TextTree(Other, name));
        ExprShape(base);
        TextEvents(Other, name);
    }
  }

  lemma NoParts()
    ensures PartsEvents([]) == []
  {
  }

  lemma LiteralShape(literal: Literal)
    ensures TreeEvents(LiteralTree(literal)) == [LiteralBytes(LiteralCapacity(literal))]
  {
    hide TreeEvents, PartsEvents;
    var t := LiteralTree(literal);
    EventsOfNode(t.head, t.parts);
    match literal {
      case String(value) =>
        EventsOfOne(TextTree(Content, value));
        TextEvents(Content, value);
      case _ => NoParts();
    }
  }

  lemma {:induction false} CallShape(call: Call)
    ensures TreeEvents(CallTree(call)) == CallEvents(call)
    decreases call
  {
    hide TreeEvents, PartsEvents, ExprTree, ExprEvents, ExprVector, ExprListEvents;
    var t := CallTree(call);
    EventsOfNode(t.head, t.parts);
    ExprVectorShape(call.arguments);
    match call {
      case Call(callee, arguments, _) =>
        EventsOfTwo(ExprTree(callee), ExprVector(arguments));
        ExprShape(callee);
      case MethodCall(receiver, name, arguments, _) =>
        EventsOfThree(ExprTree(receiver), TextTree(Other, name), ExprVector(arguments));
        ExprShape(receiver);
        TextEvents(Other, name);
    }
  }

  lemma {:induction false} ExprsShape(es: seq<Expr>)
    ensures PartsEvents(ExprTrees(es)) == ExprListEvents(es)
    decreases es
  {
    hide ExprTree, ExprEvents, TreeEvents;
    if |es| != 0 {
      ExprShape(es[0]);
      ExprsShape(es[1..]);
      assert ExprTrees(es)[1..] == ExprTrees(es[1..]);
    }
  }

  lemma {:induction false} ExprVectorShape(values: Vec<Expr>)
    ensures TreeEvents(ExprVector(values)) == ExprListEvents(values.items)
    decreases values
  {
    hide ExprTrees, ExprListEvents, TreeEvents, PartsEvents;
    VectorShape(ExprFamily, values.spare, ExprTrees(values.items));
    ExprsShape(values.items);
  }

  lemma {:induction false} FieldShape(field: TableField)
    ensures TreeEvents(FieldTree(field)) == FieldEvents(field)
    decreases field
  {
    hide TreeEvents, PartsEvents, ExprTree, ExprEvents;
    var t := FieldTree(field);
    EventsOfNode(t.head, t.parts);
    ExprShape(field.value);
    match field {
      case Array(value, _) => EventsOfOne(ExprTree(value));
      case Named(name, value, _) =>
        EventsOfTwo(TextTree(Other, name), ExprTree(value));
        TextEvents(Other, name);
      case Indexed(key, value, _) =>
        EventsOfTwo(ExprTree(key), ExprTree(value));
        ExprShape(key);
    }
  }

  lemma {:induction false} FieldsShape(fields: seq<TableField>)
    ensures PartsEvents(FieldTrees(fields)) == FieldListEvents(fields)
    decreases fields
  {
    hide FieldTree, FieldEvents, TreeEvents;
    if |fields| != 0 {
      FieldShape(fields[0]);
      FieldsShape(fields[1..]);
      assert FieldTrees(fields)[1..] == FieldTrees(fields[1..]);
    }
  }

  lemma {:induction false} FieldVectorShape(fields: Vec<TableField>)
    ensures TreeEvents(FieldVector(fields)) == FieldListEvents(fields.items)
    decreases fields
  {
    hide FieldTrees, FieldListEvents, TreeEvents, PartsEvents;
    VectorShape(FieldFamily, fields.spare, FieldTrees(fields.items));
    FieldsShape(fields.items);
  }

  lemma {:induction false} FunctionShape(body: FunctionBody, hasSelf: bool)
    ensures TreeEvents(FunctionTree(body, hasSelf)) == [Nested(FunctionEvents(body, hasSelf))]
    decreases body
  {
    hide TreeEvents, PartsEvents, LocalVector, DeclarationListEvents, BlockTree, BlockEvents, LocalTree,
      DeclarationEvents;
    var t := FunctionTree(body, hasSelf);
    var parameters, block := LocalVector(body.parameters), BlockTree(body.body);
    EventsOfNode(t.head, t.parts);
    LocalVectorShape(body.parameters);
    BlockShape(body.body);
    match body.vararg {
      case NamedVararg(table) =>
        assert t.parts == [parameters, LocalTree(table), block];
        EventsOfThree(parameters, LocalTree(table), block);
        LocalShape(table);
      case _ =>
        assert t.parts == [parameters, block];
        EventsOfTwo(parameters, block);
    }
    FunctionRegroup(if hasSelf then [SelfBinding] else [], DeclarationListEvents(body.parameters.items),
                    VarargEvents(body.vararg), BlockEvents(body.body));
  }

  lemma FunctionRegroup(a: Events, b: Events, c: Events, d: Events)
    ensures a + (b + c + d) == a + b + c + d
    ensures c == [] ==> a + (b + d) == a + b + c + d
  {
  }

  lemma {:induction false} BlockShape(block: Block)
    ensures TreeEvents(BlockTree(block)) == BlockEvents(block)
    decreases block
  {
    hide TreeEvents, PartsEvents, StmtTrees, StmtListEvents;
    var statements := block.statements;
    EventsOfNode(BlockHead, [StmtVector(statements)]);
    EventsOfOne(StmtVector(statements));
    VectorShape(StmtFamily, statements.spare, StmtTrees(statements.items));
    StmtsShape(statements.items);
  }

  lemma {:induction false} StmtsShape(statements: seq<Stmt>)
    ensures PartsEvents(StmtTrees(statements)) == StmtListEvents(statements)
    decreases statements
  {
    hide StmtTree, StmtEvents, TreeEvents;
    if |statements| != 0 {
      StmtShape(statements[0]);
      StmtsShape(statements[1..]);
      assert StmtTrees(statements)[1..] == StmtTrees(statements[1..]);
    }
  }

  lemma {:induction false} ClauseShape(clause: IfClause)
    ensures TreeEvents(ClauseTree(clause)) == ClauseEvents(clause)
    decreases clause
  {
    hide TreeEvents, PartsEvents, ExprTree, ExprEvents, BlockTree, BlockEvents;
    EventsOfNode(ClauseHead, ClauseTree(clause).parts);
    EventsOfTwo(ExprTree(clause.condition), BlockTree(clause.body));
    ExprShape(clause.condition);
    BlockShape(clause.body);
  }

  lemma {:induction false} ClausesShape(clauses: seq<IfClause>)
    ensures PartsEvents(ClauseTrees(clauses)) == ClauseListEvents(clauses)
    decreases clauses
  {
    hide ClauseTree, ClauseEvents, TreeEvents;
    if |clauses| != 0 {
      ClauseShape(clauses[0]);
      ClausesShape(clauses[1..]);
      assert ClauseTrees(clauses)[1..] == ClauseTrees(clauses[1..]);
    }
  }

  lemma {:induction false} ClauseVectorShape(clauses: Vec<IfClause>)
    ensures TreeEvents(ClauseVector(clauses)) == ClauseListEvents(clauses.items)
    decreases clauses
  {
    hide ClauseTrees, ClauseListEvents, TreeEvents, PartsEvents;
    VectorShape(ClauseFamily, clauses.spare, ClauseTrees(clauses.items));
    ClausesShape(clauses.items);
  }

  lemma OptionalNameShape(text: Option<Name>)
    ensures PartsEvents(OptionalText(Other, text)) == NameEvents(text)
  {
    hide TreeEvents, PartsEvents;
    if text.Some? {
      EventsOfOne(TextTree(Other, text.value));
      TextEvents(Other, text.value);
    } else {
      NoParts();
    }
  }

  lemma {:induction false} GlobalShape(declaration: GlobalDeclaration)
    ensures TreeEvents(GlobalTree(declaration)) == GlobalEvents(declaration)
    decreases declaration
  {
    hide TreeEvents, PartsEvents, LocalVector, DeclarationListEvents, ExprVector, ExprListEvents, FunctionTree,
      FunctionEvents, OptionalText, NameEvents;
    var t := GlobalTree(declaration);
    EventsOfNode(t.head, t.parts);
    match declaration {
      case GlobalNames(names, _, values, prefixAttribute) =>
        EventsOfConcat([LocalVector(names), ExprVector(values)], OptionalText(Other, prefixAttribute));
        EventsOfTwo(LocalVector(names), ExprVector(values));
        LocalVectorShape(names);
        ExprVectorShape(values);
        OptionalNameShape(prefixAttribute);
      case GlobalStar(prefixAttribute) => OptionalNameShape(prefixAttribute);
      case GlobalFunction(name, body) =>
        EventsOfTwo(TextTree(Key, name), FunctionTree(body, false));
        TextEvents(Key, name);
        FunctionShape(body, false);
    }
  }

  lemma {:induction false} StmtShape(s: Stmt)
    ensures TreeEvents(StmtTree(s)) == StmtEvents(s)
    decreases s, 2
  {
    hide TreeEvents, PartsEvents, LocalVector, DeclarationListEvents, ExprVector, ExprListEvents, FunctionTree,
      FunctionEvents, BlockTree, BlockEvents, LocalTree, DeclarationEvents, GlobalTree, GlobalEvents, CallTree,
      CallEvents, ExprTree, ExprEvents, ClauseVector, ClauseListEvents, OptionalText, NameEvents;
    var t := StmtTree(s);
    EventsOfNode(t.head, t.parts);
    match s {
      case Empty => NoParts();
      case Assignment(targets, values) =>
        EventsOfTwo(ExprVector(targets), ExprVector(values));
        ExprVectorShape(targets);
        ExprVectorShape(values);
      case CallStmt(call) =>
        EventsOfOne(CallTree(call));
        CallShape(call);
      case Local(_, names, _, values) =>
        EventsOfTwo(LocalVector(names), ExprVector(values));
        LocalVectorShape(names);
        ExprVectorShape(values);
      case Global(declaration) => GlobalShape(declaration);
      case Do(body) =>
        EventsOfOne(BlockTree(body));
        BlockShape(body);
      case LocalFunction(name, definition) =>
        EventsOfTwo(LocalTree(name), FunctionTree(definition, false));
        LocalShape(name);
        FunctionShape(definition, false);
      case Break => JumpShape(s);
      case Return(_, _) => JumpShape(s);
      case Goto(_) => JumpShape(s);
      case Label(_) => JumpShape(s);
      case _ => CompoundShape(s);
    }
  }

  lemma {:induction false} JumpShape(s: Stmt)
    requires s.Break? || s.Return? || s.Goto? || s.Label?
    ensures TreeEvents(StmtTree(s)) == StmtEvents(s)
    decreases s, 1
  {
    hide TreeEvents, PartsEvents, LocalVector, DeclarationListEvents, ExprVector, ExprListEvents, FunctionTree,
      FunctionEvents, BlockTree, BlockEvents, LocalTree, DeclarationEvents, GlobalTree, GlobalEvents, CallTree,
      CallEvents, ExprTree, ExprEvents, ClauseVector, ClauseListEvents;
    match s {
      case Break => QuietLeaf(BreakHead);
      case Return(values, semicolon) =>
        QuietOne(ReturnHead(semicolon), ExprVector(values));
        ExprVectorShape(values);
      case Goto(name) => NamedJumpShape(name);
      case Label(name) => NamedJumpShape(name);
    }
  }

  lemma NamedJumpShape(name: Name)
    ensures TreeEvents(Tree(GotoHead, [TextTree(Key, name)]))
            == [GotoStart, ClosePaths(1), KeyBytes(name.Capacity())]
    ensures TreeEvents(Tree(LabelHead, [TextTree(Key, name)])) == [LabelStart, KeyBytes(name.Capacity())]
  {
    hide TreeEvents;
    QuietOne(GotoHead, TextTree(Key, name));
    QuietOne(LabelHead, TextTree(Key, name));
    TextEvents(Key, name);
  }

  lemma {:induction false} CompoundShape(s: Stmt)
    requires s.If? || s.While? || s.Repeat? || s.NumericFor? || s.GenericFor? || s.FunctionStmt?
    ensures TreeEvents(StmtTree(s)) == StmtEvents(s)
    decreases s, 1
  {
    hide TreeEvents, PartsEvents, LocalVector, DeclarationListEvents, ExprVector, ExprListEvents, FunctionTree,
      FunctionEvents, BlockTree, BlockEvents, LocalTree, DeclarationEvents, ExprTree, ExprEvents, ClauseVector,
      ClauseListEvents, OptionalText, NameEvents, GlobalTree, GlobalEvents, CallTree, CallEvents;
    var t := StmtTree(s);
    EventsOfNode(t.head, t.parts);
    match s {
      case If(clauses, elseBlock) =>
        EventsOfConcat([ClauseVector(clauses)], OptionalBlock(elseBlock));
        EventsOfOne(ClauseVector(clauses));
        ClauseVectorShape(clauses);
        if elseBlock.Some? {
          EventsOfOne(BlockTree(elseBlock.value));
          BlockShape(elseBlock.value);
        } else {
          NoParts();
        }
      case While(condition, body) =>
        QuietTwo(WhileHead, ExprTree(condition), BlockTree(body));
        ExprShape(condition);
        BlockShape(body);
      case Repeat(body, condition) =>
        QuietTwo(RepeatHead, ExprTree(condition), BlockTree(body));
        ExprShape(condition);
        BlockShape(body);
      case NumericFor(_, _, _, _, _) => NumericShape(s);
      case GenericFor(names, values, body) =>
        EventsOfThree(LocalVector(names), ExprVector(values), BlockTree(body));
        LocalVectorShape(names);
        ExprVectorShape(values);
        BlockShape(body);
      case FunctionStmt(_, _, _) => DefinitionShape(s);
    }
  }

  lemma {:induction false} NumericShape(s: Stmt)
    requires s.NumericFor?
    ensures TreeEvents(StmtTree(s)) == StmtEvents(s)
    decreases s, 0
  {
    hide TreeEvents, PartsEvents, BlockTree, BlockEvents, LocalTree, DeclarationEvents, ExprTree, ExprEvents,
      GlobalTree, GlobalEvents, CallTree, CallEvents;
    var t := StmtTree(s);
    var bounds := [LocalTree(s.name), ExprTree(s.initial), ExprTree(s.limit)];
    EventsOfNode(t.head, t.parts);
    EventsOfConcat(bounds + OptionalExpr(s.step), [BlockTree(s.body)]);
    EventsOfConcat(bounds, OptionalExpr(s.step));
    EventsOfThree(LocalTree(s.name), ExprTree(s.initial), ExprTree(s.limit));
    EventsOfOne(BlockTree(s.body));
    LocalShape(s.name);
    ExprShape(s.initial);
    ExprShape(s.limit);
    BlockShape(s.body);
    if s.step.Some? {
      EventsOfOne(ExprTree(s.step.value));
      ExprShape(s.step.value);
    } else {
      NoParts();
    }
  }

  lemma {:induction false} DefinitionShape(s: Stmt)
    requires s.FunctionStmt?
    ensures TreeEvents(StmtTree(s)) == StmtEvents(s)
    decreases s, 0
  {
    hide TreeEvents, PartsEvents, FunctionTree, FunctionEvents, ExprTree, ExprEvents, OptionalText, NameEvents,
      GlobalTree, GlobalEvents, CallTree, CallEvents;
    var t := StmtTree(s);
    var target, name := ExprTree(s.target), OptionalText(Other, s.methodName);
    var definition := FunctionTree(s.definition, s.methodName.Some?);
    EventsOfNode(t.head, t.parts);
    EventsOfConcat([target] + name, [definition]);
    EventsOfConcat([target], name);
    EventsOfOne(target);
    EventsOfOne(definition);
    ExprShape(s.target);
    OptionalNameShape(s.methodName);
    FunctionShape(s.definition, s.methodName.Some?);
  }
}
