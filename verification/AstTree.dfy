/**
 * The syntax tree as a plain tree: each node has a head, which holds what is not a part of its
 * own, and its parts in order. Vectors and texts (names and string literals) are nodes too. The
 * parts of a node come in the order of the fields of its Rust type, except that a `repeat` loop
 * has its condition first, as all walks over the tree take it.
 */
module AstTree {
  import opened Checked
  import opened Ast

  datatype LiteralKind = IntegerLiteral | FloatLiteral | StringLiteral

  datatype AttributeKind = PlainName | WithAttribute | WithInherited(close: bool)

  datatype VarargKind = WithoutVararg | AnonymousVararg | TableVararg

  /** What a text is for: a variable that is mentioned, a key of a scope, another name, or a literal. */
  datatype Role = Mention | Key | Other | Content

  datatype Head =
    // Expressions.
    | LiteralHead(kind: LiteralKind)
    | NilHead
    | BoolHead(value: bool)
    | VarHead
    | VarargHead
    | UnaryHead(unaryOp: UnaryOp)
    | BinaryHead(binaryOp: BinaryOp)
    | ParenHead
    | IndexHead
    | FieldHead
    | CallHead(bare: bool)
    | MethodCallHead(bare: bool)
    | FunctionExprHead
    | TableHead
    // Parts of expressions and statements.
    | ArrayFieldHead(separator: Option<FieldSeparator>)
    | NamedFieldHead(separator: Option<FieldSeparator>)
    | IndexedFieldHead(separator: Option<FieldSeparator>)
    | LocalNameHead(attribute: AttributeKind)
    | FunctionHead(hasSelf: bool, trailingComma: bool, vararg: VarargKind)
    | BlockHead
    | ClauseHead
    // Statements.
    | EmptyHead
    | ReturnHead(semicolon: bool)
    | AssignmentHead
    | CallStmtHead
    | LocalHead(prefixAttribute: Option<Name>, equals: bool)
    | BreakHead
    | GotoHead
    | LabelHead
    | DoHead
    | IfHead
    | WhileHead
    | RepeatHead
    | NumericForHead
    | GenericForHead
    | FunctionStmtHead
    | LocalFunctionHead
    | GlobalNamesHead(equals: bool)
    | GlobalStarHead
    | GlobalFunctionHead
    // What owns memory outside the node it is part of.
    | VectorHead(family: Family, spare: nat)
    | TextHead(role: Role, text: Name)

  datatype Tree = Tree(head: Head, parts: seq<Tree>)

  /** The bytes of a prefix attribute that was cloned into a name. */
  function InheritedName(close: bool): Name {
    Vec(if close then [99, 108, 111, 115, 101] else [99, 111, 110, 115, 116], 0)
  }

  function TextTree(role: Role, text: Name): Tree { Tree(TextHead(role, text), []) }

  function OptionalText(role: Role, text: Option<Name>): seq<Tree> {
    match text
    case Some(value) => [TextTree(role, value)]
    case None => []
  }

  function AttributeText(attribute: Attribute): seq<Tree> {
    match attribute
    case NoAttribute => []
    case Written(name) => [TextTree(Other, name)]
    case Inherited(close) => [TextTree(Other, InheritedName(close))]
  }

  function AttributeKindOf(attribute: Attribute): AttributeKind {
    match attribute
    case NoAttribute => PlainName
    case Written(_) => WithAttribute
    case Inherited(close) => WithInherited(close)
  }

  function LocalTree(local: LocalName): Tree {
    Tree(LocalNameHead(AttributeKindOf(local.attribute)), [TextTree(Key, local.name)] + AttributeText(local.attribute))
  }

  function LocalTrees(locals: seq<LocalName>): seq<Tree> {
    if |locals| == 0 then [] else [LocalTree(locals[0])] + LocalTrees(locals[1..])
  }

  function LocalVector(locals: Vec<LocalName>): Tree {
    Tree(VectorHead(LocalFamily, locals.spare), LocalTrees(locals.items))
  }

  function LiteralTree(literal: Literal): Tree {
    match literal
    case Integer => Tree(LiteralHead(IntegerLiteral), [])
    case Float => Tree(LiteralHead(FloatLiteral), [])
    case String(value) => Tree(LiteralHead(StringLiteral), [TextTree(Content, value)])
  }

  function ExprTree(e: Expr): Tree {
    match e
    case Constant(literal) => LiteralTree(literal)
    case Nil => Tree(NilHead, [])
    case Bool(value) => Tree(BoolHead(value), [])
    case Vararg => Tree(VarargHead, [])
    case Var(name) => Tree(VarHead, [TextTree(Mention, name)])
    case Unary(op, operand) => Tree(UnaryHead(op), [ExprTree(operand)])
    case Binary(op, left, right) => Tree(BinaryHead(op), [ExprTree(left), ExprTree(right)])
    case Paren(inner) => Tree(ParenHead, [ExprTree(inner)])
    case Index(base, index) => Tree(IndexHead, [ExprTree(base), ExprTree(index)])
    case Field(base, name) => Tree(FieldHead, [ExprTree(base), TextTree(Other, name)])
    case CallExpr(call) => CallTree(call)
    case Function(body) => Tree(FunctionExprHead, [FunctionTree(body, false)])
    case Table(fields) => Tree(TableHead, [FieldVector(fields)])
  }

  function CallTree(call: Call): Tree {
    match call
    case Call(callee, arguments, bare) => Tree(CallHead(bare), [ExprTree(callee), ExprVector(arguments)])
    case MethodCall(receiver, name, arguments, bare) =>
      Tree(MethodCallHead(bare), [ExprTree(receiver), TextTree(Other, name), ExprVector(arguments)])
  }

  function ExprVector(values: Vec<Expr>): Tree {
    Tree(VectorHead(ExprFamily, values.spare), ExprTrees(values.items))
  }

  function ExprTrees(es: seq<Expr>): seq<Tree> {
    if |es| == 0 then [] else [ExprTree(es[0])] + ExprTrees(es[1..])
  }

  function FieldTree(field: TableField): Tree {
    match field
    case Array(value, separator) => Tree(ArrayFieldHead(separator), [ExprTree(value)])
    case Named(name, value, separator) => Tree(NamedFieldHead(separator), [TextTree(Other, name), ExprTree(value)])
    case Indexed(key, value, separator) => Tree(IndexedFieldHead(separator), [ExprTree(key), ExprTree(value)])
  }

  function FieldVector(fields: Vec<TableField>): Tree {
    Tree(VectorHead(FieldFamily, fields.spare), FieldTrees(fields.items))
  }

  function FieldTrees(fields: seq<TableField>): seq<Tree> {
    if |fields| == 0 then [] else [FieldTree(fields[0])] + FieldTrees(fields[1..])
  }

  function VarargKindOf(vararg: VarargParameter): VarargKind {
    match vararg
    case NoVararg => WithoutVararg
    case PlainVararg => AnonymousVararg
    case NamedVararg(_) => TableVararg
  }

  function VarargTrees(vararg: VarargParameter): seq<Tree> {
    match vararg
    case NamedVararg(table) => [LocalTree(table)]
    case _ => []
  }

  /** `hasSelf`: a method has one more parameter that is not written. */
  function FunctionTree(body: FunctionBody, hasSelf: bool): Tree {
    Tree(FunctionHead(hasSelf, body.trailingComma, VarargKindOf(body.vararg)),
         [LocalVector(body.parameters)] + VarargTrees(body.vararg) + [BlockTree(body.body)])
  }

  function BlockTree(block: Block): Tree { Tree(BlockHead, [StmtVector(block.statements)]) }

  function StmtVector(statements: Vec<Stmt>): Tree {
    Tree(VectorHead(StmtFamily, statements.spare), StmtTrees(statements.items))
  }

  function StmtTrees(statements: seq<Stmt>): seq<Tree> {
    if |statements| == 0 then [] else [StmtTree(statements[0])] + StmtTrees(statements[1..])
  }

  function ClauseTree(clause: IfClause): Tree {
    Tree(ClauseHead, [ExprTree(clause.condition), BlockTree(clause.body)])
  }

  function ClauseVector(clauses: Vec<IfClause>): Tree {
    Tree(VectorHead(ClauseFamily, clauses.spare), ClauseTrees(clauses.items))
  }

  function ClauseTrees(clauses: seq<IfClause>): seq<Tree> {
    if |clauses| == 0 then [] else [ClauseTree(clauses[0])] + ClauseTrees(clauses[1..])
  }

  function OptionalExpr(e: Option<Expr>): seq<Tree> {
    match e
    case Some(value) => [ExprTree(value)]
    case None => []
  }

  function OptionalBlock(block: Option<Block>): seq<Tree> {
    match block
    case Some(body) => [BlockTree(body)]
    case None => []
  }

  function GlobalTree(declaration: GlobalDeclaration): Tree {
    match declaration
    case GlobalNames(names, equals, values, prefixAttribute) =>
      Tree(GlobalNamesHead(equals), [LocalVector(names), ExprVector(values)] + OptionalText(Other, prefixAttribute))
    case GlobalStar(prefixAttribute) => Tree(GlobalStarHead, OptionalText(Other, prefixAttribute))
    case GlobalFunction(name, body) => Tree(GlobalFunctionHead, [TextTree(Key, name), FunctionTree(body, false)])
  }

  function StmtTree(s: Stmt): Tree {
    match s
    case Empty => Tree(EmptyHead, [])
    case Return(values, semicolon) => Tree(ReturnHead(semicolon), [ExprVector(values)])
    case Assignment(targets, values) => Tree(AssignmentHead, [ExprVector(targets), ExprVector(values)])
    case CallStmt(call) => Tree(CallStmtHead, [CallTree(call)])
    case Local(prefixAttribute, names, equals, values) =>
      Tree(LocalHead(prefixAttribute, equals), [LocalVector(names), ExprVector(values)])
    case Global(declaration) => GlobalTree(declaration)
    case Break => Tree(BreakHead, [])
    case Goto(name) => Tree(GotoHead, [TextTree(Key, name)])
    case Label(name) => Tree(LabelHead, [TextTree(Key, name)])
    case Do(body) => Tree(DoHead, [BlockTree(body)])
    case If(clauses, elseBlock) => Tree(IfHead, [ClauseVector(clauses)] + OptionalBlock(elseBlock))
    case While(condition, body) => Tree(WhileHead, [ExprTree(condition), BlockTree(body)])
    case Repeat(body, condition) => Tree(RepeatHead, [ExprTree(condition), BlockTree(body)])
    case NumericFor(name, initial, limit, step, body) =>
      Tree(NumericForHead, [LocalTree(name), ExprTree(initial), ExprTree(limit)] + OptionalExpr(step)
                           + [BlockTree(body)])
    case GenericFor(names, values, body) =>
      Tree(GenericForHead, [LocalVector(names), ExprVector(values), BlockTree(body)])
    case FunctionStmt(target, methodName, definition) =>
      Tree(FunctionStmtHead, [ExprTree(target)] + OptionalText(Other, methodName)
                             + [FunctionTree(definition, methodName.Some?)])
    case LocalFunction(name, definition) =>
      Tree(LocalFunctionHead, [LocalTree(name), FunctionTree(definition, false)])
  }

  /** The kind of vector element that a node is, if it can be one. */
  function FamilyOf(head: Head): Option<Family> {
    match head
    case ArrayFieldHead(_) => Some(FieldFamily)
    case NamedFieldHead(_) => Some(FieldFamily)
    case IndexedFieldHead(_) => Some(FieldFamily)
    case LocalNameHead(_) => Some(LocalFamily)
    case ClauseHead => Some(ClauseFamily)
    case FunctionHead(_, _, _) => None
    case BlockHead => None
    case VectorHead(_, _) => None
    case TextHead(_, _) => None
    case _ => if IsExpression(head) then Some(ExprFamily) else Some(StmtFamily)
  }

  predicate IsExpression(head: Head) {
    || head.LiteralHead? || head.NilHead? || head.BoolHead? || head.VarHead? || head.VarargHead? || head.UnaryHead?
    || head.BinaryHead? || head.ParenHead? || head.IndexHead? || head.FieldHead? || head.CallHead?
    || head.MethodCallHead? || head.FunctionExprHead? || head.TableHead?
  }

  predicate IsMention(head: Head) { head.TextHead? && head.role == Mention }

  /**
   * The elements of a vector are of its kind; a mention is the one part of a variable and of
   * nothing else.
   */
  predicate FitsIn(parent: Head, part: Head) {
    && (parent.VectorHead? ==> FamilyOf(part) == Some(parent.family))
    && (IsMention(part) <==> parent.VarHead?)
    && !parent.TextHead?
  }

  predicate Uniform(t: Tree)
    decreases t
  {
    && (t.head.VarHead? ==> |t.parts| == 1)
    && forall i :: 0 <= i < |t.parts| ==> FitsIn(t.head, t.parts[i].head) && Uniform(t.parts[i])
  }

  // Nothing is lost: different syntax has different trees.

  lemma LocalUnique(a: LocalName, b: LocalName)
    requires LocalTree(a) == LocalTree(b)
    ensures a == b
  {
    assert LocalTree(a).parts[0] == LocalTree(b).parts[0];
    if a.attribute.Written? {
      assert LocalTree(a).parts[1] == LocalTree(b).parts[1];
    }
  }

  lemma {:induction false} LocalsUnique(a: seq<LocalName>, b: seq<LocalName>)
    requires LocalTrees(a) == LocalTrees(b)
    ensures a == b
  {
    hide LocalTree;
    if |a| != 0 {
      assert LocalTrees(a)[0] == LocalTrees(b)[0] && LocalTrees(a)[1..] == LocalTrees(b)[1..];
      LocalUnique(a[0], b[0]);
      LocalsUnique(a[1..], b[1..]);
      assert a == [a[0]] + a[1..] && b == [b[0]] + b[1..];
    }
  }

  lemma {:induction false} ExprUnique(a: Expr, b: Expr)
    requires ExprTree(a) == ExprTree(b)
    ensures a == b
    decreases a
  {
    var s, t := ExprTree(a), ExprTree(b);
    assert |s.parts| > 0 ==> s.parts[0] == t.parts[0];
    assert |s.parts| > 1 ==> s.parts[1] == t.parts[1];
    match a {
      case Unary(_, operand) => ExprUnique(operand, b.operand);
      case Paren(inner) => ExprUnique(inner, b.inner);
      case Binary(_, left, right) =>
        ExprUnique(left, b.left);
        ExprUnique(right, b.right);
      case Index(base, index) =>
        ExprUnique(base, b.base);
        ExprUnique(index, b.index);
      case Field(base, _) => ExprUnique(base, b.base);
      case CallExpr(call) => CallUnique(call, b.call);
      case Function(body) => FunctionUnique(body, b.body, false, false);
      case Table(fields) => FieldsUnique(fields.items, b.fields.items);
      case _ =>
    }
  }

  lemma {:induction false} CallUnique(a: Call, b: Call)
    requires CallTree(a) == CallTree(b)
    ensures a == b
    decreases a
  {
    var s, t := CallTree(a), CallTree(b);
    assert s.parts[0] == t.parts[0] && s.parts[1] == t.parts[1] && s.parts[|s.parts| - 1] == t.parts[|t.parts| - 1];
    match a {
      case Call(callee, arguments, _) =>
        ExprUnique(callee, b.callee);
        ExprsUnique(arguments.items, b.arguments.items);
      case MethodCall(receiver, _, arguments, _) =>
        ExprUnique(receiver, b.receiver);
        ExprsUnique(arguments.items, b.arguments.items);
    }
  }

  lemma {:induction false} ExprsUnique(a: seq<Expr>, b: seq<Expr>)
    requires ExprTrees(a) == ExprTrees(b)
    ensures a == b
    decreases a
  {
    hide ExprTree;
    if |a| != 0 {
      assert ExprTrees(a)[0] == ExprTrees(b)[0] && ExprTrees(a)[1..] == ExprTrees(b)[1..];
      ExprUnique(a[0], b[0]);
      ExprsUnique(a[1..], b[1..]);
      assert a == [a[0]] + a[1..] && b == [b[0]] + b[1..];
    }
  }

  lemma {:induction false} FieldUnique(a: TableField, b: TableField)
    requires FieldTree(a) == FieldTree(b)
    ensures a == b
    decreases a
  {
    var s, t := FieldTree(a), FieldTree(b);
    assert s.parts[0] == t.parts[0] && (|s.parts| > 1 ==> s.parts[1] == t.parts[1]);
    match a {
      case Array(value, _) => ExprUnique(value, b.value);
      case Named(_, value, _) => ExprUnique(value, b.value);
      case Indexed(key, value, _) =>
        ExprUnique(key, b.key);
        ExprUnique(value, b.value);
    }
  }

  lemma {:induction false} FieldsUnique(a: seq<TableField>, b: seq<TableField>)
    requires FieldTrees(a) == FieldTrees(b)
    ensures a == b
    decreases a
  {
    hide FieldTree;
    if |a| != 0 {
      assert FieldTrees(a)[0] == FieldTrees(b)[0] && FieldTrees(a)[1..] == FieldTrees(b)[1..];
      FieldUnique(a[0], b[0]);
      FieldsUnique(a[1..], b[1..]);
      assert a == [a[0]] + a[1..] && b == [b[0]] + b[1..];
    }
  }

  lemma {:induction false} FunctionUnique(a: FunctionBody, b: FunctionBody, selfA: bool, selfB: bool)
    requires FunctionTree(a, selfA) == FunctionTree(b, selfB)
    ensures a == b && selfA == selfB
    decreases a
  {
    var s, t := FunctionTree(a, selfA), FunctionTree(b, selfB);
    var n := |s.parts| - 1;
    assert s.parts[0] == LocalVector(a.parameters) && t.parts[0] == LocalVector(b.parameters);
    assert s.parts[n] == BlockTree(a.body) && t.parts[n] == BlockTree(b.body);
    LocalsUnique(a.parameters.items, b.parameters.items);
    if a.vararg.NamedVararg? {
      assert s.parts[1] == LocalTree(a.vararg.table) && t.parts[1] == LocalTree(b.vararg.table);
      LocalUnique(a.vararg.table, b.vararg.table);
    }
    BlockUnique(a.body, b.body);
  }

  lemma {:induction false} BlockUnique(a: Block, b: Block)
    requires BlockTree(a) == BlockTree(b)
    ensures a == b
    decreases a
  {
    assert BlockTree(a).parts[0] == BlockTree(b).parts[0];
    StmtsUnique(a.statements.items, b.statements.items);
  }

  lemma {:induction false} StmtsUnique(a: seq<Stmt>, b: seq<Stmt>)
    requires StmtTrees(a) == StmtTrees(b)
    ensures a == b
    decreases a
  {
    hide StmtTree;
    if |a| != 0 {
      assert StmtTrees(a)[0] == StmtTrees(b)[0] && StmtTrees(a)[1..] == StmtTrees(b)[1..];
      StmtUnique(a[0], b[0]);
      StmtsUnique(a[1..], b[1..]);
      assert a == [a[0]] + a[1..] && b == [b[0]] + b[1..];
    }
  }

  lemma {:induction false} ClauseUnique(a: IfClause, b: IfClause)
    requires ClauseTree(a) == ClauseTree(b)
    ensures a == b
    decreases a
  {
    hide ExprTree, BlockTree;
    var s, t := ClauseTree(a), ClauseTree(b);
    assert s.parts[0] == t.parts[0] && s.parts[1] == t.parts[1];
    ExprUnique(a.condition, b.condition);
    BlockUnique(a.body, b.body);
  }

  lemma {:induction false} ClausesUnique(a: seq<IfClause>, b: seq<IfClause>)
    requires ClauseTrees(a) == ClauseTrees(b)
    ensures a == b
    decreases a
  {
    hide ClauseTree;
    if |a| != 0 {
      assert ClauseTrees(a)[0] == ClauseTrees(b)[0] && ClauseTrees(a)[1..] == ClauseTrees(b)[1..];
      ClauseUnique(a[0], b[0]);
      ClausesUnique(a[1..], b[1..]);
      assert a == [a[0]] + a[1..] && b == [b[0]] + b[1..];
    }
  }

  lemma {:induction false} GlobalUnique(a: GlobalDeclaration, b: GlobalDeclaration)
    requires GlobalTree(a) == GlobalTree(b)
    ensures a == b
    decreases a
  {
    var s, t := GlobalTree(a), GlobalTree(b);
    assert |s.parts| > 0 ==> s.parts[0] == t.parts[0];
    assert |s.parts| > 1 ==> s.parts[1] == t.parts[1];
    assert |s.parts| > 2 ==> s.parts[2] == t.parts[2];
    match a {
      case GlobalNames(names, _, values, _) =>
        LocalsUnique(names.items, b.names.items);
        ExprsUnique(values.items, b.values.items);
      case GlobalStar(_) =>
      case GlobalFunction(_, body) => FunctionUnique(body, b.body, false, false);
    }
  }

  lemma SameForm(a: Stmt, b: Stmt)
    requires StmtTree(a).head == StmtTree(b).head
    ensures a.If? == b.If? && a.While? == b.While? && a.Repeat? == b.Repeat? && a.NumericFor? == b.NumericFor?
    ensures a.GenericFor? == b.GenericFor? && a.FunctionStmt? == b.FunctionStmt? && a.LocalFunction? == b.LocalFunction?
  {
    hide ExprTree, BlockTree, FunctionTree, LocalTree, ExprVector, LocalVector, ClauseVector, CallTree;
  }

  /** The statements that hold blocks or functions. */
  lemma {:induction false} CompoundUnique(a: Stmt, b: Stmt)
    requires StmtTree(a) == StmtTree(b)
    requires a.If? || a.While? || a.Repeat? || a.NumericFor? || a.GenericFor? || a.FunctionStmt? || a.LocalFunction?
    ensures a == b
    decreases a, 0
  {
    hide ExprTree, BlockTree, FunctionTree, LocalTree, ExprTrees, LocalTrees, ClauseTrees, GlobalTree, CallTree;
    SameForm(a, b);
    var s, t := StmtTree(a), StmtTree(b);
    var n := |s.parts| - 1;
    assert n == |t.parts| - 1 && s.parts[0] == t.parts[0] && s.parts[n] == t.parts[n];
    assert n > 0 ==> s.parts[1] == t.parts[1];
    match a {
      case If(clauses, elseBlock) =>
        ClausesUnique(clauses.items, b.clauses.items);
        if elseBlock.Some? {
          BlockUnique(elseBlock.value, b.elseBlock.value);
        }
      case While(condition, body) =>
        ExprUnique(condition, b.condition);
        BlockUnique(body, b.body);
      case Repeat(body, condition) =>
        ExprUnique(condition, b.condition);
        BlockUnique(body, b.body);
      case NumericFor(name, initial, limit, step, body) =>
        assert s.parts[2] == t.parts[2] && s.parts[3] == t.parts[3];
        LocalUnique(name, b.name);
        ExprUnique(initial, b.initial);
        ExprUnique(limit, b.limit);
        if step.Some? {
          ExprUnique(step.value, b.step.value);
        }
        BlockUnique(body, b.body);
      case GenericFor(names, values, body) =>
        LocalsUnique(names.items, b.names.items);
        ExprsUnique(values.items, b.values.items);
        BlockUnique(body, b.body);
      case FunctionStmt(target, methodName, definition) =>
        ExprUnique(target, b.target);
        FunctionUnique(definition, b.definition, methodName.Some?, b.methodName.Some?);
      case LocalFunction(name, definition) =>
        LocalUnique(name, b.name);
        FunctionUnique(definition, b.definition, false, false);
    }
  }

  lemma {:induction false} StmtUnique(a: Stmt, b: Stmt)
    requires StmtTree(a) == StmtTree(b)
    ensures a == b
    decreases a, 1
  {
    hide BlockTree, FunctionTree, LocalTree, ExprTrees, LocalTrees, ClauseTrees;
    var s, t := StmtTree(a), StmtTree(b);
    assert |s.parts| > 0 ==> s.parts[0] == t.parts[0];
    assert |s.parts| > 1 ==> s.parts[1] == t.parts[1];
    match a {
      case Return(values, _) => ExprsUnique(values.items, b.values.items);
      case Assignment(targets, values) =>
        ExprsUnique(targets.items, b.targets.items);
        ExprsUnique(values.items, b.values.items);
      case CallStmt(call) => CallUnique(call, b.call);
      case Local(_, names, _, values) =>
        LocalsUnique(names.items, b.names.items);
        ExprsUnique(values.items, b.values.items);
      case Global(declaration) => GlobalUnique(declaration, b.declaration);
      case Do(body) => BlockUnique(body, b.body);
      case Empty =>
      case Break =>
      case Goto(_) =>
      case Label(_) =>
      case _ => CompoundUnique(a, b);
    }
  }
}
