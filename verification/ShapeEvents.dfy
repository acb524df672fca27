/**
 * What the resolver shape walk sees in a syntax tree: the sequence of counted events, with the
 * events of a nested function kept apart from those of the function around it.
 */
module ShapeEvents {
  import opened Checked
  import opened Ast

  datatype Event =
    | Binding
    | SelfBinding
    | NameBytes(bytes: nat)
    | KeyBytes(bytes: nat)
    | LiteralBytes(bytes: nat)
    | Reference(name: Name)
    | ClosePaths(count: nat)
    | BlockStart
    | LabelStart
    | GotoStart
    | GenericForStart
    | Nested(body: seq<Event>)

  type Events = seq<Event>

  function NameEvents(name: Option<Name>): Events {
    match name
    case Some(value) => [NameBytes(value.Capacity())]
    case None => []
  }

  function DeclarationEvents(local: LocalName): Events {
    [Binding, KeyBytes(local.name.Capacity())]
    + (if local.attribute == NoAttribute then [] else [NameBytes(AttributeCapacity(local.attribute))])
  }

  function DeclarationListEvents(locals: seq<LocalName>): Events {
    if |locals| == 0 then [] else DeclarationEvents(locals[0]) + DeclarationListEvents(locals[1..])
  }

  function ExprEvents(e: Expr): Events {
    match e
    case Constant(literal) => [LiteralBytes(LiteralCapacity(literal))]
    case Nil => []
    case Bool(_) => []
    case Vararg => []
    case Var(name) => [Reference(name)]
    case Unary(_, operand) => ExprEvents(operand)
    case Paren(inner) => ExprEvents(inner)
    case Binary(_, left, right) => ExprEvents(left) + ExprEvents(right)
    case Index(base, index) => ExprEvents(base) + ExprEvents(index)
    case Field(base, name) => ExprEvents(base) + [NameBytes(name.Capacity())]
    case CallExpr(call) => CallEvents(call)
    case Function(body) => [Nested(FunctionEvents(body, false))]
    case Table(fields) => FieldListEvents(fields.items)
  }

  function CallEvents(call: Call): Events {
    match call
    case Call(callee, arguments, _) => ExprEvents(callee) + ExprListEvents(arguments.items)
    case MethodCall(receiver, name, arguments, _) =>
      ExprEvents(receiver) + [NameBytes(name.Capacity())] + ExprListEvents(arguments.items)
  }

  function ExprListEvents(es: seq<Expr>): Events {
    if |es| == 0 then [] else ExprEvents(es[0]) + ExprListEvents(es[1..])
  }

  function FieldEvents(field: TableField): Events {
    match field
    case Array(value, _) => ExprEvents(value)
    case Named(name, value, _) => [NameBytes(name.Capacity())] + ExprEvents(value)
    case Indexed(key, value, _) => ExprEvents(key) + ExprEvents(value)
  }

  function FieldListEvents(fields: seq<TableField>): Events {
    if |fields| == 0 then [] else FieldEvents(fields[0]) + FieldListEvents(fields[1..])
  }

  function VarargEvents(vararg: VarargParameter): Events {
    match vararg
    case NamedVararg(table) => DeclarationEvents(table)
    case _ => []
  }

  function FunctionEvents(body: FunctionBody, hasSelf: bool): Events
    decreases body
  {
    (if hasSelf then [SelfBinding] else []) + DeclarationListEvents(body.parameters.items)
    + VarargEvents(body.vararg) + BlockEvents(body.body)
  }

  function BlockEvents(block: Block): Events {
    [BlockStart, ClosePaths(2)] + StmtListEvents(block.statements.items)
  }

  function StmtListEvents(statements: seq<Stmt>): Events {
    if |statements| == 0 then [] else StmtEvents(statements[0]) + StmtListEvents(statements[1..])
  }

  function ClauseListEvents(clauses: seq<IfClause>): Events {
    if |clauses| == 0 then [] else ClauseEvents(clauses[0]) + ClauseListEvents(clauses[1..])
  }

  function ClauseEvents(clause: IfClause): Events {
    ExprEvents(clause.condition) + BlockEvents(clause.body)
  }

  function GlobalEvents(declaration: GlobalDeclaration): Events {
    match declaration
    case GlobalNames(names, _, values, prefixAttribute) =>
      DeclarationListEvents(names.items) + ExprListEvents(values.items) + NameEvents(prefixAttribute)
    case GlobalStar(prefixAttribute) => NameEvents(prefixAttribute)
    case GlobalFunction(name, body) =>
      [Binding, KeyBytes(name.Capacity()), Nested(FunctionEvents(body, false))]
  }

  function StepEvents(step: Option<Expr>): Events {
    match step
    case Some(e) => ExprEvents(e)
    case None => []
  }

  function ElseEvents(block: Option<Block>): Events {
    match block
    case Some(body) => BlockEvents(body)
    case None => []
  }

  function StmtEvents(s: Stmt): Events {
    match s
    case Empty => []
    case Return(values, _) => [ClosePaths(1)] + ExprListEvents(values.items)
    case Assignment(targets, values) => ExprListEvents(targets.items) + ExprListEvents(values.items)
    case CallStmt(call) => CallEvents(call)
    case Local(_, names, _, values) => DeclarationListEvents(names.items) + ExprListEvents(values.items)
    case Global(declaration) => GlobalEvents(declaration)
    case Break => [ClosePaths(1)]
    case Goto(name) => [GotoStart, ClosePaths(1), KeyBytes(name.Capacity())]
    case Label(name) => [LabelStart, KeyBytes(name.Capacity())]
    case Do(body) => BlockEvents(body)
    case If(clauses, elseBlock) => ClauseListEvents(clauses.items) + ElseEvents(elseBlock)
    case While(condition, body) => ExprEvents(condition) + BlockEvents(body)
    case Repeat(body, condition) => ExprEvents(condition) + BlockEvents(body)
    case NumericFor(name, initial, limit, step, body) =>
      DeclarationEvents(name) + ExprEvents(initial) + ExprEvents(limit) + StepEvents(step) + BlockEvents(body)
    case GenericFor(names, values, body) =>
      [GenericForStart, Binding, ClosePaths(1)] + DeclarationListEvents(names.items) + ExprListEvents(values.items)
      + BlockEvents(body)
    case FunctionStmt(target, methodName, definition) =>
      ExprEvents(target) + NameEvents(methodName) + [Nested(FunctionEvents(definition, methodName.Some?))]
    case LocalFunction(name, definition) => DeclarationEvents(name) + [Nested(FunctionEvents(definition, false))]
  }
}
