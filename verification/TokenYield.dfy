/**
 * The tokens a syntax tree is parsed from: section 9 of the Lua 5.4 Reference Manual, with the
 * `global` forms, named varargs and prefix attributes of Lua 5.5, and the extra spellings that
 * the parser accepts (see module `Ast`).
 */
module TokenYield {
  import opened Checked
  import opened Ast

  type Tokens = seq<Token>

  /** The scanner pushes a name byte by byte, and the first push of a byte vector reserves 8 bytes. */
  const SMALLEST_NAME_PAYLOAD: nat := 8

  function Kw(keyword: Keyword): Tokens {
    [Token(KeywordToken(keyword), 0)]
  }

  function Sym(symbol: Symbol): Tokens {
    [Token(SymbolToken(symbol), 0)]
  }

  /** A name token whose literal is at least as large as the copy of it in the tree. */
  function Ident(capacity: nat): Tokens {
    [Token(NameToken, Max(SMALLEST_NAME_PAYLOAD, capacity))]
  }

  function UnaryTokens(op: UnaryOp): Tokens {
    match op
    case Negate => Sym(Minus)
    case Not => Kw(KwNot)
    case Length => Sym(Hash)
    case BitNot => Sym(Tilde)
  }

  function BinaryTokens(op: BinaryOp): Tokens {
    match op
    case OpOr => Kw(KwOr)
    case OpAnd => Kw(KwAnd)
    case OpEqual => Sym(EqualEqual)
    case OpNotEqual => Sym(NotEqual)
    case OpLess => Sym(Less)
    case OpLessEqual => Sym(LessEqual)
    case OpGreater => Sym(Greater)
    case OpGreaterEqual => Sym(GreaterEqual)
    case OpPipe => Sym(Pipe)
    case OpBitXor => Sym(Tilde)
    case OpAmpersand => Sym(Ampersand)
    case OpShiftLeft => Sym(ShiftLeft)
    case OpShiftRight => Sym(ShiftRight)
    case OpConcat => Sym(Concat)
    case OpAdd => Sym(Plus)
    case OpSubtract => Sym(Minus)
    case OpMultiply => Sym(Star)
    case OpDivide => Sym(Slash)
    case OpFloorDivide => Sym(FloorSlash)
    case OpModulo => Sym(Percent)
    case OpPower => Sym(Caret)
  }

  function LiteralTokens(literal: Literal): Tokens {
    match literal
    case Integer => [Token(IntegerToken, 0)]
    case Float => [Token(FloatToken, 0)]
    case String(value) => [Token(StringToken, value.Capacity())]
  }

  function ExprTokens(e: Expr): Tokens
    decreases e, 0
  {
    match e
    case Constant(literal) => LiteralTokens(literal)
    case Nil => Kw(KwNil)
    case Bool(value) => Kw(if value then KwTrue else KwFalse)
    case Var(name) => Ident(name.Capacity())
    case Vararg => Sym(Ellipsis)
    case Unary(op, operand) => UnaryTokens(op) + ExprTokens(operand)
    case Binary(op, left, right) => ExprTokens(left) + BinaryTokens(op) + ExprTokens(right)
    case Paren(inner) => Sym(OpenParen) + ExprTokens(inner) + Sym(CloseParen)
    case Index(base, index) => ExprTokens(base) + Sym(OpenBracket) + ExprTokens(index) + Sym(CloseBracket)
    case Field(base, name) => ExprTokens(base) + Sym(Dot) + Ident(name.Capacity())
    case CallExpr(call) => CallTokens(call)
    case Function(body) => Kw(KwFunction) + FunctionTokens(body)
    case Table(fields) => Sym(OpenBrace) + FieldListTokens(fields.items) + Sym(CloseBrace)
  }

  function CallTokens(call: Call): Tokens {
    match call
    case Call(callee, arguments, bare) =>
      ExprTokens(callee) + ArgumentsTokens(arguments.items, bare)
    case MethodCall(receiver, name, arguments, bare) =>
      ExprTokens(receiver) + Sym(Colon) + Ident(name.Capacity()) + ArgumentsTokens(arguments.items, bare)
  }

  /** Only a single string literal or table constructor can be passed without parentheses. */
  predicate BareArgument(arguments: seq<Expr>) {
    |arguments| == 1 && (arguments[0].Table? || (arguments[0].Constant? && arguments[0].literal.String?))
  }

  function ArgumentsTokens(arguments: seq<Expr>, bare: bool): Tokens
    decreases arguments, 1
  {
    if bare && BareArgument(arguments) then ExprListTokens(arguments)
    else Sym(OpenParen) + ExprListTokens(arguments) + Sym(CloseParen)
  }

  function ExprListTokens(es: seq<Expr>): Tokens
    decreases es, 0
  {
    if |es| == 0 then []
    else if |es| == 1 then ExprTokens(es[0])
    else ExprTokens(es[0]) + Sym(Comma) + ExprListTokens(es[1..])
  }

  function SeparatorTokens(separator: Option<FieldSeparator>, closing: bool): Tokens {
    match separator
    case Some(CommaSeparator) => Sym(Comma)
    case Some(SemicolonSeparator) => Sym(Semicolon)
    case None => if closing then [] else Sym(Comma)
  }

  /** The separator of the last field is optional. */
  function FieldListTokens(fields: seq<TableField>): Tokens
    decreases fields, 0
  {
    if |fields| == 0 then []
    else
      FieldTokens(fields[0]) + SeparatorTokens(fields[0].separator, |fields| == 1) + FieldListTokens(fields[1..])
  }

  function FieldTokens(field: TableField): Tokens {
    match field
    case Array(value, _) => ExprTokens(value)
    case Named(name, value, _) => Ident(name.Capacity()) + Sym(Assign) + ExprTokens(value)
    case Indexed(key, value, _) =>
      Sym(OpenBracket) + ExprTokens(key) + Sym(CloseBracket) + Sym(Assign) + ExprTokens(value)
  }

  function AttributeTokens(attribute: Attribute): Tokens {
    match attribute
    case Written(name) => Sym(Less) + Ident(name.Capacity()) + Sym(Greater)
    case _ => []
  }

  function PrefixTokens(attribute: Option<Name>): Tokens {
    match attribute
    case Some(name) => Sym(Less) + Ident(name.Capacity()) + Sym(Greater)
    case None => []
  }

  function LocalTokens(local: LocalName): Tokens {
    Ident(local.name.Capacity()) + AttributeTokens(local.attribute)
  }

  function LocalListTokens(locals: seq<LocalName>): Tokens {
    if |locals| == 0 then []
    else if |locals| == 1 then LocalTokens(locals[0])
    else LocalTokens(locals[0]) + Sym(Comma) + LocalListTokens(locals[1..])
  }

  function VarargTokens(vararg: VarargParameter): Tokens {
    match vararg
    case NoVararg => []
    case PlainVararg => Sym(Ellipsis)
    case NamedVararg(table) => Sym(Ellipsis) + LocalTokens(table)
  }

  function FunctionTokens(body: FunctionBody): Tokens {
    Sym(OpenParen) + LocalListTokens(body.parameters.items)
    + (if body.parameters.items != [] && (body.trailingComma || body.vararg != NoVararg) then Sym(Comma) else [])
    + VarargTokens(body.vararg) + Sym(CloseParen) + BlockTokens(body.body) + Kw(KwEnd)
  }

  function BlockTokens(block: Block): Tokens
    decreases block, 0
  {
    StmtListTokens(block.statements.items)
  }

  function DoBlockTokens(block: Block): Tokens
    decreases block, 1
  {
    Kw(KwDo) + BlockTokens(block) + Kw(KwEnd)
  }

  function StepTokens(step: Option<Expr>): Tokens {
    match step
    case Some(e) => Sym(Comma) + ExprTokens(e)
    case None => []
  }

  function StmtListTokens(statements: seq<Stmt>): Tokens
    decreases statements, 0
  {
    if |statements| == 0 then []
    else StmtTokens(statements[0]) + StmtListTokens(statements[1..])
  }

  function ValuesTokens(equals: bool, values: seq<Expr>): Tokens
    decreases values, 1
  {
    if equals || values != [] then Sym(Assign) + ExprListTokens(values) else []
  }

  /** `if` introduces the first clause and `elseif` every other one. */
  function ClauseListTokens(introducer: Keyword, clauses: seq<IfClause>): Tokens
    decreases clauses, 0
  {
    if |clauses| == 0 then []
    else Kw(introducer) + ClauseTokens(clauses[0]) + ClauseListTokens(KwElseIf, clauses[1..])
  }

  function ClauseTokens(clause: IfClause): Tokens {
    ExprTokens(clause.condition) + Kw(KwThen) + BlockTokens(clause.body)
  }

  /**
   * The dotted name of a function statement. For a method the parser stores the name twice: as
   * the last field of the target and, cloned, as the method name.
   */
  function FunctionNameTokens(target: Expr, methodName: Option<Name>): Tokens
    decreases target, 1
  {
    match methodName
    case None => ExprTokens(target)
    case Some(name) =>
      if target.Field? then
        ExprTokens(target.base) + Sym(Colon) + Ident(Max(target.field.Capacity(), name.Capacity()))
      else
        ExprTokens(target) + Sym(Colon) + Ident(name.Capacity())
  }

  function GlobalTokens(declaration: GlobalDeclaration): Tokens {
    match declaration
    case GlobalNames(names, equals, values, prefixAttribute) =>
      PrefixTokens(prefixAttribute) + LocalListTokens(names.items) + ValuesTokens(equals, values.items)
    case GlobalStar(prefixAttribute) => PrefixTokens(prefixAttribute) + Sym(Star)
    case GlobalFunction(name, body) => Kw(KwFunction) + Ident(name.Capacity()) + FunctionTokens(body)
  }

  function StmtTokens(s: Stmt): Tokens {
    match s
    case Empty => Sym(Semicolon)
    case Return(values, semicolon) =>
      Kw(KwReturn) + ExprListTokens(values.items) + (if semicolon then Sym(Semicolon) else [])
    case Assignment(targets, values) =>
      ExprListTokens(targets.items) + Sym(Assign) + ExprListTokens(values.items)
    case CallStmt(call) => CallTokens(call)
    case Local(prefixAttribute, names, equals, values) =>
      Kw(KwLocal) + PrefixTokens(prefixAttribute) + LocalListTokens(names.items) + ValuesTokens(equals, values.items)
    case Global(declaration) => Kw(KwGlobal) + GlobalTokens(declaration)
    case Break => Kw(KwBreak)
    case Goto(name) => Kw(KwGoto) + Ident(name.Capacity())
    case Label(name) => Sym(DoubleColon) + Ident(name.Capacity()) + Sym(DoubleColon)
    case Do(body) => DoBlockTokens(body)
    case If(clauses, elseBlock) =>
      (if clauses.items == [] then Kw(KwIf) else ClauseListTokens(KwIf, clauses.items))
      + (match elseBlock case Some(body) => Kw(KwElse) + BlockTokens(body) case None => []) + Kw(KwEnd)
    case While(condition, body) =>
      Kw(KwWhile) + ExprTokens(condition) + DoBlockTokens(body)
    case Repeat(body, condition) =>
      Kw(KwRepeat) + BlockTokens(body) + Kw(KwUntil) + ExprTokens(condition)
    case NumericFor(name, initial, limit, step, body) =>
      Kw(KwFor) + LocalTokens(name) + Sym(Assign) + ExprTokens(initial) + Sym(Comma) + ExprTokens(limit)
      + StepTokens(step) + DoBlockTokens(body)
    case GenericFor(names, values, body) =>
      Kw(KwFor) + LocalListTokens(names.items) + Kw(KwIn) + ExprListTokens(values.items) + DoBlockTokens(body)
    case FunctionStmt(target, methodName, definition) =>
      Kw(KwFunction) + FunctionNameTokens(target, methodName) + FunctionTokens(definition)
    case LocalFunction(name, definition) =>
      Kw(KwLocal) + Kw(KwFunction) + LocalTokens(name) + FunctionTokens(definition)
  }

  function ModuleTokens(root: Block): Tokens {
    BlockTokens(root) + [Token(Eof, 0)]
  }

  /** A lexed chunk parses to `root`: the same kinds in the same order, each payload at least the tree's copy. */
  ghost predicate ParsesTo(chunk: Tokens, root: Block) {
    var needed := ModuleTokens(root);
    && |chunk| == |needed|
    && forall i :: 0 <= i < |chunk| ==> chunk[i].kind == needed[i].kind && needed[i].payload <= chunk[i].payload
  }
}
