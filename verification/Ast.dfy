/**
 * The owned syntax tree of the compiler, together with the tokens it is parsed from.
 *
 * A few spellings that the tree forgets are kept as fields, so that a tree determines its token
 * sequence: whether a call with one string or table argument was written without parentheses,
 * the optional `;` after `return`, an `=` at end of input without values, a trailing comma in a
 * parameter list, and the Lua 5.5 prefix attribute of `local`, whose name is cloned into every
 * declared name that has no attribute of its own.
 */
module Ast {
  import opened Checked

  type Byte = b: int | 0 <= b < 256

  /** A vector with room for `spare` more elements. */
  datatype Vec<+T> = Vec(items: seq<T>, spare: nat) {
    function Capacity(): nat {
      |items| + spare
    }
  }

  type Name = Vec<Byte>

  /** The five element types of the vectors in a tree. */
  datatype Family = StmtFamily | ExprFamily | LocalFamily | FieldFamily | ClauseFamily

  datatype Literal = Integer | Float | String(value: Name)

  datatype UnaryOp = Negate | Not | Length | BitNot

  datatype BinaryOp =
    | OpOr | OpAnd | OpEqual | OpNotEqual | OpLess | OpLessEqual | OpGreater | OpGreaterEqual | OpPipe | OpBitXor
    | OpAmpersand | OpShiftLeft | OpShiftRight | OpConcat | OpAdd | OpSubtract | OpMultiply | OpDivide
    | OpFloorDivide | OpModulo | OpPower

  datatype Expr =
    | Constant(literal: Literal)
    | Nil
    | Bool(value: bool)
    | Var(name: Name)
    | Vararg
    | Unary(unaryOp: UnaryOp, operand: Expr)
    | Binary(binaryOp: BinaryOp, left: Expr, right: Expr)
    | Paren(inner: Expr)
    | Index(base: Expr, index: Expr)
    | Field(base: Expr, field: Name)
    | CallExpr(call: Call)
    | Function(body: FunctionBody)
    | Table(fields: Vec<TableField>)

  /** The two call forms of an expression; only these can be a statement. */
  datatype Call =
    | Call(callee: Expr, arguments: Vec<Expr>, bare: bool)
    | MethodCall(receiver: Expr, methodName: Name, arguments: Vec<Expr>, bare: bool)

  datatype FieldSeparator = CommaSeparator | SemicolonSeparator

  datatype TableField =
    | Array(value: Expr, separator: Option<FieldSeparator>)
    | Named(name: Name, value: Expr, separator: Option<FieldSeparator>)
    | Indexed(key: Expr, value: Expr, separator: Option<FieldSeparator>)

  /** `Inherited` is the clone of a prefix attribute, which the parser restricts to `const` and `close`. */
  datatype Attribute = NoAttribute | Written(attribute: Name) | Inherited(close: bool)

  const INHERITED_ATTRIBUTE_BYTES: nat := 5

  datatype LocalName = LocalName(name: Name, attribute: Attribute)

  datatype VarargParameter = NoVararg | PlainVararg | NamedVararg(table: LocalName)

  datatype FunctionBody = FunctionBody(
    parameters: Vec<LocalName>, trailingComma: bool, vararg: VarargParameter, body: Block)

  datatype Block = Block(statements: Vec<Stmt>)

  datatype IfClause = IfClause(condition: Expr, body: Block)

  datatype GlobalDeclaration =
    | GlobalNames(names: Vec<LocalName>, equals: bool, values: Vec<Expr>, prefixAttribute: Option<Name>)
    | GlobalStar(prefixAttribute: Option<Name>)
    | GlobalFunction(name: Name, body: FunctionBody)

  datatype Stmt =
    | Empty
    | Return(values: Vec<Expr>, semicolon: bool)
    | Assignment(targets: Vec<Expr>, values: Vec<Expr>)
    | CallStmt(call: Call)
    | Local(prefixAttribute: Option<Name>, names: Vec<LocalName>, equals: bool, values: Vec<Expr>)
    | Global(declaration: GlobalDeclaration)
    | Break
    | Goto(labelName: Name)
    | Label(labelName: Name)
    | Do(body: Block)
    | If(clauses: Vec<IfClause>, elseBlock: Option<Block>)
    | While(condition: Expr, body: Block)
    | Repeat(body: Block, condition: Expr)
    | NumericFor(name: LocalName, initial: Expr, limit: Expr, step: Option<Expr>, body: Block)
    | GenericFor(names: Vec<LocalName>, values: Vec<Expr>, body: Block)
    | FunctionStmt(target: Expr, methodName: Option<Name>, definition: FunctionBody)
    | LocalFunction(name: LocalName, definition: FunctionBody)

  datatype Keyword =
    | KwAnd | KwBreak | KwDo | KwElse | KwElseIf | KwEnd | KwFalse | KwFor | KwFunction | KwGoto | KwIf | KwIn
    | KwLocal | KwNil | KwNot | KwOr | KwRepeat | KwReturn | KwThen | KwTrue | KwUntil | KwWhile | KwGlobal

  datatype Symbol =
    | Plus | Minus | Star | Slash | FloorSlash | Percent | Caret | Hash | Ampersand | Pipe | Tilde | ShiftLeft
    | ShiftRight | EqualEqual | NotEqual | Less | LessEqual | Greater | GreaterEqual | Assign | OpenParen
    | CloseParen | OpenBrace | CloseBrace | OpenBracket | CloseBracket | Semicolon | Colon | DoubleColon | Comma
    | Dot | Concat | Ellipsis

  datatype TokenKind =
    | Eof | KeywordToken(keyword: Keyword) | NameToken | IntegerToken | FloatToken | StringToken
    | SymbolToken(symbol: Symbol)

  /** `payload` is the capacity of the literal a token owns; tokens without a byte literal have 0. */
  datatype Token = Token(kind: TokenKind, payload: nat)

  function AttributeCapacity(attribute: Attribute): nat {
    match attribute
    case NoAttribute => 0
    case Written(name) => name.Capacity()
    case Inherited(_) => INHERITED_ATTRIBUTE_BYTES
  }

  function LiteralCapacity(literal: Literal): nat {
    match literal
    case String(value) => value.Capacity()
    case _ => 0
  }
}
