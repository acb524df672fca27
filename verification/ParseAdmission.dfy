/**
 * The bound on parser memory that is charged before parsing.
 *
 * One pass over the tokens counts how many elements, containers and boxes the tokens can pay
 * for; `ParseAdmission` turns the counts into bytes. The main result is that the tree built from
 * those tokens never owns more.
 */
module ParseAdmission {
  import opened Checked
  import opened Ast
  import opened TokenYield
  import opened AstMeter
  import opened AstOwnership

  datatype Bounds = Bounds(
    literalBytes: nat,
    statementElements: nat,
    blockContainers: nat,
    expressionElements: nat,
    localNames: nat,
    tableOpens: nat,
    separators: nat,
    ifClauses: nat,
    ifContainers: nat,
    boxTriggers: nat)

  function Nothing(): Bounds {
    Bounds(0, 0, 0, 0, 0, 0, 0, 0, 0, 0)
  }

  function Sum(a: Bounds, b: Bounds): Bounds {
    Bounds(
      a.literalBytes + b.literalBytes,
      a.statementElements + b.statementElements,
      a.blockContainers + b.blockContainers,
      a.expressionElements + b.expressionElements,
      a.localNames + b.localNames,
      a.tableOpens + b.tableOpens,
      a.separators + b.separators,
      a.ifClauses + b.ifClauses,
      a.ifContainers + b.ifContainers,
      a.boxTriggers + b.boxTriggers)
  }

  predicate Fit(b: Bounds) {
    && b.literalBytes <= USIZE_MAX
    && b.statementElements <= USIZE_MAX
    && b.blockContainers <= USIZE_MAX
    && b.expressionElements <= USIZE_MAX
    && b.localNames <= USIZE_MAX
    && b.tableOpens <= USIZE_MAX
    && b.separators <= USIZE_MAX
    && b.ifClauses <= USIZE_MAX
    && b.ifContainers <= USIZE_MAX
    && b.boxTriggers <= USIZE_MAX
  }

  /** What a keyword can pay for. */
  function OfKeyword(keyword: Keyword): Bounds {
    match keyword
    case KwFunction => Nothing().(statementElements := 1, blockContainers := 1, expressionElements := 1)
    case KwDo => Nothing().(statementElements := 1, blockContainers := 1)
    case KwRepeat => Nothing().(statementElements := 1, blockContainers := 1)
    case KwWhile => Nothing().(statementElements := 1)
    case KwFor => Nothing().(statementElements := 1)
    case KwReturn => Nothing().(statementElements := 1)
    case KwBreak => Nothing().(statementElements := 1)
    case KwGoto => Nothing().(statementElements := 1)
    case KwLocal => Nothing().(statementElements := 1)
    case KwGlobal => Nothing().(statementElements := 1)
    case KwIf => Nothing().(statementElements := 1, ifClauses := 1, ifContainers := 1)
    case KwElseIf => Nothing().(ifClauses := 1)
    case KwThen => Nothing().(blockContainers := 1)
    case KwElse => Nothing().(blockContainers := 1)
    case KwNil => Nothing().(expressionElements := 1)
    case KwTrue => Nothing().(expressionElements := 1)
    case KwFalse => Nothing().(expressionElements := 1)
    case KwNot => Nothing().(expressionElements := 1, boxTriggers := 1)
    case KwAnd => Nothing().(boxTriggers := 1)
    case KwOr => Nothing().(boxTriggers := 1)
    case _ => Nothing()
  }

  /** What a symbol can pay for; every symbol can trigger boxes. */
  function OfSymbol(symbol: Symbol): Bounds {
    var box := Nothing().(boxTriggers := 1);
    match symbol
    case DoubleColon => box.(statementElements := 1)
    case Assign => box.(statementElements := 1)
    case Colon => box.(statementElements := 1)
    case Semicolon => box.(statementElements := 1, separators := 1)
    case OpenParen => box.(statementElements := 1, expressionElements := 1)
    case OpenBrace => box.(statementElements := 1, expressionElements := 1, tableOpens := 1)
    case Ellipsis => box.(expressionElements := 1)
    case Minus => box.(expressionElements := 1)
    case Hash => box.(expressionElements := 1)
    case Tilde => box.(expressionElements := 1)
    case Comma => box.(separators := 1)
    case _ => box
  }

  function OfToken(token: Token): Bounds {
    var paid := match token.kind
      case NameToken => Nothing().(localNames := 1, expressionElements := 1)
      case StringToken => Nothing().(expressionElements := 1, statementElements := 1, boxTriggers := 1)
      case IntegerToken => Nothing().(expressionElements := 1)
      case FloatToken => Nothing().(expressionElements := 1)
      case KeywordToken(keyword) => OfKeyword(keyword)
      case SymbolToken(symbol) => OfSymbol(symbol)
      case Eof => Nothing();
    paid.(literalBytes := token.payload)
  }

  function OfTokens(tokens: Tokens): Bounds {
    if |tokens| == 0 then Nothing() else Sum(OfTokens(tokens[..|tokens| - 1]), OfToken(tokens[|tokens| - 1]))
  }

  // What a tree owes in each class of block, and what its tokens bring into that class.

  datatype Class =
    | Statements | Blocks | Expressions | Locals | Fields | Tables | Clauses | Conditionals | BoxedOperands | Payloads

  function Available(class_: Class, b: Bounds): nat {
    match class_
    case Statements => b.statementElements
    case Blocks => b.blockContainers
    case Expressions => b.expressionElements
    case Locals => b.localNames
    case Fields => b.tableOpens + b.separators
    case Tables => b.tableOpens
    case Clauses => b.ifClauses
    case Conditionals => b.ifContainers
    case BoxedOperands => 2 * b.boxTriggers
    case Payloads => 2 * b.literalBytes
  }

  /** Elements and non-empty containers per family, boxes, and payload bytes. */
  function Cost(class_: Class, allocation: Allocation): nat {
    match allocation
    case Boxes(count) => if class_ == BoxedOperands then count else 0
    case Payload(capacity) => if class_ == Payloads then capacity else 0
    case Buffer(family, length, _) =>
      var container := if length == 0 then 0 else 1;
      match family
      case StmtFamily => if class_ == Statements then length else if class_ == Blocks then container else 0
      case ExprFamily => if class_ == Expressions then length else 0
      case LocalFamily => if class_ == Locals then length else 0
      case FieldFamily => if class_ == Fields then length else if class_ == Tables then container else 0
      case ClauseFamily => if class_ == Clauses then length else if class_ == Conditionals then container else 0
  }

  function Funds(class_: Class, tokens: Tokens): nat {
    if |tokens| == 0 then 0 else Available(class_, OfToken(tokens[0])) + Funds(class_, tokens[1..])
  }

  function Owed(class_: Class, owned: Allocations): nat {
    if |owned| == 0 then 0 else Cost(class_, owned[0]) + Owed(class_, owned[1..])
  }

  lemma {:induction false} FundsOfConcat(class_: Class, a: Tokens, b: Tokens)
    ensures Funds(class_, a + b) == Funds(class_, a) + Funds(class_, b)
  {
    hide OfToken, Available;
    if a == [] {
      assert a + b == b;
    } else {
      assert (a + b)[1..] == a[1..] + b;
      FundsOfConcat(class_, a[1..], b);
    }
  }

  lemma {:induction false} OwedOfConcat(class_: Class, a: Allocations, b: Allocations)
    ensures Owed(class_, a + b) == Owed(class_, a) + Owed(class_, b)
  {
    hide Cost;
    if a == [] {
      assert a + b == b;
    } else {
      assert (a + b)[1..] == a[1..] + b;
      OwedOfConcat(class_, a[1..], b);
    }
  }

  lemma Additive(class_: Class)
    ensures forall a: Tokens, b: Tokens {:trigger Funds(class_, a + b)} ::
              Funds(class_, a + b) == Funds(class_, a) + Funds(class_, b)
    ensures forall a: Allocations, b: Allocations {:trigger Owed(class_, a + b)} ::
              Owed(class_, a + b) == Owed(class_, a) + Owed(class_, b)
    ensures Funds(class_, []) == Owed(class_, []) == 0
  {
    hide OfToken, Available, Cost;
    forall a: Tokens, b: Tokens ensures Funds(class_, a + b) == Funds(class_, a) + Funds(class_, b) {
      FundsOfConcat(class_, a, b);
    }
    forall a: Allocations, b: Allocations ensures Owed(class_, a + b) == Owed(class_, a) + Owed(class_, b) {
      OwedOfConcat(class_, a, b);
    }
  }

  /** The funds of single tokens, and the cost of single blocks. */
  lemma Singletons(class_: Class)
    ensures forall k {:trigger Kw(k)} :: Funds(class_, Kw(k)) == Available(class_, OfKeyword(k))
    ensures forall s {:trigger Sym(s)} :: Funds(class_, Sym(s)) == Available(class_, OfSymbol(s))
    ensures forall n {:trigger Ident(n)} ::
              Funds(class_, Ident(n))
              == One(class_, Expressions) + One(class_, Locals)
                 + Times(class_, Payloads, 2 * Max(SMALLEST_NAME_PAYLOAD, n))
    ensures forall n {:trigger Boxed(n)} :: Owed(class_, Boxed(n)) == Times(class_, BoxedOperands, n)
    ensures forall n {:trigger Bytes(n)} :: Owed(class_, Bytes(n)) == Times(class_, Payloads, n)
  {
    hide OfKeyword, OfSymbol;
    forall k ensures Funds(class_, Kw(k)) == Available(class_, OfKeyword(k)) {
      assert Kw(k)[1..] == [];
      KeywordHasNoPayload(k);
    }
    forall s ensures Funds(class_, Sym(s)) == Available(class_, OfSymbol(s)) {
      assert Sym(s)[1..] == [];
      SymbolHasNoPayload(s);
    }
    forall n ensures Funds(class_, Ident(n))
              == One(class_, Expressions) + One(class_, Locals)
                 + Times(class_, Payloads, 2 * Max(SMALLEST_NAME_PAYLOAD, n)) {
      assert Ident(n)[1..] == [];
    }
    forall n ensures Owed(class_, Boxed(n)) == Times(class_, BoxedOperands, n) {
      assert Boxed(n)[1..] == [];
    }
    forall n ensures Owed(class_, Bytes(n)) == Times(class_, Payloads, n) {
      assert Bytes(n)[1..] == [];
    }
  }

  lemma KeywordHasNoPayload(k: Keyword)
    ensures OfKeyword(k).literalBytes == 0
  {
  }

  lemma SymbolHasNoPayload(s: Symbol)
    ensures OfSymbol(s).literalBytes == 0
  {
  }

  lemma BufferCost<T>(class_: Class, family: Family, values: Vec<T>)
    ensures Owed(class_, BufferOf(family, values)) == Cost(class_, Buffer(family, |values.items|, values.Capacity()))
  {
    hide Cost;
    assert BufferOf(family, values)[1..] == [];
  }

  // An expression keeps one prefix token for the list element it may be, a statement keeps the
  // token that makes it an element of its block, and a block expects its parent to introduce it.

  function One(class_: Class, reserved: Class): nat {
    if class_ == reserved then 1 else 0
  }

  function Times(class_: Class, reserved: Class, n: nat): nat {
    if class_ == reserved then n else 0
  }

  lemma {:induction false} ExprPays(class_: Class, e: Expr)
    ensures Owed(class_, ExprOwned(e)) + One(class_, Expressions) <= Funds(class_, ExprTokens(e))
    decreases e, 1
  {
    hide Funds, Owed, Kw, Sym, Ident, Boxed, Bytes, BufferOf, FieldListTokens, FieldsOwned, FunctionTokens,
        FunctionOwned, CallTokens, CallOwned, UnaryTokens, BinaryTokens;
    match e {
      case Unary(op, operand) => UnaryPays(class_, op, operand);
      case Paren(inner) => ParenPays(class_, inner);
      case Binary(op, left, right) => BinaryPays(class_, op, left, right);
      case Index(base, index) => IndexPays(class_, base, index);
      case Field(base, name) => FieldAccessPays(class_, base, name);
      case CallExpr(call) => CallPays(class_, call);
      case Function(body) => FunctionExprPays(class_, body);
      case Table(fields) => TablePays(class_, fields);
      case _ => LeafPays(class_, e);
    }
  }

  lemma LeafPays(class_: Class, e: Expr)
    requires e.Constant? || e.Nil? || e.Bool? || e.Vararg? || e.Var?
    ensures Owed(class_, ExprOwned(e)) + One(class_, Expressions) <= Funds(class_, ExprTokens(e))
  {
    hide Funds, Owed, Kw, Sym, Ident, Boxed, Bytes, BufferOf, LiteralTokens;
    Additive(class_);
    Singletons(class_);
    if e.Constant? {
      LiteralPays(class_, e.literal);
    }
  }

  lemma LiteralPays(class_: Class, literal: Literal)
    ensures Owed(class_, Bytes(LiteralCapacity(literal))) + One(class_, Expressions) <= Funds(class_,
        LiteralTokens(literal))
  {
    hide Bytes, Owed;
    assert LiteralTokens(literal)[1..] == [];
    Singletons(class_);
  }

  lemma {:induction false} UnaryPays(class_: Class, op: UnaryOp, operand: Expr)
    ensures Owed(class_, Boxed(1) + ExprOwned(operand)) + One(class_, Expressions)
            <= Funds(class_, UnaryTokens(op) + ExprTokens(operand))
    decreases operand, 2
  {
    hide Funds, Owed, Kw, Sym, Ident, Boxed, Bytes, BufferOf, ExprTokens, ExprOwned;
    Additive(class_);
    Singletons(class_);
    ExprPays(class_, operand);
  }

  lemma {:induction false} ParenPays(class_: Class, inner: Expr)
    ensures Owed(class_, Boxed(1) + ExprOwned(inner)) + One(class_, Expressions)
            <= Funds(class_, Sym(OpenParen) + ExprTokens(inner) + Sym(CloseParen))
    decreases inner, 2
  {
    hide Funds, Owed, Kw, Sym, Ident, Boxed, Bytes, BufferOf, ExprTokens, ExprOwned;
    Additive(class_);
    Singletons(class_);
    ExprPays(class_, inner);
  }

  lemma OperatorFunds(class_: Class, op: BinaryOp)
    ensures Times(class_, BoxedOperands, 2) <= Funds(class_, BinaryTokens(op))
  {
    hide Funds, Kw, Sym;
    Singletons(class_);
  }

  lemma {:induction false} BinaryPays(class_: Class, op: BinaryOp, left: Expr, right: Expr)
    ensures Owed(class_, Boxed(2) + ExprOwned(left) + ExprOwned(right)) + One(class_, Expressions)
            <= Funds(class_, ExprTokens(left) + BinaryTokens(op) + ExprTokens(right))
    decreases Binary(op, left, right), 0
  {
    hide Funds, Owed, Kw, Sym, Ident, Boxed, Bytes, BufferOf, ExprTokens, ExprOwned, BinaryTokens;
    Additive(class_);
    Singletons(class_);
    OperatorFunds(class_, op);
    ExprPays(class_, left);
    ExprPays(class_, right);
  }

  lemma {:induction false} IndexPays(class_: Class, base: Expr, index: Expr)
    ensures Owed(class_, Boxed(2) + ExprOwned(base) + ExprOwned(index)) + One(class_, Expressions)
            <= Funds(class_, ExprTokens(base) + Sym(OpenBracket) + ExprTokens(index) + Sym(CloseBracket))
    decreases Index(base, index), 0
  {
    hide Funds, Owed, Kw, Sym, Ident, Boxed, Bytes, BufferOf, ExprTokens, ExprOwned;
    Additive(class_);
    Singletons(class_);
    ExprPays(class_, base);
    ExprPays(class_, index);
  }

  lemma {:induction false} FieldAccessPays(class_: Class, base: Expr, name: Name)
    ensures Owed(class_, Boxed(1) + ExprOwned(base) + NameOf(name)) + One(class_, Expressions)
            <= Funds(class_, ExprTokens(base) + Sym(Dot) + Ident(name.Capacity()))
    decreases base, 2
  {
    hide Funds, Owed, Kw, Sym, Ident, Boxed, Bytes, BufferOf, ExprTokens, ExprOwned;
    Additive(class_);
    Singletons(class_);
    ExprPays(class_, base);
  }

  lemma {:induction false} FunctionExprPays(class_: Class, body: FunctionBody)
    ensures Owed(class_, FunctionOwned(body)) + One(class_, Expressions)
            <= Funds(class_, Kw(KwFunction) + FunctionTokens(body))
    decreases body, 1
  {
    hide Funds, Owed, Kw, Sym, Ident, Boxed, Bytes, BufferOf, FunctionTokens, FunctionOwned;
    Additive(class_);
    Singletons(class_);
    FunctionPays(class_, body);
  }

  /** The `{` pays for the table and for its last field. */
  lemma {:induction false} TablePays(class_: Class, fields: Vec<TableField>)
    ensures Owed(class_, FieldsOwned(fields)) + One(class_, Expressions) + One(class_, BoxedOperands) + One(class_,
        Statements)
            <= Funds(class_, Sym(OpenBrace) + FieldListTokens(fields.items) + Sym(CloseBrace))
    decreases fields, 1
  {
    hide Funds, Owed, Kw, Sym, Ident, Boxed, Bytes, BufferOf, FieldListOwned, FieldListTokens;
    Additive(class_);
    Singletons(class_);
    BufferCost(class_, FieldFamily, fields);
    FieldListPays(class_, fields.items);
  }

  lemma {:induction false} CallPays(class_: Class, call: Call)
    ensures Owed(class_, CallOwned(call)) + One(class_, Expressions) + One(class_, Statements)
            <= Funds(class_, CallTokens(call))
    decreases call
  {
    hide Funds, Owed, Kw, Sym, Ident, Boxed, Bytes, BufferOf, ExprTokens, ExprOwned, ArgumentsTokens, ExpressionsOwned;
    Additive(class_);
    Singletons(class_);
    ArgumentsPay(class_, call.arguments, call.bare);
    match call {
      case Call(callee, arguments, bare) => ExprPays(class_, callee);
      case MethodCall(receiver, name, arguments, bare) => ExprPays(class_, receiver);
    }
  }

  /** The `(`, string or `{` that starts the arguments pays for the box of the callee and for a call statement. */
  lemma {:induction false} ArgumentsPay(class_: Class, arguments: Vec<Expr>, bare: bool)
    ensures Owed(class_, ExpressionsOwned(arguments)) + One(class_, BoxedOperands) + One(class_, Statements)
            <= Funds(class_, ArgumentsTokens(arguments.items, bare))
    decreases arguments, 1
  {
    var es := arguments.items;
    if bare && BareArgument(es) {
      hide Funds, Owed, Kw, Sym, Ident, Boxed, Bytes, BufferOf, ExprListTokens, ExprListOwned, ExprOwned, ExprTokens;
      Additive(class_);
      BufferCost(class_, ExprFamily, arguments);
      BareArgumentPays(class_, es[0]);
      SingleArgument(class_, es);
    } else {
      hide Funds, Owed, Kw, Sym, Ident, Boxed, Bytes, BufferOf, ExprListTokens, ExprListOwned;
      Additive(class_);
      Singletons(class_);
      BufferCost(class_, ExprFamily, arguments);
      ExprListPays(class_, es);
    }
  }

  lemma SingleArgument(class_: Class, es: seq<Expr>)
    requires |es| == 1
    ensures Owed(class_, ExprListOwned(es)) == Owed(class_, ExprOwned(es[0]))
    ensures ExprListTokens(es) == ExprTokens(es[0])
  {
    hide Owed, ExprOwned, ExprTokens;
    assert es[1..] == [];
    assert ExprListOwned(es) == ExprOwned(es[0]) + [] == ExprOwned(es[0]);
  }

  lemma {:induction false} BareArgumentPays(class_: Class, e: Expr)
    requires BareArgument([e])
    ensures Owed(class_, ExprOwned(e)) + One(class_, Expressions) + One(class_, BoxedOperands) + One(class_, Statements)
            <= Funds(class_, ExprTokens(e))
    decreases e, 0
  {
    hide Funds, Owed, FieldListTokens, FieldsOwned, LiteralTokens, Bytes, Sym;
    if e.Table? {
      TablePays(class_, e.fields);
    } else {
      StringArgumentPays(class_, e.literal);
    }
  }

  lemma StringArgumentPays(class_: Class, literal: Literal)
    requires literal.String?
    ensures Owed(class_, Bytes(LiteralCapacity(literal))) + One(class_, Expressions) + One(class_, BoxedOperands)
            + One(class_, Statements) <= Funds(class_, LiteralTokens(literal))
  {
    assert LiteralTokens(literal)[1..] == [];
    Singletons(class_);
  }

  lemma {:induction false} ExprListPays(class_: Class, es: seq<Expr>)
    ensures Owed(class_, ExprListOwned(es)) + Times(class_, Expressions, |es|) <= Funds(class_, ExprListTokens(es))
    decreases es, 0
  {
    hide Funds, Owed, Kw, Sym, Ident, Boxed, Bytes, BufferOf, ExprTokens, ExprOwned;
    Additive(class_);
    Singletons(class_);
    if es != [] {
      ExprPays(class_, es[0]);
      ExprListPays(class_, es[1..]);
    }
  }

  /** Every field but the last is paid for by a separator. */
  lemma {:induction false} FieldListPays(class_: Class, fields: seq<TableField>)
    ensures Owed(class_, FieldListOwned(fields)) + Times(class_, Fields, |fields|)
            <= Funds(class_, FieldListTokens(fields)) + One(class_, Fields)
    decreases fields, 0
  {
    hide Funds, Owed, FieldTokens, FieldOwned, SeparatorTokens;
    Additive(class_);
    if fields != [] {
      FieldPays(class_, fields[0]);
      SeparatorPays(class_, fields[0].separator, |fields| == 1);
      FieldListPays(class_, fields[1..]);
    } else {
      Singletons(class_);
    }
  }

  /** A field pays with its separator; only the last field of a table may go without. */
  lemma SeparatorPays(class_: Class, separator: Option<FieldSeparator>, last: bool)
    ensures One(class_, Fields) <= Funds(class_, SeparatorTokens(separator, last)) + if last
        then One(class_, Fields) else 0
  {
    hide Funds, Owed, Kw, Sym, Ident, Boxed, Bytes, BufferOf;
    Singletons(class_);
  }

  lemma {:induction false} FieldPays(class_: Class, field: TableField)
    ensures Owed(class_, FieldOwned(field)) <= Funds(class_, FieldTokens(field))
    decreases field
  {
    hide Funds, Owed, Kw, Sym, Ident, Boxed, Bytes, BufferOf, ExprTokens, ExprOwned;
    Additive(class_);
    Singletons(class_);
    match field {
      case Array(value, _) => ExprPays(class_, value);
      case Named(name, value, _) => ExprPays(class_, value);
      case Indexed(key, value, _) =>
        ExprPays(class_, key);
        ExprPays(class_, value);
    }
  }

  /** A name token is worth twice its payload, which covers the clone of a prefix attribute as well. */
  lemma LocalPays(class_: Class, local: LocalName)
    ensures Owed(class_, LocalOwned(local)) + One(class_, Locals) <= Funds(class_, LocalTokens(local))
  {
    hide Funds, Owed, Kw, Sym, Ident, Boxed, Bytes, BufferOf;
    Additive(class_);
    Singletons(class_);
  }

  lemma {:induction false} LocalListPays(class_: Class, locals: seq<LocalName>)
    ensures Owed(class_, LocalListOwned(locals)) + Times(class_, Locals, |locals|)
            <= Funds(class_, LocalListTokens(locals))
  {
    hide Funds, Owed, Kw, Sym, Ident, Boxed, Bytes, BufferOf, LocalTokens, LocalOwned;
    Additive(class_);
    Singletons(class_);
    if |locals| == 1 {
      LocalPays(class_, locals[0]);
      assert locals[1..] == [];
    } else if 1 < |locals| {
      LocalPays(class_, locals[0]);
      LocalListPays(class_, locals[1..]);
    }
  }

  lemma LocalsPay(class_: Class, locals: Vec<LocalName>)
    ensures Owed(class_, LocalsOwned(locals)) <= Funds(class_, LocalListTokens(locals.items))
  {
    hide Funds, Owed, Kw, Sym, Ident, Boxed, Bytes, BufferOf, LocalListTokens, LocalListOwned;
    Additive(class_);
    BufferCost(class_, LocalFamily, locals);
    LocalListPays(class_, locals.items);
  }

  lemma PrefixPays(class_: Class, attribute: Option<Name>)
    ensures Owed(class_, OptionalName(attribute)) <= Funds(class_, PrefixTokens(attribute))
  {
    hide Funds, Owed, Kw, Sym, Ident, Boxed, Bytes, BufferOf;
    Additive(class_);
    Singletons(class_);
  }

  lemma VarargPays(class_: Class, vararg: VarargParameter)
    ensures Owed(class_, VarargOwned(vararg)) <= Funds(class_, VarargTokens(vararg))
  {
    hide Funds, Owed, Kw, Sym, Ident, Boxed, Bytes, BufferOf, LocalTokens, LocalOwned;
    Additive(class_);
    Singletons(class_);
    match vararg {
      case NamedVararg(table) => LocalPays(class_, table);
      case _ =>
    }
  }

  lemma {:induction false} FunctionPays(class_: Class, body: FunctionBody)
    ensures Owed(class_, FunctionOwned(body)) <= Funds(class_, FunctionTokens(body)) + One(class_, Blocks)
    decreases body, 0
  {
    hide Funds, Owed, Kw, Sym, Ident, Boxed, Bytes, BufferOf, LocalListTokens, LocalsOwned, VarargTokens,
        VarargOwned, BlockTokens, BlockOwned;
    Additive(class_);
    Singletons(class_);
    LocalsPay(class_, body.parameters);
    VarargPays(class_, body.vararg);
    BlockPays(class_, body.body);
  }

  /** A block needs one more container than its own tokens bring, and the keyword before it brings that. */
  lemma {:induction false} BlockPays(class_: Class, block: Block)
    ensures Owed(class_, BlockOwned(block)) <= Funds(class_, BlockTokens(block)) + One(class_, Blocks)
    decreases block, 0
  {
    hide Funds, Owed, Kw, Sym, Ident, Boxed, Bytes, BufferOf, StmtListTokens, StmtListOwned;
    Additive(class_);
    BufferCost(class_, StmtFamily, block.statements);
    StmtListPays(class_, block.statements.items);
  }

  lemma {:induction false} StmtListPays(class_: Class, statements: seq<Stmt>)
    ensures Owed(class_, StmtListOwned(statements)) + Times(class_, Statements, |statements|)
            <= Funds(class_, StmtListTokens(statements))
    decreases statements, 0
  {
    hide Funds, Owed, Kw, Sym, Ident, Boxed, Bytes, BufferOf, StmtTokens, StmtOwned;
    Additive(class_);
    if statements != [] {
      StmtPays(class_, statements[0]);
      StmtListPays(class_, statements[1..]);
    }
  }

  lemma {:induction false} ExpressionsPay(class_: Class, values: Vec<Expr>)
    ensures Owed(class_, ExpressionsOwned(values)) <= Funds(class_, ExprListTokens(values.items))
    decreases values, 1
  {
    hide Funds, Owed, Kw, Sym, Ident, Boxed, Bytes, BufferOf, ExprListTokens, ExprListOwned;
    Additive(class_);
    BufferCost(class_, ExprFamily, values);
    ExprListPays(class_, values.items);
  }

  lemma {:induction false} ValuesPay(class_: Class, equals: bool, values: Vec<Expr>)
    ensures Owed(class_, ExpressionsOwned(values)) <= Funds(class_, ValuesTokens(equals, values.items))
    decreases values, 2
  {
    assert values.items == [] ==> ExprListTokens(values.items) == [];
    hide Funds, Owed, Kw, Sym, Ident, Boxed, Bytes, BufferOf, ExprListTokens, ExpressionsOwned;
    Additive(class_);
    Singletons(class_);
    ExpressionsPay(class_, values);
  }

  lemma {:induction false} ClausePays(class_: Class, clause: IfClause)
    ensures Owed(class_, ClauseOwned(clause)) <= Funds(class_, ClauseTokens(clause))
    decreases clause
  {
    hide Funds, Owed, Kw, Sym, Ident, Boxed, Bytes, BufferOf, ExprTokens, ExprOwned, BlockTokens, BlockOwned;
    Additive(class_);
    Singletons(class_);
    ExprPays(class_, clause.condition);
    BlockPays(class_, clause.body);
  }

  lemma {:induction false} ClauseListPays(class_: Class, introducer: Keyword, clauses: seq<IfClause>)
    requires introducer == KwIf || introducer == KwElseIf
    ensures Owed(class_, ClauseListOwned(clauses)) + Times(class_, Clauses, |clauses|)
            + (if introducer == KwIf && clauses != [] then One(class_, Conditionals) + One(class_, Statements) else 0)
            <= Funds(class_, ClauseListTokens(introducer, clauses))
    decreases clauses, 0
  {
    hide Funds, Owed, Kw, Sym, Ident, Boxed, Bytes, BufferOf, ClauseTokens, ClauseOwned;
    Additive(class_);
    Singletons(class_);
    if clauses != [] {
      ClausePays(class_, clauses[0]);
      ClauseListPays(class_, KwElseIf, clauses[1..]);
    }
  }

  lemma {:induction false} ClausesPay(class_: Class, clauses: Vec<IfClause>)
    ensures Owed(class_, ClausesOwned(clauses)) + One(class_, Statements)
            <= Funds(class_, if clauses.items == [] then Kw(KwIf) else ClauseListTokens(KwIf, clauses.items))
    decreases clauses, 1
  {
    hide Funds, Owed, Kw, BufferOf, ClauseListTokens, ClauseListOwned, Cost;
    Additive(class_);
    BufferCost(class_, ClauseFamily, clauses);
    ClauseBufferCost(class_, |clauses.items|, clauses.Capacity());
    if clauses.items != [] {
      ClauseListPays(class_, KwIf, clauses.items);
    } else {
      NoClausesPay(class_);
    }
  }

  /** A vector of clauses owes its elements, and a container if it has any. */
  lemma ClauseBufferCost(class_: Class, length: nat, capacity: nat)
    ensures Cost(class_, Buffer(ClauseFamily, length, capacity))
            == Times(class_, Clauses, length) + if length == 0 then 0 else One(class_, Conditionals)
  {
  }

  lemma NoClausesPay(class_: Class)
    ensures Owed(class_, ClauseListOwned([])) + One(class_, Statements) <= Funds(class_, Kw(KwIf))
  {
    assert ClauseListOwned([]) == [];
    hide Funds, Owed, Kw, Sym, Ident, Boxed, Bytes, BufferOf, ClauseListOwned;
    Singletons(class_);
  }

  lemma {:induction false} FunctionNamePays(class_: Class, target: Expr, methodName: Option<Name>)
    ensures Owed(class_, ExprOwned(target) + OptionalName(methodName))
            <= Funds(class_, FunctionNameTokens(target, methodName))
    decreases target, 2
  {
    if methodName.Some? && target.Field? {
      hide Funds, Owed, Kw, Sym, Ident, Boxed, Bytes, BufferOf, ExprTokens, Max;
      MethodTargetPays(class_, target.base, target.field, methodName.value);
    } else {
      hide Funds, Owed, Kw, Sym, Ident, Boxed, Bytes, BufferOf, ExprTokens, ExprOwned;
      Additive(class_);
      Singletons(class_);
      ExprPays(class_, target);
    }
  }

  /** One name token pays for both copies of a method name. */
  lemma {:induction false} MethodTargetPays(class_: Class, base: Expr, field: Name, methodName: Name)
    ensures Owed(class_, Boxed(1) + ExprOwned(base) + NameOf(field) + NameOf(methodName))
            <= Funds(class_, ExprTokens(base) + Sym(Colon) + Ident(Max(field.Capacity(), methodName.Capacity())))
    decreases base, 2
  {
    hide Funds, Owed, Kw, Sym, Ident, Boxed, Bytes, BufferOf, ExprTokens, ExprOwned;
    Additive(class_);
    Singletons(class_);
    ExprPays(class_, base);
  }

  lemma {:induction false} GlobalPays(class_: Class, declaration: GlobalDeclaration)
    ensures Owed(class_, GlobalOwned(declaration)) <= Funds(class_, GlobalTokens(declaration))
    decreases declaration
  {
    hide Funds, Owed, Kw, Sym, Ident, Boxed, Bytes, BufferOf, LocalsOwned, LocalListTokens, PrefixTokens,
        OptionalName, ExpressionsOwned, ValuesTokens,
      FunctionTokens, FunctionOwned;
    Additive(class_);
    Singletons(class_);
    match declaration {
      case GlobalNames(names, equals, values, prefixAttribute) =>
        LocalsPay(class_, names);
        ValuesPay(class_, equals, values);
        PrefixPays(class_, prefixAttribute);
      case GlobalStar(prefixAttribute) => PrefixPays(class_, prefixAttribute);
      case GlobalFunction(name, body) => FunctionPays(class_, body);
    }
  }

  lemma {:induction false} StmtPays(class_: Class, s: Stmt)
    ensures Owed(class_, StmtOwned(s)) + One(class_, Statements) <= Funds(class_, StmtTokens(s))
    decreases s, 1
  {
    match s {
      case Return(_, _) => ReturnPays(class_, s);
      case Assignment(_, _) => AssignmentPays(class_, s);
      case CallStmt(call) => CallPays(class_, call);
      case Local(_, _, _, _) => LocalStmtPays(class_, s);
      case Global(_) => GlobalStmtPays(class_, s);
      case Do(_) => BlockStmtPays(class_, s);
      case If(_, _) => IfPays(class_, s);
      case While(_, _) => BlockStmtPays(class_, s);
      case Repeat(_, _) => BlockStmtPays(class_, s);
      case NumericFor(_, _, _, _, _) => NumericForPays(class_, s);
      case GenericFor(_, _, _) => GenericForPays(class_, s);
      case FunctionStmt(_, _, _) => FunctionStmtPays(class_, s);
      case LocalFunction(_, _) => LocalFunctionPays(class_, s);
      case _ => SimpleStmtPays(class_, s);
    }
  }

  lemma SimpleStmtPays(class_: Class, s: Stmt)
    requires s.Empty? || s.Break? || s.Goto? || s.Label?
    ensures Owed(class_, StmtOwned(s)) + One(class_, Statements) <= Funds(class_, StmtTokens(s))
  {
    hide Funds, Owed, Kw, Sym, Ident, Boxed, Bytes, BufferOf;
    Additive(class_);
    Singletons(class_);
  }

  lemma {:induction false} ReturnPays(class_: Class, s: Stmt)
    requires s.Return?
    ensures Owed(class_, StmtOwned(s)) + One(class_, Statements) <= Funds(class_, StmtTokens(s))
    decreases s, 0
  {
    hide Funds, Owed, Kw, Sym, Ident, Boxed, Bytes, BufferOf, ExprListTokens, ExpressionsOwned;
    Additive(class_);
    Singletons(class_);
    ExpressionsPay(class_, s.values);
  }

  lemma {:induction false} GlobalStmtPays(class_: Class, s: Stmt)
    requires s.Global?
    ensures Owed(class_, StmtOwned(s)) + One(class_, Statements) <= Funds(class_, StmtTokens(s))
    decreases s, 0
  {
    hide Funds, Owed, Kw, Sym, Ident, Boxed, Bytes, BufferOf, GlobalTokens, GlobalOwned;
    Additive(class_);
    Singletons(class_);
    GlobalPays(class_, s.declaration);
  }

  lemma {:induction false} AssignmentPays(class_: Class, s: Stmt)
    requires s.Assignment?
    ensures Owed(class_, StmtOwned(s)) + One(class_, Statements) <= Funds(class_, StmtTokens(s))
    decreases s, 0
  {
    hide Funds, Owed, Kw, Sym, Ident, Boxed, Bytes, BufferOf, ExprListTokens, ExpressionsOwned;
    Additive(class_);
    Singletons(class_);
    ExpressionsPay(class_, s.targets);
    ExpressionsPay(class_, s.values);
  }

  lemma {:induction false} LocalStmtPays(class_: Class, s: Stmt)
    requires s.Local?
    ensures Owed(class_, StmtOwned(s)) + One(class_, Statements) <= Funds(class_, StmtTokens(s))
    decreases s, 0
  {
    hide Funds, Owed, Kw, Sym, Ident, Boxed, Bytes, BufferOf, ExpressionsOwned, LocalListTokens, LocalsOwned,
        ValuesTokens, PrefixTokens;
    Additive(class_);
    Singletons(class_);
    LocalsPay(class_, s.names);
    ValuesPay(class_, s.equals, s.values);
  }

  lemma {:induction false} IfPays(class_: Class, s: Stmt)
    requires s.If?
    ensures Owed(class_, StmtOwned(s)) + One(class_, Statements) <= Funds(class_, StmtTokens(s))
    decreases s, 0
  {
    hide Funds, Owed, Kw, Sym, Ident, Boxed, Bytes, BufferOf, BlockTokens, BlockOwned, ClauseListTokens, ClausesOwned;
    Additive(class_);
    Singletons(class_);
    ClausesPay(class_, s.clauses);
    match s.elseBlock {
      case Some(body) => BlockPays(class_, body);
      case None =>
    }
  }

  /** `do ... end` pays for its block and is worth a statement. */
  lemma {:induction false} DoBlockPays(class_: Class, block: Block)
    ensures Owed(class_, BlockOwned(block)) + One(class_, Statements) <= Funds(class_, DoBlockTokens(block))
    decreases block, 1
  {
    hide Funds, Owed, Kw, Sym, Ident, Boxed, Bytes, BufferOf, BlockTokens, BlockOwned;
    Additive(class_);
    Singletons(class_);
    BlockPays(class_, block);
  }

  lemma {:induction false} BlockStmtPays(class_: Class, s: Stmt)
    requires s.Do? || s.While? || s.Repeat?
    ensures Owed(class_, StmtOwned(s)) + One(class_, Statements) <= Funds(class_, StmtTokens(s))
    decreases s, 0
  {
    hide Funds, Owed, Kw, Sym, Ident, Boxed, Bytes, BufferOf, ExprTokens, ExprOwned, BlockTokens, BlockOwned,
        DoBlockTokens;
    Additive(class_);
    Singletons(class_);
    match s {
      case Do(body) => DoBlockPays(class_, body);
      case While(condition, body) =>
        ExprPays(class_, condition);
        DoBlockPays(class_, body);
      case Repeat(body, condition) =>
        ExprPays(class_, condition);
        BlockPays(class_, body);
    }
  }

  lemma {:induction false} StepPays(class_: Class, step: Option<Expr>)
    ensures Owed(class_, StepOwned(step)) <= Funds(class_, StepTokens(step))
    decreases step
  {
    hide Funds, Owed, Kw, Sym, Ident, Boxed, Bytes, BufferOf, ExprTokens, ExprOwned;
    Additive(class_);
    if step.Some? {
      ExprPays(class_, step.value);
    }
  }

  lemma {:induction false} NumericForPays(class_: Class, s: Stmt)
    requires s.NumericFor?
    ensures Owed(class_, StmtOwned(s)) + One(class_, Statements) <= Funds(class_, StmtTokens(s))
    decreases s, 0
  {
    hide Funds, Owed, Kw, Sym, Ident, Boxed, Bytes, BufferOf, ExprTokens, ExprOwned, BlockOwned, LocalTokens,
        LocalOwned, StepTokens, StepOwned, DoBlockTokens;
    Additive(class_);
    Singletons(class_);
    LocalPays(class_, s.name);
    ExprPays(class_, s.initial);
    ExprPays(class_, s.limit);
    StepPays(class_, s.step);
    DoBlockPays(class_, s.body);
  }

  lemma {:induction false} GenericForPays(class_: Class, s: Stmt)
    requires s.GenericFor?
    ensures Owed(class_, StmtOwned(s)) + One(class_, Statements) <= Funds(class_, StmtTokens(s))
    decreases s, 0
  {
    hide Funds, Owed, Kw, Sym, Ident, Boxed, Bytes, BufferOf, ExprListTokens, ExpressionsOwned, BlockOwned,
        LocalListTokens, LocalsOwned, DoBlockTokens;
    Additive(class_);
    Singletons(class_);
    LocalsPay(class_, s.names);
    ExpressionsPay(class_, s.values);
    DoBlockPays(class_, s.body);
  }

  lemma {:induction false} FunctionStmtPays(class_: Class, s: Stmt)
    requires s.FunctionStmt?
    ensures Owed(class_, StmtOwned(s)) + One(class_, Statements) <= Funds(class_, StmtTokens(s))
    decreases s, 0
  {
    hide Funds, Owed, Kw, Sym, Ident, Boxed, Bytes, BufferOf, ExprOwned, OptionalName, FunctionNameTokens,
        FunctionTokens, FunctionOwned;
    Additive(class_);
    Singletons(class_);
    FunctionPays(class_, s.definition);
    FunctionNamePays(class_, s.target, s.methodName);
  }

  lemma {:induction false} LocalFunctionPays(class_: Class, s: Stmt)
    requires s.LocalFunction?
    ensures Owed(class_, StmtOwned(s)) + One(class_, Statements) <= Funds(class_, StmtTokens(s))
    decreases s, 0
  {
    hide Funds, Owed, Kw, Sym, Ident, Boxed, Bytes, BufferOf, FunctionTokens, FunctionOwned, LocalTokens, LocalOwned;
    Additive(class_);
    Singletons(class_);
    FunctionPays(class_, s.definition);
    LocalPays(class_, s.name);
  }

  // From the counted tokens to bytes.

  /** The root block has no keyword of its own. */
  function RootBlock(): Bounds {
    Nothing().(blockContainers := 1)
  }

  ghost predicate Within(a: Bounds, b: Bounds) {
    && a.literalBytes <= b.literalBytes
    && a.statementElements <= b.statementElements
    && a.blockContainers <= b.blockContainers
    && a.expressionElements <= b.expressionElements
    && a.localNames <= b.localNames
    && a.tableOpens <= b.tableOpens
    && a.separators <= b.separators
    && a.ifClauses <= b.ifClauses
    && a.ifContainers <= b.ifContainers
    && a.boxTriggers <= b.boxTriggers
  }

  lemma {:induction false} PrefixWithin(chunk: Tokens, n: nat)
    requires n <= |chunk|
    ensures Within(OfTokens(chunk[..n]), OfTokens(chunk))
  {
    hide OfToken;
    if n == |chunk| {
      assert chunk[..n] == chunk;
    } else {
      assert chunk[..|chunk| - 1][..n] == chunk[..n];
      PrefixWithin(chunk[..|chunk| - 1], n);
    }
  }

  lemma SumAssociates(a: Bounds, b: Bounds, c: Bounds)
    ensures Sum(Sum(a, b), c) == Sum(a, Sum(b, c))
  {
  }

  lemma FitIsDownward(a: Bounds, b: Bounds)
    requires Within(a, b) && Fit(Sum(RootBlock(), b))
    ensures Fit(Sum(RootBlock(), a))
  {
  }

  lemma CountNothing()
    ensures Sum(RootBlock(), OfTokens([])) == RootBlock() && Fit(RootBlock())
  {
    hide OfToken;
  }

  lemma CountOneMore(chunk: Tokens, i: nat)
    requires i < |chunk|
    ensures Sum(RootBlock(), OfTokens(chunk[..i + 1])) == Sum(Sum(RootBlock(), OfTokens(chunk[..i])), OfToken(chunk[i]))
  {
    hide OfToken, Sum;
    assert chunk[..i + 1][..i] == chunk[..i];
    SumAssociates(RootBlock(), OfTokens(chunk[..i]), OfToken(chunk[i]));
  }

  lemma OverflowStays(chunk: Tokens, n: nat)
    requires n <= |chunk| && !Fit(Sum(RootBlock(), OfTokens(chunk[..n])))
    ensures !Fit(Sum(RootBlock(), OfTokens(chunk)))
  {
    hide OfTokens, Sum, Fit, Within;
    PrefixWithin(chunk, n);
    if Fit(Sum(RootBlock(), OfTokens(chunk))) {
      FitIsDownward(OfTokens(chunk[..n]), OfTokens(chunk));
    }
  }

  /** `parse_token_bounds`: one pass; it fails exactly when one of the ten totals leaves `usize`. */
  method ParseTokenBounds(chunk: Tokens) returns (r: Sized<Bounds>)
    ensures var total := Sum(RootBlock(), OfTokens(chunk));
            r == if Fit(total) then Fits(total) else TooLarge
  {
    hide OfToken, OfTokens, Sum, Fit;
    CountNothing();
    assert chunk[..0] == [];
    var bounds := RootBlock();
    for i := 0 to |chunk|
      invariant bounds == Sum(RootBlock(), OfTokens(chunk[..i]))
      invariant Fit(bounds)
    {
      CountOneMore(chunk, i);
      bounds := Sum(bounds, OfToken(chunk[i]));
      if !Fit(bounds) {
        OverflowStays(chunk, i + 1);
        return TooLarge;
      }
    }
    assert chunk[..|chunk|] == chunk;
    return Fits(bounds);
  }

  /** No element type is empty. */
  predicate Positive(layout: Layout) {
    0 < layout.stmt && 0 < layout.expr && 0 < layout.local && 0 < layout.field && 0 < layout.clause
  }

  lemma WidthGrows(elements: nat, containers: nat, width: nat)
    requires 0 < width
    ensures var slots := 2 * elements + 2 * containers;
            slots <= slots * width && elements * width <= slots * width
  {
    var slots := 2 * elements + 2 * containers;
    MulMonotone(elements, slots, width);
    AtLeastItself(slots, width);
  }

  lemma AtLeastItself(a: nat, width: nat)
    requires 0 < width
    ensures a <= a * width
  {
    MulMonotone(1, width, a);
    assert width * a == a * width;
  }

  /** The retained capacity of a vector family, and the largest old buffer one growth can leave alive. */
  function ParseVecBytes(elements: nat, containers: nat, width: nat): (r: Sized<(nat, nat)>)
    requires 0 < width
    ensures var retained := (2 * elements + 2 * containers) * width;
            r == if retained <= USIZE_MAX then Fits((retained, elements * width)) else TooLarge
  {
    WidthGrows(elements, containers, width);
    var elementSlots :- Mul(elements, 2);
    var containerSlots :- Mul(containers, 2);
    var slots :- Add(elementSlots, containerSlots);
    var retained :- Mul(slots, width);
    var old_ :- Mul(elements, width);
    Fits((retained, old_))
  }

  function TableElements(b: Bounds): nat {
    if b.tableOpens == 0 then 0 else b.tableOpens + b.separators
  }

  /** Elements, containers and width of the five vector families. */
  function Families(b: Bounds, layout: Layout): seq<(nat, nat, nat)> {
    [ (b.statementElements, b.blockContainers, layout.stmt),
      (b.expressionElements, b.expressionElements, layout.expr),
      (b.localNames, b.localNames, layout.local),
      (TableElements(b), b.tableOpens, layout.field),
      (b.ifClauses, b.ifContainers, layout.clause) ]
  }

  function Storage(families: seq<(nat, nat, nat)>): nat {
    if |families| == 0 then 0
    else
      var last := families[|families| - 1];
      Storage(families[..|families| - 1]) + (2 * last.0 + 2 * last.1) * last.2
  }

  function Scratch(families: seq<(nat, nat, nat)>): nat {
    if |families| == 0 then 0
    else
      var last := families[|families| - 1];
      Max(Scratch(families[..|families| - 1]), last.0 * last.2)
  }

  datatype Admission = Admission(work: nat, temporary: nat)

  /** Work units per token and per payload byte count the parser's own steps and stay symbolic. */
  datatype WorkRates = WorkRates(perToken: nat, perPayloadByte: nat)

  const FIXED_TEMPORARY: nat := 256

  /** All vector families, the largest old buffer, boxes, payloads and a fixed part. */
  function TemporaryOf(layout: Layout, b: Bounds): nat {
    var families := Families(b, layout);
    Storage(families) + Scratch(families) + 2 * b.boxTriggers * layout.expr + 4 * b.literalBytes + FIXED_TEMPORARY
  }

  function Temporary(layout: Layout, chunk: Tokens): nat {
    TemporaryOf(layout, Sum(RootBlock(), OfTokens(chunk)))
  }

  /** Tokens, the construction of vectors and boxes, and the payload bytes. */
  function WorkOf(layout: Layout, b: Bounds, tokens: nat, rates: WorkRates): nat {
    tokens * rates.perToken + (2 * Storage(Families(b, layout)) + 2 * (2 * b.boxTriggers * layout.expr))
    + b.literalBytes * rates.perPayloadByte
  }

  lemma {:induction false} StorageOfPrefix(families: seq<(nat, nat, nat)>, i: nat)
    requires i <= |families| && forall k :: 0 <= k < |families| ==> 0 < families[k].2
    ensures Storage(families[..i]) <= Storage(families)
    ensures Scratch(families[..i]) <= Storage(families[..i])
    decreases |families|
  {
    if i < |families| {
      var n := |families| - 1;
      StorageOfPrefix(families[..n], i);
      assert families[..n][..i] == families[..i];
      assert 0 <= (2 * families[n].0 + 2 * families[n].1) * families[n].2;
    } else if 0 < i {
      var n := i - 1;
      assert families[..i] == families && families[..n][..n] == families[..n];
      StorageOfPrefix(families[..n], n);
      WidthGrows(families[n].0, families[n].1, families[n].2);
    }
  }

  /** The loop over the families: all storage, and the largest old buffer. */
  method AddFamilies(families: seq<(nat, nat, nat)>) returns (r: Sized<(nat, nat)>)
    requires forall k :: 0 <= k < |families| ==> 0 < families[k].2
    ensures r == if Storage(families) <= USIZE_MAX then Fits((Storage(families), Scratch(families))) else TooLarge
    ensures Scratch(families) <= Storage(families)
  {
    hide Storage, Scratch;
    FamilyStep(families, 0);
    assert families[..|families|] == families;
    StorageOfPrefix(families, |families|);
    var storage, scratch: nat := 0, 0;
    for i := 0 to |families|
      invariant storage == Storage(families[..i]) <= USIZE_MAX
      invariant scratch == Scratch(families[..i])
    {
      FamilyStep(families, i);
      StorageOfPrefix(families, i + 1);
      var pair :- ParseVecBytes(families[i].0, families[i].1, families[i].2);
      storage :- Add(storage, pair.0);
      scratch := Max(scratch, pair.1);
    }
    return Fits((storage, scratch));
  }

  lemma FamilyStep(families: seq<(nat, nat, nat)>, i: nat)
    requires i <= |families|
    ensures Storage(families[..0]) == 0 && Scratch(families[..0]) == 0
    ensures i < |families| ==>
              var f := families[i];
              && Storage(families[..i + 1]) == Storage(families[..i]) + (2 * f.0 + 2 * f.1) * f.2
              && Scratch(families[..i + 1]) == Max(Scratch(families[..i]), f.0 * f.2)
              && 0 <= (2 * f.0 + 2 * f.1) * f.2
  {
    if i < |families| {
      assert families[..i + 1][..i] == families[..i];
    }
  }

  /**
   * `parse_admission`: what is charged before the parser runs. It fails exactly when a token
   * count, the bound on nodes, the temporary memory or the work leaves `usize`; no intermediate
   * result is larger than these.
   */
  method ParseAdmission(chunk: Tokens, layout: Layout, rates: WorkRates) returns (r: Sized<Admission>)
    requires Positive(layout)
    ensures var b := Sum(RootBlock(), OfTokens(chunk));
            var work := WorkOf(layout, b, |chunk|, rates);
            r == if 4 * |chunk| + 4 <= USIZE_MAX && Fit(b) && Temporary(layout, chunk) <= USIZE_MAX && work <= USIZE_MAX
                 then Fits(Admission(work, Temporary(layout, chunk))) else TooLarge
  {
    hide OfToken, OfTokens, Storage, Scratch, Sum, Fit;
    var nodes :- Mul(|chunk|, 4);
    nodes :- Add(nodes, 4);
    var bounds :- ParseTokenBounds(chunk);
    var families := Families(bounds, layout);
    BoxSteps(bounds.boxTriggers, layout.expr);
    var pair :- AddFamilies(families);
    r := Totals(pair.0, pair.1, bounds, layout, |chunk|, rates);
  }

  lemma BoxSteps(triggers: nat, width: nat)
    requires 0 < width
    ensures 2 * triggers <= 2 * triggers * width
  {
    AtLeastItself(2 * triggers, width);
  }

  /** The two sums, step by step. */
  method Totals(storage: nat, scratch: nat, b: Bounds, layout: Layout, tokens: nat, rates: WorkRates)
    returns (r: Sized<Admission>)
    requires 2 * b.boxTriggers <= 2 * b.boxTriggers * layout.expr
    ensures var boxes, payload := 2 * b.boxTriggers * layout.expr, 4 * b.literalBytes;
            var temporary := storage + scratch + boxes + payload + FIXED_TEMPORARY;
            var work := tokens * rates.perToken + (2 * storage + 2 * boxes) + b.literalBytes * rates.perPayloadByte;
            r == if temporary <= USIZE_MAX && work <= USIZE_MAX then Fits(Admission(work, temporary)) else TooLarge
  {
    ghost var tokenUnits, byteUnits: nat := tokens * rates.perToken, b.literalBytes * rates.perPayloadByte;
    var triggers :- Mul(b.boxTriggers, 2);
    var boxes :- Mul(triggers, layout.expr);
    var payload :- Mul(b.literalBytes, 4);
    var vectors :- Add(storage, scratch);
    var others :- Add(boxes, payload);
    var variable :- Add(vectors, others);
    var temporary :- Add(variable, FIXED_TEMPORARY);
    var tokenWork :- Mul(tokens, rates.perToken);
    var moveWork :- Mul(storage, 2);
    var boxWork :- Mul(boxes, 2);
    var heapWork :- Add(moveWork, boxWork);
    var structureWork :- Add(tokenWork, heapWork);
    var byteWork :- Mul(b.literalBytes, rates.perPayloadByte);
    var work :- Add(structureWork, byteWork);
    return Fits(Admission(work, temporary));
  }

  lemma AvailableAdds(class_: Class, a: Bounds, b: Bounds)
    ensures Available(class_, Sum(a, b)) == Available(class_, a) + Available(class_, b)
  {
  }

  lemma {:induction false} FundsAreAvailable(class_: Class, tokens: Tokens)
    ensures Funds(class_, tokens) == Available(class_, OfTokens(tokens))
  {
    hide OfToken, Sum;
    if tokens == [] {
      assert Available(class_, Nothing()) == 0;
    } else {
      var n := |tokens| - 1;
      FundsAreAvailable(class_, tokens[..n]);
      AvailableAdds(class_, OfTokens(tokens[..n]), OfToken(tokens[n]));
      assert tokens == tokens[..n] + [tokens[n]];
      FundsOfConcat(class_, tokens[..n], [tokens[n]]);
      assert [tokens[n]][1..] == [];
    }
  }

  /** Larger literals only add funds. */
  lemma {:induction false} CoveringChunkPays(class_: Class, needed: Tokens, chunk: Tokens)
    requires |needed| == |chunk|
    requires forall i :: 0 <= i < |chunk| ==> chunk[i].kind == needed[i].kind && needed[i].payload <= chunk[i].payload
    ensures Funds(class_, needed) <= Funds(class_, chunk)
  {
    hide OfKeyword, OfSymbol;
    if chunk != [] {
      CoveringChunkPays(class_, needed[1..], chunk[1..]);
      assert chunk[0].kind == needed[0].kind;
    }
  }

  /** Every block of the tree is paid for in its class by the tokens of the chunk and the root block. */
  lemma TreeIsPaid(class_: Class, chunk: Tokens, root: Block)
    requires ParsesTo(chunk, root)
    ensures Owed(class_, BlockOwned(root)) <= Available(class_, Sum(RootBlock(), OfTokens(chunk)))
  {
    hide Funds, Owed, OfTokens, OfToken, BlockTokens, BlockOwned;
    BlockPays(class_, root);
    var needed := ModuleTokens(root);
    FundsOfConcat(class_, BlockTokens(root), [Token(Eof, 0)]);
    CoveringChunkPays(class_, needed, chunk);
    FundsAreAvailable(class_, chunk);
    AvailableAdds(class_, RootBlock(), OfTokens(chunk));
  }

  /** Every vector was filled by pushes, or allocated exactly. */
  ghost predicate Grown(owned: Allocations) {
    forall i :: 0 <= i < |owned| && owned[i].Buffer? ==> owned[i].capacity <= GrownCapacity(owned[i].length)
  }

  function Slots(a: nat, b: nat, width: nat): nat {
    (2 * a + 2 * b) * width
  }

  /** The bytes that the per-class debts of a tree can amount to. */
  function Ceiling(layout: Layout, owned: Allocations): nat {
    Slots(Owed(Statements, owned), Owed(Blocks, owned), layout.stmt)
    + Slots(Owed(Expressions, owned), Owed(Expressions, owned), layout.expr)
    + Slots(Owed(Locals, owned), Owed(Locals, owned), layout.local)
    + Slots(Owed(Fields, owned), Owed(Tables, owned), layout.field)
    + Slots(Owed(Clauses, owned), Owed(Conditionals, owned), layout.clause)
    + Owed(BoxedOperands, owned) * layout.expr
    + Owed(Payloads, owned)
  }

  lemma SlotsAdd(a: nat, b: nat, c: nat, d: nat, width: nat)
    ensures Slots(a + c, b + d, width) == Slots(a, b, width) + Slots(c, d, width)
  {
    assert 2 * (a + c) + 2 * (b + d) == (2 * a + 2 * b) + (2 * c + 2 * d);
  }

  lemma SlotsMonotone(a: nat, b: nat, c: nat, d: nat, width: nat)
    requires a <= c && b <= d
    ensures Slots(a, b, width) <= Slots(c, d, width)
  {
    SlotsAdd(a, b, c - a, d - b, width);
  }

  lemma CeilingAdds(layout: Layout, x: Allocation, rest: Allocations)
    ensures Ceiling(layout, [x] + rest) == Ceiling(layout, [x]) + Ceiling(layout, rest)
  {
    hide Owed, Slots;
    var one := [x];
    OwedOfConcat(Statements, one, rest);
    OwedOfConcat(Blocks, one, rest);
    OwedOfConcat(Expressions, one, rest);
    OwedOfConcat(Locals, one, rest);
    OwedOfConcat(Fields, one, rest);
    OwedOfConcat(Tables, one, rest);
    OwedOfConcat(Clauses, one, rest);
    OwedOfConcat(Conditionals, one, rest);
    OwedOfConcat(BoxedOperands, one, rest);
    OwedOfConcat(Payloads, one, rest);
    SlotsAdd(Owed(Statements, one), Owed(Blocks, one), Owed(Statements, rest), Owed(Blocks, rest), layout.stmt);
    SlotsAdd(Owed(Expressions, one), Owed(Expressions, one), Owed(Expressions, rest), Owed(Expressions, rest),
        layout.expr);
    SlotsAdd(Owed(Locals, one), Owed(Locals, one), Owed(Locals, rest), Owed(Locals, rest), layout.local);
    SlotsAdd(Owed(Fields, one), Owed(Tables, one), Owed(Fields, rest), Owed(Tables, rest), layout.field);
    SlotsAdd(Owed(Clauses, one), Owed(Conditionals, one), Owed(Clauses, rest), Owed(Conditionals, rest), layout.clause);
    assert (Owed(BoxedOperands, one) + Owed(BoxedOperands, rest)) * layout.expr
           == Owed(BoxedOperands, one) * layout.expr + Owed(BoxedOperands, rest) * layout.expr;
  }

  lemma OwedBySingle(x: Allocation)
    ensures forall class_ :: Owed(class_, [x]) == Cost(class_, x)
  {
    assert [x][1..] == [];
  }

  /** `cap <= 2 * len + 2` for one vector; boxes and names are counted exactly. */
  lemma BlockWithinCeiling(layout: Layout, x: Allocation)
    requires x.Buffer? ==> x.capacity <= GrownCapacity(x.length)
    ensures SizeOf(layout, x) <= Ceiling(layout, [x])
  {
    hide Owed, Slots, GrownCapacity;
    OwedBySingle(x);
    if x.Buffer? {
      BufferWithinSlots(x.length, x.capacity, Width(layout, x.family));
    }
  }

  lemma BufferWithinSlots(length: nat, capacity: nat, width: nat)
    requires capacity <= GrownCapacity(length)
    ensures capacity * width <= Slots(length, if length == 0 then 0 else 1, width) <= Slots(length, length, width)
  {
    GrownCapacityBound(length);
    var container := if length == 0 then 0 else 1;
    assert capacity * width <= (2 * length + 2 * container) * width by {
      MulMonotone(capacity, 2 * length + 2 * container, width);
    }
    SlotsMonotone(length, container, length, length, width);
  }

  lemma MulMonotone(a: nat, b: nat, width: nat)
    requires a <= b
    ensures a * width <= b * width
  {
    assert b * width == a * width + (b - a) * width;
  }

  lemma {:induction false} TreeWithinCeiling(layout: Layout, owned: Allocations)
    requires Grown(owned)
    ensures TotalBytes(layout, owned) <= Ceiling(layout, owned)
  {
    if owned != [] {
      var x, rest := owned[0], owned[1..];
      hide Ceiling, SizeOf;
      assert owned == [x] + rest;
      CeilingAdds(layout, x, rest);
      BlockWithinCeiling(layout, x);
      assert forall i :: 0 <= i < |rest| ==> rest[i] == owned[i + 1];
      TreeWithinCeiling(layout, rest);
    }
  }

  /** An element of a list owes no more than the list. */
  lemma {:induction false} OwedByMember(class_: Class, owned: Allocations, i: nat)
    requires i < |owned|
    ensures Cost(class_, owned[i]) <= Owed(class_, owned)
  {
    hide Cost;
    if 0 < i {
      OwedByMember(class_, owned[1..], i - 1);
    }
  }

  /** Without a table there are no fields either. */
  lemma {:induction false} FieldsNeedTables(owned: Allocations)
    ensures Owed(Tables, owned) == 0 ==> Owed(Fields, owned) == 0
  {
    if owned != [] {
      FieldsNeedTables(owned[1..]);
    }
  }

  function ElementClass(family: Family): Class {
    match family
    case StmtFamily => Statements
    case ExprFamily => Expressions
    case LocalFamily => Locals
    case FieldFamily => Fields
    case ClauseFamily => Clauses
  }

  function Elements(b: Bounds, family: Family): nat {
    match family
    case StmtFamily => b.statementElements
    case ExprFamily => b.expressionElements
    case LocalFamily => b.localNames
    case FieldFamily => TableElements(b)
    case ClauseFamily => b.ifClauses
  }

  lemma FieldsWithinTableElements(chunk: Tokens, root: Block)
    requires ParsesTo(chunk, root)
    ensures Owed(Fields, BlockOwned(root)) <= TableElements(Sum(RootBlock(), OfTokens(chunk)))
  {
    hide Owed, OfTokens, BlockOwned, ParsesTo;
    TreeIsPaid(Fields, chunk, root);
    TreeIsPaid(Tables, chunk, root);
    FieldsNeedTables(BlockOwned(root));
  }

  lemma FamilyValues(b: Bounds, layout: Layout)
    ensures Storage(Families(b, layout))
            == Slots(b.statementElements, b.blockContainers, layout.stmt)
               + Slots(b.expressionElements, b.expressionElements, layout.expr)
               + Slots(b.localNames, b.localNames, layout.local)
               + Slots(TableElements(b), b.tableOpens, layout.field)
               + Slots(b.ifClauses, b.ifContainers, layout.clause)
    ensures forall family :: Elements(b, family) * Width(layout, family) <= Scratch(Families(b, layout))
  {
    var f := Families(b, layout);
    hide Storage, Scratch, Slots;
    OneMoreFamily([], f[0]);
    OneMoreFamily([f[0]], f[1]);
    OneMoreFamily([f[0], f[1]], f[2]);
    OneMoreFamily([f[0], f[1], f[2]], f[3]);
    OneMoreFamily([f[0], f[1], f[2], f[3]], f[4]);
    NoFamily();
    assert [] + [f[0]] == [f[0]];
    assert [f[0]] + [f[1]] == [f[0], f[1]];
    assert [f[0], f[1]] + [f[2]] == [f[0], f[1], f[2]];
    assert [f[0], f[1], f[2]] + [f[3]] == [f[0], f[1], f[2], f[3]];
    assert [f[0], f[1], f[2], f[3]] + [f[4]] == f;
  }

  lemma NoFamily()
    ensures Storage([]) == Scratch([]) == 0
  {
  }

  lemma OneMoreFamily(families: seq<(nat, nat, nat)>, next: (nat, nat, nat))
    ensures Storage(families + [next]) == Storage(families) + Slots(next.0, next.1, next.2)
    ensures Scratch(families + [next]) == Max(Scratch(families), next.0 * next.2)
  {
    assert (families + [next])[..|families|] == families;
  }

  lemma CeilingWithinBounds(layout: Layout, chunk: Tokens, root: Block)
    requires ParsesTo(chunk, root)
    ensures var b := Sum(RootBlock(), OfTokens(chunk));
            Ceiling(layout, BlockOwned(root))
            <= Storage(Families(b, layout)) + 2 * b.boxTriggers * layout.expr + 4 * b.literalBytes
  {
    hide Owed, OfTokens, BlockOwned, ParsesTo, Slots, Families, Storage, Scratch, TableElements, Sum;
    var owned := BlockOwned(root);
    var b := Sum(RootBlock(), OfTokens(chunk));
    FamilyValues(b, layout);
    forall class_ ensures Owed(class_, owned) <= Available(class_, b) {
      TreeIsPaid(class_, chunk, root);
    }
    FieldsWithinTableElements(chunk, root);
    SlotsMonotone(Owed(Statements, owned), Owed(Blocks, owned), b.statementElements, b.blockContainers, layout.stmt);
    SlotsMonotone(Owed(Expressions, owned), Owed(Expressions, owned), b.expressionElements, b.expressionElements,
        layout.expr);
    SlotsMonotone(Owed(Locals, owned), Owed(Locals, owned), b.localNames, b.localNames, layout.local);
    SlotsMonotone(Owed(Fields, owned), Owed(Tables, owned), TableElements(b), b.tableOpens, layout.field);
    SlotsMonotone(Owed(Clauses, owned), Owed(Conditionals, owned), b.ifClauses, b.ifContainers, layout.clause);
    MulMonotone(Owed(BoxedOperands, owned), 2 * b.boxTriggers, layout.expr);
  }

  /** A vector of the tree is never longer than the elements its family was admitted for. */
  lemma VectorWithinElements(chunk: Tokens, root: Block, i: nat)
    requires ParsesTo(chunk, root)
    requires i < |BlockOwned(root)| && BlockOwned(root)[i].Buffer?
    ensures BlockOwned(root)[i].length
            <= Elements(Sum(RootBlock(), OfTokens(chunk)), BlockOwned(root)[i].family)
  {
    hide Owed, OfTokens, BlockOwned, ParsesTo, Sum;
    var owned := BlockOwned(root);
    var class_ := ElementClass(owned[i].family);
    OwedByMember(class_, owned, i);
    TreeIsPaid(class_, chunk, root);
    FieldsWithinTableElements(chunk, root);
  }

  /** Vector `i` moves its first `n` elements to a larger buffer at some point of its history. */
  ghost predicate Moves(owned: Allocations, i: nat, n: nat) {
    i < |owned| && owned[i].Buffer? && n < owned[i].length
  }

  /**
   * The admission is never an underestimate: the tree parsed from an admitted chunk fits in the
   * temporary memory charged for it, even while any one of its vectors is growing and the
   * buffer of its first `n` elements is still alive.
   */
  lemma AdmissionIsSound(layout: Layout, chunk: Tokens, root: Block)
    requires ParsesTo(chunk, root) && Grown(BlockOwned(root))
    ensures TotalBytes(layout, BlockOwned(root)) + FIXED_TEMPORARY <= Temporary(layout, chunk)
    ensures forall i: nat, n: nat :: Moves(BlockOwned(root), i, n) ==>
              TotalBytes(layout, BlockOwned(root)) + n * Width(layout, BlockOwned(root)[i].family)
              <= Temporary(layout, chunk)
  {
    hide OfTokens, BlockOwned, ParsesTo, Families, Storage, Scratch, Sum, Ceiling, TotalBytes, Grown, Elements, Width;
    var owned := BlockOwned(root);
    var b := Sum(RootBlock(), OfTokens(chunk));
    TreeWithinCeiling(layout, owned);
    CeilingWithinBounds(layout, chunk, root);
    FamilyValues(b, layout);
    forall i: nat, n: nat | Moves(owned, i, n)
      ensures TotalBytes(layout, owned) + n * Width(layout, owned[i].family) <= Temporary(layout, chunk)
    {
      VectorWithinElements(chunk, root, i);
      MulMonotone(n, Elements(b, owned[i].family), Width(layout, owned[i].family));
    }
  }

  /**
   * The two steps of `lex_parse_with_budget` after lexing: charge the admission, parse, measure.
   * The re-measurement can neither overflow nor exceed the charge.
   */
  method AdmitThenMeasure(chunk: Tokens, root: Block, layout: Layout, rates: WorkRates)
    returns (admission: Sized<Admission>, measured: Sized<nat>)
    requires Positive(layout) && ParsesTo(chunk, root) && Grown(BlockOwned(root))
    ensures admission.Fits? ==>
              && measured == Fits(TotalBytes(layout, BlockOwned(root)))
              && measured.value <= admission.value.temporary
  {
    admission := ParseAdmission(chunk, layout, rates);
    measured := AstAllocationBytes(layout, root);
    if admission.Fits? {
      AdmissionIsSound(layout, chunk, root);
    }
  }
}
