/** Every heap block a syntax tree owns, and the walk that adds up their sizes. */
module AstMeter {
  import opened Checked
  import opened Ast

  /** `size_of` of the five element types. */
  datatype Layout = Layout(stmt: nat, expr: nat, local: nat, field: nat, clause: nat)

  datatype Allocation =
    | Buffer(family: Family, length: nat, capacity: nat)
    | Boxes(count: nat)
    | Payload(capacity: nat)

  type Allocations = seq<Allocation>

  function Width(layout: Layout, family: Family): nat {
    match family
    case StmtFamily => layout.stmt
    case ExprFamily => layout.expr
    case LocalFamily => layout.local
    case FieldFamily => layout.field
    case ClauseFamily => layout.clause
  }

  function SizeOf(layout: Layout, allocation: Allocation): nat {
    match allocation
    case Buffer(family, _, capacity) => capacity * Width(layout, family)
    case Boxes(count) => count * layout.expr
    case Payload(capacity) => capacity
  }

  function TotalBytes(layout: Layout, allocations: Allocations): nat {
    if |allocations| == 0 then 0
    else SizeOf(layout, allocations[0]) + TotalBytes(layout, allocations[1..])
  }

  lemma {:induction false} TotalBytesOfConcat(layout: Layout, a: Allocations, b: Allocations)
    ensures TotalBytes(layout, a + b) == TotalBytes(layout, a) + TotalBytes(layout, b)
  {
    if a == [] {
      assert a + b == b;
    } else {
      assert (a + b)[1..] == a[1..] + b;
      TotalBytesOfConcat(layout, a[1..], b);
    }
  }

  lemma TotalBytesAdds(layout: Layout)
    ensures forall a: Allocations, b: Allocations {:trigger TotalBytes(layout, a + b)} ::
              TotalBytes(layout, a + b) == TotalBytes(layout, a) + TotalBytes(layout, b)
    ensures forall x: Allocation {:trigger TotalBytes(layout, [x])} :: TotalBytes(layout, [x]) == SizeOf(layout, x)
  {
    forall a: Allocations, b: Allocations
      ensures TotalBytes(layout, a + b) == TotalBytes(layout, a) + TotalBytes(layout, b)
    {
      TotalBytesOfConcat(layout, a, b);
    }
    forall x: Allocation
      ensures TotalBytes(layout, [x]) == SizeOf(layout, x)
    {
      assert [x][1..] == [];
    }
  }

  // The blocks each part of a tree owns, in the order of the walk.

  function BufferOf<T>(family: Family, values: Vec<T>): Allocations {
    [Buffer(family, |values.items|, values.Capacity())]
  }

  function Boxed(count: nat): Allocations {
    [Boxes(count)]
  }

  function Bytes(capacity: nat): Allocations {
    [Payload(capacity)]
  }

  function NameOf(name: Name): Allocations {
    Bytes(name.Capacity())
  }

  function OptionalName(name: Option<Name>): Allocations {
    match name
    case Some(value) => NameOf(value)
    case None => []
  }

  function LocalOwned(local: LocalName): Allocations {
    NameOf(local.name) + (if local.attribute == NoAttribute then [] else Bytes(AttributeCapacity(local.attribute)))
  }

  function LocalListOwned(locals: seq<LocalName>): Allocations {
    if |locals| == 0 then [] else LocalOwned(locals[0]) + LocalListOwned(locals[1..])
  }

  function LocalsOwned(locals: Vec<LocalName>): Allocations {
    BufferOf(LocalFamily, locals) + LocalListOwned(locals.items)
  }

  function ExprOwned(e: Expr): Allocations {
    match e
    case Constant(literal) => Bytes(LiteralCapacity(literal))
    case Nil => []
    case Bool(_) => []
    case Vararg => []
    case Var(name) => NameOf(name)
    case Unary(_, operand) => Boxed(1) + ExprOwned(operand)
    case Paren(inner) => Boxed(1) + ExprOwned(inner)
    case Binary(_, left, right) => Boxed(2) + ExprOwned(left) + ExprOwned(right)
    case Index(base, index) => Boxed(2) + ExprOwned(base) + ExprOwned(index)
    case Field(base, name) => Boxed(1) + ExprOwned(base) + NameOf(name)
    case CallExpr(call) => CallOwned(call)
    case Function(body) => FunctionOwned(body)
    case Table(fields) => FieldsOwned(fields)
  }

  function CallOwned(call: Call): Allocations {
    match call
    case Call(callee, arguments, _) =>
      Boxed(1) + ExprOwned(callee) + ExpressionsOwned(arguments)
    case MethodCall(receiver, name, arguments, _) =>
      Boxed(1) + ExprOwned(receiver) + NameOf(name)
      + ExpressionsOwned(arguments)
  }

  function ExpressionsOwned(values: Vec<Expr>): Allocations {
    BufferOf(ExprFamily, values) + ExprListOwned(values.items)
  }

  function ExprListOwned(es: seq<Expr>): Allocations {
    if |es| == 0 then [] else ExprOwned(es[0]) + ExprListOwned(es[1..])
  }

  function FieldOwned(field: TableField): Allocations {
    match field
    case Array(value, _) => ExprOwned(value)
    case Named(name, value, _) => NameOf(name) + ExprOwned(value)
    case Indexed(key, value, _) => ExprOwned(key) + ExprOwned(value)
  }

  function FieldsOwned(fields: Vec<TableField>): Allocations {
    BufferOf(FieldFamily, fields) + FieldListOwned(fields.items)
  }

  function FieldListOwned(fields: seq<TableField>): Allocations {
    if |fields| == 0 then [] else FieldOwned(fields[0]) + FieldListOwned(fields[1..])
  }

  function VarargOwned(vararg: VarargParameter): Allocations {
    match vararg
    case NamedVararg(table) => LocalOwned(table)
    case _ => []
  }

  function FunctionOwned(body: FunctionBody): Allocations {
    LocalsOwned(body.parameters) + VarargOwned(body.vararg) + BlockOwned(body.body)
  }

  function BlockOwned(block: Block): Allocations {
    BufferOf(StmtFamily, block.statements) + StmtListOwned(block.statements.items)
  }

  function StmtListOwned(statements: seq<Stmt>): Allocations {
    if |statements| == 0 then []
    else StmtOwned(statements[0]) + StmtListOwned(statements[1..])
  }

  function ClauseOwned(clause: IfClause): Allocations {
    ExprOwned(clause.condition) + BlockOwned(clause.body)
  }

  function ClausesOwned(clauses: Vec<IfClause>): Allocations {
    BufferOf(ClauseFamily, clauses) + ClauseListOwned(clauses.items)
  }

  function ClauseListOwned(clauses: seq<IfClause>): Allocations {
    if |clauses| == 0 then [] else ClauseOwned(clauses[0]) + ClauseListOwned(clauses[1..])
  }

  function GlobalOwned(declaration: GlobalDeclaration): Allocations {
    match declaration
    case GlobalNames(names, _, values, prefixAttribute) =>
      LocalsOwned(names) + ExpressionsOwned(values) + OptionalName(prefixAttribute)
    case GlobalStar(prefixAttribute) => OptionalName(prefixAttribute)
    case GlobalFunction(name, body) => NameOf(name) + FunctionOwned(body)
  }

  function StepOwned(step: Option<Expr>): Allocations {
    match step
    case Some(e) => ExprOwned(e)
    case None => []
  }

  function StmtOwned(s: Stmt): Allocations {
    match s
    case Empty => []
    case Break => []
    case Return(values, _) => ExpressionsOwned(values)
    case Assignment(targets, values) =>
      ExpressionsOwned(targets)
      + ExpressionsOwned(values)
    case CallStmt(call) => CallOwned(call)
    case Local(_, names, _, values) =>
      LocalsOwned(names) + ExpressionsOwned(values)
    case Global(declaration) => GlobalOwned(declaration)
    case Goto(name) => NameOf(name)
    case Label(name) => NameOf(name)
    case Do(body) => BlockOwned(body)
    case If(clauses, elseBlock) =>
      ClausesOwned(clauses)
      + (match elseBlock case Some(body) => BlockOwned(body) case None => [])
    case While(condition, body) => ExprOwned(condition) + BlockOwned(body)
    case Repeat(body, condition) => ExprOwned(condition) + BlockOwned(body)
    case NumericFor(name, initial, limit, step, body) =>
      LocalOwned(name) + ExprOwned(initial) + ExprOwned(limit)
      + StepOwned(step) + BlockOwned(body)
    case GenericFor(names, values, body) =>
      LocalsOwned(names) + ExpressionsOwned(values) + BlockOwned(body)
    case FunctionStmt(target, methodName, definition) =>
      ExprOwned(target) + OptionalName(methodName) + FunctionOwned(definition)
    case LocalFunction(name, definition) => LocalOwned(name) + FunctionOwned(definition)
  }

  /** Adding `amount` to `before` either fits, and `after` is the sum, or the walk reports the overflow. */
  ghost predicate Metered(before: nat, amount: nat, outcome: Outcome, after: nat) {
    && (outcome.Ok? <==> before + amount <= USIZE_MAX)
    && (outcome.Ok? ==> after == before + amount)
  }

  class AstMeter {
    const layout: Layout
    var bytes: nat

    constructor (layout: Layout)
      ensures this.layout == layout && bytes == 0
    {
      this.layout := layout;
      bytes := 0;
    }

    ghost predicate Grew(before: nat, owned: Allocations, outcome: Outcome)
      reads this
    {
      Metered(before, TotalBytes(layout, owned), outcome, bytes)
    }

    method AddBytes(amount: nat) returns (r: Outcome)
      modifies this
      ensures Metered(old(bytes), amount, r, bytes)
    {
      if bytes + amount > USIZE_MAX { return Overflow; }
      bytes := bytes + amount;
      return Ok;
    }

    method Buffer<T>(family: Family, values: Vec<T>) returns (r: Outcome)
      requires bytes <= USIZE_MAX
      modifies this
      ensures Grew(old(bytes), BufferOf(family, values), r)
    {
      TotalBytesAdds(layout);
      if values.Capacity() * Width(layout, family) > USIZE_MAX { return Overflow; }
      r := AddBytes(values.Capacity() * Width(layout, family));
    }

    method Name(name: Name) returns (r: Outcome)
      modifies this
      ensures Grew(old(bytes), NameOf(name), r)
    {
      TotalBytesAdds(layout);
      r := AddBytes(name.Capacity());
    }

    method Local(local: LocalName) returns (r: Outcome)
      modifies this
      ensures Grew(old(bytes), LocalOwned(local), r)
    {
      TotalBytesAdds(layout);
      :- Name(local.name);
      match local.attribute {
        case NoAttribute =>
        case Written(name) => :- AddBytes(name.Capacity());
        case Inherited(_) => :- AddBytes(INHERITED_ATTRIBUTE_BYTES);
      }
      return Ok;
    }

    method Locals(locals: Vec<LocalName>) returns (r: Outcome)
      requires bytes <= USIZE_MAX
      modifies this
      ensures Grew(old(bytes), LocalsOwned(locals), r)
    {
      TotalBytesAdds(layout);
      :- Buffer(LocalFamily, locals);
      ghost var total := bytes + TotalBytes(layout, LocalListOwned(locals.items));
      for i := 0 to |locals.items|
        invariant bytes <= USIZE_MAX
        invariant bytes + TotalBytes(layout, LocalListOwned(locals.items[i..])) == total
      {
        TotalBytesAdds(layout);
        assert locals.items[i..][1..] == locals.items[i + 1..];
        :- Local(locals.items[i]);
      }
      return Ok;
    }

    method Expressions(values: Vec<Expr>) returns (r: Outcome)
      requires bytes <= USIZE_MAX
      modifies this
      ensures Grew(old(bytes), ExpressionsOwned(values), r)
      decreases values
    {
      TotalBytesAdds(layout);
      :- Buffer(ExprFamily, values);
      ghost var total := bytes + TotalBytes(layout, ExprListOwned(values.items));
      for i := 0 to |values.items|
        invariant bytes <= USIZE_MAX
        invariant bytes + TotalBytes(layout, ExprListOwned(values.items[i..])) == total
      {
        TotalBytesAdds(layout);
        assert values.items[i..][1..] == values.items[i + 1..];
        :- Expression(values.items[i]);
      }
      return Ok;
    }

    method FunctionBody(body: FunctionBody) returns (r: Outcome)
      requires bytes <= USIZE_MAX
      modifies this
      ensures Grew(old(bytes), FunctionOwned(body), r)
      decreases body
    {
      TotalBytesAdds(layout);
      :- Locals(body.parameters);
      match body.vararg {
        case NamedVararg(table) => :- Local(table);
        case _ =>
      }
      r := Block(body.body);
    }

    method Block(block: Block) returns (r: Outcome)
      requires bytes <= USIZE_MAX
      modifies this
      ensures Grew(old(bytes), BlockOwned(block), r)
      decreases block
    {
      TotalBytesAdds(layout);
      var statements := block.statements;
      :- Buffer(StmtFamily, statements);
      ghost var total := bytes + TotalBytes(layout, StmtListOwned(statements.items));
      for i := 0 to |statements.items|
        invariant bytes <= USIZE_MAX
        invariant bytes + TotalBytes(layout, StmtListOwned(statements.items[i..])) == total
      {
        TotalBytesAdds(layout);
        assert statements.items[i..][1..] == statements.items[i + 1..];
        :- Statement(statements.items[i]);
      }
      return Ok;
    }

    method Clauses(clauses: Vec<IfClause>) returns (r: Outcome)
      requires bytes <= USIZE_MAX
      modifies this
      ensures Grew(old(bytes), ClausesOwned(clauses), r)
      decreases clauses
    {
      TotalBytesAdds(layout);
      :- Buffer(ClauseFamily, clauses);
      ghost var total := bytes + TotalBytes(layout, ClauseListOwned(clauses.items));
      for i := 0 to |clauses.items|
        invariant bytes <= USIZE_MAX
        invariant bytes + TotalBytes(layout, ClauseListOwned(clauses.items[i..])) == total
      {
        TotalBytesAdds(layout);
        assert clauses.items[i..][1..] == clauses.items[i + 1..];
        :- Expression(clauses.items[i].condition);
        :- Block(clauses.items[i].body);
      }
      return Ok;
    }

    method Statement(s: Stmt) returns (r: Outcome)
      requires bytes <= USIZE_MAX
      modifies this
      ensures Grew(old(bytes), StmtOwned(s), r)
      decreases s, 2
    {
      match s {
        case Empty => return Ok;
        case Break => return Ok;
        case Return(values, _) => r := Expressions(values);
        case CallStmt(call) => r := CallExpression(call);
        case Global(declaration) => r := Global(declaration);
        case Goto(name) => r := Name(name);
        case Label(name) => r := Name(name);
        case Do(body) => r := Block(body);
        case Assignment(_, _) => r := Declaration(s);
        case Local(_, _, _, _) => r := Declaration(s);
        case FunctionStmt(_, _, _) => r := FunctionDefinition(s);
        case LocalFunction(_, _) => r := Declaration(s);
        case _ => r := Compound(s);
      }
    }

    /** The arms of `statement` that assign or declare. */
    method Declaration(s: Stmt) returns (r: Outcome)
      requires s.Assignment? || s.Local? || s.LocalFunction?
      requires bytes <= USIZE_MAX
      modifies this
      ensures Grew(old(bytes), StmtOwned(s), r)
      decreases s, 0
    {
      TotalBytesAdds(layout);
      match s {
        case Assignment(targets, values) =>
          :- Expressions(targets);
          r := Expressions(values);
        case Local(_, names, _, values) =>
          :- Locals(names);
          r := Expressions(values);
        case LocalFunction(name, definition) =>
          :- Local(name);
          r := FunctionBody(definition);
      }
    }

    method FunctionDefinition(s: Stmt) returns (r: Outcome)
      requires s.FunctionStmt?
      requires bytes <= USIZE_MAX
      modifies this
      ensures Grew(old(bytes), StmtOwned(s), r)
      decreases s, 0
    {
      TotalBytesAdds(layout);
      :- Expression(s.target);
      match s.methodName {
        case Some(name) => :- Name(name);
        case None =>
      }
      r := FunctionBody(s.definition);
    }

    /** The arms of `statement` that branch or loop. */
    method Compound(s: Stmt) returns (r: Outcome)
      requires s.If? || s.While? || s.Repeat? || s.NumericFor? || s.GenericFor?
      requires bytes <= USIZE_MAX
      modifies this
      ensures Grew(old(bytes), StmtOwned(s), r)
      decreases s, 1
    {
      TotalBytesAdds(layout);
      match s {
        case If(clauses, elseBlock) =>
          :- Clauses(clauses);
          match elseBlock {
            case Some(body) => r := Block(body);
            case None => return Ok;
          }
        case While(condition, body) =>
          :- Expression(condition);
          r := Block(body);
        case Repeat(body, condition) =>
          :- Expression(condition);
          r := Block(body);
        case NumericFor(_, _, _, _, _) => r := NumericLoop(s);
        case GenericFor(names, values, body) =>
          :- Locals(names);
          :- Expressions(values);
          r := Block(body);
      }
    }

    method NumericLoop(s: Stmt) returns (r: Outcome)
      requires s.NumericFor?
      requires bytes <= USIZE_MAX
      modifies this
      ensures Grew(old(bytes), StmtOwned(s), r)
      decreases s, 0
    {
      TotalBytesAdds(layout);
      :- Local(s.name);
      :- Expression(s.initial);
      :- Expression(s.limit);
      match s.step {
        case Some(e) => :- Expression(e);
        case None =>
      }
      r := Block(s.body);
    }

    method Global(declaration: GlobalDeclaration) returns (r: Outcome)
      requires bytes <= USIZE_MAX
      modifies this
      ensures Grew(old(bytes), GlobalOwned(declaration), r)
      decreases declaration
    {
      TotalBytesAdds(layout);
      match declaration {
        case GlobalNames(names, _, values, prefixAttribute) =>
          :- Locals(names);
          :- Expressions(values);
          match prefixAttribute {
            case Some(name) => :- Name(name);
            case None =>
          }
        case GlobalStar(prefixAttribute) =>
          match prefixAttribute {
            case Some(name) => :- Name(name);
            case None =>
          }
        case GlobalFunction(name, body) =>
          :- Name(name);
          :- FunctionBody(body);
      }
      return Ok;
    }

    method Expression(e: Expr) returns (r: Outcome)
      requires bytes <= USIZE_MAX
      modifies this
      ensures Grew(old(bytes), ExprOwned(e), r)
      decreases e, 1
    {
      match e {
        case Constant(literal) =>
          TotalBytesAdds(layout);
          r := AddBytes(LiteralCapacity(literal));
        case Nil => return Ok;
        case Bool(_) => return Ok;
        case Vararg => return Ok;
        case Var(name) => r := Name(name);
        case CallExpr(call) => r := CallExpression(call);
        case Function(body) => r := FunctionBody(body);
        case Table(fields) => r := Fields(fields);
        case Binary(_, _, _) => r := TwoOperands(e);
        case Index(_, _) => r := TwoOperands(e);
        case _ => r := OneOperand(e);
      }
    }

    /** The arms of `expression` that own one boxed operand. */
    method OneOperand(e: Expr) returns (r: Outcome)
      requires e.Unary? || e.Paren? || e.Field?
      requires bytes <= USIZE_MAX
      modifies this
      ensures Grew(old(bytes), ExprOwned(e), r)
      decreases e, 0
    {
      TotalBytesAdds(layout);
      :- AddBytes(layout.expr);
      match e {
        case Unary(_, operand) => r := Expression(operand);
        case Paren(inner) => r := Expression(inner);
        case Field(base, name) =>
          :- Expression(base);
          r := Name(name);
      }
    }

    /** The arms of `expression` that own two boxed operands. */
    method TwoOperands(e: Expr) returns (r: Outcome)
      requires e.Binary? || e.Index?
      requires bytes <= USIZE_MAX
      modifies this
      ensures Grew(old(bytes), ExprOwned(e), r)
      decreases e, 0
    {
      TotalBytesAdds(layout);
      :- AddBytes(2 * layout.expr);
      match e {
        case Binary(_, left, right) =>
          :- Expression(left);
          r := Expression(right);
        case Index(base, index) =>
          :- Expression(base);
          r := Expression(index);
      }
    }

    method CallExpression(call: Call) returns (r: Outcome)
      requires bytes <= USIZE_MAX
      modifies this
      ensures Grew(old(bytes), CallOwned(call), r)
      decreases call
    {
      TotalBytesAdds(layout);
      :- AddBytes(layout.expr);
      match call {
        case Call(callee, arguments, _) =>
          :- Expression(callee);
          :- Expressions(arguments);
        case MethodCall(receiver, name, arguments, _) =>
          :- Expression(receiver);
          :- Name(name);
          :- Expressions(arguments);
      }
      return Ok;
    }

    method Fields(fields: Vec<TableField>) returns (r: Outcome)
      requires bytes <= USIZE_MAX
      modifies this
      ensures Grew(old(bytes), FieldsOwned(fields), r)
      decreases fields
    {
      TotalBytesAdds(layout);
      :- Buffer(FieldFamily, fields);
      ghost var total := bytes + TotalBytes(layout, FieldListOwned(fields.items));
      for i := 0 to |fields.items|
        invariant bytes <= USIZE_MAX
        invariant bytes + TotalBytes(layout, FieldListOwned(fields.items[i..])) == total
      {
        TotalBytesAdds(layout);
        assert fields.items[i..][1..] == fields.items[i + 1..];
        match fields.items[i] {
          case Array(value, _) => :- Expression(value);
          case Named(name, value, _) =>
            :- Name(name);
            :- Expression(value);
          case Indexed(key, value, _) =>
            :- Expression(key);
            :- Expression(value);
        }
      }
      return Ok;
    }
  }
}
