/**
 * The earlier interpreter draft: expression evaluation is pure recursion that
 * may throw a RuntimeError; `interpret` runs statements in order, printing
 * what print statements produce, and stops at the first RuntimeError, which
 * it reports once. Its visitor has cases only for literals, groupings,
 * unary and binary expressions, expression statements and print statements.
 */
module DraftInterpreting {
  import opened Values
  import opened Tokens
  import opened Ast
  import opened Semantics

  /** The operator tokens of an expression, in evaluation order. */
  function Operators(e: Expr): seq<Token>
  {
    match e
    case Literal(_) => []
    case Grouping(x) => Operators(x)
    case Unary(op, x) => Operators(x) + [op]
    case Binary(l, op, r) => Operators(l) + Operators(r) + [op]
    case Variable(_) => []
    case Assign(_, x) => Operators(x)
  }

  /** `evaluate`: the left operand before the right one, the operand check
      after both. A RuntimeError is always raised at one of the expression's
      own operators, for an operand that is not a number. */
  function Evaluate(arith: Arith, e: Expr): (r: Result<Value, RuntimeError>)
    requires IsDraftExpr(e)
    ensures r.Err? ==> r.error.token in Operators(e)
    ensures r.Err? ==> r.error.message == OperandMessage || r.error.message == OperandsMessage
  {
    match e
    case Literal(v) => Ok(v)
    case Grouping(x) => Evaluate(arith, x)
    case Unary(op, x) =>
      var right :- Evaluate(arith, x);
      UnaryOp(arith, op, right)
    case Binary(l, op, x) =>
      var left :- Evaluate(arith, l);
      var right :- Evaluate(arith, x);
      BinaryOp(arith, op, left, right)
  }

  /** Expressions built from number literals with `-`, `+` and `*`, and
      unary minus. */
  predicate NumberExpr(e: Expr)
  {
    match e
    case Literal(v) => v.Num?
    case Grouping(x) => NumberExpr(x)
    case Unary(op, x) => op.kind == MINUS && NumberExpr(x)
    case Binary(l, op, r) => op.kind in {MINUS, PLUS, STAR} && NumberExpr(l) && NumberExpr(r)
    case Variable(_) => false
    case Assign(_, _) => false
  }

  /** Such an expression never raises a RuntimeError and yields a number. */
  lemma {:induction false} NumberExprEvaluates(arith: Arith, e: Expr)
    requires NumberExpr(e)
    ensures IsDraftExpr(e) && Evaluate(arith, e).Ok? && Evaluate(arith, e).value.Num?
  {
    match e
    case Literal(_) =>
    case Grouping(x) => NumberExprEvaluates(arith, x);
    case Unary(_, x) => NumberExprEvaluates(arith, x);
    case Binary(l, _, r) =>
      NumberExprEvaluates(arith, l);
      NumberExprEvaluates(arith, r);
  }

  /** Left before right: when both operands fail, the left one's error is
      the one raised. */
  lemma LeftOperandFirst(arith: Arith, l: Expr, op: Token, r: Expr)
    requires IsDraftExpr(l) && IsDraftExpr(r)
    requires Evaluate(arith, l).Err?
    ensures Evaluate(arith, Binary(l, op, r)) == Evaluate(arith, l)
  {
  }

  /** What one statement does: the lines it prints and the RuntimeError it
      raises, if any. */
  datatype Ran = Ran(output: seq<string>, error: Option<RuntimeError>)

  /** `visitExpressionStmt` evaluates and discards; `visitPrintStmt`
      evaluates once and prints one line. */
  function Execute(arith: Arith, s: Stmt): (r: Ran)
    requires IsDraftStmt(s)
    ensures r.error.Some? ==> r.output == []
    ensures r.error.None? ==> |r.output| == if s.Print? then 1 else 0
  {
    match s
    case Expression(e) =>
      var v := Evaluate(arith, e);
      if v.Err? then Ran([], Some(v.error)) else Ran([], None)
    case Print(e) =>
      var v := Evaluate(arith, e);
      if v.Err? then Ran([], Some(v.error)) else Ran([Stringify(arith, v.value)], None)
  }

  /** The statements in order, stopping at the first RuntimeError. */
  function Run(arith: Arith, statements: seq<Stmt>): (r: Ran)
    requires forall s <- statements :: IsDraftStmt(s)
    ensures |r.output| <= PrintCount(statements)
    ensures r.error.None? ==> |r.output| == PrintCount(statements)
  {
    if statements == [] then Ran([], None)
    else
      var first := Execute(arith, statements[0]);
      if first.error.Some? then first
      else
        var rest := Run(arith, statements[1..]);
        Ran(first.output + rest.output, rest.error)
  }

  /** Running two lists one after the other: the second runs only when the
      first raised nothing. */
  lemma {:induction false} RunAppend(arith: Arith, a: seq<Stmt>, b: seq<Stmt>)
    requires forall s <- a :: IsDraftStmt(s)
    requires forall s <- b :: IsDraftStmt(s)
    ensures forall s <- a + b :: IsDraftStmt(s)
    ensures Run(arith, a + b) ==
              if Run(arith, a).error.Some? then Run(arith, a)
              else Ran(Run(arith, a).output + Run(arith, b).output, Run(arith, b).error)
  {
    if a != [] {
      assert (a + b)[0] == a[0];
      assert (a + b)[1..] == a[1..] + b;
      RunAppend(arith, a[1..], b);
      var first := Execute(arith, a[0]);
      if first.error.None? {
        Associative(first.output, Run(arith, a[1..]).output, Run(arith, b).output);
      }
    } else {
      assert a + b == b;
    }
  }

  /** One more statement runs unless the prefix raised an error. */
  lemma RunStep(arith: Arith, statements: seq<Stmt>, i: nat)
    requires forall s <- statements :: IsDraftStmt(s)
    requires i < |statements|
    ensures forall s <- statements[..i + 1] :: IsDraftStmt(s)
    ensures var prefix := Run(arith, statements[..i]);
      var next := Execute(arith, statements[i]);
      Run(arith, statements[..i + 1]) ==
        if prefix.error.Some? then prefix else Ran(prefix.output + next.output, next.error)
  {
    RunAppend(arith, statements[..i], [statements[i]]);
    assert statements[..i] + [statements[i]] == statements[..i + 1];
    assert [statements[i]][1..] == [];
    assert Run(arith, [statements[i]]) == Execute(arith, statements[i]);
  }

  /** Nothing after the first error runs. */
  lemma RunStops(arith: Arith, statements: seq<Stmt>, i: nat)
    requires forall s <- statements :: IsDraftStmt(s)
    requires i <= |statements|
    requires forall s <- statements[..i] :: IsDraftStmt(s)
    requires Run(arith, statements[..i]).error.Some?
    ensures Run(arith, statements) == Run(arith, statements[..i])
  {
    RunAppend(arith, statements[..i], statements[i..]);
    assert statements[..i] + statements[i..] == statements;
  }

  /** The number of print statements in a list. */
  function PrintCount(statements: seq<Stmt>): nat
  {
    if statements == [] then 0
    else (if statements[0].Print? then 1 else 0) + PrintCount(statements[1..])
  }

  /** When no statement raises a RuntimeError, every print statement
      prints exactly one line and nothing else prints. */
  lemma {:induction false} RunLines(arith: Arith, statements: seq<Stmt>)
    requires forall s <- statements :: IsDraftStmt(s)
    requires forall s <- statements :: Execute(arith, s).error.None?
    ensures Run(arith, statements).error.None?
    ensures |Run(arith, statements).output| == PrintCount(statements)
  {
    if statements != [] {
      assert statements[0] in statements;
      RunLines(arith, statements[1..]);
    }
  }

  /** The earlier `Interpreter` object; it holds no state of its own, so its
      fields are what it does to the outside world: the lines
      `System.out.println` prints and the errors passed to
      `Lox.runtimeError`. */
  class Interpreter {
    const arith: Arith
    var output: seq<string>
    var reported: seq<RuntimeError>

    constructor (arith: Arith)
      ensures this.arith == arith && output == [] && reported == []
    {
      this.arith := arith;
      output := [];
      reported := [];
    }

    method ExecuteStatement(s: Stmt) returns (error: Option<RuntimeError>)
      requires IsDraftStmt(s)
      modifies this`output
      ensures output == old(output) + Execute(arith, s).output
      ensures error == Execute(arith, s).error
    {
      match s
      case Expression(e) =>
        var v := Evaluate(arith, e);
        if v.Err? {
          return Some(v.error);
        }
        return None;
      case Print(e) =>
        var v := Evaluate(arith, e);
        if v.Err? {
          return Some(v.error);
        }
        output := output + [Stringify(arith, v.value)];
        return None;
    }

    /** `interpret`: the statements in order; the first RuntimeError ends
        the loop and is reported once. */
    method Interpret(statements: seq<Stmt>)
      requires forall s <- statements :: IsDraftStmt(s)
      modifies this`output, this`reported
      ensures output == old(output) + Run(arith, statements).output
      ensures reported == old(reported) + OptionToSeq(Run(arith, statements).error)
    {
      for i := 0 to |statements|
        invariant output == old(output) + Run(arith, statements[..i]).output
        invariant Run(arith, statements[..i]).error.None?
        invariant reported == old(reported)
      {
        ghost var prefix := Run(arith, statements[..i]);
        RunStep(arith, statements, i);
        var error := ExecuteStatement(statements[i]);
        Associative(old(output), prefix.output, Execute(arith, statements[i]).output);
        if error.Some? {
          RunStops(arith, statements, i + 1);
          reported := reported + [error.value];
          return;
        }
      }
      assert statements[..|statements|] == statements;
    }
  }
}
