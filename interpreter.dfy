/**
 * The later interpreter draft: variables, assignment, `var`, `if` and
 * blocks on top of the earlier draft's expressions. Its quirks are kept as
 * written: `visitIfStmt` hands the condition node itself to `isTruthy`, so
 * the condition is never evaluated and the then-branch always runs; and
 * `executeBlock` never installs the environment it is given, so a block runs
 * in the enclosing environment and its definitions outlive it.
 *
 * The specification is a pair of total functions over the variable table
 * (`Eval`, `Exec`); the `Environment` and `Interpreter` classes are proved to
 * compute them.
 */
module Interpreting {
  import opened Values
  import opened Tokens
  import opened Ast
  import opened Semantics
  import DraftInterpreting

  /** The error raised for a name that has no binding. */
  function Undefined(name: Token): (e: RuntimeError)
    ensures e.token == name && e.message == "Undefined variable '" + name.lexeme + "'."
  {
    RuntimeError(name, "Undefined variable '" + name.lexeme + "'.")
  }

  /** Looking a name up in a variable table. */
  function Lookup(table: map<string, Value>, name: Token): (r: Result<Value, RuntimeError>)
    ensures r.Ok? <==> name.lexeme in table
    ensures r.Ok? ==> r.value == table[name.lexeme]
    ensures r.Err? ==> r.error == Undefined(name)
  {
    if name.lexeme in table then Ok(table[name.lexeme]) else Err(Undefined(name))
  }

  /** A scope: its own variable table and the scope it is nested in. A name
      is looked up and assigned in the innermost scope that binds it. */
  class Environment {
    var values: map<string, Value>
    const enclosing: Environment?
    /** The number of scopes around this one. */
    ghost const depth: nat

    /** The enclosing scopes form a finite chain. */
    ghost predicate Linked()
      decreases depth
    {
      enclosing != null ==> enclosing.depth < depth && enclosing.Linked()
    }

    /** This scope and every scope around it. */
    ghost function Chain(): (c: set<Environment>)
      requires Linked()
      ensures this in c
      ensures forall e <- c :: e.depth <= depth && e.Linked()
      ensures enclosing != null ==> forall e <- enclosing.Chain() :: e in c && e.depth < depth
      decreases depth
    {
      {this} + if enclosing == null then {} else enclosing.Chain()
    }

    /** The innermost scope of the chain that binds `name`, if any. */
    ghost function Holder(name: string): (h: Environment?)
      requires Linked()
      reads Chain()
      ensures h != null ==> h in Chain() && name in h.values
      decreases depth
    {
      if name in values then this
      else if enclosing == null then null
      else enclosing.Holder(name)
    }

    constructor ()
      ensures values == map[] && enclosing == null && Linked()
    {
      values := map[];
      enclosing := null;
      depth := 0;
    }

    constructor Nested(enclosing: Environment)
      requires enclosing.Linked()
      ensures values == map[] && this.enclosing == enclosing && Linked()
    {
      values := map[];
      this.enclosing := enclosing;
      depth := enclosing.depth + 1;
    }

    /** `define`: binds or rebinds a name in this scope's own table,
        whatever the enclosing scopes hold. */
    method Define(name: string, value: Value)
      modifies this
      ensures values == old(values)[name := value]
    {
      values := values[name := value];
    }

    /** `get`: the value in the innermost scope that binds the name, or the
        undefined-variable error when none does. */
    method Get(name: Token) returns (r: Result<Value, RuntimeError>)
      requires Linked()
      ensures r.Ok? <==> Holder(name.lexeme) != null
      ensures r.Ok? ==> r.value == Holder(name.lexeme).values[name.lexeme]
      ensures r.Err? ==> r.error == Undefined(name)
      decreases depth
    {
      if name.lexeme in values {
        return Ok(values[name.lexeme]);
      }
      if enclosing != null {
        r := enclosing.Get(name);
        return;
      }
      return Err(Undefined(name));
    }

    /** `assign`: rebinds the name in the innermost scope that binds it and
        changes no other scope; when no scope binds it, the error, and
        nothing changes. */
    method Assign(name: Token, value: Value) returns (r: Outcome<RuntimeError>)
      requires Linked()
      modifies Chain()
      ensures r.Pass? <==> old(Holder(name.lexeme)) != null
      ensures r.Fail? ==> r.error == Undefined(name)
      ensures forall e <- Chain() | old(allocated(e)) ::
        e.values == if e == old(Holder(name.lexeme)) then old(e.values)[name.lexeme := value] else old(e.values)
      decreases depth
    {
      if name.lexeme in values {
        values := values[name.lexeme := value];
        return Pass;
      }
      if enclosing != null {
        assert this !in enclosing.Chain();
        ghost var holder := enclosing.Holder(name.lexeme);
        r := enclosing.Assign(name, value);
        assert values == old(values);
        assert forall e <- Chain() :: e == this || e in enclosing.Chain();
        return;
      }
      return Fail(Undefined(name));
    }
  }

  /** What evaluating an expression gives: its value or the RuntimeError it
      raised, and the variable table afterwards (assignments made before an
      error stay made). */
  datatype Evaluated = Evaluated(result: Result<Value, RuntimeError>, table: map<string, Value>)

  /** The tokens of an expression an error can be raised at: its operators
      and the names it reads or assigns. */
  function ErrorSites(e: Expr): set<Token>
  {
    match e
    case Literal(_) => {}
    case Grouping(x) => ErrorSites(x)
    case Unary(op, x) => ErrorSites(x) + {op}
    case Binary(l, op, r) => ErrorSites(l) + ErrorSites(r) + {op}
    case Variable(name) => {name}
    case Assign(name, x) => ErrorSites(x) + {name}
  }

  /** `evaluate`. Assignment only rebinds names that are already bound, so
      evaluation never changes which names are bound; every RuntimeError is
      raised at one of the expression's own operators or names. */
  function Eval(arith: Arith, e: Expr, table: map<string, Value>): (r: Evaluated)
    ensures r.table.Keys == table.Keys
    ensures r.result.Err? ==> r.result.error.token in ErrorSites(e)
    decreases e
  {
    match e
    case Literal(v) => Evaluated(Ok(v), table)
    case Grouping(x) => Eval(arith, x, table)
    case Unary(op, x) =>
      var right := Eval(arith, x, table);
      if right.result.Err? then right
      else Evaluated(UnaryOp(arith, op, right.result.value), right.table)
    case Binary(l, op, x) =>
      var left := Eval(arith, l, table);
      if left.result.Err? then left
      else
        var right := Eval(arith, x, left.table);
        if right.result.Err? then right
        else Evaluated(BinaryOp(arith, op, left.result.value, right.result.value), right.table)
    case Variable(name) => Evaluated(Lookup(table, name), table)
    case Assign(name, x) =>
      var value := Eval(arith, x, table);
      if value.result.Err? then value
      else if name.lexeme in value.table then
        Evaluated(value.result, value.table[name.lexeme := value.result.value])
      else Evaluated(Err(Undefined(name)), value.table)
  }

  /** Expressions that assign nothing. */
  predicate AssignsNothing(e: Expr)
  {
    match e
    case Literal(_) => true
    case Grouping(x) => AssignsNothing(x)
    case Unary(_, x) => AssignsNothing(x)
    case Binary(l, _, r) => AssignsNothing(l) && AssignsNothing(r)
    case Variable(_) => true
    case Assign(_, _) => false
  }

  /** An expression without assignments leaves the table as it was. */
  lemma {:induction false} ReadOnlyEval(arith: Arith, e: Expr, table: map<string, Value>)
    requires AssignsNothing(e)
    ensures Eval(arith, e, table).table == table
  {
    match e
    case Literal(_) =>
    case Grouping(x) => ReadOnlyEval(arith, x, table);
    case Unary(_, x) => ReadOnlyEval(arith, x, table);
    case Binary(l, _, r) =>
      ReadOnlyEval(arith, l, table);
      ReadOnlyEval(arith, r, table);
    case Variable(_) =>
  }

  /** On the expressions both drafts have, the later one computes what the
      earlier one does, and touches no variable. */
  lemma {:induction false} ExtendsDraft(arith: Arith, e: Expr, table: map<string, Value>)
    requires IsDraftExpr(e)
    ensures Eval(arith, e, table) == Evaluated(DraftInterpreting.Evaluate(arith, e), table)
  {
    match e
    case Literal(_) =>
    case Grouping(x) => ExtendsDraft(arith, x, table);
    case Unary(_, x) => ExtendsDraft(arith, x, table);
    case Binary(l, _, r) =>
      ExtendsDraft(arith, l, table);
      ExtendsDraft(arith, r, table);
  }

  /** An assignment yields the assigned value and rebinds the name, once the
      value is computed; an unbound name is an error after the value is
      computed. */
  lemma AssignmentYieldsValue(arith: Arith, name: Token, x: Expr, table: map<string, Value>)
    requires Eval(arith, x, table).result.Ok?
    ensures var value := Eval(arith, x, table);
      var r := Eval(arith, Assign(name, x), table);
      if name.lexeme in table then
        r.result == value.result && r.table == value.table[name.lexeme := value.result.value]
      else
        r.result == Err(Undefined(name)) && r.table == value.table
  {
  }

  /** What executing a statement gives: the RuntimeError it raised, if any,
      the variable table afterwards and the lines it printed. */
  datatype Executed = Executed(error: Option<RuntimeError>, table: map<string, Value>, output: seq<string>)

  /** The names a statement's `var` declarations bind, at any depth. */
  function Declared(s: Stmt): set<string>
  {
    match s
    case Expression(_) => {}
    case Print(_) => {}
    case Var(name, _) => {name.lexeme}
    case If(_, t, e) => Declared(t) + (if e.Some? then Declared(e.value) else {})
    case Block(ss) => DeclaredAll(ss)
  }

  function DeclaredAll(ss: seq<Stmt>): set<string>
  {
    if ss == [] then {} else Declared(ss[0]) + DeclaredAll(ss[1..])
  }

  /** The names a statement binds when it runs without error: its `var`
      declarations at any depth, except those in an `if`'s else-branch, which
      never runs. */
  function Defines(s: Stmt): set<string>
  {
    match s
    case Expression(_) => {}
    case Print(_) => {}
    case Var(name, _) => {name.lexeme}
    case If(_, t, _) => Defines(t)
    case Block(ss) => DefinesAll(ss)
  }

  function DefinesAll(ss: seq<Stmt>): set<string>
  {
    if ss == [] then {} else Defines(ss[0]) + DefinesAll(ss[1..])
  }

  /** `execute`. A statement never unbinds a name and binds no name it does
      not declare. */
  function Exec(arith: Arith, s: Stmt, table: map<string, Value>): (r: Executed)
    ensures table.Keys <= r.table.Keys <= table.Keys + Declared(s)
    decreases s
  {
    match s
    case Expression(e) =>
      var v := Eval(arith, e, table);
      Executed(if v.result.Err? then Some(v.result.error) else None, v.table, [])
    case Print(e) =>
      var v := Eval(arith, e, table);
      if v.result.Err? then Executed(Some(v.result.error), v.table, [])
      else Executed(None, v.table, [Stringify(arith, v.result.value)])
    case Var(name, initializer) =>
      if initializer.None? then Executed(None, table[name.lexeme := Nil], [])
      else
        var v := Eval(arith, initializer.value, table);
        if v.result.Err? then Executed(Some(v.result.error), v.table, [])
        else Executed(None, v.table[name.lexeme := v.result.value], [])
    case If(condition, thenBranch, _) =>
      if IsTruthy(AstNode(condition)) then Exec(arith, thenBranch, table)
      else assert false; Executed(None, table, [])
    case Block(ss) => ExecAll(arith, ss, table)
  }

  /** The statements in order in one table, stopping at the first
      RuntimeError. */
  function ExecAll(arith: Arith, ss: seq<Stmt>, table: map<string, Value>): (r: Executed)
    ensures table.Keys <= r.table.Keys <= table.Keys + DeclaredAll(ss)
    decreases ss
  {
    if ss == [] then Executed(None, table, [])
    else
      var first := Exec(arith, ss[0], table);
      if first.error.Some? then first
      else
        var rest := ExecAll(arith, ss[1..], first.table);
        Executed(rest.error, rest.table, first.output + rest.output)
  }

  /** Running two lists one after the other: the second runs, in the table
      the first left, only when the first raised nothing. */
  lemma {:induction false} ExecAllAppend(arith: Arith, a: seq<Stmt>, b: seq<Stmt>, table: map<string, Value>)
    ensures var first := ExecAll(arith, a, table);
      var second := ExecAll(arith, b, first.table);
      ExecAll(arith, a + b, table) ==
        if first.error.Some? then first
        else Executed(second.error, second.table, first.output + second.output)
  {
    if a == [] {
      assert a + b == b;
    } else {
      assert (a + b)[0] == a[0];
      assert (a + b)[1..] == a[1..] + b;
      var first := Exec(arith, a[0], table);
      if first.error.None? {
        ExecAllAppend(arith, a[1..], b, first.table);
        var rest := ExecAll(arith, a[1..], first.table);
        Associative(first.output, rest.output, ExecAll(arith, b, rest.table).output);
      }
    }
  }

  /** One more statement: it runs in the table the prefix left, unless the
      prefix raised an error. */
  lemma ExecAllStep(arith: Arith, ss: seq<Stmt>, i: nat, table: map<string, Value>)
    requires i < |ss|
    ensures var prefix := ExecAll(arith, ss[..i], table);
      var next := Exec(arith, ss[i], prefix.table);
      ExecAll(arith, ss[..i + 1], table) ==
        if prefix.error.Some? then prefix
        else Executed(next.error, next.table, prefix.output + next.output)
  {
    ExecAllAppend(arith, ss[..i], [ss[i]], table);
    assert ss[..i] + [ss[i]] == ss[..i + 1];
    ExecAllSingle(arith, ss[i], ExecAll(arith, ss[..i], table).table);
  }

  lemma ExecAllSingle(arith: Arith, s: Stmt, table: map<string, Value>)
    ensures ExecAll(arith, [s], table) == Exec(arith, s, table)
  {
    assert [s][1..] == [];
    var first := Exec(arith, s, table);
    assert first.output + [] == first.output;
  }

  /** Nothing after the first error runs. */
  lemma ExecAllStops(arith: Arith, ss: seq<Stmt>, i: nat, table: map<string, Value>)
    requires i <= |ss| && ExecAll(arith, ss[..i], table).error.Some?
    ensures ExecAll(arith, ss, table) == ExecAll(arith, ss[..i], table)
  {
    ExecAllAppend(arith, ss[..i], ss[i..], table);
    assert ss[..i] + ss[i..] == ss;
  }

  /** A statement that raises nothing leaves every name it defines bound. */
  lemma {:induction false} ExecBinds(arith: Arith, s: Stmt, table: map<string, Value>)
    ensures Exec(arith, s, table).error.None? ==> Defines(s) <= Exec(arith, s, table).table.Keys
    decreases s
  {
    match s
    case Expression(_) =>
    case Print(_) =>
    case Var(_, _) =>
    case If(condition, thenBranch, _) =>
      ConditionNodeIsTruthy(condition);
      ExecBinds(arith, thenBranch, table);
    case Block(ss) =>
      ExecAllBinds(arith, ss, table);
  }

  /** A statement list that raises nothing leaves every name it defines
      bound. */
  lemma {:induction false} ExecAllBinds(arith: Arith, ss: seq<Stmt>, table: map<string, Value>)
    ensures ExecAll(arith, ss, table).error.None? ==> DefinesAll(ss) <= ExecAll(arith, ss, table).table.Keys
    decreases ss
  {
    if ss != [] {
      var first := Exec(arith, ss[0], table);
      ExecBinds(arith, ss[0], table);
      if first.error.None? {
        ExecAllBinds(arith, ss[1..], first.table);
      }
    }
  }

  /** The condition of an `if` is never evaluated and its else-branch never
      runs: the statement is its then-branch. */
  lemma IfRunsThenBranch(arith: Arith, condition: Expr, thenBranch: Stmt, elseBranch: Option<Stmt>, table: map<string, Value>)
    ensures Exec(arith, If(condition, thenBranch, elseBranch), table) == Exec(arith, thenBranch, table)
  {
    ConditionNodeIsTruthy(condition);
  }

  /** `executeBlock` never installs its new environment, so a block runs
      in the enclosing table: it leaves exactly what its statements leave
      there, and when it raises nothing, every name bound before it and
      every name it defines are bound after it. */
  lemma BlockRunsInEnclosingTable(arith: Arith, ss: seq<Stmt>, table: map<string, Value>)
    ensures Exec(arith, Block(ss), table) == ExecAll(arith, ss, table)
    ensures var r := Exec(arith, Block(ss), table);
      r.error.None? ==> table.Keys + DefinesAll(ss) <= r.table.Keys
  {
    ExecAllBinds(arith, ss, table);
  }

  /** The single-declaration case: `{ var x = v; }` leaves x bound to v in
      the enclosing table. */
  lemma BlockLeaksDefinitions(arith: Arith, name: Token, v: Value, table: map<string, Value>)
    ensures Exec(arith, Block([Var(name, Some(Literal(v)))]), table) == Executed(None, table[name.lexeme := v], [])
  {
    var declaration := Var(name, Some(Literal(v)));
    var first := Exec(arith, declaration, table);
    assert first == Executed(None, table[name.lexeme := v], []);
    assert [declaration][1..] == [];
    assert ExecAll(arith, [declaration][1..], first.table) == Executed(None, first.table, []);
    assert first.output + [] == [];
  }

  /** `var a = "outer"; { var a = "inner"; } print a;` prints "inner": the
      inner declaration rebinds the outer variable instead of shadowing it. */
  lemma ShadowingLeaks(arith: Arith, a: Token)
    ensures var program := [Var(a, Some(Literal(Str("outer")))),
                            Block([Var(a, Some(Literal(Str("inner"))))]),
                            Print(Variable(a))];
      ExecAll(arith, program, map[]) == Executed(None, map[a.lexeme := Str("inner")], ["inner"])
  {
    var outer := Var(a, Some(Literal(Str("outer"))));
    var block := Block([Var(a, Some(Literal(Str("inner"))))]);
    var show := Print(Variable(a));
    var program := [outer, block, show];
    var t1 := map[a.lexeme := Str("outer")];
    var t2 := map[a.lexeme := Str("inner")];
    assert Exec(arith, outer, map[]) == Executed(None, t1, []);
    BlockLeaksDefinitions(arith, a, Str("inner"), t1);
    assert t1[a.lexeme := Str("inner")] == t2;
    assert Exec(arith, show, t2) == Executed(None, t2, ["inner"]);
    ExecAllSingle(arith, show, t2);
    assert program[1..][1..] == [show];
    assert ExecAll(arith, program[1..], t1) == Executed(None, t2, [] + ["inner"]);
    assert [] + ([] + ["inner"]) == ["inner"];
  }

  /** `var x;` binds x to nil. */
  lemma VarDefaultsToNil(arith: Arith, name: Token, table: map<string, Value>)
    ensures Exec(arith, Var(name, None), table) == Executed(None, table[name.lexeme := Nil], [])
  {
  }

  /** The later `Interpreter` object: its one environment, and what it does
      to the outside world: the lines `System.out.println` prints and the
      errors passed to `Lox.runtimeError`. */
  class Interpreter {
    const arith: Arith
    var environment: Environment
    var output: seq<string>
    var reported: seq<RuntimeError>

    constructor (arith: Arith)
      ensures this.arith == arith && fresh(environment)
      ensures environment.enclosing == null && environment.values == map[]
      ensures output == [] && reported == []
    {
      this.arith := arith;
      environment := new Environment();
      output := [];
      reported := [];
    }

    method Evaluate(e: Expr) returns (r: Result<Value, RuntimeError>)
      requires environment.enclosing == null
      modifies environment
      ensures Eval(arith, e, old(environment.values)) == Evaluated(r, environment.values)
      decreases e, 1
    {
      match e
      case Literal(v) => r := Ok(v);
      case Grouping(x) => r := Evaluate(x);
      case Unary(_, _) => r := VisitUnary(e);
      case Binary(_, _, _) => r := VisitBinary(e);
      case Variable(name) => r := environment.Get(name);
      case Assign(_, _) => r := VisitAssign(e);
    }

    method VisitUnary(e: Expr) returns (r: Result<Value, RuntimeError>)
      requires e.Unary? && environment.enclosing == null
      modifies environment
      ensures Eval(arith, e, old(environment.values)) == Evaluated(r, environment.values)
      decreases e, 0
    {
      var right := Evaluate(e.right);
      if right.Err? {
        return right;
      }
      r := UnaryOp(arith, e.operator, right.value);
    }

    method VisitBinary(e: Expr) returns (r: Result<Value, RuntimeError>)
      requires e.Binary? && environment.enclosing == null
      modifies environment
      ensures Eval(arith, e, old(environment.values)) == Evaluated(r, environment.values)
      decreases e, 0
    {
      var left := Evaluate(e.left);
      if left.Err? {
        return left;
      }
      var right := Evaluate(e.right);
      if right.Err? {
        return right;
      }
      r := BinaryOp(arith, e.operator, left.value, right.value);
    }

    method VisitAssign(e: Expr) returns (r: Result<Value, RuntimeError>)
      requires e.Assign? && environment.enclosing == null
      modifies environment
      ensures Eval(arith, e, old(environment.values)) == Evaluated(r, environment.values)
      decreases e, 0
    {
      var value := Evaluate(e.valueExpr);
      if value.Err? {
        return value;
      }
      var outcome := environment.Assign(e.name, value.value);
      if outcome.Fail? {
        return Err(outcome.error);
      }
      return value;
    }

    method Execute(s: Stmt) returns (error: Option<RuntimeError>)
      requires environment.enclosing == null
      modifies this`environment, this`output, environment
      ensures environment == old(environment)
      ensures var r := Exec(arith, s, old(environment.values));
        error == r.error && environment.values == r.table && output == old(output) + r.output
      decreases s, 3
    {
      match s
      case Expression(e) =>
        var v := Evaluate(e);
        error := if v.Err? then Some(v.error) else None;
      case Print(e) =>
        var v := Evaluate(e);
        if v.Err? {
          return Some(v.error);
        }
        output := output + [Stringify(arith, v.value)];
        error := None;
      case Var(name, initializer) =>
        var value := Nil;
        if initializer.Some? {
          var v := Evaluate(initializer.value);
          if v.Err? {
            return Some(v.error);
          }
          value := v.value;
        }
        environment.Define(name.lexeme, value);
        error := None;
      case If(_, _, _) => error := VisitIf(s);
      case Block(_) => error := VisitBlock(s);
    }

    /** `visitIfStmt`: `isTruthy` is handed the condition node, which is
        always a true object, so the else-branch is dead code. */
    method VisitIf(s: Stmt) returns (error: Option<RuntimeError>)
      requires s.If? && environment.enclosing == null
      modifies this`environment, this`output, environment
      ensures environment == old(environment)
      ensures var r := Exec(arith, s, old(environment.values));
        error == r.error && environment.values == r.table && output == old(output) + r.output
      decreases s, 2
    {
      if IsTruthy(AstNode(s.condition)) {
        error := Execute(s.thenBranch);
      } else {
        assert false;
      }
    }

    /** `visitBlockStmt`: a fresh environment enclosing the current one is
        made and handed to `executeBlock`. */
    method VisitBlock(s: Stmt) returns (error: Option<RuntimeError>)
      requires s.Block? && environment.enclosing == null
      modifies this`environment, this`output, environment
      ensures environment == old(environment)
      ensures var r := Exec(arith, s, old(environment.values));
        error == r.error && environment.values == r.table && output == old(output) + r.output
      decreases s, 2
    {
      var child := new Environment.Nested(environment);
      error := ExecuteBlock(s.statements, child);
    }

    /** `executeBlock`: the statements run in the current environment, the
        one it is given is never installed, and the current one is put back
        however the block ends. */
    method ExecuteBlock(statements: seq<Stmt>, blockEnvironment: Environment) returns (error: Option<RuntimeError>)
      requires environment.enclosing == null
      modifies this`environment, this`output, environment
      ensures environment == old(environment)
      ensures var r := ExecAll(arith, statements, old(environment.values));
        error == r.error && environment.values == r.table && output == old(output) + r.output
      decreases Block(statements), 1
    {
      var previous := environment;
      error := ExecuteAll(statements);
      environment := previous;
    }

    /** The loop `executeBlock` and `interpret` share: the statements in
        order until one raises a RuntimeError. */
    method ExecuteAll(statements: seq<Stmt>) returns (error: Option<RuntimeError>)
      requires environment.enclosing == null
      modifies this`environment, this`output, environment
      ensures environment == old(environment)
      ensures var r := ExecAll(arith, statements, old(environment.values));
        error == r.error && environment.values == r.table && output == old(output) + r.output
      decreases Block(statements), 0
    {
      for i := 0 to |statements|
        invariant environment == old(environment)
        invariant var r := ExecAll(arith, statements[..i], old(environment.values));
          r.error.None? && environment.values == r.table && output == old(output) + r.output
      {
        ghost var prefix := ExecAll(arith, statements[..i], old(environment.values));
        ExecAllStep(arith, statements, i, old(environment.values));
        error := Execute(statements[i]);
        ghost var next := Exec(arith, statements[i], prefix.table);
        Associative(old(output), prefix.output, next.output);
        if error.Some? {
          ExecAllStops(arith, statements, i + 1, old(environment.values));
          return;
        }
      }
      assert statements[..|statements|] == statements;
      error := None;
    }

    /** `interpret`: the statements in order; the first RuntimeError ends
        the run and is reported once. */
    method Interpret(statements: seq<Stmt>)
      requires environment.enclosing == null
      modifies this`environment, this`output, this`reported, environment
      ensures environment == old(environment)
      ensures var r := ExecAll(arith, statements, old(environment.values));
        environment.values == r.table && output == old(output) + r.output &&
        reported == old(reported) + OptionToSeq(r.error)
    {
      var error := ExecuteAll(statements);
      if error.Some? {
        reported := reported + [error.value];
      }
    }
  }
}
