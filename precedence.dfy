/**
 * Precedence and associativity of the expression grammar, stated as a round
 * trip: every tree in which each binary operator has operands of the right
 * precedence and leans to the left is exactly what the parser builds from the
 * tree's tokens, and, conversely, every tree the parser builds is such a
 * tree, spelled by the tokens it consumed. Unary operators nest to the right,
 * groupings restart at the lowest level, and the parse stops at the first
 * token that cannot continue. The tokens need only agree with a rendering in
 * what the parser reads of them, so the statements hold for scanned tokens.
 */
module Precedence {
  import opened Values
  import opened Tokens
  import opened Ast
  import opened Grammar

  /** The binding strength of an expression's outermost node: the level of a
      binary operator, 5 for unary, 6 for anything primary. */
  function Level(e: Expr): nat
  {
    match e
    case Binary(_, op, _) => BinaryLevel(op.kind)
    case Unary(_, _) => 5
    case _ => 6
  }

  /** The trees the parser can build: binary operators are real operators,
      left operands bind at least as tightly and right operands strictly more
      tightly (left associativity); unary operators are "!" or "-". */
  predicate Canonical(e: Expr)
  {
    match e
    case Literal(_) => true
    case Grouping(x) => Canonical(x)
    case Unary(op, x) => op.kind in {BANG, MINUS} && Canonical(x) && Level(x) >= 5
    case Binary(l, op, r) =>
      1 <= BinaryLevel(op.kind) && Canonical(l) && Canonical(r)
      && Level(l) >= BinaryLevel(op.kind) && Level(r) > BinaryLevel(op.kind)
    case Variable(_) => false
    case Assign(_, _) => false
  }

  /** The token kinds `primary` turns into a literal. */
  predicate IsLiteral(t: Token)
  {
    t.kind in {NUMBER, STRING, TRUE, FALSE, NIL}
  }

  /** The value `primary` gives a literal token: the keyword's value, or the
      literal the scanner stored. */
  function LiteralValue(t: Token): Value
  {
    match t.kind
    case TRUE => Bool(true)
    case FALSE => Bool(false)
    case NIL => Nil
    case _ => t.literal
  }

  /** A token a literal value is written as. Its lexeme and line are
      immaterial: any token that `Fits` it parses the same. */
  function LiteralToken(v: Value): (t: Token)
    ensures IsLiteral(t) && LiteralValue(t) == v
  {
    match v
    case Nil => Token(NIL, "nil", Nil, 1)
    case Bool(b) => if b then Token(TRUE, "true", Nil, 1) else Token(FALSE, "false", Nil, 1)
    case Num(_) => Token(NUMBER, "", v, 1)
    case Str(s) => Token(STRING, "\"" + s + "\"", v, 1)
  }

  const LeftParen := Token(LEFT_PAREN, "(", Nil, 1)
  const RightParen := Token(RIGHT_PAREN, ")", Nil, 1)

  /** The tokens of an expression, operators being the tree's own tokens. */
  function Render(e: Expr): seq<Token>
  {
    match e
    case Literal(v) => [LiteralToken(v)]
    case Grouping(x) => [LeftParen] + Render(x) + [RightParen]
    case Unary(op, x) => [op] + Render(x)
    case Binary(l, op, r) => Render(l) + [op] + Render(r)
    case Variable(name) => [name]
    case Assign(name, x) => [name, Token(EQUAL, "=", Nil, 1)] + Render(x)
  }

  /** What the parser reads of the token standing where `u` is rendered: a
      literal's value, a parenthesis's kind, and an operator whole (it goes
      into the tree). Lexemes and lines of the others are never read. */
  predicate Fits(t: Token, u: Token)
  {
    if IsLiteral(u) then IsLiteral(t) && LiteralValue(t) == LiteralValue(u)
    else if u.kind == LEFT_PAREN || u.kind == RIGHT_PAREN then t.kind == u.kind
    else t == u
  }

  /** The `i`-th token of `s`; the only term that `At` is instantiated on. */
  ghost function Expected(s: seq<Token>, i: nat): Token
    requires i < |s|
  {
    s[i]
  }

  /** The tokens of `ts` from `pos` on fit `s`, one by one. */
  ghost predicate At(ts: seq<Token>, pos: nat, s: seq<Token>)
  {
    pos + |s| <= |ts| && forall i {:trigger Expected(s, i)} :: 0 <= i < |s| ==> Fits(ts[pos + i], Expected(s, i))
  }

  lemma AtSplit(ts: seq<Token>, pos: nat, a: seq<Token>, b: seq<Token>)
    requires At(ts, pos, a + b)
    ensures At(ts, pos, a) && At(ts, pos + |a|, b)
  {
    forall i | 0 <= i < |a| ensures Fits(ts[pos + i], Expected(a, i)) {
      assert Expected(a + b, i) == Expected(a, i);
    }
    forall i | 0 <= i < |b| ensures Fits(ts[pos + |a| + i], Expected(b, i)) {
      assert Expected(a + b, |a| + i) == Expected(b, i);
    }
  }

  lemma AtJoin(ts: seq<Token>, pos: nat, a: seq<Token>, b: seq<Token>)
    requires At(ts, pos, a) && At(ts, pos + |a|, b)
    ensures At(ts, pos, a + b)
  {
    forall i | 0 <= i < |a + b| ensures Fits(ts[pos + i], Expected(a + b, i)) {
      if i < |a| {
        assert Expected(a + b, i) == Expected(a, i);
      } else {
        assert Expected(a + b, i) == Expected(b, i - |a|);
      }
    }
  }

  lemma AtHead(ts: seq<Token>, pos: nat, s: seq<Token>)
    requires At(ts, pos, s) && |s| > 0
    ensures Fits(ts[pos], s[0])
  {
    assert Fits(ts[pos + 0], Expected(s, 0));
  }

  lemma AtSingle(ts: seq<Token>, pos: nat, t: Token)
    requires pos < |ts| && Fits(ts[pos], t)
    ensures At(ts, pos, [t])
  {
    assert Expected([t], 0) == t;
  }

  /** A rendered canonical tree that binds at least as tightly as a binary
      level is parsed back whole at that level, provided the token after it is
      not an operator of that level or a tighter one. */
  lemma {:induction false} RenderedLevel(ts: seq<Token>, level: nat, pos: nat, e: Expr, end: nat)
    requires WellEnded(ts) && 1 <= level <= 4
    requires Canonical(e) && Level(e) >= level
    requires At(ts, pos, Render(e)) && end == pos + |Render(e)| && end < |ts|
    requires BinaryLevel(ts[end].kind) < level
    ensures ParseLevel(ts, level, pos) == Parsed(e, end)
    decreases e, 4 * (5 - level) + 3
  {
    LoopsOverRendered(ts, level, pos, e, end);
    LevelRestStop(ts, level, e, end);
  }

  /** The loop of a binary level parses a rendered canonical tree of that level
      or tighter as its left spine, whatever operator of that level follows. */
  lemma {:induction false} LoopsOverRendered(ts: seq<Token>, level: nat, pos: nat, e: Expr, end: nat)
    requires WellEnded(ts) && 1 <= level <= 4
    requires Canonical(e) && Level(e) >= level
    requires At(ts, pos, Render(e)) && end == pos + |Render(e)| && end < |ts|
    requires BinaryLevel(ts[end].kind) <= level
    ensures ParseLevel(ts, level, pos) == LevelRest(ts, level, e, end)
    decreases e, 4 * (5 - level) + 2
  {
    if Level(e) > level {
      RenderedOperand(ts, level, pos, e, end);
      LevelStart(ts, level, pos, e, end);
    } else {
      LoopsOverBinary(ts, level, pos, e, end);
    }
  }

  /** The left-spine step: `l op r` at the level of `op` is `l`, then one turn
      of the loop that consumes `op r`. */
  lemma {:induction false} LoopsOverBinary(ts: seq<Token>, level: nat, pos: nat, e: Expr, end: nat)
    requires WellEnded(ts) && 1 <= level <= 4
    requires Canonical(e) && Level(e) == level
    requires At(ts, pos, Render(e)) && end == pos + |Render(e)| && end < |ts|
    requires BinaryLevel(ts[end].kind) <= level
    ensures ParseLevel(ts, level, pos) == LevelRest(ts, level, e, end)
    decreases e, 4 * (5 - level) + 1
  {
    var endLeft := BinaryParts(ts, level, pos, e, end);
    RenderedOperand(ts, level, endLeft + 1, e.right, end);
    LoopsOverRendered(ts, level, pos, e.left, endLeft);
    BinaryStep(ts, level, pos, e, endLeft, end);
  }

  /** How a rendered canonical binary tree at its own level splits into the
      rendered left operand, the operator and the rendered right operand. */
  lemma BinaryParts(ts: seq<Token>, level: nat, pos: nat, e: Expr, end: nat) returns (endLeft: nat)
    requires 1 <= level <= 4 && Canonical(e) && Level(e) == level
    requires At(ts, pos, Render(e)) && end == pos + |Render(e)| && end < |ts|
    ensures e.Binary? && endLeft == pos + |Render(e.left)| && endLeft + 1 < |ts|
    ensures ts[endLeft] == e.operator && BinaryLevel(e.operator.kind) == level
    ensures Canonical(e.left) && Level(e.left) >= level && At(ts, pos, Render(e.left))
    ensures Canonical(e.right) && Level(e.right) > level && At(ts, endLeft + 1, Render(e.right))
    ensures end == endLeft + 1 + |Render(e.right)|
  {
    var Binary(l, op, r) := e;
    endLeft := pos + |Render(l)|;
    AtSplit(ts, pos, Render(l) + [op], Render(r));
    AtSplit(ts, pos, Render(l), [op]);
    AtHead(ts, endLeft, [op]);
  }

  lemma BinaryStep(ts: seq<Token>, level: nat, pos: nat, e: Expr, endLeft: nat, end: nat)
    requires WellEnded(ts) && pos < |ts| && endLeft + 1 < |ts| && 1 <= level <= 4
    requires e.Binary? && ts[endLeft] == e.operator && BinaryLevel(e.operator.kind) == level
    requires ParseLevel(ts, level, pos) == LevelRest(ts, level, e.left, endLeft)
    requires Operand(ts, level, endLeft + 1) == Parsed(e.right, end)
    ensures ParseLevel(ts, level, pos) == LevelRest(ts, level, e, end)
  {
    LevelRestStep(ts, level, e.left, endLeft, e.right, end);
  }

  /** The operand of a binary level parses back a rendered canonical tree
      that binds more tightly than that level. */
  lemma {:induction false} RenderedOperand(ts: seq<Token>, level: nat, pos: nat, e: Expr, end: nat)
    requires WellEnded(ts) && 1 <= level <= 4
    requires Canonical(e) && Level(e) > level
    requires At(ts, pos, Render(e)) && end == pos + |Render(e)| && end < |ts|
    requires BinaryLevel(ts[end].kind) <= level
    ensures Operand(ts, level, pos) == Parsed(e, end)
    decreases e, 4 * (5 - level)
  {
    if level == 4 {
      RenderedUnary(ts, pos, e, end);
    } else {
      RenderedLevel(ts, level + 1, pos, e, end);
    }
  }

  /** `unary` parses back a rendered canonical unary or primary tree. */
  lemma {:induction false} RenderedUnary(ts: seq<Token>, pos: nat, e: Expr, end: nat)
    requires WellEnded(ts) && Canonical(e) && Level(e) >= 5
    requires At(ts, pos, Render(e)) && end == pos + |Render(e)| && end < |ts|
    ensures ParseUnary(ts, pos) == Parsed(e, end)
    decreases e, 2
  {
    if e.Unary? {
      UnaryParts(ts, pos, e, end);
      RenderedUnary(ts, pos + 1, e.right, end);
      UnaryStep(ts, pos, e, end);
    } else {
      AtHead(ts, pos, Render(e));
      RenderedPrimary(ts, pos, e, end);
    }
  }

  /** How a rendered unary tree splits into its operator and operand. */
  lemma UnaryParts(ts: seq<Token>, pos: nat, e: Expr, end: nat)
    requires e.Unary? && Canonical(e)
    requires At(ts, pos, Render(e)) && end == pos + |Render(e)| && end < |ts|
    ensures ts[pos] == e.operator && e.operator.kind in {BANG, MINUS}
    ensures Canonical(e.right) && Level(e.right) >= 5 && At(ts, pos + 1, Render(e.right))
    ensures end == pos + 1 + |Render(e.right)|
  {
    AtSplit(ts, pos, [e.operator], Render(e.right));
    AtHead(ts, pos, [e.operator]);
  }

  lemma UnaryStep(ts: seq<Token>, pos: nat, e: Expr, end: nat)
    requires WellEnded(ts) && pos + 1 < |ts| && e.Unary?
    requires ts[pos] == e.operator && e.operator.kind in {BANG, MINUS}
    requires ParseUnary(ts, pos + 1) == Parsed(e.right, end)
    ensures ParseUnary(ts, pos) == Parsed(e, end)
  {
  }

  /** `primary` parses back a rendered literal or grouping. */
  lemma {:induction false} RenderedPrimary(ts: seq<Token>, pos: nat, e: Expr, end: nat)
    requires WellEnded(ts) && Canonical(e) && Level(e) == 6
    requires At(ts, pos, Render(e)) && end == pos + |Render(e)| && end < |ts|
    ensures ParsePrimary(ts, pos) == Parsed(e, end)
    decreases e, 1
  {
    if e.Literal? {
      AtHead(ts, pos, Render(e));
      PrimaryLiteral(ts, pos, e.value);
    } else {
      RenderedGrouping(ts, pos, e, end);
    }
  }

  /** `primary` parses back a rendered canonical grouping. */
  lemma {:induction false} RenderedGrouping(ts: seq<Token>, pos: nat, e: Expr, end: nat)
    requires WellEnded(ts) && e.Grouping? && Canonical(e)
    requires At(ts, pos, Render(e)) && end == pos + |Render(e)| && end < |ts|
    ensures ParsePrimary(ts, pos) == Parsed(e, end)
    decreases e, 0
  {
    var close := GroupingParts(ts, pos, e, end);
    RenderedLevel(ts, 1, pos + 1, e.expression, close);
    PrimaryGrouping(ts, pos, e.expression, close);
  }

  /** How a rendered grouping splits into its parentheses and contents. */
  lemma GroupingParts(ts: seq<Token>, pos: nat, e: Expr, end: nat) returns (close: nat)
    requires e.Grouping? && Canonical(e)
    requires At(ts, pos, Render(e)) && end == pos + |Render(e)| && end < |ts|
    ensures Canonical(e.expression) && At(ts, pos + 1, Render(e.expression))
    ensures close == pos + 1 + |Render(e.expression)| && end == close + 1
    ensures ts[pos].kind == LEFT_PAREN && ts[close].kind == RIGHT_PAREN
  {
    var x := e.expression;
    close := pos + 1 + |Render(x)|;
    AtSplit(ts, pos, [LeftParen] + Render(x), [RightParen]);
    AtSplit(ts, pos, [LeftParen], Render(x));
    AtHead(ts, pos, [LeftParen]);
    AtHead(ts, close, [RightParen]);
  }

  lemma PrimaryLiteral(ts: seq<Token>, pos: nat, v: Value)
    requires WellEnded(ts) && pos < |ts| && Fits(ts[pos], LiteralToken(v))
    ensures ParsePrimary(ts, pos) == Parsed(Literal(v), pos + 1)
  {
  }

  lemma PrimaryGrouping(ts: seq<Token>, pos: nat, x: Expr, n: nat)
    requires WellEnded(ts) && pos + 1 < |ts| && n < |ts|
    requires ts[pos].kind == LEFT_PAREN && ts[n].kind == RIGHT_PAREN
    requires ParseLevel(ts, 1, pos + 1) == Parsed(x, n)
    ensures ParsePrimary(ts, pos) == Parsed(Grouping(x), n + 1)
  {
  }

  /** The tokens from `pos` up to `n` spell the canonical tree `e`. */
  ghost predicate Spells(ts: seq<Token>, pos: nat, e: Expr, n: nat)
  {
    Canonical(e) && At(ts, pos, Render(e)) && n == pos + |Render(e)|
  }

  /** Round trip: wherever the tokens of a canonical tree stand, followed
      by a token that is no binary operator, the parser reads the tree back
      and stops after it. */
  lemma ExpressionRoundTrip(e: Expr, ts: seq<Token>, pos: nat, n: nat)
    requires WellEnded(ts) && Spells(ts, pos, e, n) && n < |ts| && BinaryLevel(ts[n].kind) == 0
    ensures ParseExpression(ts, pos) == Parsed(e, n)
  {
    RenderedLevel(ts, 1, pos, e, n);
  }

  /** The converse, level by level: every tree a binary level returns is
      canonical, binds at least as tightly as the level, is spelled by the
      tokens consumed, and the token after it is no operator of that level
      or a tighter one. */
  lemma {:induction false} LevelSpelled(ts: seq<Token>, level: nat, pos: nat)
    requires WellEnded(ts) && pos < |ts| && 1 <= level <= 4
    ensures var r := ParseLevel(ts, level, pos);
      r.Parsed? ==> Spells(ts, pos, r.value, r.next) && Level(r.value) >= level && BinaryLevel(ts[r.next].kind) < level
    decreases |ts| - pos, 2 * (5 - level) + 2
  {
    OperandSpelled(ts, level, pos);
    match Operand(ts, level, pos)
    case Failed(_, _) =>
    case Parsed(left, n) => RestSpelled(ts, level, pos, left, n);
  }

  lemma {:induction false} OperandSpelled(ts: seq<Token>, level: nat, pos: nat)
    requires WellEnded(ts) && pos < |ts| && 1 <= level <= 4
    ensures var r := Operand(ts, level, pos);
      r.Parsed? ==> Spells(ts, pos, r.value, r.next) && Level(r.value) > level && BinaryLevel(ts[r.next].kind) <= level
    decreases |ts| - pos, 2 * (5 - level) + 1
  {
    if level == 4 {
      UnarySpelled(ts, pos);
    } else {
      LevelSpelled(ts, level + 1, pos);
    }
  }

  /** The loop of a binary level keeps the left spine spelled by the tokens
      from `start`. */
  lemma {:induction false} RestSpelled(ts: seq<Token>, level: nat, start: nat, left: Expr, pos: nat)
    requires WellEnded(ts) && pos < |ts| && 1 <= level <= 4
    requires Spells(ts, start, left, pos) && Level(left) >= level && BinaryLevel(ts[pos].kind) <= level
    ensures var r := LevelRest(ts, level, left, pos);
      r.Parsed? ==> Spells(ts, start, r.value, r.next) && Level(r.value) >= level && BinaryLevel(ts[r.next].kind) < level
    decreases |ts| - pos, 0
  {
    if BinaryLevel(ts[pos].kind) == level {
      OperandSpelled(ts, level, pos + 1);
      var o := Operand(ts, level, pos + 1);
      if o.Parsed? {
        var e := JoinBinary(ts, level, start, left, pos, o.value, o.next);
        LevelRestStep(ts, level, left, pos, o.value, o.next);
        RestSpelled(ts, level, start, e, o.next);
      } else {
        LevelRestFail(ts, level, left, pos);
      }
    } else {
      LevelRestStop(ts, level, left, pos);
    }
  }

  /** `left op right`, each spelled in turn, spells the binary tree. */
  lemma JoinBinary(ts: seq<Token>, level: nat, start: nat, left: Expr, pos: nat, right: Expr, n: nat) returns (e: Expr)
    requires pos < |ts| && 1 <= level <= 4 && BinaryLevel(ts[pos].kind) == level
    requires Spells(ts, start, left, pos) && Level(left) >= level
    requires Spells(ts, pos + 1, right, n) && Level(right) > level
    ensures e == Binary(left, ts[pos], right) && Spells(ts, start, e, n) && Level(e) == level
  {
    e := Binary(left, ts[pos], right);
    AtSingle(ts, pos, ts[pos]);
    AtJoin(ts, start, Render(left), [ts[pos]]);
    AtJoin(ts, start, Render(left) + [ts[pos]], Render(right));
  }

  lemma {:induction false} UnarySpelled(ts: seq<Token>, pos: nat)
    requires WellEnded(ts) && pos < |ts|
    ensures var r := ParseUnary(ts, pos);
      r.Parsed? ==> Spells(ts, pos, r.value, r.next) && Level(r.value) >= 5
    decreases |ts| - pos, 2
  {
    if ts[pos].kind == BANG || ts[pos].kind == MINUS {
      UnarySpelled(ts, pos + 1);
      match ParseUnary(ts, pos + 1)
      case Failed(_, _) =>
      case Parsed(right, n) =>
        AtSingle(ts, pos, ts[pos]);
        AtJoin(ts, pos, [ts[pos]], Render(right));
    } else {
      PrimarySpelled(ts, pos);
    }
  }

  lemma {:induction false} PrimarySpelled(ts: seq<Token>, pos: nat)
    requires WellEnded(ts) && pos < |ts|
    ensures var r := ParsePrimary(ts, pos);
      r.Parsed? ==> Spells(ts, pos, r.value, r.next) && Level(r.value) == 6
    decreases |ts| - pos, 1
  {
    if IsLiteral(ts[pos]) {
      LiteralSpelled(ts, pos);
    } else if ts[pos].kind == LEFT_PAREN {
      GroupingSpelled(ts, pos);
    }
  }

  lemma LiteralSpelled(ts: seq<Token>, pos: nat)
    requires WellEnded(ts) && pos < |ts| && IsLiteral(ts[pos])
    ensures ParsePrimary(ts, pos) == Parsed(Literal(LiteralValue(ts[pos])), pos + 1)
    ensures Spells(ts, pos, Literal(LiteralValue(ts[pos])), pos + 1)
  {
    AtSingle(ts, pos, LiteralToken(LiteralValue(ts[pos])));
  }

  lemma {:induction false} GroupingSpelled(ts: seq<Token>, pos: nat)
    requires WellEnded(ts) && pos < |ts| && ts[pos].kind == LEFT_PAREN
    ensures var r := ParsePrimary(ts, pos);
      r.Parsed? ==> Spells(ts, pos, r.value, r.next) && r.value.Grouping?
    decreases |ts| - pos, 0
  {
    LevelSpelled(ts, 1, pos + 1);
    var x := ParseExpression(ts, pos + 1);
    if x.Failed? {
      GroupingFails(ts, pos);
    } else if ts[x.next].kind == RIGHT_PAREN {
      JoinGrouping(ts, pos, x.value, x.next);
      GroupingClosed(ts, pos, x.value, x.next);
    } else {
      GroupingUnclosed(ts, pos, x.value, x.next);
    }
  }

  /** `(` x `)`, each spelled in turn, spells the grouping. */
  lemma JoinGrouping(ts: seq<Token>, pos: nat, x: Expr, n: nat)
    requires pos < n < |ts| && ts[pos].kind == LEFT_PAREN && ts[n].kind == RIGHT_PAREN
    requires Spells(ts, pos + 1, x, n)
    ensures Spells(ts, pos, Grouping(x), n + 1)
  {
    AtSingle(ts, pos, LeftParen);
    AtSingle(ts, n, RightParen);
    AtJoin(ts, pos, [LeftParen], Render(x));
    AtJoin(ts, pos, [LeftParen] + Render(x), [RightParen]);
  }

  /** Parsing an expression and rendering a canonical tree are inverse: the
      parser returns `e` ending at `n` exactly when the tokens from `pos` to
      `n` spell the canonical tree `e` and the token at `n` is no binary
      operator. */
  lemma ExpressionIff(ts: seq<Token>, pos: nat, e: Expr, n: nat)
    requires WellEnded(ts) && pos < |ts| && n < |ts|
    ensures ParseExpression(ts, pos) == Parsed(e, n) <==> Spells(ts, pos, e, n) && BinaryLevel(ts[n].kind) == 0
  {
    LevelSpelled(ts, 1, pos);
    if Spells(ts, pos, e, n) && BinaryLevel(ts[n].kind) == 0 {
      ExpressionRoundTrip(e, ts, pos, n);
    }
  }

  /** `print` e `;` reads back as the print statement. */
  lemma PrintRoundTrip(e: Expr, ts: seq<Token>, pos: nat, n: nat)
    requires WellEnded(ts) && pos < |ts| && ts[pos].kind == PRINT
    requires Spells(ts, pos + 1, e, n) && n < |ts| && ts[n].kind == SEMICOLON
    ensures ParseStatement(ts, pos) == Parsed(Print(e), n + 1)
  {
    ExpressionRoundTrip(e, ts, pos + 1, n);
    StatementClosed(ts, pos, e, n);
  }

  /** e `;` reads back as the expression statement. */
  lemma ExpressionStatementRoundTrip(e: Expr, ts: seq<Token>, pos: nat, n: nat)
    requires WellEnded(ts) && Spells(ts, pos, e, n) && n < |ts| && ts[n].kind == SEMICOLON
    ensures ParseStatement(ts, pos) == Parsed(Expression(e), n + 1)
  {
    RenderedFirst(e);
    AtHead(ts, pos, Render(e));
    ExpressionRoundTrip(e, ts, pos, n);
    StatementClosed(ts, pos, e, n);
  }

  /** A canonical tree never starts with "print". */
  lemma {:induction false} RenderedFirst(e: Expr)
    requires Canonical(e)
    ensures |Render(e)| > 0 && Render(e)[0].kind in {NUMBER, STRING, TRUE, FALSE, NIL, LEFT_PAREN, BANG, MINUS}
  {
    match e
    case Literal(_) =>
    case Grouping(_) =>
    case Unary(_, _) =>
    case Binary(l, op, r) =>
      RenderedFirst(l);
      assert Render(e)[0] == Render(l)[0];
  }

  /** Proof helper for the three grouping lemmas below: literals sit at the
      primary level and binary operators at level 4 or lower. */
  lemma LiteralsArePrimary(a: Token, b: Token, c: Token, op1: Token, op2: Token)
    ensures Level(Literal(LiteralValue(a))) == Level(Literal(LiteralValue(b))) == Level(Literal(LiteralValue(c))) == 6
    ensures BinaryLevel(op1.kind) <= 4 && BinaryLevel(op2.kind) <= 4
  {
  }

  /** The five tokens `a op1 b op2 c` fit the rendering of a tree with those
      literals and operators. */
  lemma FiveFit(ts: seq<Token>, e: Expr, a: Token, op1: Token, b: Token, op2: Token, c: Token)
    requires IsLiteral(a) && IsLiteral(b) && IsLiteral(c)
    requires |ts| >= 5 && ts[..5] == [a, op1, b, op2, c]
    requires Render(e) == [LiteralToken(LiteralValue(a)), op1, LiteralToken(LiteralValue(b)), op2, LiteralToken(LiteralValue(c))]
    ensures At(ts, 0, Render(e))
  {
    var r := Render(e);
    assert ts[0] == a && ts[1] == op1 && ts[2] == b && ts[3] == op2 && ts[4] == c;
    assert Fits(ts[0], Expected(r, 0)) && Fits(ts[1], Expected(r, 1)) && Fits(ts[2], Expected(r, 2));
    assert Fits(ts[3], Expected(r, 3)) && Fits(ts[4], Expected(r, 4));
  }

  /** `a op1 b op2 c` with operators of the same level groups to the left. */
  lemma LeftAssociative(a: Token, op1: Token, b: Token, op2: Token, c: Token, eof: Token)
    requires IsLiteral(a) && IsLiteral(b) && IsLiteral(c)
    requires 1 <= BinaryLevel(op1.kind) == BinaryLevel(op2.kind) && eof.kind == EOF
    ensures ParseExpression([a, op1, b, op2, c, eof], 0)
         == Parsed(Binary(Binary(Literal(LiteralValue(a)), op1, Literal(LiteralValue(b))), op2, Literal(LiteralValue(c))), 5)
  {
    var ts := [a, op1, b, op2, c, eof];
    var e := Binary(Binary(Literal(LiteralValue(a)), op1, Literal(LiteralValue(b))), op2, Literal(LiteralValue(c)));
    assert Render(e.left) == [LiteralToken(LiteralValue(a)), op1, LiteralToken(LiteralValue(b))];
    FiveFit(ts, e, a, op1, b, op2, c);
    LiteralsArePrimary(a, b, c, op1, op2);
    ExpressionRoundTrip(e, ts, 0, |Render(e)|);
  }

  /** `a op1 b op2 c` where op2 binds more tightly groups to the right. */
  lemma TighterOnTheRight(a: Token, op1: Token, b: Token, op2: Token, c: Token, eof: Token)
    requires IsLiteral(a) && IsLiteral(b) && IsLiteral(c)
    requires 1 <= BinaryLevel(op1.kind) < BinaryLevel(op2.kind) && eof.kind == EOF
    ensures ParseExpression([a, op1, b, op2, c, eof], 0)
         == Parsed(Binary(Literal(LiteralValue(a)), op1, Binary(Literal(LiteralValue(b)), op2, Literal(LiteralValue(c)))), 5)
  {
    var ts := [a, op1, b, op2, c, eof];
    var e := Binary(Literal(LiteralValue(a)), op1, Binary(Literal(LiteralValue(b)), op2, Literal(LiteralValue(c))));
    assert Render(e.right) == [LiteralToken(LiteralValue(b)), op2, LiteralToken(LiteralValue(c))];
    FiveFit(ts, e, a, op1, b, op2, c);
    LiteralsArePrimary(a, b, c, op1, op2);
    ExpressionRoundTrip(e, ts, 0, |Render(e)|);
  }

  /** `a op1 b op2 c` where op1 binds more tightly groups to the left. */
  lemma TighterOnTheLeft(a: Token, op1: Token, b: Token, op2: Token, c: Token, eof: Token)
    requires IsLiteral(a) && IsLiteral(b) && IsLiteral(c)
    requires 1 <= BinaryLevel(op2.kind) < BinaryLevel(op1.kind) && eof.kind == EOF
    ensures ParseExpression([a, op1, b, op2, c, eof], 0)
         == Parsed(Binary(Binary(Literal(LiteralValue(a)), op1, Literal(LiteralValue(b))), op2, Literal(LiteralValue(c))), 5)
  {
    var ts := [a, op1, b, op2, c, eof];
    var e := Binary(Binary(Literal(LiteralValue(a)), op1, Literal(LiteralValue(b))), op2, Literal(LiteralValue(c)));
    assert Render(e.left) == [LiteralToken(LiteralValue(a)), op1, LiteralToken(LiteralValue(b))];
    FiveFit(ts, e, a, op1, b, op2, c);
    LiteralsArePrimary(a, b, c, op1, op2);
    ExpressionRoundTrip(e, ts, 0, |Render(e)|);
  }

  /** Prefix operators nest to the right: `op1 op2 a` is `op1 (op2 a)`. */
  lemma UnaryNestsRight(op1: Token, op2: Token, a: Token, eof: Token)
    requires op1.kind in {BANG, MINUS} && op2.kind in {BANG, MINUS} && IsLiteral(a) && eof.kind == EOF
    ensures ParseExpression([op1, op2, a, eof], 0)
         == Parsed(Unary(op1, Unary(op2, Literal(LiteralValue(a)))), 3)
  {
    var ts := [op1, op2, a, eof];
    var e := Unary(op1, Unary(op2, Literal(LiteralValue(a))));
    assert Render(e.right) == [op2, LiteralToken(LiteralValue(a))];
    var r := Render(e);
    assert r == [op1, op2, LiteralToken(LiteralValue(a))];
    assert Fits(ts[0], Expected(r, 0)) && Fits(ts[1], Expected(r, 1)) && Fits(ts[2], Expected(r, 2));
    assert Level(Literal(LiteralValue(a))) == 6;
    ExpressionRoundTrip(e, ts, 0, |Render(e)|);
  }
}
