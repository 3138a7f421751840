/**
 * The recursive-descent parser as the source writes it: an object holding the
 * token list and a cursor, one method per grammar rule, binary levels as
 * `while (match(...))` loops. Each method is proved to compute exactly what
 * the corresponding grammar function of `Grammar` computes from the cursor
 * position it starts at, and to report a diagnostic exactly when that
 * function fails.
 */
module Parsing {
  import opened Values
  import opened Tokens
  import opened Ast
  import opened Grammar

  /** The exception `error` returns and the rule methods throw; it carries no
      data, the diagnostic having been reported already. */
  datatype ParseError = ParseError

  /** A rule method agrees with grammar outcome `p`: on success it returns the
      value and leaves the cursor after it, reporting nothing; on failure it
      throws with the cursor where the error was raised, having reported one
      diagnostic for the token there. */
  ghost predicate Agrees<T>(ts: seq<Token>, p: Parsed<T>, r: Result<T, ParseError>,
                            current: nat, reported: seq<Diagnostic>, before: seq<Diagnostic>)
  {
    match p
    case Parsed(v, n) => r == Ok(v) && current == n && reported == before
    case Failed(m, at) =>
      r.Err? && current == at && at < |ts| && reported == before + [ErrorAt(ts[at], MessageText(m))]
  }

  /** The statements parsed so far in front of the outcome of the rest. */
  function Prepend(done: seq<Stmt>, p: Parsed<seq<Stmt>>): Parsed<seq<Stmt>>
  {
    match p
    case Parsed(rest, n) => Parsed(done + rest, n)
    case Failed(m, at) => Failed(m, at)
  }

  /** The kinds before which `synchronize` stops: they start a statement. */
  const StatementStarts: set<TokenType> := {CLASS, FUN, VAR, FOR, IF, WHILE, PRINT, RETURN}

  /** `synchronize` does not stop with the cursor at `k`: neither at EOF, nor
      after a ";", nor before a statement keyword. */
  predicate PassesOver(ts: seq<Token>, k: nat)
    requires 0 < k < |ts|
  {
    ts[k].kind != EOF && ts[k - 1].kind != SEMICOLON && ts[k].kind !in StatementStarts
  }

  lemma PrependStep(done: seq<Stmt>, s: Stmt, p: Parsed<seq<Stmt>>)
    ensures Prepend(done, Prepend([s], p)) == Prepend(done + [s], p)
  {
    if p.Parsed? {
      assert done + ([s] + p.value) == (done + [s]) + p.value;
    }
  }

  class Parser {
    const tokens: seq<Token>
    var current: nat
    /** The diagnostics handed to `Lox.error`, oldest first. */
    var reported: seq<Diagnostic>

    ghost predicate Valid()
      reads this
    {
      WellEnded(tokens) && current < |tokens|
    }

    constructor (tokens: seq<Token>)
      requires WellEnded(tokens)
      ensures Valid() && this.tokens == tokens && current == 0 && reported == []
    {
      this.tokens := tokens;
      current := 0;
      reported := [];
    }

    /** The token at the cursor; at the end of input, the EOF token. */
    function Peek(): (t: Token)
      reads this
      requires Valid()
      ensures t == tokens[current]
      ensures current == |tokens| - 1 ==> t.kind == EOF
    {
      tokens[current]
    }

    /** `check` compares the current kind only: its end-of-input guard is
        commented out, so `check(EOF)` holds at the end. */
    function Check(kind: TokenType): (b: bool)
      reads this
      requires Valid()
      ensures b <==> tokens[current].kind == kind
      ensures current == |tokens| - 1 ==> (b <==> kind == EOF)
    {
      Peek().kind == kind
    }

    /** The cursor is on an EOF token, which the last token always is. */
    function IsAtEnd(): (b: bool)
      reads this
      requires Valid()
      ensures b <==> tokens[current].kind == EOF
      ensures current == |tokens| - 1 ==> b
    {
      Check(EOF)
    }

    /** The token just consumed. */
    function Previous(): (t: Token)
      reads this
      requires 0 < current <= |tokens|
      ensures t == tokens[current - 1]
    {
      tokens[current - 1]
    }

    /** Moves past the current token unless it is EOF and returns the token
        before the cursor; at EOF the cursor must not be at the start. */
    method Advance() returns (t: Token)
      requires Valid() && (!IsAtEnd() || current > 0)
      modifies this`current
      ensures Valid()
      ensures current == if old(IsAtEnd()) then old(current) else old(current) + 1
      ensures t == tokens[current - 1]
    {
      if !IsAtEnd() {
        current := current + 1;
      }
      t := Previous();
    }

    /** Consumes the current token when its kind is one of `kinds`. */
    method Match(kinds: seq<TokenType>) returns (matched: bool)
      requires Valid() && (IsAtEnd() && EOF in kinds ==> current > 0)
      modifies this`current
      ensures Valid()
      ensures matched == (old(Peek().kind) in kinds)
      ensures current == if matched && !old(IsAtEnd()) then old(current) + 1 else old(current)
    {
      for i := 0 to |kinds|
        invariant current == old(current)
        invariant Peek().kind !in kinds[..i]
      {
        if Check(kinds[i]) {
          var _ := Advance();
          return true;
        }
      }
      return false;
    }

    /** Reports `message` at `token` and returns the exception to throw. */
    method Error(token: Token, message: ParseMessage) returns (e: ParseError)
      modifies this`reported
      ensures reported == old(reported) + [ErrorAt(token, MessageText(message))]
    {
      reported := reported + [ErrorAt(token, MessageText(message))];
      e := ParseError;
    }

    /** Consumes a token of kind `kind`, or reports `message` at the current
        token and throws. */
    method Consume(kind: TokenType, message: ParseMessage) returns (r: Result<Token, ParseError>)
      requires Valid() && (IsAtEnd() && kind == EOF ==> current > 0)
      modifies this`current, this`reported
      ensures Valid()
      ensures old(Check(kind)) ==> r.Ok? && reported == old(reported)
                                   && current == (if kind == EOF then old(current) else old(current) + 1)
                                   && 0 < current && r.value == tokens[current - 1]
      ensures !old(Check(kind)) ==> r.Err? && current == old(current)
                                    && reported == old(reported) + [ErrorAt(old(Peek()), MessageText(message))]
    {
      if Check(kind) {
        var t := Advance();
        return Ok(t);
      }
      var e := Error(Peek(), message);
      return Err(e);
    }

    /** Skips tokens until just after a ";" or just before a token that starts
        a statement, or until EOF; it always moves past the current token
        unless that is EOF. */
    method Synchronize()
      requires Valid() && (!IsAtEnd() || current > 0)
      modifies this`current
      ensures Valid() && old(current) <= current && 0 < current
      ensures !old(IsAtEnd()) ==> old(current) < current
      ensures IsAtEnd() || Previous().kind == SEMICOLON || Peek().kind in StatementStarts
      ensures forall k :: old(current) < k < current ==> PassesOver(tokens, k)
    {
      var _ := Advance();
      while !IsAtEnd()
        invariant Valid() && old(current) <= current && 0 < current
        invariant !old(IsAtEnd()) ==> old(current) < current
        invariant forall k :: old(current) < k < current ==> PassesOver(tokens, k)
        decreases |tokens| - current
      {
        if Previous().kind == SEMICOLON {
          return;
        }
        if Peek().kind in StatementStarts {
          return;
        }
        var _ := Advance();
      }
    }

    /** program -> statement* EOF, stopping at the first error. */
    method Parse() returns (r: Result<seq<Stmt>, ParseError>)
      requires Valid()
      modifies this`current, this`reported
      ensures Valid() && Agrees(tokens, ParseProgram(tokens, old(current)), r, current, reported, old(reported))
    {
      var statements: seq<Stmt> := [];
      assert Prepend(statements, ParseProgram(tokens, current)) == ParseProgram(tokens, current) by {
        if ParseProgram(tokens, current).Parsed? {
          assert [] + ParseProgram(tokens, current).value == ParseProgram(tokens, current).value;
        }
      }
      while !IsAtEnd()
        invariant Valid() && reported == old(reported)
        invariant ParseProgram(tokens, old(current)) == Prepend(statements, ParseProgram(tokens, current))
        decreases |tokens| - current
      {
        ghost var before := current;
        var s := Statement();
        if s.Err? {
          return Err(s.error);
        }
        assert ParseProgram(tokens, before) == Prepend([s.value], ParseProgram(tokens, current));
        PrependStep(statements, s.value, ParseProgram(tokens, current));
        statements := statements + [s.value];
      }
      assert statements + [] == statements;
      return Ok(statements);
    }

    method Statement() returns (r: Result<Stmt, ParseError>)
      requires Valid()
      modifies this`current, this`reported
      ensures Valid() && Agrees(tokens, ParseStatement(tokens, old(current)), r, current, reported, old(reported))
    {
      var isPrint := Match([PRINT]);
      if isPrint {
        r := PrintStatement();
      } else {
        r := ExpressionStatement();
      }
    }

    method ExpressionStatement() returns (r: Result<Stmt, ParseError>)
      requires Valid()
      modifies this`current, this`reported
      ensures Valid() && Agrees(tokens, ParseStatementBody(tokens, old(current), false), r, current, reported, old(reported))
    {
      var e := Expression();
      if e.Err? {
        return Err(e.error);
      }
      var semicolon := Consume(SEMICOLON, ExpectSemicolon);
      if semicolon.Err? {
        return Err(semicolon.error);
      }
      return Ok(Stmt.Expression(e.value));
    }

    method PrintStatement() returns (r: Result<Stmt, ParseError>)
      requires Valid()
      modifies this`current, this`reported
      ensures Valid() && Agrees(tokens, ParseStatementBody(tokens, old(current), true), r, current, reported, old(reported))
    {
      var e := Expression();
      if e.Err? {
        return Err(e.error);
      }
      var semicolon := Consume(SEMICOLON, ExpectSemicolon);
      if semicolon.Err? {
        return Err(semicolon.error);
      }
      return Ok(Stmt.Print(e.value));
    }

    method Expression() returns (r: Result<Expr, ParseError>)
      requires Valid()
      modifies this`current, this`reported
      ensures Valid() && Agrees(tokens, ParseExpression(tokens, old(current)), r, current, reported, old(reported))
      decreases |tokens| - current, 12
    {
      r := Equality();
    }

    method Equality() returns (r: Result<Expr, ParseError>)
      requires Valid()
      modifies this`current, this`reported
      ensures Valid() && Agrees(tokens, ParseLevel(tokens, 1, old(current)), r, current, reported, old(reported))
      decreases |tokens| - current, 10
    {
      var first := Comparison();
      if first.Err? {
        return first;
      }
      LevelStart(tokens, 1, old(current), first.value, current);
      r := LevelLoop(1, first.value);
    }

    method Comparison() returns (r: Result<Expr, ParseError>)
      requires Valid()
      modifies this`current, this`reported
      ensures Valid() && Agrees(tokens, ParseLevel(tokens, 2, old(current)), r, current, reported, old(reported))
      decreases |tokens| - current, 8
    {
      var first := Term();
      if first.Err? {
        return first;
      }
      LevelStart(tokens, 2, old(current), first.value, current);
      r := LevelLoop(2, first.value);
    }

    method Term() returns (r: Result<Expr, ParseError>)
      requires Valid()
      modifies this`current, this`reported
      ensures Valid() && Agrees(tokens, ParseLevel(tokens, 3, old(current)), r, current, reported, old(reported))
      decreases |tokens| - current, 6
    {
      var first := Factor();
      if first.Err? {
        return first;
      }
      LevelStart(tokens, 3, old(current), first.value, current);
      r := LevelLoop(3, first.value);
    }

    method Factor() returns (r: Result<Expr, ParseError>)
      requires Valid()
      modifies this`current, this`reported
      ensures Valid() && Agrees(tokens, ParseLevel(tokens, 4, old(current)), r, current, reported, old(reported))
      decreases |tokens| - current, 4
    {
      var first := Unary();
      if first.Err? {
        return first;
      }
      LevelStart(tokens, 4, old(current), first.value, current);
      r := LevelLoop(4, first.value);
    }

    /** The operand method of a binary level: the next level's method, or
        `unary` below `factor`. */
    method Operand(level: nat) returns (r: Result<Expr, ParseError>)
      requires Valid() && 1 <= level <= 4
      modifies this`current, this`reported
      ensures Valid() && Agrees(tokens, Grammar.Operand(tokens, level, old(current)), r, current, reported, old(reported))
      decreases |tokens| - current, 2 * (5 - level) + 1
    {
      if level == 1 {
        r := Comparison();
      } else if level == 2 {
        r := Term();
      } else if level == 3 {
        r := Factor();
      } else {
        r := Unary();
      }
    }

    /** The loop the four binary levels share: while the current token is one
        of the level's operators, consume it and an operand and fold them into
        a left-nested `Binary`. */
    method LevelLoop(level: nat, left: Expr) returns (r: Result<Expr, ParseError>)
      requires Valid() && 1 <= level <= 4
      modifies this`current, this`reported
      ensures Valid() && Agrees(tokens, LevelRest(tokens, level, left, old(current)), r, current, reported, old(reported))
      decreases |tokens| - current, 2 * (5 - level) + 1
    {
      var e := left;
      while true
        invariant Valid() && old(current) <= current && reported == old(reported)
        invariant LevelRest(tokens, level, e, current) == LevelRest(tokens, level, left, old(current))
        decreases |tokens| - current
      {
        var before := current;
        var matched := Match(Ops(level));
        OpsLevel(tokens[before].kind, level);
        if !matched {
          LevelRestStop(tokens, level, e, current);
          return Ok(e);
        }
        var next := Extend(level, e, before);
        if next.Err? {
          return next;
        }
        e := next.value;
      }
    }

    /** The body of a level's loop once an operator at `before` has been
        matched: parse the right operand and fold it into `Binary`. */
    method Extend(level: nat, left: Expr, before: nat) returns (r: Result<Expr, ParseError>)
      requires Valid() && 1 <= level <= 4 && current == before + 1
      requires BinaryLevel(tokens[before].kind) == level
      modifies this`current, this`reported
      ensures Valid()
      ensures r.Err? ==> Agrees(tokens, LevelRest(tokens, level, left, before), r, current, reported, old(reported))
      ensures r.Ok? ==> before < current && reported == old(reported)
                        && LevelRest(tokens, level, r.value, current) == LevelRest(tokens, level, left, before)
      decreases |tokens| - current, 2 * (5 - level) + 2
    {
      var operator := Previous();
      var right := Operand(level);
      if right.Err? {
        LevelRestFail(tokens, level, left, before);
        return right;
      }
      LevelRestStep(tokens, level, left, before, right.value, current);
      r := Ok(Binary(left, operator, right.value));
    }

    method Unary() returns (r: Result<Expr, ParseError>)
      requires Valid()
      modifies this`current, this`reported
      ensures Valid() && Agrees(tokens, ParseUnary(tokens, old(current)), r, current, reported, old(reported))
      decreases |tokens| - current, 2
    {
      var matched := Match([BANG, MINUS]);
      if matched {
        var operator := Previous();
        var right := Unary();
        if right.Err? {
          return right;
        }
        return Ok(Expr.Unary(operator, right.value));
      }
      r := Primary();
    }

    method Primary() returns (r: Result<Expr, ParseError>)
      requires Valid()
      modifies this`current, this`reported
      ensures Valid() && Agrees(tokens, ParsePrimary(tokens, old(current)), r, current, reported, old(reported))
      decreases |tokens| - current, 1
    {
      ghost var start := current;
      PrimaryOf(tokens, start);
      var matched := Match([TRUE]);
      if matched {
        return Ok(Literal(Bool(true)));
      }
      matched := Match([FALSE]);
      if matched {
        return Ok(Literal(Bool(false)));
      }
      matched := Match([NIL]);
      if matched {
        return Ok(Literal(Nil));
      }
      matched := Match([NUMBER, STRING]);
      if matched {
        return Ok(Literal(Previous().literal));
      }
      matched := Match([LEFT_PAREN]);
      if matched {
        r := Group(start);
        return;
      }
      var error := Error(Peek(), ExpectExpression);
      return Err(error);
    }

    /** The `(` case of `primary`, after the `(` at `start`: an expression
        and the `)` that must close it. */
    method Group(ghost start: nat) returns (r: Result<Expr, ParseError>)
      requires Valid() && current == start + 1 && tokens[start].kind == LEFT_PAREN
      modifies this`current, this`reported
      ensures Valid() && Agrees(tokens, ParsePrimary(tokens, start), r, current, reported, old(reported))
      decreases |tokens| - current, 13
    {
      var e := Expression();
      if e.Err? {
        GroupingFails(tokens, start);
        return e;
      }
      ghost var close := current;
      var closing := Consume(RIGHT_PAREN, ExpectParen);
      if closing.Err? {
        GroupingUnclosed(tokens, start, e.value, close);
        return Err(closing.error);
      }
      GroupingClosed(tokens, start, e.value, close);
      return Ok(Grouping(e.value));
    }
  }
}
