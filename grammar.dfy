/**
 * The expression and statement grammar that the recursive-descent parser
 * implements, as pure functions over a token list and a position. They are
 * the specification the `Parser` class is proved against, and the place where
 * precedence, associativity and the error cases are proved.
 *
 *   program    -> statement* EOF
 *   statement  -> "print" expression ";" | expression ";"
 *   expression -> equality
 *   equality   -> comparison (("!=" | "==") comparison)*     level 1
 *   comparison -> term ((">" | ">=" | "<" | "<=") term)*     level 2
 *   term       -> factor (("-" | "+") factor)*               level 3
 *   factor     -> unary (("/" | "*") unary)*                 level 4
 *   unary      -> ("!" | "-") unary | primary
 *   primary    -> NUMBER | STRING | "true" | "false" | "nil" | "(" expression ")"
 */
module Grammar {
  import opened Values
  import opened Tokens
  import opened Ast

  /** The parser's input: a token list that ends with EOF. */
  predicate WellEnded(ts: seq<Token>)
  {
    |ts| > 0 && ts[|ts| - 1].kind == EOF
  }

  /** The three messages a ParseError is reported with. */
  datatype ParseMessage = ExpectExpression | ExpectParen | ExpectSemicolon

  function MessageText(m: ParseMessage): string
  {
    match m
    case ExpectExpression => "Expect expression."
    case ExpectParen => "Expect ')' after expression"
    case ExpectSemicolon => "Expect ';' after expression."
  }

  /** The outcome of parsing from a position: the value and the position after
      it, or the message of the ParseError thrown and the cursor position when
      it was thrown. Every error is raised at the current token, `peek()`. */
  datatype Parsed<T> = Parsed(value: T, next: nat) | Failed(message: ParseMessage, at: nat)

  /** The diagnostic `error(peek(), message)` reports for a failed parse. */
  function FailureDiagnostic<T>(ts: seq<Token>, r: Parsed<T>): (d: Diagnostic)
    requires r.Failed? && r.at < |ts|
    ensures d.line == ts[r.at].line && d.message == MessageText(r.message)
  {
    ErrorAt(ts[r.at], MessageText(r.message))
  }

  /** The operator kinds each binary level matches, in the order the parser
      tries them. */
  function Ops(level: nat): (r: seq<TokenType>)
    requires 1 <= level <= 4
    ensures |r| > 0 && forall k <- r :: BinaryLevel(k) == level
  {
    match level
    case 1 => [BANG_EQUAL, EQUAL_EQUAL]
    case 2 => [GREATER, GREATER_EQUAL, LESS, LESS_EQUAL]
    case 3 => [MINUS, PLUS]
    case 4 => [SLASH, STAR]
  }

  /** The binary level an operator kind belongs to, 0 for any other kind. */
  function BinaryLevel(kind: TokenType): (l: nat)
    ensures l <= 4
  {
    match kind
    case BANG_EQUAL | EQUAL_EQUAL => 1
    case GREATER | GREATER_EQUAL | LESS | LESS_EQUAL => 2
    case MINUS | PLUS => 3
    case SLASH | STAR => 4
    case _ => 0
  }

  predicate Consumes(ts: seq<Token>, pos: nat, r: Parsed)
  {
    r.Parsed? ==> pos < r.next < |ts| && ts[r.next - 1].kind != EOF
  }

  predicate FailsInside(ts: seq<Token>, pos: nat, r: Parsed)
  {
    r.Failed? ==> pos <= r.at < |ts|
  }

  /** An expression never fails for want of a ";". */
  predicate ExprMessage(r: Parsed)
  {
    r.Failed? ==> r.message != ExpectSemicolon
  }

  function ParseExpression(ts: seq<Token>, pos: nat): (r: Parsed<Expr>)
    requires WellEnded(ts) && pos < |ts|
    ensures Consumes(ts, pos, r) && FailsInside(ts, pos, r) && ExprMessage(r)
    decreases |ts| - pos, 12
  {
    ParseLevel(ts, 1, pos)
  }

  /** One binary level: an operand of the next level, then the loop. */
  function ParseLevel(ts: seq<Token>, level: nat, pos: nat): (r: Parsed<Expr>)
    requires WellEnded(ts) && pos < |ts| && 1 <= level <= 4
    ensures Consumes(ts, pos, r) && FailsInside(ts, pos, r) && ExprMessage(r)
    decreases |ts| - pos, 2 * (5 - level) + 2
  {
    match Operand(ts, level, pos)
    case Failed(m, at) => Failed(m, at)
    case Parsed(left, n) => LevelRest(ts, level, left, n)
  }

  /** The operand of a binary level: the next level, or unary below factor. */
  function Operand(ts: seq<Token>, level: nat, pos: nat): (r: Parsed<Expr>)
    requires WellEnded(ts) && pos < |ts| && 1 <= level <= 4
    ensures Consumes(ts, pos, r) && FailsInside(ts, pos, r) && ExprMessage(r)
    decreases |ts| - pos, 2 * (5 - level) + 1
  {
    if level == 4 then ParseUnary(ts, pos) else ParseLevel(ts, level + 1, pos)
  }

  /** The `while (match(ops)) left = Binary(left, previous(), operand())` loop
      of a binary level, entered with `left` parsed and the cursor at `pos`. */
  function LevelRest(ts: seq<Token>, level: nat, left: Expr, pos: nat): (r: Parsed<Expr>)
    requires WellEnded(ts) && pos < |ts| && 1 <= level <= 4
    ensures r.Parsed? ==> pos <= r.next < |ts| && (r.next > pos ==> ts[r.next - 1].kind != EOF)
    ensures FailsInside(ts, pos, r) && ExprMessage(r)
    decreases |ts| - pos, 0
  {
    if BinaryLevel(ts[pos].kind) == level then
      match Operand(ts, level, pos + 1)
      case Failed(m, at) => Failed(m, at)
      case Parsed(right, n) => LevelRest(ts, level, Binary(left, ts[pos], right), n)
    else
      Parsed(left, pos)
  }

  function ParseUnary(ts: seq<Token>, pos: nat): (r: Parsed<Expr>)
    requires WellEnded(ts) && pos < |ts|
    ensures Consumes(ts, pos, r) && FailsInside(ts, pos, r) && ExprMessage(r)
    decreases |ts| - pos, 2
  {
    if ts[pos].kind == BANG || ts[pos].kind == MINUS then
      match ParseUnary(ts, pos + 1)
      case Failed(m, at) => Failed(m, at)
      case Parsed(right, n) => Parsed(Unary(ts[pos], right), n)
    else
      ParsePrimary(ts, pos)
  }

  function ParsePrimary(ts: seq<Token>, pos: nat): (r: Parsed<Expr>)
    requires WellEnded(ts) && pos < |ts|
    ensures Consumes(ts, pos, r) && FailsInside(ts, pos, r) && ExprMessage(r)
    decreases |ts| - pos, 1
  {
    var t := ts[pos];
    if t.kind == TRUE then Parsed(Literal(Bool(true)), pos + 1)
    else if t.kind == FALSE then Parsed(Literal(Bool(false)), pos + 1)
    else if t.kind == NIL then Parsed(Literal(Nil), pos + 1)
    else if t.kind == NUMBER || t.kind == STRING then Parsed(Literal(t.literal), pos + 1)
    else if t.kind == LEFT_PAREN then
      match ParseExpression(ts, pos + 1)
      case Failed(m, at) => Failed(m, at)
      case Parsed(e, n) =>
        if ts[n].kind == RIGHT_PAREN then Parsed(Grouping(e), n + 1)
        else Failed(ExpectParen, n)
    else
      Failed(ExpectExpression, pos)
  }

  /** `exprStmt` after its expression, or `printStmt` after "print": the
      expression and the ";" that must follow it. */
  function ParseStatementBody(ts: seq<Token>, pos: nat, isPrint: bool): (r: Parsed<Stmt>)
    requires WellEnded(ts) && pos < |ts|
    ensures Consumes(ts, pos, r) && FailsInside(ts, pos, r)
    ensures r.Parsed? ==> ts[r.next - 1].kind == SEMICOLON
    ensures r.Parsed? ==> (if isPrint then r.value.Print? else r.value.Expression?)
                          && ParseExpression(ts, pos) == Parsed(r.value.expression, r.next - 1)
    ensures r.Failed? ==> (r.message == ExpectSemicolon <==> ParseExpression(ts, pos).Parsed?)
    ensures r.Failed? && r.message == ExpectSemicolon ==> r.at == ParseExpression(ts, pos).next && ts[r.at].kind != SEMICOLON
  {
    match ParseExpression(ts, pos)
    case Failed(m, at) => Failed(m, at)
    case Parsed(e, n) =>
      if ts[n].kind == SEMICOLON then Parsed(if isPrint then Print(e) else Expression(e), n + 1)
      else Failed(ExpectSemicolon, n)
  }

  function ParseStatement(ts: seq<Token>, pos: nat): (r: Parsed<Stmt>)
    requires WellEnded(ts) && pos < |ts|
    ensures Consumes(ts, pos, r) && FailsInside(ts, pos, r)
    ensures r.Parsed? ==> ts[r.next - 1].kind == SEMICOLON
    ensures r.Parsed? ==> (r.value.Print? <==> ts[pos].kind == PRINT) && (r.value.Print? || r.value.Expression?)
    ensures r.Parsed? ==> var from := if ts[pos].kind == PRINT then pos + 1 else pos;
                          ParseExpression(ts, from) == Parsed(r.value.expression, r.next - 1)
  {
    if ts[pos].kind == PRINT then ParseStatementBody(ts, pos + 1, true)
    else ParseStatementBody(ts, pos, false)
  }

  /** `parse()`: statements until EOF; there is no catch, so the first
      ParseError ends the whole parse. */
  function ParseProgram(ts: seq<Token>, pos: nat): (r: Parsed<seq<Stmt>>)
    requires WellEnded(ts) && pos < |ts|
    ensures r.Parsed? ==> pos <= r.next < |ts| && ts[r.next].kind == EOF
    ensures FailsInside(ts, pos, r)
    decreases |ts| - pos
  {
    if ts[pos].kind == EOF then Parsed([], pos)
    else
      match ParseStatement(ts, pos)
      case Failed(m, at) => Failed(m, at)
      case Parsed(s, n) =>
        match ParseProgram(ts, n)
        case Failed(m, at) => Failed(m, at)
        case Parsed(rest, m) => Parsed([s] + rest, m)
  }

  /** Proof helper for `Parser.Extend`: a kind is matched by a binary level
      exactly when it is one of that level's operators. */
  lemma OpsLevel(kind: TokenType, level: nat)
    requires 1 <= level <= 4
    ensures kind in Ops(level) <==> BinaryLevel(kind) == level
  {
  }

  /** Entering a binary level: its loop starts after the first operand. */
  lemma LevelStart(ts: seq<Token>, level: nat, pos: nat, left: Expr, n: nat)
    requires WellEnded(ts) && pos < |ts| && 1 <= level <= 4
    requires Operand(ts, level, pos) == Parsed(left, n)
    ensures ParseLevel(ts, level, pos) == LevelRest(ts, level, left, n)
  {
  }

  /** One turn of a binary level's loop. */
  lemma LevelRestStep(ts: seq<Token>, level: nat, left: Expr, pos: nat, right: Expr, n: nat)
    requires WellEnded(ts) && pos < |ts| && 1 <= level <= 4
    requires BinaryLevel(ts[pos].kind) == level && Operand(ts, level, pos + 1) == Parsed(right, n)
    ensures LevelRest(ts, level, left, pos) == LevelRest(ts, level, Binary(left, ts[pos], right), n)
  {
  }

  /** A failed operand ends a binary level's loop with the same failure. */
  lemma LevelRestFail(ts: seq<Token>, level: nat, left: Expr, pos: nat)
    requires WellEnded(ts) && pos < |ts| && 1 <= level <= 4
    requires BinaryLevel(ts[pos].kind) == level && Operand(ts, level, pos + 1).Failed?
    ensures LevelRest(ts, level, left, pos) == Operand(ts, level, pos + 1)
  {
  }

  /** The loop of a binary level stops at any token that is not one of its
      operators. */
  lemma LevelRestStop(ts: seq<Token>, level: nat, left: Expr, pos: nat)
    requires WellEnded(ts) && pos < |ts| && 1 <= level <= 4
    requires BinaryLevel(ts[pos].kind) != level
    ensures LevelRest(ts, level, left, pos) == Parsed(left, pos)
  {
  }

  /** A "(" whose expression fails fails the primary in the same way. */
  lemma GroupingFails(ts: seq<Token>, pos: nat)
    requires WellEnded(ts) && pos + 1 < |ts| && ts[pos].kind == LEFT_PAREN
    requires ParseExpression(ts, pos + 1).Failed?
    ensures ParsePrimary(ts, pos) == ParseExpression(ts, pos + 1)
  {
  }

  /** A "(" whose expression is not followed by ")" fails where ")" was due. */
  lemma GroupingUnclosed(ts: seq<Token>, pos: nat, e: Expr, n: nat)
    requires WellEnded(ts) && pos + 1 < |ts| && ts[pos].kind == LEFT_PAREN
    requires ParseExpression(ts, pos + 1) == Parsed(e, n) && ts[n].kind != RIGHT_PAREN
    ensures ParsePrimary(ts, pos) == Failed(ExpectParen, n)
  {
  }

  /** A "(" expression ")" is a grouping. */
  lemma GroupingClosed(ts: seq<Token>, pos: nat, e: Expr, n: nat)
    requires WellEnded(ts) && pos + 1 < |ts| && ts[pos].kind == LEFT_PAREN
    requires ParseExpression(ts, pos + 1) == Parsed(e, n) && ts[n].kind == RIGHT_PAREN
    ensures ParsePrimary(ts, pos) == Parsed(Grouping(e), n + 1)
  {
  }

  /** A statement whose expression is followed by ";" is parsed whole. */
  lemma StatementClosed(ts: seq<Token>, pos: nat, e: Expr, n: nat)
    requires WellEnded(ts) && pos < |ts|
    requires var from := if ts[pos].kind == PRINT then pos + 1 else pos;
      from < |ts| && ParseExpression(ts, from) == Parsed(e, n) && ts[n].kind == SEMICOLON
    ensures ParseStatement(ts, pos) == Parsed(if ts[pos].kind == PRINT then Print(e) else Expression(e), n + 1)
  {
  }

  /** The outcome of `primary` for every first token except "(". */
  lemma PrimaryOf(ts: seq<Token>, pos: nat)
    requires WellEnded(ts) && pos < |ts|
    ensures ts[pos].kind == TRUE ==> ParsePrimary(ts, pos) == Parsed(Literal(Bool(true)), pos + 1)
    ensures ts[pos].kind == FALSE ==> ParsePrimary(ts, pos) == Parsed(Literal(Bool(false)), pos + 1)
    ensures ts[pos].kind == NIL ==> ParsePrimary(ts, pos) == Parsed(Literal(Nil), pos + 1)
    ensures ts[pos].kind in {NUMBER, STRING} ==> ParsePrimary(ts, pos) == Parsed(Literal(ts[pos].literal), pos + 1)
    ensures ts[pos].kind !in {TRUE, FALSE, NIL, NUMBER, STRING, LEFT_PAREN} ==> ParsePrimary(ts, pos) == Failed(ExpectExpression, pos)
  {
  }
}
