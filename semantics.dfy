/**
 * The value-level rules both interpreter drafts share, word for word:
 * truthiness, equality, the operand checks, `stringify`, and what each unary
 * and binary operator does once its operands are evaluated. Both drafts'
 * `visitUnaryExpr` and `visitBinaryExpr` are the same switch, so the
 * operators are defined once here; the quirks are kept as written (MINUS
 * divides, SLASH has no case, `==`/`!=` demand numbers, `+` on a mixed pair
 * yields nil).
 */
module Semantics {
  import opened Values
  import opened Tokens
  import opened Ast

  /** The exception the interpreters throw: the operator or name token it is
      reported at, and its message. */
  datatype RuntimeError = RuntimeError(token: Token, message: string)

  const OperandMessage := "Operand must be a number."
  const OperandsMessage := "Operands must be numbers."
  const StringsMessage := "Operands must be strings."

  /** What `isTruthy` can be handed: a runtime value, or, as in the later
      draft's `visitIfStmt`, a syntax-tree node. */
  datatype Obj = Val(value: Value) | AstNode(node: Expr)

  /** `isTruthy`: null is false, a Boolean is itself, any other object is
      true. */
  function IsTruthy(o: Obj): (b: bool)
    ensures b <==> o != Val(Nil) && o != Val(Bool(false))
  {
    match o
    case Val(Nil) => false
    case Val(Bool(b)) => b
    case _ => true
  }

  /** `Object.equals` on the boxed values: equal kinds and equal contents.
      Two Doubles are equal when their bit patterns are. */
  function JavaEquals(o: Value, p: Value): bool
  {
    match (o, p)
    case (Bool(a), Bool(b)) => a == b
    case (Num(a), Num(b)) => a.bits == b.bits
    case (Str(a), Str(b)) => a == b
    case _ => false
  }

  /** `isEqual`: null equals only null; otherwise `o.equals(p)`. */
  function IsEqual(o: Value, p: Value): (r: bool)
    ensures r <==> o == p
  {
    if o.Nil? && p.Nil? then true
    else if o.Nil? || p.Nil? then false
    else JavaEquals(o, p)
  }

  function CheckNumberOperand(operator: Token, operand: Value): (r: Outcome<RuntimeError>)
    ensures r.Pass? <==> operand.Num?
    ensures r.Fail? ==> r.error == RuntimeError(operator, OperandMessage)
  {
    if operand.Num? then Pass else Fail(RuntimeError(operator, OperandMessage))
  }

  function CheckNumberOperands(operator: Token, left: Value, right: Value): (r: Outcome<RuntimeError>)
    ensures r.Pass? <==> left.Num? && right.Num?
    ensures r.Fail? ==> r.error == RuntimeError(operator, OperandsMessage)
  {
    if left.Num? && right.Num? then Pass else Fail(RuntimeError(operator, OperandsMessage))
  }

  function CheckStringOperands(operator: Token, left: Value, right: Value): (r: Outcome<RuntimeError>)
    ensures r.Pass? <==> left.Str? && right.Str?
    ensures r.Fail? ==> r.error == RuntimeError(operator, StringsMessage)
  {
    if left.Str? && right.Str? then Pass else Fail(RuntimeError(operator, StringsMessage))
  }

  predicate EndsWithPointZero(text: string)
  {
    |text| >= 2 && text[|text| - 2..] == ".0"
  }

  /** `stringify`: "nil" for null; a number's `toString` without a trailing
      ".0"; `toString` of a Boolean or a String otherwise. */
  function Stringify(arith: Arith, v: Value): (s: string)
    ensures v.Nil? ==> s == "nil"
    ensures v.Bool? ==> s == if v.b then "true" else "false"
    ensures v.Str? ==> s == v.s
    ensures v.Num? && EndsWithPointZero(arith.show(v.d)) ==> s + ".0" == arith.show(v.d)
    ensures v.Num? && !EndsWithPointZero(arith.show(v.d)) ==> s == arith.show(v.d)
  {
    match v
    case Nil => "nil"
    case Num(d) =>
      var text := arith.show(d);
      if EndsWithPointZero(text) then
        assert text[..|text| - 2] + text[|text| - 2..] == text;
        text[..|text| - 2]
      else text
    case Bool(b) => if b then "true" else "false"
    case Str(s) => s
  }

  /** The switch of `visitUnaryExpr` once the operand is evaluated. */
  function UnaryOp(arith: Arith, operator: Token, right: Value): (r: Result<Value, RuntimeError>)
    ensures operator.kind == BANG ==> r == Ok(Bool(right == Nil || right == Bool(false)))
    ensures operator.kind == MINUS ==> (r.Ok? <==> right.Num?)
    ensures operator.kind == MINUS && right.Num? ==> r == Ok(Num(arith.neg(right.d)))
    ensures r.Err? ==> r.error == RuntimeError(operator, OperandMessage)
    ensures operator.kind != BANG && operator.kind != MINUS ==> r == Ok(Nil)
  {
    if operator.kind == BANG then Ok(Bool(!IsTruthy(Val(right))))
    else if operator.kind == MINUS then
      var check := CheckNumberOperand(operator, right);
      if check.Fail? then Err(check.error) else Ok(Num(arith.neg(right.d)))
    else Ok(Nil)
  }

  /** The operators whose case starts with `checkNumberOperands`. */
  predicate NeedsNumbers(kind: TokenType)
  {
    kind in {GREATER, GREATER_EQUAL, LESS, LESS_EQUAL, MINUS, STAR, BANG_EQUAL, EQUAL_EQUAL}
  }

  /** Applies a numeric case after its operand check. */
  function Checked(operator: Token, left: Value, right: Value, v: Value): Result<Value, RuntimeError>
  {
    var check := CheckNumberOperands(operator, right, left);
    if check.Fail? then Err(check.error) else Ok(v)
  }

  /** The switch of `visitBinaryExpr` once both operands are evaluated. */
  function BinaryOp(arith: Arith, operator: Token, left: Value, right: Value): (r: Result<Value, RuntimeError>)
    ensures r.Err? <==> NeedsNumbers(operator.kind) && !(left.Num? && right.Num?)
    ensures r.Err? ==> r.error == RuntimeError(operator, OperandsMessage)
    ensures operator.kind == GREATER && r.Ok? ==> r.value == Bool(arith.greater(left.d, right.d))
    ensures operator.kind == GREATER_EQUAL && r.Ok? ==> r.value == Bool(arith.greaterEqual(left.d, right.d))
    ensures operator.kind == LESS && r.Ok? ==> r.value == Bool(arith.less(left.d, right.d))
    ensures operator.kind == LESS_EQUAL && r.Ok? ==> r.value == Bool(arith.lessEqual(left.d, right.d))
    ensures operator.kind == STAR && r.Ok? ==> r.value == Num(arith.mul(left.d, right.d))
    ensures operator.kind == MINUS && r.Ok? ==> r.value == Num(arith.div(left.d, right.d))
    ensures operator.kind == EQUAL_EQUAL && r.Ok? ==> r.value == Bool(left == right)
    ensures operator.kind == BANG_EQUAL && r.Ok? ==> r.value == Bool(left != right)
    ensures operator.kind == PLUS ==> r.Ok? && (r.value.Nil? <==> !(left.Num? && right.Num?) && !(left.Str? && right.Str?))
    ensures operator.kind == PLUS && left.Num? && right.Num? ==> r.value == Num(arith.add(left.d, right.d))
    ensures operator.kind == PLUS && left.Str? && right.Str? ==> r.value == Str(left.s + right.s)
    ensures !NeedsNumbers(operator.kind) && operator.kind != PLUS ==> r == Ok(Nil)
  {
    var l := if left.Num? then left.d else Double(0);
    var rt := if right.Num? then right.d else Double(0);
    match operator.kind
    case GREATER => Checked(operator, left, right, Bool(arith.greater(l, rt)))
    case GREATER_EQUAL => Checked(operator, left, right, Bool(arith.greaterEqual(l, rt)))
    case LESS => Checked(operator, left, right, Bool(arith.less(l, rt)))
    case LESS_EQUAL => Checked(operator, left, right, Bool(arith.lessEqual(l, rt)))
    case MINUS => Checked(operator, left, right, Num(arith.div(l, rt)))
    case PLUS =>
      if left.Num? && right.Num? then Checked(operator, left, right, Num(arith.add(l, rt)))
      else if left.Str? && right.Str? then
        var check := CheckStringOperands(operator, right, left);
        if check.Fail? then Err(check.error) else Ok(Str(left.s + right.s))
      else Ok(Nil)
    case STAR => Checked(operator, left, right, Num(arith.mul(l, rt)))
    case BANG_EQUAL => Checked(operator, left, right, Bool(!IsEqual(left, right)))
    case EQUAL_EQUAL => Checked(operator, left, right, Bool(IsEqual(left, right)))
    case _ => Ok(Nil)
  }

  /** The later draft's `if` hands its condition node to `isTruthy`, which
      treats any node as a true object: the then-branch always runs. */
  lemma ConditionNodeIsTruthy(condition: Expr)
    ensures IsTruthy(AstNode(condition))
  {
  }
}
