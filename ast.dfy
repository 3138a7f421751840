/**
 * The syntax tree: expression and statement nodes. The visitor double dispatch
 * of the source becomes pattern matching over these datatypes.
 */
module Ast {
  import opened Values
  import opened Tokens

  datatype Expr =
    | Literal(value: Value)
    | Grouping(expression: Expr)
    | Unary(operator: Token, right: Expr)
    | Binary(left: Expr, operator: Token, right: Expr)
    | Variable(name: Token)
    | Assign(name: Token, valueExpr: Expr)

  datatype Stmt =
    | Expression(expression: Expr)
    | Print(expression: Expr)
    | Var(name: Token, initializer: Option<Expr>)
    | If(condition: Expr, thenBranch: Stmt, elseBranch: Option<Stmt>)
    | Block(statements: seq<Stmt>)

  /** The expressions the earlier interpreter draft can visit: its visitor has
      no case for variables or assignment. */
  predicate IsDraftExpr(e: Expr)
  {
    match e
    case Literal(_) => true
    case Grouping(x) => IsDraftExpr(x)
    case Unary(_, x) => IsDraftExpr(x)
    case Binary(l, _, r) => IsDraftExpr(l) && IsDraftExpr(r)
    case Variable(_) => false
    case Assign(_, _) => false
  }

  /** The statements the earlier interpreter draft can visit. */
  predicate IsDraftStmt(s: Stmt)
  {
    match s
    case Expression(e) => IsDraftExpr(e)
    case Print(e) => IsDraftExpr(e)
    case _ => false
  }
}
