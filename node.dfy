/**
 * The abstract syntax tree: two closed sum types, one for expressions and one
 * for statements. Each node owns its children, so every tree is finite and
 * shares nothing.
 */
module Ast {
  import opened Tokens
  import opened Types

  datatype Option<T> = None | Some(value: T)

  /** An expression is exactly one of nine node kinds. */
  datatype Expr =
    | BinaryExpr(op: Token, left: Expr, right: Expr)
    | UnaryExpr(op: Token, right: Expr)
    | LiteralExpr(literal: Literal)
    | GroupingExpr(expr: Expr)
    | AssignExpr(name: Token, value: Expr)
    | VarExpr(name: Token)
    | LogicalExpr(op: Token, left: Expr, right: Expr)
    | CallExpr(paren: Token, callee: Expr, arguments: seq<Expr>)
    | CompExpr(op: Token, left: Expr, right: Expr)

  /**
   * A statement. `IfStmt` and `WhileStmt` are the two kinds the parser builds
   * beyond the six of the node header. A function's body is a block, kept as the
   * sequence of its statements.
   */
  datatype Stmt =
    | ExprStmt(expr: Expr)
    | PrintStmt(expr: Expr)
    | VarStmt(name: Token, initializer: Expr)
    | BlockStmt(statements: seq<Stmt>)
    | FunStmt(name: Token, parameters: seq<Token>, block: seq<Stmt>)
    | ReturnStmt(keyword: Token, value: Expr)
    | IfStmt(condition: Expr, thenBranch: Stmt, elseBranch: Option<Stmt>)
    | WhileStmt(condition: Expr, body: Stmt)

  /** `LiteralNode()`: the default literal node holds nil. */
  function NilLiteral(): (e: Expr)
    ensures e.LiteralExpr? && e.literal.LoxNil?
  {
    LiteralExpr(DefaultLiteral())
  }
}
