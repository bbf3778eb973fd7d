/**
 * Ast: the expression and statement trees (`src/Ast`).  Each visitor
 * `Accept` becomes a `match`.  Every node records the position its base
 * constructor is given, which `ExprPosition` and `StmtPosition` compute.
 */
module Ast {
  import opened Wrappers
  import opened Tokens

  datatype Expr =
    | AssignExpr(name: Token, value: Expr)
    | BinaryExpr(left: Expr, operator: Token, right: Expr)
    | CallExpr(callee: Expr, paren: Token, arguments: seq<Expr>)
    | GetExpr(obj: Expr, name: Token)
    | GroupingExpr(expression: Expr)
    | LiteralExpr(token: Token)
    | LogicalExpr(left: Expr, operator: Token, right: Expr)
    | SetExpr(obj: Expr, name: Token, value: Expr)
    | SuperExpr(keyword: Token, methodName: Token)
    | ThisExpr(keyword: Token)
    | UnaryExpr(operator: Token, right: Expr)
    | VariableExpr(name: Token)

  /** A function declaration: its name, parameter names and body. */
  datatype FunDecl = FunDecl(name: Token, params: seq<Token>, body: seq<Stmt>)

  datatype Stmt =
    | BlockStmt(token: Token, statements: seq<Stmt>)
    // The superclass is a variable expression; its name token is kept.
    | ClassStmt(name: Token, superclass: Option<Token>, methods: seq<FunDecl>)
    | ExpressionStmt(expr: Expr)
    | FunctionStmt(decl: FunDecl)
    | IfStmt(condition: Expr, thenBranch: Stmt, elseBranch: Option<Stmt>)
    | PrintStmt(expr: Expr)
    | ReturnStmt(keyword: Token, value: Option<Expr>)
    | BreakStmt(keyword: Token)
    | ContinueStmt(keyword: Token)
    | VarStmt(name: Token, initializer: Option<Expr>)
    | WhileStmt(condition: Expr, body: Stmt)

  /** A source position: line and column. */
  datatype Position = Position(line: int, column: int)

  function TokenPosition(t: Token): Position
  {
    Position(t.line, t.column)
  }

  /**
   * The position a node records: an operator node and a grouping take their
   * first operand's, the others the position of their own leading token.
   */
  function ExprPosition(e: Expr): Position
  {
    match e
    case AssignExpr(name, _) => TokenPosition(name)
    case BinaryExpr(left, _, _) => ExprPosition(left)
    case CallExpr(callee, _, _) => ExprPosition(callee)
    case GetExpr(obj, _) => ExprPosition(obj)
    case GroupingExpr(inner) => ExprPosition(inner)
    case LiteralExpr(value) => TokenPosition(value)
    case LogicalExpr(left, _, _) => ExprPosition(left)
    case SetExpr(obj, _, _) => ExprPosition(obj)
    case SuperExpr(keyword, _) => TokenPosition(keyword)
    case ThisExpr(keyword) => TokenPosition(keyword)
    case UnaryExpr(operator, _) => TokenPosition(operator)
    case VariableExpr(name) => TokenPosition(name)
  }

  function StmtPosition(s: Stmt): Position
  {
    match s
    case BlockStmt(token, _) => TokenPosition(token)
    case ClassStmt(name, _, _) => TokenPosition(name)
    case ExpressionStmt(expr) => ExprPosition(expr)
    case FunctionStmt(decl) => TokenPosition(decl.name)
    case IfStmt(condition, _, _) => ExprPosition(condition)
    case PrintStmt(expr) => ExprPosition(expr)
    case ReturnStmt(keyword, _) => TokenPosition(keyword)
    case BreakStmt(keyword) => TokenPosition(keyword)
    case ContinueStmt(keyword) => TokenPosition(keyword)
    case VarStmt(name, _) => TokenPosition(name)
    case WhileStmt(condition, _) => ExprPosition(condition)
  }
}
