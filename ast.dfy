/** The syntax trees of src/Lox/Exprs.cs and src/Lox/Stmts.cs. A C# record
    field that may be null (`Stmt?`, `Expr?`) is an `Option`; a field named
    like a Dafny keyword or clashing with another constructor's field of a
    different type is renamed (`Object` is `obj`, `Method` is `methodName`,
    the `Value` of an assignment is `newValue`, the body of a function is
    `functionBody`). */
module Ast {
  import opened Wrappers
  import opened Values
  import opened Tokens

  datatype Expr =
    | AssignExpr(name: Token, newValue: Expr)
    | BinaryExpr(left: Expr, operator: Token, right: Expr)
    | CallExpr(callee: Expr, paren: Token, arguments: seq<Expr>)
    | GetExpr(obj: Expr, name: Token)
    | GroupingExpr(expression: Expr)
    | IfExpr(condition: Expr, ifTrue: Expr, ifFalse: Expr)
    | ListExpr(left: Expr, right: Expr)
    | LiteralExpr(value: Value)
    | LogicalExpr(left: Expr, operator: Token, right: Expr)
    | SetExpr(obj: Expr, name: Token, newValue: Expr)
    | SuperExpr(keyword: Token, methodName: Token)
    | ThisExpr(keyword: Token)
    | UnaryExpr(operator: Token, right: Expr)
    | VariableExpr(name: Token)

  datatype Stmt =
    | BlockStmt(statements: seq<Stmt>)
    | ClassStmt(name: Token, superClass: Expr, methods: seq<Stmt>)
    | ExpressionStmt(expression: Expr)
    | FunctionStmt(name: Token, parameters: seq<Token>, functionBody: seq<Stmt>)
    | IfStmt(condition: Expr, thenBranch: Stmt, elseBranch: Option<Stmt>)
    | PrintStmt(expression: Expr)
    | ReturnStmt(keyword: Token, value: Expr)
    | VarStmt(name: Token, initializer: Option<Expr>)
    | WhileStmt(condition: Expr, body: Stmt)

  /** Number of statement nodes, used to measure recursion over statements. */
  function StmtSize(s: Stmt): (n: nat)
    ensures n >= 1
  {
    match s
    case BlockStmt(ss) => 1 + StmtsSize(ss)
    case ClassStmt(_, _, ms) => 1 + StmtsSize(ms)
    case FunctionStmt(_, _, body) => 1 + StmtsSize(body)
    case IfStmt(_, t, e) => 1 + StmtSize(t) + (if e.Some? then StmtSize(e.value) else 0)
    case WhileStmt(_, b) => 1 + StmtSize(b)
    case _ => 1
  }

  function StmtsSize(ss: seq<Stmt>): (n: nat)
    ensures forall i :: 0 <= i < |ss| ==> StmtSize(ss[i]) <= n
    ensures ss != [] ==> n == StmtSize(ss[0]) + StmtsSize(ss[1..])
  {
    if ss == [] then 0 else StmtSize(ss[0]) + StmtsSize(ss[1..])
  }
}
