/** The meaning of src/Lox/Interpreting/Interpreter.cs as functions on an
    explicit interpreter state. An exception that escapes a visitor is a
    `Fault` carried out of every enclosing evaluation, together with the
    state reached when it was thrown; `Interpret` has no catch. */
module Evaluation {
  import opened Wrappers
  import opened Values
  import opened Tokens
  import opened Reporting
  import opened Ast
  import opened Environment

  /** Why a run stopped early:
      - `Runtime`: Lox's `RuntimeException`;
      - `InvalidCast`: the unchecked `(double)` cast of `*` and `/` applied
        to a value that is not a number;
      - `NotImplemented`: a node kind the interpreter does not handle;
      - `NonFinite`: a division by zero, whose double result (an infinity or
        NaN) exact numbers cannot hold;
      - `OutOfFuel`: a `while` loop that used up its iteration budget. */
  datatype Fault =
    | Runtime(error: RuntimeError)
    | InvalidCast
    | NotImplemented
    | NonFinite
    | OutOfFuel

  /** Every `Environment` object created so far, the `_environments` stack
      (its top is the last element), `LastResult`, and the lines written to
      the output writer. */
  datatype State = State(frames: seq<Frame>, stack: seq<nat>, lastResult: Value, output: seq<string>)

  /** The stack is never empty and only holds scopes that exist. */
  ghost predicate Valid(st: State)
  {
    Acyclic(st.frames) && |st.stack| >= 1 && forall i :: 0 <= i < |st.stack| ==> st.stack[i] < |st.frames|
  }

  /** `CurrentEnvironment`: the top of the stack (`Valid` states keep the
      stack non-empty, so the guard never applies). */
  function Current(st: State): nat
  {
    if st.stack == [] then 0 else st.stack[|st.stack| - 1]
  }

  /** `Pop`: the stack without its top. */
  function Pop(stack: seq<nat>): seq<nat>
  {
    if stack == [] then [] else stack[..|stack| - 1]
  }

  /** The state right after the constructor: the global scope alone on the
      stack, no last result, no output. */
  const Initial: State := State([Frame(map[], None)], [0], Value.Nil, [])

  const LastResultName: string := "_"
  const NullOperands: string := "Operands must not be null."
  const NumbersExpected: string := "Operands must be numbers."
  const NumbersOrStrings: string := "Operands must be two numbers or two strings."
  const NullOperand: string := "Value cannot be null."
  const NumberExpected: string := "Expected a number."

  /** What a statement may do to the state: the stack is as before, scopes
      are only ever added, the older ones keep their enclosing scope, and
      output lines are only ever appended. */
  ghost predicate Extends(a: State, b: State)
  {
    && Valid(b)
    && b.stack == a.stack
    && |a.frames| <= |b.frames|
    && Links(b.frames)[..|a.frames|] == Links(a.frames)
    && a.output <= b.output
  }

  /** `CheckNumberOperands`. */
  function CheckNumberOperands(op: Token, a: Value, b: Value): (r: Outcome<Fault>)
    ensures r.Pass? <==> a.Num? && b.Num?
  {
    if a.Num? && b.Num? then Pass else Fail(Runtime(RuntimeError(op, NumbersExpected)))
  }

  /** The operator switch of `VisitBinaryExpr`, on two evaluated operands. */
  function Binary(op: Token, a: Value, b: Value): Result<Value, Fault>
  {
    if a.Nil? || b.Nil? then Failure(Runtime(RuntimeError(op, NullOperands)))
    else match op.tokenType
      case BangEqual => Success(Bool(!IsEqual(a, b)))
      case EqualEqual => Success(Bool(IsEqual(a, b)))
      case Greater =>
        if CheckNumberOperands(op, a, b).Fail? then Failure(CheckNumberOperands(op, a, b).error)
        else Success(Bool(a.n > b.n))
      case GreaterEqual =>
        if CheckNumberOperands(op, a, b).Fail? then Failure(CheckNumberOperands(op, a, b).error)
        else Success(Bool(a.n >= b.n))
      case Less =>
        if CheckNumberOperands(op, a, b).Fail? then Failure(CheckNumberOperands(op, a, b).error)
        else Success(Bool(a.n < b.n))
      case LessEqual =>
        if CheckNumberOperands(op, a, b).Fail? then Failure(CheckNumberOperands(op, a, b).error)
        else Success(Bool(a.n <= b.n))
      case Minus =>
        if CheckNumberOperands(op, a, b).Fail? then Failure(CheckNumberOperands(op, a, b).error)
        else Success(Num(a.n - b.n))
      case Plus =>
        if a.Num? && b.Num? then Success(Num(a.n + b.n))
        else if a.Str? && b.Str? then Success(Str(a.s + b.s))
        else Failure(Runtime(RuntimeError(op, NumbersOrStrings)))
      case Slash =>
        if !a.Num? || !b.Num? then Failure(InvalidCast)
        else if b.n == 0.0 then Failure(NonFinite)
        else Success(Num(a.n / b.n))
      case Star =>
        if !a.Num? || !b.Num? then Failure(InvalidCast)
        else Success(Num(a.n * b.n))
      case _ => Success(Value.Nil)
  }

  /** The operator switch of `VisitUnaryExpr`, on the evaluated operand. */
  function Unary(op: Token, v: Value): Result<Value, Fault>
  {
    if v.Nil? then Failure(Runtime(RuntimeError(op, NullOperand)))
    else match op.tokenType
      case Bang => Success(Bool(!IsTruthy(v)))
      case Minus => if v.Num? then Success(Num(-v.n)) else Failure(Runtime(RuntimeError(op, NumberExpected)))
      case _ => Success(Value.Nil)
  }

  /** The result of evaluating an expression, and the scopes afterwards
      (an assignment changes them, even when a later step fails). */
  datatype Evaluated = Evaluated(result: Result<Value, Fault>, frames: seq<Frame>)

  /** `Evaluate`: the switch over the node kinds. */
  function Eval(st: State, e: Expr): (r: Evaluated)
    decreases e, 1
  {
    match e
    case AssignExpr(name, newValue) => EvalAssign(st, name, newValue)
    case BinaryExpr(left, operator, right) => EvalBinary(st, left, operator, right)
    case GroupingExpr(inner) => Eval(st, inner)
    case IfExpr(condition, ifTrue, ifFalse) => EvalIf(st, condition, ifTrue, ifFalse)
    case ListExpr(left, right) => EvalList(st, left, right)
    case LiteralExpr(v) => Evaluated(Success(v), st.frames)
    case LogicalExpr(left, operator, right) => EvalLogical(st, left, operator, right)
    case UnaryExpr(operator, right) => EvalUnary(st, operator, right)
    case VariableExpr(name) => EvalVariable(st, name)
    case _ => Evaluated(Failure(NotImplemented), st.frames)
  }

  /** `VisitAssignExpr`: `Set(Token)` in the current scope; the value of the
      assignment is the value assigned. */
  function EvalAssign(st: State, name: Token, newValue: Expr): (r: Evaluated)
    decreases AssignExpr(name, newValue), 0
  {
    Store(Eval(st, newValue), Current(st), name)
  }

  /** `Set(Token)` of an evaluated value in `scope`. */
  function Store(v: Evaluated, scope: nat, name: Token): (r: Evaluated)
  {
    if v.result.Failure? then v
    else
      match Nearest(v.frames, scope, name.lexeme)
      case None => Evaluated(Failure(Runtime(RuntimeError(name, UndefinedMessage(name.lexeme)))), v.frames)
      case Some(k) => Evaluated(v.result, Assigned(v.frames, k, name.lexeme, v.result.value))
  }

  /** `VisitBinaryExpr`: both operands, left first, then the operator. */
  function EvalBinary(st: State, left: Expr, operator: Token, right: Expr): (r: Evaluated)
    decreases BinaryExpr(left, operator, right), 0
  {
    var l := Eval(st, left);
    if l.result.Failure? then l
    else
      var r := Eval(st.(frames := l.frames), right);
      if r.result.Failure? then r
      else Evaluated(Binary(operator, l.result.value, r.result.value), r.frames)
  }

  /** `VisitIfExpr`. */
  function EvalIf(st: State, condition: Expr, ifTrue: Expr, ifFalse: Expr): (r: Evaluated)
    decreases IfExpr(condition, ifTrue, ifFalse), 0
  {
    var c := Eval(st, condition);
    if c.result.Failure? then c
    else if IsTruthy(c.result.value) then Eval(st.(frames := c.frames), ifTrue)
    else Eval(st.(frames := c.frames), ifFalse)
  }

  /** `VisitListExpr`. */
  function EvalList(st: State, left: Expr, right: Expr): (r: Evaluated)
    decreases ListExpr(left, right), 0
  {
    var l := Eval(st, left);
    if l.result.Failure? then l
    else Eval(st.(frames := l.frames), right)
  }

  /** `VisitLogicalExpr`: `or` when the operator is OR, `and` otherwise. */
  function EvalLogical(st: State, left: Expr, operator: Token, right: Expr): (r: Evaluated)
    decreases LogicalExpr(left, operator, right), 0
  {
    var l := Eval(st, left);
    if l.result.Failure? then l
    else if operator.tokenType == Or && IsTruthy(l.result.value) then l
    else if operator.tokenType != Or && !IsTruthy(l.result.value) then l
    else Eval(st.(frames := l.frames), right)
  }

  /** `VisitUnaryExpr`. */
  function EvalUnary(st: State, operator: Token, right: Expr): (r: Evaluated)
    decreases UnaryExpr(operator, right), 0
  {
    var r := Eval(st, right);
    if r.result.Failure? then r
    else Evaluated(Unary(operator, r.result.value), r.frames)
  }

  /** `VisitVariableExpr`: `_` is `LastResult`, any other name is
      `Get(Token)` in the current scope. */
  function EvalVariable(st: State, name: Token): (r: Evaluated)
  {
    if name.lexeme == LastResultName then Evaluated(Success(st.lastResult), st.frames)
    else
      match Lookup(st.frames, Current(st), name.lexeme)
      case Some(v) => Evaluated(Success(v), st.frames)
      case None => Evaluated(Failure(Runtime(RuntimeError(name, UndefinedMessage(name.lexeme)))), st.frames)
  }

  /** The outcome of running statements, and the state afterwards. */
  datatype Executed = Executed(outcome: Outcome<Fault>, state: State)

  /** `Execute`; `stringify` stands for the `Stringify` extension used by
      `print`, and `fuel` bounds the iterations of each `while` loop. */
  function Exec(st: State, s: Stmt, stringify: Value -> string, fuel: nat): (r: Executed)
    decreases fuel, StmtSize(s), 2
  {
    match s
    case BlockStmt(statements) => ExecBlock(st, statements, stringify, fuel)
    case ExpressionStmt(expression) => ExecExpression(st, expression)
    case IfStmt(condition, thenBranch, elseBranch) => ExecIf(st, condition, thenBranch, elseBranch, stringify, fuel)
    case PrintStmt(expression) => ExecPrint(st, expression, stringify)
    case VarStmt(name, initializer) => ExecVar(st, name, initializer)
    case WhileStmt(condition, body) => ExecWhile(st, condition, body, stringify, fuel)
    case _ => Executed(Fail(NotImplemented), st)
  }

  /** `VisitBlockStmt` and `ExecuteBlock`: a fresh scope enclosed by the
      current one is pushed, the statements run, and the scope is popped
      whether or not they fault; only a block that completes resets
      `LastResult`. */
  function ExecBlock(st: State, statements: seq<Stmt>, stringify: Value -> string, fuel: nat): (r: Executed)
    decreases fuel, StmtsSize(statements), 4
  {
    var scope := |st.frames|;
    var entered := st.(frames := st.frames + [Frame(map[], Some(Current(st)))], stack := st.stack + [scope]);
    var inner := ExecList(entered, statements, stringify, fuel);
    // `finally { _environments.Pop(); }`
    var left := inner.state.(stack := Pop(inner.state.stack));
    if inner.outcome.Fail? then Executed(inner.outcome, left)
    else Executed(Pass, left.(lastResult := Value.Nil))
  }

  /** `VisitExpressionStmt`: `LastResult` becomes the value. */
  function ExecExpression(st: State, expression: Expr): (r: Executed)
  {
    var v := Eval(st, expression);
    if v.result.Failure? then Executed(Fail(v.result.error), st.(frames := v.frames))
    else Executed(Pass, st.(frames := v.frames, lastResult := v.result.value))
  }

  /** `VisitIfStmt`: at most one branch runs, chosen by truthiness. */
  function ExecIf(st: State, condition: Expr, thenBranch: Stmt, elseBranch: Option<Stmt>, stringify: Value -> string, fuel: nat): (r: Executed)
    decreases fuel, StmtSize(IfStmt(condition, thenBranch, elseBranch)), 1
  {
    var c := Eval(st, condition);
    if c.result.Failure? then Executed(Fail(c.result.error), st.(frames := c.frames))
    else
      var branch :=
        if IsTruthy(c.result.value) then Exec(st.(frames := c.frames), thenBranch, stringify, fuel)
        else if elseBranch.Some? then Exec(st.(frames := c.frames), elseBranch.value, stringify, fuel)
        else Executed(Pass, st.(frames := c.frames));
      if branch.outcome.Fail? then branch
      else Executed(Pass, branch.state.(lastResult := Value.Nil))
  }

  /** `VisitPrintStmt`: one output line. */
  function ExecPrint(st: State, expression: Expr, stringify: Value -> string): (r: Executed)
  {
    var v := Eval(st, expression);
    if v.result.Failure? then Executed(Fail(v.result.error), st.(frames := v.frames))
    else Executed(Pass, st.(frames := v.frames, output := st.output + [stringify(v.result.value)], lastResult := Value.Nil))
  }

  /** `VisitVarStmt`: `Define(string)` in the current scope, with nil when
      there is no initializer. */
  function ExecVar(st: State, name: Token, initializer: Option<Expr>): (r: Executed)
  {
    var v := if initializer.Some? then Eval(st, initializer.value) else Evaluated(Success(Value.Nil), st.frames);
    if v.result.Failure? then Executed(Fail(v.result.error), st.(frames := v.frames))
    else Executed(Pass, st.(frames := Assigned(v.frames, Current(st), name.lexeme, v.result.value), lastResult := Value.Nil))
  }

  /** `VisitWhileStmt`: the condition is evaluated before every run of the
      body; a falsy condition ends the loop and resets `LastResult`. */
  function ExecWhile(st: State, condition: Expr, body: Stmt, stringify: Value -> string, fuel: nat): (r: Executed)
    decreases fuel, StmtSize(body), 1
  {
    var c := Eval(st, condition);
    var st' := st.(frames := c.frames);
    if c.result.Failure? then Executed(Fail(c.result.error), st')
    else if !IsTruthy(c.result.value) then Executed(Pass, st'.(lastResult := Value.Nil))
    else if fuel == 0 then Executed(Fail(OutOfFuel), st')
    else WhileAgain(Exec(st', body, stringify, fuel - 1), condition, body, stringify, fuel - 1)
  }

  /** After one run of the body: a fault ends the loop, otherwise the
      condition is evaluated again. */
  function WhileAgain(b: Executed, condition: Expr, body: Stmt, stringify: Value -> string, fuel: nat): (r: Executed)
    decreases fuel, StmtSize(body), 2
  {
    if b.outcome.Fail? then b
    else ExecWhile(b.state, condition, body, stringify, fuel)
  }

  /** The `foreach` over statements of `Interpret` and `ExecuteBlock`: the
      first fault ends it. */
  function ExecList(st: State, statements: seq<Stmt>, stringify: Value -> string, fuel: nat): (r: Executed)
    decreases fuel, StmtsSize(statements), 3
  {
    if statements == [] then Executed(Pass, st)
    else
      var first := Exec(st, statements[0], stringify, fuel);
      if first.outcome.Fail? then first
      else ExecList(first.state, statements[1..], stringify, fuel)
  }

  /** `Interpret`: an empty program resets `LastResult`; a fault is not
      caught. */
  function Interpret(st: State, statements: seq<Stmt>, stringify: Value -> string, fuel: nat): (r: Executed)
  {
    if statements == [] then Executed(Pass, st.(lastResult := Value.Nil))
    else ExecList(st, statements, stringify, fuel)
  }
}
