/** The invariants of the interpreter state of
    src/Lox/Interpreting/Interpreter.cs: evaluating an expression only
    changes values, and running a statement leaves the stack as it found it
    (`ExecuteBlock` pops what it pushed, even on a fault), only adds scopes
    and only appends output. */
module EvaluationInvariants {
  import opened Wrappers
  import opened Values
  import opened Tokens
  import opened Ast
  import opened Environment
  import opened EnvironmentProperties
  import opened Evaluation

  /** Evaluation never creates, removes or re-links a scope. */
  lemma {:induction false} EvalKeepsLinks(st: State, e: Expr)
    ensures Links(Eval(st, e).frames) == Links(st.frames)
    decreases e
  {
    match e
    case AssignExpr(name, newValue) =>
      var v := Eval(st, newValue);
      EvalKeepsLinks(st, newValue);
      if v.result.Success? {
        var k := Nearest(v.frames, Current(st), name.lexeme);
        if k.Some? {
          AssignedLinks(v.frames, k.value, name.lexeme, v.result.value);
        }
      }
    case BinaryExpr(left, _, right) =>
      EvalKeepsLinks(st, left);
      EvalKeepsLinks(st.(frames := Eval(st, left).frames), right);
    case GroupingExpr(inner) =>
      EvalKeepsLinks(st, inner);
    case IfExpr(condition, ifTrue, ifFalse) =>
      var c := Eval(st, condition);
      EvalKeepsLinks(st, condition);
      EvalKeepsLinks(st.(frames := c.frames), ifTrue);
      EvalKeepsLinks(st.(frames := c.frames), ifFalse);
    case ListExpr(left, right) =>
      EvalKeepsLinks(st, left);
      EvalKeepsLinks(st.(frames := Eval(st, left).frames), right);
    case LogicalExpr(left, _, right) =>
      EvalKeepsLinks(st, left);
      EvalKeepsLinks(st.(frames := Eval(st, left).frames), right);
    case UnaryExpr(_, right) =>
      EvalKeepsLinks(st, right);
    case _ =>
  }

  /** Hence evaluation keeps the state valid. */
  lemma EvalValid(st: State, e: Expr)
    requires Valid(st)
    ensures Valid(st.(frames := Eval(st, e).frames))
  {
    EvalKeepsLinks(st, e);
    LinksAcyclic(st.frames, Eval(st, e).frames);
  }

  /** `Extends` is transitive. */
  lemma ExtendsTransitive(a: State, b: State, c: State)
    requires Extends(a, b) && Extends(b, c)
    ensures Extends(a, c)
  {
    assert Links(c.frames)[..|a.frames|] == Links(c.frames)[..|b.frames|][..|a.frames|];
  }

  /** Changing values only: the new state extends the old. */
  lemma ValuesOnly(st: State, frames: seq<Frame>)
    requires Valid(st) && Links(frames) == Links(st.frames)
    ensures Extends(st, st.(frames := frames))
  {
    LinksAcyclic(st.frames, frames);
  }

  /** Every statement keeps the state valid and only extends it. */
  lemma {:induction false} ExecExtends(st: State, s: Stmt, stringify: Value -> string, fuel: nat)
    requires Valid(st)
    ensures Extends(st, Exec(st, s, stringify, fuel).state)
    decreases fuel, StmtSize(s), 2
  {
    match s
    case BlockStmt(statements) => BlockExtends(st, statements, stringify, fuel);
    case ExpressionStmt(expression) =>
      EvalKeepsLinks(st, expression);
      ValuesOnly(st, Eval(st, expression).frames);
    case IfStmt(condition, thenBranch, elseBranch) => IfExtends(st, condition, thenBranch, elseBranch, stringify, fuel);
    case PrintStmt(expression) =>
      EvalKeepsLinks(st, expression);
      ValuesOnly(st, Eval(st, expression).frames);
    case VarStmt(name, initializer) => VarExtends(st, name, initializer);
    case WhileStmt(condition, body) => WhileExtends(st, condition, body, stringify, fuel);
    case _ =>
  }

  lemma VarExtends(st: State, name: Token, initializer: Option<Expr>)
    requires Valid(st)
    ensures Extends(st, ExecVar(st, name, initializer).state)
  {
    var v := if initializer.Some? then Eval(st, initializer.value) else Evaluated(Success(Value.Nil), st.frames);
    if initializer.Some? {
      EvalKeepsLinks(st, initializer.value);
    }
    ValuesOnly(st, v.frames);
    if v.result.Success? {
      AssignedLinks(v.frames, Current(st), name.lexeme, v.result.value);
      ValuesOnly(st, Assigned(v.frames, Current(st), name.lexeme, v.result.value));
    }
  }

  lemma {:induction false} BlockExtends(st: State, statements: seq<Stmt>, stringify: Value -> string, fuel: nat)
    requires Valid(st)
    ensures Extends(st, ExecBlock(st, statements, stringify, fuel).state)
    decreases fuel, StmtsSize(statements), 4
  {
    var entered := st.(frames := st.frames + [Frame(map[], Some(Current(st)))], stack := st.stack + [|st.frames|]);
    assert Links(entered.frames)[..|st.frames|] == Links(st.frames);
    ListExtends(entered, statements, stringify, fuel);
  }

  lemma {:induction false} ListExtends(st: State, statements: seq<Stmt>, stringify: Value -> string, fuel: nat)
    requires Valid(st)
    ensures Extends(st, ExecList(st, statements, stringify, fuel).state)
    decreases fuel, StmtsSize(statements), 3
  {
    if statements != [] {
      var first := Exec(st, statements[0], stringify, fuel);
      ExecExtends(st, statements[0], stringify, fuel);
      if first.outcome.Pass? {
        ListExtends(first.state, statements[1..], stringify, fuel);
        ExtendsTransitive(st, first.state, ExecList(first.state, statements[1..], stringify, fuel).state);
      }
    }
  }

  lemma {:induction false} IfExtends(st: State, condition: Expr, thenBranch: Stmt, elseBranch: Option<Stmt>, stringify: Value -> string, fuel: nat)
    requires Valid(st)
    ensures Extends(st, ExecIf(st, condition, thenBranch, elseBranch, stringify, fuel).state)
    decreases fuel, StmtSize(IfStmt(condition, thenBranch, elseBranch)), 1
  {
    var c := Eval(st, condition);
    EvalKeepsLinks(st, condition);
    ValuesOnly(st, c.frames);
    if c.result.Success? {
      if IsTruthy(c.result.value) {
        ExecAfter(st, st.(frames := c.frames), thenBranch, stringify, fuel);
      } else if elseBranch.Some? {
        ExecAfter(st, st.(frames := c.frames), elseBranch.value, stringify, fuel);
      }
    }
  }

  /** A statement run from a state that extends `st` ends in one that
      extends `st`. */
  lemma {:induction false} ExecAfter(st: State, st': State, s: Stmt, stringify: Value -> string, fuel: nat)
    requires Extends(st, st')
    ensures Extends(st, Exec(st', s, stringify, fuel).state)
    decreases fuel, StmtSize(s), 3
  {
    ExecExtends(st', s, stringify, fuel);
    ExtendsTransitive(st, st', Exec(st', s, stringify, fuel).state);
  }

  lemma {:induction false} WhileExtends(st: State, condition: Expr, body: Stmt, stringify: Value -> string, fuel: nat)
    requires Valid(st)
    ensures Extends(st, ExecWhile(st, condition, body, stringify, fuel).state)
    decreases fuel, StmtSize(body), 1
  {
    var c := Eval(st, condition);
    var st' := st.(frames := c.frames);
    EvalKeepsLinks(st, condition);
    ValuesOnly(st, c.frames);
    if c.result.Success? && IsTruthy(c.result.value) && fuel > 0 {
      var b := Exec(st', body, stringify, fuel - 1);
      ExecAfter(st, st', body, stringify, fuel - 1);
      AgainExtends(b, condition, body, stringify, fuel - 1);
      ExtendsTransitive(st, b.state, WhileAgain(b, condition, body, stringify, fuel - 1).state);
    }
  }

  lemma {:induction false} AgainExtends(b: Executed, condition: Expr, body: Stmt, stringify: Value -> string, fuel: nat)
    requires Valid(b.state)
    ensures Extends(b.state, WhileAgain(b, condition, body, stringify, fuel).state)
    decreases fuel, StmtSize(body), 2
  {
    if b.outcome.Pass? {
      WhileExtends(b.state, condition, body, stringify, fuel);
    }
  }

  /** A whole program keeps the state valid and only extends it. */
  lemma InterpretExtends(st: State, statements: seq<Stmt>, stringify: Value -> string, fuel: nat)
    requires Valid(st)
    ensures Extends(st, Interpret(st, statements, stringify, fuel).state)
  {
    ListExtends(st, statements, stringify, fuel);
  }
}
