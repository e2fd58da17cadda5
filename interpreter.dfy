/** The `Interpreter` class of src/Lox/Interpreting/Interpreter.cs as an
    object that updates its scopes, stack, `LastResult` and output writer in
    place. Every method is proved to do what the functions of `Evaluation`
    say, so the properties proved about those functions hold of it. A
    thrown exception is a `Failure`/`Fail` result that each caller passes
    on unchanged. */
module Interpreting {
  import opened Wrappers
  import opened Values
  import opened Tokens
  import opened Reporting
  import opened Ast
  import opened Environment
  import opened Evaluation
  import opened EvaluationInvariants

  /** An `IOutputWriter` that keeps the lines written to it. */
  class OutputWriter {
    var lines: seq<string>

    constructor ()
      ensures lines == []
    {
      lines := [];
    }

    method WriteLine(text: string)
      modifies this
      ensures lines == old(lines) + [text]
    {
      lines := lines + [text];
    }
  }

  /** After a successful left operand, a list is its right operand
      evaluated in the scopes the left one left behind. */
  lemma ListStep(st: State, left: Expr, right: Expr, l: Result<Value, Fault>, frames: seq<Frame>)
    requires Evaluated(l, frames) == Eval(st, left) && l.Success?
    ensures EvalList(st, left, right) == Eval(st.(frames := frames), right)
  {
  }

  /** After a successful left operand, a logical node either stops with it
      or is its right operand evaluated in the scopes the left one left
      behind. */
  lemma LogicalStep(st: State, left: Expr, operator: Token, right: Expr, l: Result<Value, Fault>, frames: seq<Frame>)
    requires Evaluated(l, frames) == Eval(st, left) && l.Success?
    ensures EvalLogical(st, left, operator, right) ==
      if (operator.tokenType == Or) == IsTruthy(l.value) then Evaluated(l, frames)
      else Eval(st.(frames := frames), right)
  {
  }

  class Interpreter {
    /** Every `Environment` object, as one arena. */
    const environments: Environments
    /** `_environments`, top last. */
    var stack: seq<nat>
    var lastResult: Value
    /** `_console`. */
    const console: OutputWriter
    /** The `Stringify(true)` extension used by `print`. */
    const stringify: Value -> string

    /** The interpreter as a value of the evaluation model. */
    ghost function StateOf(): State
      reads this, environments, console
    {
      State(environments.frames, stack, lastResult, console.lines)
    }

    ghost predicate Valid()
      reads this, environments, console
    {
      Evaluation.Valid(StateOf()) && environments.Valid()
    }

    /** The constructor pushes a fresh global scope. */
    constructor (console: OutputWriter, stringify: Value -> string)
      ensures Valid() && fresh(environments)
      ensures StateOf() == Initial.(output := console.lines)
      ensures this.console == console && this.stringify == stringify
    {
      var environments := new Environments();
      var global := environments.NewEnvironment(None);
      this.environments := environments;
      this.console := console;
      this.stringify := stringify;
      stack := [global];
      lastResult := Value.Nil;
    }

    /** `CurrentEnvironment`: the top of the stack. */
    function CurrentEnvironment(): (scope: nat)
      reads this, environments, console
      requires Valid()
      ensures scope == Current(StateOf()) && scope < |environments.frames|
    {
      stack[|stack| - 1]
    }

    /** `Evaluate`. */
    method Evaluate(e: Expr) returns (r: Result<Value, Fault>)
      requires Valid()
      modifies environments
      ensures Valid()
      ensures Evaluated(r, environments.frames) == Eval(old(StateOf()), e)
      decreases e, 1
    {
      match e {
        case AssignExpr(name, newValue) => r := VisitAssignExpr(name, newValue);
        case BinaryExpr(left, operator, right) => r := VisitBinaryExpr(left, operator, right);
        case GroupingExpr(inner) => r := Evaluate(inner);
        case IfExpr(condition, ifTrue, ifFalse) => r := VisitIfExpr(condition, ifTrue, ifFalse);
        case ListExpr(left, right) => r := VisitListExpr(left, right);
        case LiteralExpr(v) => r := Success(v);
        case LogicalExpr(left, operator, right) => r := VisitLogicalExpr(left, operator, right);
        case UnaryExpr(operator, right) => r := VisitUnaryExpr(operator, right);
        case VariableExpr(name) => r := VisitVariableExpr(name);
        case _ => r := Failure(NotImplemented);
      }
      EvalValid(old(StateOf()), e);
    }

    method VisitAssignExpr(name: Token, newValue: Expr) returns (r: Result<Value, Fault>)
      requires Valid()
      modifies environments
      ensures Evaluated(r, environments.frames) == EvalAssign(old(StateOf()), name, newValue)
      decreases AssignExpr(name, newValue), 0
    {
      ghost var before := StateOf();
      r := Evaluate(newValue);
      if r.Success? {
        assert StateOf() == before.(frames := environments.frames);
        var stored := environments.Set(CurrentEnvironment(), name, r.value);
        if stored.Fail? {
          r := Failure(Runtime(stored.error));
        }
      }
    }

    method VisitBinaryExpr(left: Expr, operator: Token, right: Expr) returns (r: Result<Value, Fault>)
      requires Valid()
      modifies environments
      ensures Evaluated(r, environments.frames) == EvalBinary(old(StateOf()), left, operator, right)
      decreases BinaryExpr(left, operator, right), 0
    {
      ghost var before := StateOf();
      var a := Evaluate(left);
      if a.Failure? {
        return a;
      }
      assert StateOf() == before.(frames := environments.frames);
      var b := Evaluate(right);
      if b.Failure? {
        return b;
      }
      r := Binary(operator, a.value, b.value);
    }

    method VisitIfExpr(condition: Expr, ifTrue: Expr, ifFalse: Expr) returns (r: Result<Value, Fault>)
      requires Valid()
      modifies environments
      ensures Evaluated(r, environments.frames) == EvalIf(old(StateOf()), condition, ifTrue, ifFalse)
      decreases IfExpr(condition, ifTrue, ifFalse), 0
    {
      ghost var before := StateOf();
      var c := Evaluate(condition);
      if c.Failure? {
        return c;
      }
      assert StateOf() == before.(frames := environments.frames);
      if IsTruthy(c.value) {
        r := Evaluate(ifTrue);
      } else {
        r := Evaluate(ifFalse);
      }
    }

    method VisitListExpr(left: Expr, right: Expr) returns (r: Result<Value, Fault>)
      requires Valid()
      modifies environments
      ensures Evaluated(r, environments.frames) == EvalList(old(StateOf()), left, right)
      decreases ListExpr(left, right), 0
    {
      ghost var before := StateOf();
      var l := Evaluate(left);
      if l.Failure? {
        return l;
      }
      ListStep(before, left, right, l, environments.frames);
      assert StateOf() == before.(frames := environments.frames);
      r := Evaluate(right);
    }

    method VisitLogicalExpr(left: Expr, operator: Token, right: Expr) returns (r: Result<Value, Fault>)
      requires Valid()
      modifies environments
      ensures Evaluated(r, environments.frames) == EvalLogical(old(StateOf()), left, operator, right)
      decreases LogicalExpr(left, operator, right), 0
    {
      ghost var before := StateOf();
      r := Evaluate(left);
      if r.Failure? {
        return;
      }
      LogicalStep(before, left, operator, right, r, environments.frames);
      if operator.tokenType == Or {
        if IsTruthy(r.value) {
          return;
        }
      } else {
        if !IsTruthy(r.value) {
          return;
        }
      }
      r := Evaluate(right);
    }

    method VisitUnaryExpr(operator: Token, right: Expr) returns (r: Result<Value, Fault>)
      requires Valid()
      modifies environments
      ensures Evaluated(r, environments.frames) == EvalUnary(old(StateOf()), operator, right)
      decreases UnaryExpr(operator, right), 0
    {
      r := Evaluate(right);
      if r.Success? {
        r := Unary(operator, r.value);
      }
    }

    method VisitVariableExpr(name: Token) returns (r: Result<Value, Fault>)
      requires Valid()
      ensures Evaluated(r, environments.frames) == EvalVariable(StateOf(), name)
    {
      if name.lexeme == LastResultName {
        return Success(lastResult);
      }
      var v := environments.Get(CurrentEnvironment(), name);
      if v.Success? {
        r := Success(v.value);
      } else {
        r := Failure(Runtime(v.error));
      }
    }

    /** `Interpret`: an empty program resets `LastResult`; otherwise the
        statements run in order and the first fault escapes. */
    method Interpret(statements: seq<Stmt>, fuel: nat) returns (outcome: Outcome<Fault>)
      requires Valid()
      modifies this, environments, console
      ensures Valid()
      ensures Executed(outcome, StateOf()) == Evaluation.Interpret(old(StateOf()), statements, stringify, fuel)
    {
      if statements == [] {
        lastResult := Value.Nil;
        return Pass;
      }
      outcome := ExecuteAll(statements, fuel);
    }

    /** The `foreach` over statements shared by `Interpret` and
        `ExecuteBlock`. */
    method ExecuteAll(statements: seq<Stmt>, fuel: nat) returns (outcome: Outcome<Fault>)
      requires Valid()
      modifies this, environments, console
      ensures Valid()
      ensures Executed(outcome, StateOf()) == ExecList(old(StateOf()), statements, stringify, fuel)
      decreases fuel, StmtsSize(statements), 3
    {
      ListExtends(StateOf(), statements, stringify, fuel);
      var i := 0;
      outcome := Pass;
      while i < |statements| && outcome.Pass?
        invariant 0 <= i <= |statements| && Valid()
        invariant ExecList(old(StateOf()), statements, stringify, fuel) ==
          if outcome.Pass? then ExecList(StateOf(), statements[i..], stringify, fuel) else Executed(outcome, StateOf())
        decreases |statements| - i
      {
        assert statements[i..][1..] == statements[i + 1..];
        outcome := Execute(statements[i], fuel);
        i := i + 1;
      }
    }

    /** `Execute`: the switch over the statement kinds. */
    method Execute(s: Stmt, fuel: nat) returns (outcome: Outcome<Fault>)
      requires Valid()
      modifies this, environments, console
      ensures Valid()
      ensures Executed(outcome, StateOf()) == Exec(old(StateOf()), s, stringify, fuel)
      decreases fuel, StmtSize(s), 2
    {
      ExecExtends(StateOf(), s, stringify, fuel);
      match s {
        case BlockStmt(statements) => outcome := VisitBlockStmt(statements, fuel);
        case ExpressionStmt(expression) => outcome := VisitExpressionStmt(expression);
        case IfStmt(condition, thenBranch, elseBranch) => outcome := VisitIfStmt(condition, thenBranch, elseBranch, fuel);
        case PrintStmt(expression) => outcome := VisitPrintStmt(expression);
        case VarStmt(name, initializer) => outcome := VisitVarStmt(name, initializer);
        case WhileStmt(condition, body) => outcome := VisitWhileStmt(condition, body, fuel);
        case _ => outcome := Fail(NotImplemented);
      }
      assert Extends(old(StateOf()), StateOf());
    }

    /** `VisitBlockStmt`: `ExecuteBlock` in a new scope enclosed by the
        current one; `LastResult` is reset only when the block completes. */
    method VisitBlockStmt(statements: seq<Stmt>, fuel: nat) returns (outcome: Outcome<Fault>)
      requires Valid()
      modifies this, environments, console
      ensures Executed(outcome, StateOf()) == ExecBlock(old(StateOf()), statements, stringify, fuel)
      decreases fuel, StmtsSize(statements), 5
    {
      var scope := environments.NewEnvironment(Some(CurrentEnvironment()));
      outcome := ExecuteBlock(statements, scope, fuel);
      if outcome.Pass? {
        lastResult := Value.Nil;
      }
    }

    /** `ExecuteBlock`: push the scope, run the statements, and pop the
        scope whether or not they fault (the `finally`). */
    method ExecuteBlock(statements: seq<Stmt>, scope: nat, fuel: nat) returns (outcome: Outcome<Fault>)
      requires Valid() && scope < |environments.frames|
      modifies this, environments, console
      ensures var inner := ExecList(old(StateOf()).(stack := old(stack) + [scope]), statements, stringify, fuel);
        Executed(outcome, StateOf()) == Executed(inner.outcome, inner.state.(stack := Pop(inner.state.stack)))
      decreases fuel, StmtsSize(statements), 4
    {
      stack := stack + [scope];
      outcome := ExecuteAll(statements, fuel);
      stack := Pop(stack);
    }

    /** `VisitExpressionStmt`: `LastResult` becomes the value. */
    method VisitExpressionStmt(expression: Expr) returns (outcome: Outcome<Fault>)
      requires Valid()
      modifies this, environments
      ensures Executed(outcome, StateOf()) == ExecExpression(old(StateOf()), expression)
    {
      ghost var before := StateOf();
      var v := Evaluate(expression);
      if v.Failure? {
        return Fail(v.error);
      }
      assert StateOf() == before.(frames := environments.frames);
      lastResult := v.value;
      outcome := Pass;
    }

    /** `VisitIfStmt`. */
    method VisitIfStmt(condition: Expr, thenBranch: Stmt, elseBranch: Option<Stmt>, fuel: nat) returns (outcome: Outcome<Fault>)
      requires Valid()
      modifies this, environments, console
      ensures Executed(outcome, StateOf()) == ExecIf(old(StateOf()), condition, thenBranch, elseBranch, stringify, fuel)
      decreases fuel, StmtSize(IfStmt(condition, thenBranch, elseBranch)), 1
    {
      ghost var before := StateOf();
      var c := Evaluate(condition);
      if c.Failure? {
        return Fail(c.error);
      }
      assert StateOf() == before.(frames := environments.frames);
      outcome := Pass;
      if IsTruthy(c.value) {
        outcome := Execute(thenBranch, fuel);
      } else if elseBranch.Some? {
        outcome := Execute(elseBranch.value, fuel);
      }
      if outcome.Pass? {
        lastResult := Value.Nil;
      }
    }

    /** `VisitPrintStmt`: one line on the output writer. */
    method VisitPrintStmt(expression: Expr) returns (outcome: Outcome<Fault>)
      requires Valid()
      modifies this, environments, console
      ensures Executed(outcome, StateOf()) == ExecPrint(old(StateOf()), expression, stringify)
    {
      ghost var before := StateOf();
      var v := Evaluate(expression);
      if v.Failure? {
        return Fail(v.error);
      }
      assert StateOf() == before.(frames := environments.frames);
      console.WriteLine(stringify(v.value));
      lastResult := Value.Nil;
      outcome := Pass;
    }

    /** `VisitVarStmt`: `Define` in the current scope, nil without an
        initializer. */
    method VisitVarStmt(name: Token, initializer: Option<Expr>) returns (outcome: Outcome<Fault>)
      requires Valid()
      modifies this, environments
      ensures Executed(outcome, StateOf()) == ExecVar(old(StateOf()), name, initializer)
    {
      ghost var before := StateOf();
      var value := Success(Value.Nil);
      if initializer.Some? {
        value := Evaluate(initializer.value);
        if value.Failure? {
          return Fail(value.error);
        }
      }
      assert StateOf() == before.(frames := environments.frames);
      environments.Define(CurrentEnvironment(), name.lexeme, value.value);
      lastResult := Value.Nil;
      outcome := Pass;
    }

    /** `VisitWhileStmt`: the condition is evaluated before every run of the
        body; `f` counts down the iterations the fuel still allows. */
    method VisitWhileStmt(condition: Expr, body: Stmt, fuel: nat) returns (outcome: Outcome<Fault>)
      requires Valid()
      modifies this, environments, console
      ensures Executed(outcome, StateOf()) == ExecWhile(old(StateOf()), condition, body, stringify, fuel)
      decreases fuel, StmtSize(body), 1
    {
      var f: nat := fuel;
      while true
        invariant f <= fuel && Valid()
        invariant ExecWhile(old(StateOf()), condition, body, stringify, fuel) == ExecWhile(StateOf(), condition, body, stringify, f)
        decreases f
      {
        ghost var before := StateOf();
        var c := Evaluate(condition);
        if c.Failure? {
          return Fail(c.error);
        }
        assert StateOf() == before.(frames := environments.frames);
        if !IsTruthy(c.value) {
          lastResult := Value.Nil;
          return Pass;
        }
        if f == 0 {
          return Fail(OutOfFuel);
        }
        outcome := Execute(body, f - 1);
        if outcome.Fail? {
          return;
        }
        f := f - 1;
      }
    }
  }
}
