/** Properties of the evaluator of src/Lox/Interpreting/Interpreter.cs:
    the operator tables, `LastResult`, short-circuiting, the output, and the
    fuel bound being only a bound. */
module EvaluationProperties {
  import opened Wrappers
  import opened Values
  import opened Tokens
  import opened Reporting
  import opened Ast
  import opened Environment
  import opened Evaluation
  import opened EnvironmentProperties

  /** A nil operand fails every binary operator, `==` and `!=` included,
      and nothing else produces that error. */
  lemma NilOperandFails(op: Token, a: Value, b: Value)
    ensures Binary(op, a, b) == Failure(Runtime(RuntimeError(op, NullOperands))) <==> a.Nil? || b.Nil?
  {
  }

  /** On non-nil operands `==` and `!=` are equality of values and its
      negation; in particular they are symmetric. */
  lemma EqualityOperators(op: Token, a: Value, b: Value)
    requires !a.Nil? && !b.Nil?
    ensures op.tokenType == EqualEqual ==> Binary(op, a, b) == Success(Bool(a == b))
    ensures op.tokenType == BangEqual ==> Binary(op, a, b) == Success(Bool(a != b))
    ensures op.tokenType in {EqualEqual, BangEqual} ==> Binary(op, a, b) == Binary(op, b, a)
  {
  }

  /** `>`, `>=`, `<`, `<=` and `-` succeed exactly on two numbers, and
      otherwise fail with "Operands must be numbers.". */
  lemma NumericOperators(op: Token, a: Value, b: Value)
    requires !a.Nil? && !b.Nil? && op.tokenType in {Greater, GreaterEqual, Less, LessEqual, Minus}
    ensures Binary(op, a, b).Success? <==> a.Num? && b.Num?
    ensures Binary(op, a, b).Failure? ==> Binary(op, a, b).error == Runtime(RuntimeError(op, NumbersExpected))
  {
  }

  /** On two numbers the four comparisons agree with each other: `<` is
      the negation of `>=`, `>` the negation of `<=`, and `>` is `<` with
      the operands swapped. */
  lemma ComparisonsAgree(op: Token, x: Number, y: Number)
    ensures Binary(op.(tokenType := Less), Num(x), Num(y)).Success?
    ensures Binary(op.(tokenType := Less), Num(x), Num(y)).value.b
      == !Binary(op.(tokenType := GreaterEqual), Num(x), Num(y)).value.b
    ensures Binary(op.(tokenType := Greater), Num(x), Num(y)).value.b
      == !Binary(op.(tokenType := LessEqual), Num(x), Num(y)).value.b
    ensures Binary(op.(tokenType := Greater), Num(x), Num(y)).value.b
      == Binary(op.(tokenType := Less), Num(y), Num(x)).value.b
  {
  }

  /** `+` adds two numbers or concatenates two strings, and otherwise fails
      with "Operands must be two numbers or two strings.". */
  lemma PlusOperator(op: Token, a: Value, b: Value)
    requires !a.Nil? && !b.Nil? && op.tokenType == Plus
    ensures Binary(op, a, b).Success? <==> (a.Num? && b.Num?) || (a.Str? && b.Str?)
    ensures a.Str? && b.Str? ==> Binary(op, a, b) == Success(Str(a.s + b.s))
    ensures Binary(op, a, b).Failure? ==> Binary(op, a, b).error == Runtime(RuntimeError(op, NumbersOrStrings))
  {
  }

  /** `*` and `/` check nothing: a non-number operand is the cast crash,
      never a Lox runtime error. */
  lemma CastingOperators(op: Token, a: Value, b: Value)
    requires !a.Nil? && !b.Nil? && op.tokenType in {Star, Slash}
    ensures Binary(op, a, b) == Failure(InvalidCast) <==> !(a.Num? && b.Num?)
    ensures !(Binary(op, a, b).Failure? && Binary(op, a, b).error.Runtime?)
  {
  }

  /** An operator outside the switch yields nil. */
  lemma OtherBinaryOperators(op: Token, a: Value, b: Value)
    requires !a.Nil? && !b.Nil?
    requires op.tokenType !in {BangEqual, EqualEqual, Greater, GreaterEqual, Less, LessEqual, Minus, Plus, Slash, Star}
    ensures Binary(op, a, b) == Success(Value.Nil)
  {
  }

  /** Unary operators: nil fails, `!` is falsiness, `-` needs a number and
      undoes itself; an operator outside the switch yields nil. */
  lemma UnaryOperators(op: Token, v: Value)
    ensures v.Nil? <==> Unary(op, v) == Failure(Runtime(RuntimeError(op, NullOperand)))
    ensures !v.Nil? && op.tokenType == Bang ==> Unary(op, v) == Success(Bool(IsFalsey(v)))
    ensures !v.Nil? && op.tokenType == Minus ==>
      (Unary(op, v).Success? <==> v.Num?) &&
      (Unary(op, v).Failure? ==> Unary(op, v).error == Runtime(RuntimeError(op, NumberExpected)))
    ensures v.Num? && op.tokenType == Minus ==> Unary(op, Unary(op, v).value) == Success(v)
    ensures !v.Nil? && op.tokenType !in {Bang, Minus} ==> Unary(op, v) == Success(Value.Nil)
  {
  }

  /** `_` reads `LastResult`, whatever the scopes bind. */
  lemma UnderscoreReadsLastResult(st: State, name: Token)
    requires name.lexeme == "_"
    ensures Eval(st, VariableExpr(name)) == Evaluated(Success(st.lastResult), st.frames)
  {
  }

  /** Any other variable reads the nearest binding, or fails with
      "Variable X has not been defined.". */
  lemma VariableReadsNearest(st: State, name: Token)
    requires name.lexeme != "_"
    ensures Eval(st, VariableExpr(name)).frames == st.frames
    ensures Eval(st, VariableExpr(name)).result.Success? <==> Lookup(st.frames, Current(st), name.lexeme).Some?
    ensures Eval(st, VariableExpr(name)).result.Success? ==>
      Some(Eval(st, VariableExpr(name)).result.value) == Lookup(st.frames, Current(st), name.lexeme)
    ensures Eval(st, VariableExpr(name)).result.Failure? ==>
      Eval(st, VariableExpr(name)).result.error == Runtime(RuntimeError(name, UndefinedMessage(name.lexeme)))
  {
  }

  /** Assignment returns the assigned value and stores it in the nearest
      scope binding the name, after which the name reads that value; to a
      name bound nowhere it fails and stores nothing. */
  lemma AssignmentStores(st: State, name: Token, e: Expr, v: Value)
    requires Eval(st, e).result == Success(v)
    ensures var after := Eval(st, AssignExpr(name, e));
      var frames := Eval(st, e).frames;
      && (Nearest(frames, Current(st), name.lexeme).Some? ==>
            after.result == Success(v) && Lookup(after.frames, Current(st), name.lexeme) == Some(v))
      && (Nearest(frames, Current(st), name.lexeme).None? ==>
            after.result == Failure(Runtime(RuntimeError(name, UndefinedMessage(name.lexeme)))) && after.frames == frames)
  {
    var frames := Eval(st, e).frames;
    if Nearest(frames, Current(st), name.lexeme).Some? {
      LookupAfterAssign(frames, Current(st), name.lexeme, v);
    }
  }

  /** `or` and `and` on two operands that evaluate: the truthiness of the
      result is the disjunction, resp. conjunction, of theirs. */
  lemma LogicalTruth(st: State, left: Expr, op: Token, right: Expr)
    requires Eval(st, left).result.Success?
    requires Eval(st.(frames := Eval(st, left).frames), right).result.Success?
    ensures var r := Eval(st, LogicalExpr(left, op, right));
      var a := Eval(st, left).result.value;
      var b := Eval(st.(frames := Eval(st, left).frames), right).result.value;
      && r.result.Success?
      && (op.tokenType == Or ==> (IsTruthy(r.result.value) <==> IsTruthy(a) || IsTruthy(b)))
      && (op.tokenType != Or ==> (IsTruthy(r.result.value) <==> IsTruthy(a) && IsTruthy(b)))
  {
    var l := Eval(st, left);
    if (op.tokenType == Or) == IsTruthy(l.result.value) {
      LogicalShortCircuit(st, left, op, right);
    } else {
      LogicalRight(st, left, op, right);
    }
  }

  /** When the left operand does not decide, the result, scopes included,
      is the right one's. */
  lemma LogicalRight(st: State, left: Expr, op: Token, right: Expr)
    requires Eval(st, left).result.Success?
    requires (op.tokenType == Or) != IsTruthy(Eval(st, left).result.value)
    ensures Eval(st, LogicalExpr(left, op, right)) == Eval(st.(frames := Eval(st, left).frames), right)
  {
  }

  /** The right operand is evaluated only when the left one does not
      decide: otherwise the result, scopes included, is the left one's. */
  lemma LogicalShortCircuit(st: State, left: Expr, op: Token, right: Expr)
    requires Eval(st, left).result.Success?
    requires (op.tokenType == Or) == IsTruthy(Eval(st, left).result.value)
    ensures Eval(st, LogicalExpr(left, op, right)) == Eval(st, left)
  {
  }

  /** An if-expression evaluates exactly one branch, chosen by the
      truthiness of the condition. */
  lemma IfExprOneBranch(st: State, condition: Expr, ifTrue: Expr, ifFalse: Expr)
    requires Eval(st, condition).result.Success?
    ensures var c := Eval(st, condition);
      Eval(st, IfExpr(condition, ifTrue, ifFalse)) ==
        Eval(st.(frames := c.frames), if IsTruthy(c.result.value) then ifTrue else ifFalse)
  {
  }

  /** A list evaluates its left side for its effect and yields the value of
      its right side. */
  lemma ListYieldsRight(st: State, left: Expr, right: Expr)
    requires Eval(st, left).result.Success?
    ensures Eval(st, ListExpr(left, right)) == Eval(st.(frames := Eval(st, left).frames), right)
  {
  }

  /** An expression statement leaves its value in `LastResult`. */
  lemma ExpressionStatementSetsLastResult(st: State, e: Expr, stringify: Value -> string, fuel: nat)
    requires Eval(st, e).result.Success?
    ensures Exec(st, ExpressionStmt(e), stringify, fuel).outcome == Pass
    ensures Exec(st, ExpressionStmt(e), stringify, fuel).state.lastResult == Eval(st, e).result.value
  {
  }

  /** Every other statement that completes leaves `LastResult` nil: a
      block, an `if`, a `print`, a `var` and a `while`. */
  lemma {:induction false} StatementsResetLastResult(st: State, s: Stmt, stringify: Value -> string, fuel: nat)
    requires !s.ExpressionStmt?
    ensures Exec(st, s, stringify, fuel).outcome == Pass ==> Exec(st, s, stringify, fuel).state.lastResult == Value.Nil
  {
    if s.WhileStmt? {
      WhileResetsLastResult(st, s.condition, s.body, stringify, fuel);
    }
  }

  lemma {:induction false} WhileResetsLastResult(st: State, condition: Expr, body: Stmt, stringify: Value -> string, fuel: nat)
    ensures ExecWhile(st, condition, body, stringify, fuel).outcome == Pass ==>
      ExecWhile(st, condition, body, stringify, fuel).state.lastResult == Value.Nil
    decreases fuel
  {
    var c := Eval(st, condition);
    if c.result.Success? && IsTruthy(c.result.value) && fuel > 0 {
      var b := Exec(st.(frames := c.frames), body, stringify, fuel - 1);
      if b.outcome.Pass? {
        WhileResetsLastResult(b.state, condition, body, stringify, fuel - 1);
      }
    }
  }

  /** An empty program resets `LastResult`. */
  lemma EmptyProgramResetsLastResult(st: State, stringify: Value -> string, fuel: nat)
    ensures Interpret(st, [], stringify, fuel) == Executed(Pass, st.(lastResult := Value.Nil))
  {
  }

  /** A `print` that completes appends exactly one line, the text of its
      value; one that faults appends nothing. */
  lemma PrintAppendsOneLine(st: State, e: Expr, stringify: Value -> string, fuel: nat)
    ensures var r := Exec(st, PrintStmt(e), stringify, fuel);
      && (r.outcome.Pass? <==> Eval(st, e).result.Success?)
      && (r.outcome.Pass? ==> r.state.output == st.output + [stringify(Eval(st, e).result.value)])
      && (r.outcome.Fail? ==> r.state.output == st.output)
  {
  }

  /** A loop whose condition is falsy runs no body: it completes, resets
      `LastResult` and writes nothing. */
  lemma WhileStopsAtFalsy(st: State, condition: Expr, body: Stmt, stringify: Value -> string, fuel: nat)
    requires Eval(st, condition).result.Success? && !IsTruthy(Eval(st, condition).result.value)
    ensures Exec(st, WhileStmt(condition, body), stringify, fuel) ==
      Executed(Pass, st.(frames := Eval(st, condition).frames, lastResult := Value.Nil))
  {
  }

  /** A loop whose condition is truthy runs the body once, then starts over
      with the condition, from the state the body left. */
  lemma WhileRunsBodyThenRetests(st: State, condition: Expr, body: Stmt, stringify: Value -> string, fuel: nat)
    requires fuel > 0
    requires Eval(st, condition).result.Success? && IsTruthy(Eval(st, condition).result.value)
    ensures var b := Exec(st.(frames := Eval(st, condition).frames), body, stringify, fuel - 1);
      b.outcome.Pass? ==>
        Exec(st, WhileStmt(condition, body), stringify, fuel) == ExecWhile(b.state, condition, body, stringify, fuel - 1)
  {
    var b := Exec(st.(frames := Eval(st, condition).frames), body, stringify, fuel - 1);
    assert ExecWhile(st, condition, body, stringify, fuel) == WhileAgain(b, condition, body, stringify, fuel - 1);
  }

  /** Re-running `_;` changes nothing: the second half of the REPL
      scenario where `3*12-5;` is followed by `_;`. */
  lemma UnderscoreStatementKeepsState(st: State, name: Token, stringify: Value -> string, fuel: nat)
    requires name.lexeme == LastResultName
    ensures Interpret(st, [ExpressionStmt(VariableExpr(name))], stringify, fuel) == Executed(Pass, st)
  {
    assert Eval(st, VariableExpr(name)) == Evaluated(Success(st.lastResult), st.frames);
    assert Exec(st, ExpressionStmt(VariableExpr(name)), stringify, fuel) == Executed(Pass, st);
    assert ExecList(st, [ExpressionStmt(VariableExpr(name))][1..], stringify, fuel) == Executed(Pass, st);
  }

  /** `3*12-5;` leaves 31 in `LastResult`, from any state. */
  lemma ArithmeticStatementResult(st: State, stringify: Value -> string, fuel: nat, line: int)
    ensures var star := Token(Star, "*", Value.Nil, line);
      var minus := Token(Minus, "-", Value.Nil, line);
      var e := BinaryExpr(BinaryExpr(LiteralExpr(Num(3.0)), star, LiteralExpr(Num(12.0))), minus, LiteralExpr(Num(5.0)));
      Interpret(st, [ExpressionStmt(e)], stringify, fuel) == Executed(Pass, st.(lastResult := Num(31.0)))
  {
    var star := Token(Star, "*", Value.Nil, line);
    var minus := Token(Minus, "-", Value.Nil, line);
    var product := BinaryExpr(LiteralExpr(Num(3.0)), star, LiteralExpr(Num(12.0)));
    assert Eval(st, LiteralExpr(Num(3.0))) == Evaluated(Success(Num(3.0)), st.frames);
    assert Eval(st, LiteralExpr(Num(12.0))) == Evaluated(Success(Num(12.0)), st.frames);
    assert Eval(st, LiteralExpr(Num(5.0))) == Evaluated(Success(Num(5.0)), st.frames);
    assert Binary(star, Num(3.0), Num(12.0)) == Success(Num(36.0));
    assert Binary(minus, Num(36.0), Num(5.0)) == Success(Num(31.0));
    assert Eval(st, product) == Evaluated(Success(Num(36.0)), st.frames);
    var e := BinaryExpr(product, minus, LiteralExpr(Num(5.0)));
    assert Eval(st, e) == Evaluated(Success(Num(31.0)), st.frames);
    assert Exec(st, ExpressionStmt(e), stringify, fuel) == Executed(Pass, st.(lastResult := Num(31.0)));
    assert ExecList(st.(lastResult := Num(31.0)), [ExpressionStmt(e)][1..], stringify, fuel) == Executed(Pass, st.(lastResult := Num(31.0)));
  }

  /** The scope `ExecuteBlock` pushes for a block. */
  function BlockScope(st: State): State
  {
    st.(frames := st.frames + [Frame(map[], Some(Current(st)))], stack := st.stack + [|st.frames|])
  }

  /** Inside a block, a name reads what it reads outside: globals are
      visible from nested scopes. */
  lemma BlockSeesEnclosing(st: State, name: Token)
    requires Valid(st) && name.lexeme != LastResultName
    ensures Eval(BlockScope(st), VariableExpr(name)).result == Eval(st, VariableExpr(name)).result
  {
    LookupFreshScope(st.frames, Current(st), name.lexeme);
  }

  /** A `var` declared in a block is gone when the block ends: seen from the
      enclosing scope, every name reads what it read once the initializer
      had run, and with a literal initializer what it read before the
      block. */
  lemma BlockVarIsLocal(st: State, name: Token, init: Expr, stringify: Value -> string, fuel: nat, other: string)
    requires Valid(st)
    ensures var v := Eval(BlockScope(st), init);
      var r := Exec(st, BlockStmt([VarStmt(name, Some(init))]), stringify, fuel);
      && (v.result.Success? ==> Lookup(r.state.frames, Current(st), other) == Lookup(v.frames, Current(st), other))
      && (init.LiteralExpr? ==> Lookup(r.state.frames, Current(st), other) == Lookup(st.frames, Current(st), other))
  {
    var entered := BlockScope(st);
    var v := Eval(entered, init);
    var inner := Exec(entered, VarStmt(name, Some(init)), stringify, fuel);
    assert ExecList(entered, [VarStmt(name, Some(init))], stringify, fuel) == ExecList(inner.state, [], stringify, fuel) || inner.outcome.Fail?;
    if v.result.Success? {
      assert inner.state.frames == Assigned(v.frames, |st.frames|, name.lexeme, v.result.value);
      AssignInvisible(v.frames, |st.frames|, name.lexeme, v.result.value, Current(st), other);
    }
    if init.LiteralExpr? {
      LookupExtended(st.frames, Frame(map[], Some(Current(st))), Current(st), other);
    }
  }

  // The fuel bound only cuts runs short: a run that did not use it all up
  // has the same outcome and state with more fuel.

  lemma {:induction false} ExecFuel(st: State, s: Stmt, stringify: Value -> string, fuel: nat)
    ensures Exec(st, s, stringify, fuel).outcome != Fail(OutOfFuel) ==>
      Exec(st, s, stringify, fuel + 1) == Exec(st, s, stringify, fuel)
    decreases fuel, StmtSize(s), 2
  {
    match s
    case BlockStmt(statements) => BlockFuel(st, statements, stringify, fuel);
    case IfStmt(condition, thenBranch, elseBranch) => IfFuel(st, condition, thenBranch, elseBranch, stringify, fuel);
    case WhileStmt(condition, body) => WhileFuel(st, condition, body, stringify, fuel);
    case _ =>
  }

  lemma {:induction false} BlockFuel(st: State, statements: seq<Stmt>, stringify: Value -> string, fuel: nat)
    ensures ExecBlock(st, statements, stringify, fuel).outcome != Fail(OutOfFuel) ==>
      ExecBlock(st, statements, stringify, fuel + 1) == ExecBlock(st, statements, stringify, fuel)
    decreases fuel, StmtsSize(statements), 4
  {
    var entered := st.(frames := st.frames + [Frame(map[], Some(Current(st)))], stack := st.stack + [|st.frames|]);
    ListFuel(entered, statements, stringify, fuel);
  }

  lemma {:induction false} ListFuel(st: State, statements: seq<Stmt>, stringify: Value -> string, fuel: nat)
    ensures ExecList(st, statements, stringify, fuel).outcome != Fail(OutOfFuel) ==>
      ExecList(st, statements, stringify, fuel + 1) == ExecList(st, statements, stringify, fuel)
    decreases fuel, StmtsSize(statements), 3
  {
    if statements != [] {
      var first := Exec(st, statements[0], stringify, fuel);
      ExecFuel(st, statements[0], stringify, fuel);
      if first.outcome.Pass? {
        ListFuel(first.state, statements[1..], stringify, fuel);
      }
    }
  }

  lemma {:induction false} IfFuel(st: State, condition: Expr, thenBranch: Stmt, elseBranch: Option<Stmt>, stringify: Value -> string, fuel: nat)
    ensures ExecIf(st, condition, thenBranch, elseBranch, stringify, fuel).outcome != Fail(OutOfFuel) ==>
      ExecIf(st, condition, thenBranch, elseBranch, stringify, fuel + 1) == ExecIf(st, condition, thenBranch, elseBranch, stringify, fuel)
    decreases fuel, StmtSize(IfStmt(condition, thenBranch, elseBranch)), 1
  {
    var c := Eval(st, condition);
    if c.result.Success? {
      if IsTruthy(c.result.value) {
        ExecFuel(st.(frames := c.frames), thenBranch, stringify, fuel);
      } else if elseBranch.Some? {
        ExecFuel(st.(frames := c.frames), elseBranch.value, stringify, fuel);
      }
    }
  }

  lemma {:induction false} WhileFuel(st: State, condition: Expr, body: Stmt, stringify: Value -> string, fuel: nat)
    ensures ExecWhile(st, condition, body, stringify, fuel).outcome != Fail(OutOfFuel) ==>
      ExecWhile(st, condition, body, stringify, fuel + 1) == ExecWhile(st, condition, body, stringify, fuel)
    decreases fuel, StmtSize(body), 1
  {
    var c := Eval(st, condition);
    if c.result.Success? && IsTruthy(c.result.value) && fuel > 0 {
      var st' := st.(frames := c.frames);
      var b := Exec(st', body, stringify, fuel - 1);
      assert ExecWhile(st, condition, body, stringify, fuel) == WhileAgain(b, condition, body, stringify, fuel - 1);
      assert ExecWhile(st, condition, body, stringify, fuel + 1) == WhileAgain(Exec(st', body, stringify, fuel), condition, body, stringify, fuel);
      ExecFuel(st', body, stringify, fuel - 1);
      AgainFuel(b, condition, body, stringify, fuel - 1);
    }
  }

  lemma {:induction false} AgainFuel(b: Executed, condition: Expr, body: Stmt, stringify: Value -> string, fuel: nat)
    ensures WhileAgain(b, condition, body, stringify, fuel).outcome != Fail(OutOfFuel) ==>
      WhileAgain(b, condition, body, stringify, fuel + 1) == WhileAgain(b, condition, body, stringify, fuel)
    decreases fuel, StmtSize(body), 2
  {
    if b.outcome.Pass? {
      WhileFuel(b.state, condition, body, stringify, fuel);
    }
  }

  /** Any larger budget gives the same run. */
  lemma {:induction false} InterpretMoreFuel(st: State, statements: seq<Stmt>, stringify: Value -> string, fuel: nat, more: nat)
    requires fuel <= more
    requires Interpret(st, statements, stringify, fuel).outcome != Fail(OutOfFuel)
    ensures Interpret(st, statements, stringify, more) == Interpret(st, statements, stringify, fuel)
    decreases more - fuel
  {
    if fuel < more {
      if statements != [] {
        ListFuel(st, statements, stringify, fuel);
      }
      InterpretMoreFuel(st, statements, stringify, fuel + 1, more);
    }
  }
}
