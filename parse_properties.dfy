/** Properties of the expression grammar: the divergence of `Equality` as
    written, precedence and associativity on concrete token lists, the two
    error messages, and where `Synchronize` stops. */
module ParseProperties {
  import opened Wrappers
  import opened Values
  import opened Tokens
  import opened Ast
  import opened ParseSpec

  /** `Equality()` as written reaches no result for any depth of recursion:
      `Parse` never returns. */
  lemma {:induction false} EqualityAsWrittenDiverges(toks: seq<Token>, pos: nat, fuel: nat)
    requires Terminated(toks) && pos < |toks|
    ensures EqualityAsWritten(toks, pos, fuel) == None
    decreases fuel
  {
    if fuel > 0 {
      EqualityAsWrittenDiverges(toks, pos, fuel - 1);
    }
  }

  function Num(n: Number, text: string): Token
  {
    Token(NumberLit, text, Value.Num(n), 1)
  }

  function Op(t: TokenType, text: string): Token
  {
    Token(t, text, Value.Nil, 1)
  }

  const EndToken: Token := Token(Eof, "", Value.Nil, 1)

  const PrecedenceTokens: seq<Token> :=
    [Num(1.0, "1"), Op(Plus, "+"), Num(2.0, "2"), Op(Star, "*"), Num(3.0, "3"), EndToken]

  /** The right operand of `+` in `1 + 2 * 3` is the whole product. */
  lemma PrecedenceProduct()
    ensures Factor(PrecedenceTokens, 2)
         == Parsed(BinaryExpr(LiteralExpr(Value.Num(2.0)), Op(Star, "*"), LiteralExpr(Value.Num(3.0))), 5)
  {
    var t := PrecedenceTokens;
    var two, three := LiteralExpr(Value.Num(2.0)), LiteralExpr(Value.Num(3.0));
    var product := BinaryExpr(two, Op(Star, "*"), three);
    assert Unary(t, 2) == Parsed(two, 3);
    assert Unary(t, 4) == Parsed(three, 5);
    assert FactorTail(t, product, 5) == Parsed(product, 5);
  }

  const PrecedenceTree: Expr :=
    BinaryExpr(LiteralExpr(Value.Num(1.0)), Op(Plus, "+"),
      BinaryExpr(LiteralExpr(Value.Num(2.0)), Op(Star, "*"), LiteralExpr(Value.Num(3.0))))

  /** The left operand of `+` in `1 + 2 * 3` is the literal. */
  lemma PrecedenceFirst()
    ensures Factor(PrecedenceTokens, 0) == Parsed(LiteralExpr(Value.Num(1.0)), 1)
  {
    assert Unary(PrecedenceTokens, 0) == Parsed(LiteralExpr(Value.Num(1.0)), 1);
  }

  /** The term of `1 + 2 * 3` spans the whole list. */
  lemma PrecedenceTerm()
    ensures Term(PrecedenceTokens, 0) == Parsed(PrecedenceTree, 5)
  {
    var t := PrecedenceTokens;
    PrecedenceFirst();
    PrecedenceProduct();
    assert TermTail(t, PrecedenceTree, 5) == Parsed(PrecedenceTree, 5);
  }

  /** `1 + 2 * 3` parses as `1 + (2 * 3)`: the operands of `+` are factors. */
  lemma PrecedenceExample()
    ensures Parse(PrecedenceTokens) == Some(PrecedenceTree)
  {
    var t := PrecedenceTokens;
    var sum := PrecedenceTree;
    PrecedenceTerm();
    assert Comparison(t, 0) == Parsed(sum, 5);
    assert Equality(t, 0) == Parsed(sum, 5);
  }

  const ChainTokens: seq<Token> :=
    [Num(1.0, "1"), Op(Minus, "-"), Num(2.0, "2"), Op(Minus, "-"), Num(3.0, "3"), EndToken]

  /** The operands of `1 - 2 - 3` are literals. */
  lemma ChainOperands()
    ensures Factor(ChainTokens, 0) == Parsed(LiteralExpr(Value.Num(1.0)), 1)
    ensures Factor(ChainTokens, 2) == Parsed(LiteralExpr(Value.Num(2.0)), 3)
    ensures Factor(ChainTokens, 4) == Parsed(LiteralExpr(Value.Num(3.0)), 5)
  {
    var t := ChainTokens;
    assert Unary(t, 0) == Parsed(LiteralExpr(Value.Num(1.0)), 1);
    assert Unary(t, 2) == Parsed(LiteralExpr(Value.Num(2.0)), 3);
    assert Unary(t, 4) == Parsed(LiteralExpr(Value.Num(3.0)), 5);
  }

  /** `1 - 2 - 3` parses as `(1 - 2) - 3`. */
  lemma LeftAssociationExample()
    ensures Parse(ChainTokens)
         == Some(BinaryExpr(BinaryExpr(LiteralExpr(Value.Num(1.0)), Op(Minus, "-"), LiteralExpr(Value.Num(2.0))),
                  Op(Minus, "-"), LiteralExpr(Value.Num(3.0))))
  {
    var t := ChainTokens;
    var one, two, three := LiteralExpr(Value.Num(1.0)), LiteralExpr(Value.Num(2.0)), LiteralExpr(Value.Num(3.0));
    var first := BinaryExpr(one, Op(Minus, "-"), two);
    var second := BinaryExpr(first, Op(Minus, "-"), three);
    ChainOperands();
    assert TermTail(t, second, 5) == Parsed(second, 5);
    assert TermTail(t, first, 3) == Parsed(second, 5);
    assert Term(t, 0) == Parsed(second, 5);
    assert Comparison(t, 0) == Parsed(second, 5);
    assert Equality(t, 0) == Parsed(second, 5);
  }

  const UnaryTokens: seq<Token> := [Op(Bang, "!"), Op(Minus, "-"), Num(1.0, "1"), EndToken]

  /** `! - 1` nests to the right: `!(-1)`. */
  lemma UnaryNestingExample()
    ensures Parse(UnaryTokens)
         == Some(UnaryExpr(Op(Bang, "!"), UnaryExpr(Op(Minus, "-"), LiteralExpr(Value.Num(1.0)))))
  {
    var t := UnaryTokens;
    var e := UnaryExpr(Op(Bang, "!"), UnaryExpr(Op(Minus, "-"), LiteralExpr(Value.Num(1.0))));
    assert Unary(t, 2) == Parsed(LiteralExpr(Value.Num(1.0)), 3);
    assert Unary(t, 0) == Parsed(e, 3);
    assert Factor(t, 0) == Parsed(e, 3);
    assert Term(t, 0) == Parsed(e, 3);
    assert Comparison(t, 0) == Parsed(e, 3);
    assert Equality(t, 0) == Parsed(e, 3);
  }

  const UnclosedTokens: seq<Token> := [Op(LeftParen, "("), Num(1.0, "1"), EndToken]

  /** Inside the parenthesis of `(1` the expression is the literal. */
  lemma UnclosedInner()
    ensures Expression(UnclosedTokens, 1) == Parsed(LiteralExpr(Value.Num(1.0)), 2)
  {
    var t := UnclosedTokens;
    var one := LiteralExpr(Value.Num(1.0));
    assert Unary(t, 1) == Parsed(one, 2);
    assert Factor(t, 1) == Parsed(one, 2);
    assert Term(t, 1) == Parsed(one, 2);
    assert Comparison(t, 1) == Parsed(one, 2);
    assert Equality(t, 1) == Parsed(one, 2);
  }

  /** An unclosed parenthesis fails at the token after the inner expression. */
  lemma MissingRightParen()
    ensures Expression(UnclosedTokens, 0) == Failed(2, ExpectRightParen)
    ensures Parse(UnclosedTokens) == None
  {
    var t := UnclosedTokens;
    UnclosedInner();
    assert Primary(t, 0) == Failed(2, ExpectRightParen);
    assert Factor(t, 0) == Failed(2, ExpectRightParen);
    assert Comparison(t, 0) == Failed(2, ExpectRightParen);
  }

  const DanglingTokens: seq<Token> := [Num(1.0, "1"), Op(Plus, "+"), EndToken]

  /** A token that cannot start an expression fails where it stands: the
      end of input after a dangling operator (here), or a stray
      parenthesis (below). */
  lemma ExpectExpressionAtEnd()
    ensures Expression(DanglingTokens, 0) == Failed(2, ExpectExpression)
  {
    var t := DanglingTokens;
    assert Unary(t, 0) == Parsed(LiteralExpr(Value.Num(1.0)), 1);
    assert Factor(t, 0) == Parsed(LiteralExpr(Value.Num(1.0)), 1);
    assert Unary(t, 2) == Failed(2, ExpectExpression);
    assert Factor(t, 2) == Failed(2, ExpectExpression);
    assert Term(t, 0) == Failed(2, ExpectExpression);
    assert Comparison(t, 0) == Failed(2, ExpectExpression);
  }

  lemma ExpectExpressionAtParen()
    ensures Expression([Op(RightParen, ")"), EndToken], 0) == Failed(0, ExpectExpression)
  {
    var u := [Op(RightParen, ")"), EndToken];
    assert Unary(u, 0) == Failed(0, ExpectExpression);
    assert Factor(u, 0) == Failed(0, ExpectExpression);
    assert Comparison(u, 0) == Failed(0, ExpectExpression);
  }

  /** A unary operator applies to the unary expression after it; any other
      token starts a primary. */
  lemma UnarySteps(toks: seq<Token>, pos: nat)
    requires Terminated(toks) && pos < |toks|
    ensures MatchAt(toks, pos, UnaryOps) ==>
      (pos + 1 < |toks| &&
       Unary(toks, pos) == match Unary(toks, pos + 1)
         case Failed(at, m) => Failed(at, m)
         case Parsed(right, n) => Parsed(UnaryExpr(toks[pos], right), n))
    ensures !MatchAt(toks, pos, UnaryOps) ==> Unary(toks, pos) == Primary(toks, pos)
  {
  }

  /** `false`, `true` and `nil` become literal nodes of their values, a
      number or a string the node of the token's literal; any token that
      cannot start an expression fails with "Expect expression." where it
      stands (the second lemma). */
  lemma PrimaryLiterals(toks: seq<Token>, pos: nat)
    requires Terminated(toks) && pos < |toks|
    ensures StartsPrimary(toks[pos].tokenType) && toks[pos].tokenType != LeftParen ==>
      Primary(toks, pos) == Parsed(LiteralExpr(LiteralValue(toks[pos])), pos + 1)
  {
    PrimaryLiteralCases(toks, pos);
  }

  /** The same, one literal kind at a time, as `Primary` tests them. */
  lemma PrimaryLiteralCases(toks: seq<Token>, pos: nat)
    requires Terminated(toks) && pos < |toks|
    ensures CheckAt(toks, pos, False) ==> Primary(toks, pos) == Parsed(LiteralExpr(Bool(false)), pos + 1)
    ensures CheckAt(toks, pos, True) ==> Primary(toks, pos) == Parsed(LiteralExpr(Bool(true)), pos + 1)
    ensures CheckAt(toks, pos, NilKeyword) ==> Primary(toks, pos) == Parsed(LiteralExpr(Value.Nil), pos + 1)
    ensures MatchAt(toks, pos, LiteralTypes) ==> Primary(toks, pos) == Parsed(LiteralExpr(toks[pos].literal), pos + 1)
  {
  }

  lemma PrimaryUnexpected(toks: seq<Token>, pos: nat)
    requires Terminated(toks) && pos < |toks|
    ensures !StartsPrimary(toks[pos].tokenType) ==> Primary(toks, pos) == Failed(pos, ExpectExpression)
  {
  }

  /** At `(` the primary is the grouping after it. */
  lemma PrimaryParen(toks: seq<Token>, pos: nat)
    requires Terminated(toks) && pos < |toks|
    ensures toks[pos].tokenType == LeftParen ==> Primary(toks, pos) == Grouping(toks, pos + 1)
  {
  }

  /** A parenthesised expression is a grouping node, provided the closing
      parenthesis follows; otherwise the failure is at the token that
      stands where it should be. */
  lemma PrimaryGrouping(toks: seq<Token>, pos: nat)
    requires Terminated(toks) && pos < |toks| && toks[pos].tokenType == LeftParen
    ensures pos + 1 < |toks|
    ensures Expression(toks, pos + 1).Parsed? ==>
      var inner := Expression(toks, pos + 1);
      Primary(toks, pos) ==
        if toks[inner.next].tokenType == RightParen then Parsed(GroupingExpr(inner.expr), inner.next + 1)
        else Failed(inner.next, ExpectRightParen)
    ensures Expression(toks, pos + 1).Failed? ==> Primary(toks, pos) == Expression(toks, pos + 1)
  {
  }

  /** Every tree `Parse` returns belongs to the grammar, and a failure is a
      proper one. */
  lemma ParseSound(toks: seq<Token>)
    requires Terminated(toks)
    ensures Parse(toks).Some? ==> ExpressionForm(Parse(toks).value)
    ensures Parse(toks).None? ==>
      var f := Expression(toks, 0);
      f.Failed? && ProperFailure(toks, f.at, f.message)
  {
  }

  /** The right operand of a term operator is a factor: it is never an
      ungrouped `+` or `-`, which is what makes the chains associate to
      the left. The same holds one level down. */
  lemma {:induction false} OperandsOfLowerLevel(e: Expr)
    requires e.BinaryExpr?
    ensures TermForm(e) && e.operator.tokenType in TermOps ==> FactorForm(e.right) && TermForm(e.left)
    ensures FactorForm(e) ==> e.operator.tokenType in FactorOps && UnaryForm(e.right)
    ensures FactorForm(e.right) && e.right.BinaryExpr? ==> e.right.operator.tokenType !in TermOps
  {
    if FactorForm(e) {
      assert !UnaryForm(e);
    }
    if FactorForm(e.right) && e.right.BinaryExpr? {
      assert !UnaryForm(e.right);
    }
    if TermForm(e) && e.operator.tokenType in TermOps {
      assert !FactorForm(e) by {
        assert !UnaryForm(e);
      }
    }
  }

  /** `Synchronize` from the middle of a statement stops right after the
      next semicolon. */
  lemma SyncAfterSemicolon()
    ensures SyncStop([Num(1.0, "1"), Op(Plus, "+"), Op(Semicolon, ";"), Num(2.0, "2"), EndToken], 0) == 3
  {
    var toks := [Num(1.0, "1"), Op(Plus, "+"), Op(Semicolon, ";"), Num(2.0, "2"), EndToken];
    assert !SyncStops(toks, 1) && !SyncStops(toks, 2) && SyncStops(toks, 3);
  }

  /** `Synchronize` stops before a keyword that starts a statement. */
  lemma SyncBeforeStatement()
    ensures SyncStop([Num(1.0, "1"), Op(Plus, "+"), Op(Var, "var"), Num(2.0, "2"), EndToken], 0) == 2
  {
    var toks := [Num(1.0, "1"), Op(Plus, "+"), Op(Var, "var"), Num(2.0, "2"), EndToken];
    assert !SyncStops(toks, 1) && SyncStops(toks, 2);
  }
}
