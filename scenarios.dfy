/** The source text `-123 * (45.67)` of the scanner, parser and printer
    tests, followed through the whole front end: the tokens the scanner
    produces, the tree the parser builds from them, and the text both
    printers write for that tree. */
module Scenarios {
  import opened Wrappers
  import opened Values
  import opened Tokens
  import opened Ast
  import opened Reporting
  import opened Chars
  import opened ScanSpec
  import opened ScanProperties
  import opened ParseSpec
  import ParseProperties
  import opened Printers
  import opened PrinterProperties

  const TestSource: string := "-123 * (45.67)"

  /** The six tokens the scanner test expects, all on line 0, and the EOF
      token that every scan appends; `a` and `b` are the values of the two
      number lexemes. */
  function TestTokens(a: Number, b: Number): seq<Token>
  {
    [Token(TokenType.Minus, "-", Value.Nil, 0),
     Token(NumberLit, "123", Num(a), 0),
     Token(Star, "*", Value.Nil, 0),
     Token(LeftParen, "(", Value.Nil, 0),
     Token(NumberLit, "45.67", Num(b), 0),
     Token(RightParen, ")", Value.Nil, 0),
     Token(Eof, "", Value.Nil, 0)]
  }

  /** The scanner's state once the first `k` tokens are in the buffer and
      the cursor stands at `pos`. */
  function After(parse: string -> Number, log: seq<LoxError>, pos: nat, k: nat): ScanState
    requires k <= 7
  {
    ScanState(pos, 0, TestTokens(parse("123"), parse("45.67"))[..k], log)
  }

  lemma OneMore(parse: string -> Number, k: nat)
    requires k < 7
    ensures TestTokens(parse("123"), parse("45.67"))[..k + 1] == TestTokens(parse("123"), parse("45.67"))[..k] + [TestTokens(parse("123"), parse("45.67"))[k]]
  {
  }

  /** A single-character token moves the cursor one place and appends
      that token. */
  lemma SingleAdvance(src: string, parse: string -> Number, st: ScanState, tok: Token)
    requires st.current < |src| && Classify(src[st.current]).Single?
    requires tok == Token(Classify(src[st.current]).single, src[st.current..st.current + 1], Value.Nil, st.line)
    ensures ScanFrom(src, parse, st) == ScanFrom(src, parse, ScanState(st.current + 1, st.line, st.tokens + [tok], st.errors))
  {
    StepSingle(src, parse, st);
    ScanFromStep(src, parse, st, ScanState(st.current + 1, st.line, st.tokens + [tok], st.errors));
  }

  /** `-`, `*`, `(` and `)`: one single-character token each. */
  lemma MinusStep(parse: string -> Number, log: seq<LoxError>)
    ensures ScanFrom(TestSource, parse, After(parse, log, 0, 0)) == ScanFrom(TestSource, parse, After(parse, log, 1, 1))
  {
    OneMore(parse, 0);
    assert TestSource[0..1] == "-";
    SingleAdvance(TestSource, parse, After(parse, log, 0, 0), TestTokens(parse("123"), parse("45.67"))[0]);
  }

  lemma StarStep(parse: string -> Number, log: seq<LoxError>)
    ensures ScanFrom(TestSource, parse, After(parse, log, 5, 2)) == ScanFrom(TestSource, parse, After(parse, log, 6, 3))
  {
    OneMore(parse, 2);
    assert TestSource[5..6] == "*";
    SingleAdvance(TestSource, parse, After(parse, log, 5, 2), TestTokens(parse("123"), parse("45.67"))[2]);
  }

  lemma OpenStep(parse: string -> Number, log: seq<LoxError>)
    ensures ScanFrom(TestSource, parse, After(parse, log, 7, 3)) == ScanFrom(TestSource, parse, After(parse, log, 8, 4))
  {
    OneMore(parse, 3);
    assert TestSource[7..8] == "(";
    SingleAdvance(TestSource, parse, After(parse, log, 7, 3), TestTokens(parse("123"), parse("45.67"))[3]);
  }

  lemma CloseStep(parse: string -> Number, log: seq<LoxError>)
    ensures ScanFrom(TestSource, parse, After(parse, log, 13, 5)) == ScanFrom(TestSource, parse, After(parse, log, 14, 6))
  {
    OneMore(parse, 5);
    assert TestSource[13..14] == ")";
    SingleAdvance(TestSource, parse, After(parse, log, 13, 5), TestTokens(parse("123"), parse("45.67"))[5]);
  }

  /** A blank moves the cursor one place and emits nothing. */
  lemma BlankAdvance(src: string, parse: string -> Number, st: ScanState)
    requires st.current < |src| && src[st.current] == ' '
    ensures ScanFrom(src, parse, st) == ScanFrom(src, parse, st.(current := st.current + 1))
  {
    WhitespaceAndUnknown(src, parse, st);
    ScanFromStep(src, parse, st, st.(current := st.current + 1));
  }

  /** The blank after `123` and the one after `*`. */
  lemma FirstBlankStep(parse: string -> Number, log: seq<LoxError>)
    ensures ScanFrom(TestSource, parse, After(parse, log, 4, 2)) == ScanFrom(TestSource, parse, After(parse, log, 5, 2))
  {
    BlankAdvance(TestSource, parse, After(parse, log, 4, 2));
  }

  lemma SecondBlankStep(parse: string -> Number, log: seq<LoxError>)
    ensures ScanFrom(TestSource, parse, After(parse, log, 6, 3)) == ScanFrom(TestSource, parse, After(parse, log, 7, 3))
  {
    BlankAdvance(TestSource, parse, After(parse, log, 6, 3));
  }

  /** A number token runs from its first digit to where `NumberEnd` stops. */
  lemma NumberAdvance(src: string, parse: string -> Number, st: ScanState, e: nat)
    requires st.current < |src| && IsDigit(src[st.current]) && NumberEnd(src, st.current + 1) == e
    ensures st.current < e <= |src|
    ensures ScanFrom(src, parse, st) == ScanFrom(src, parse,
      ScanState(e, st.line, st.tokens + [Token(NumberLit, src[st.current..e], Num(parse(src[st.current..e])), st.line)], st.errors))
  {
    NumberToken(src, parse, st);
    ScanFromStep(src, parse, st,
      ScanState(e, st.line, st.tokens + [Token(NumberLit, src[st.current..e], Num(parse(src[st.current..e])), st.line)], st.errors));
  }

  /** `123` stops at the blank after it. */
  lemma FirstNumberEnd()
    ensures NumberEnd(TestSource, 2) == 4
  {
    assert DigitsEnd(TestSource, 4) == 4;
    assert DigitsEnd(TestSource, 2) == 4;
  }

  lemma FirstNumberStep(parse: string -> Number, log: seq<LoxError>)
    ensures ScanFrom(TestSource, parse, After(parse, log, 1, 1)) == ScanFrom(TestSource, parse, After(parse, log, 4, 2))
  {
    FirstNumberEnd();
    OneMore(parse, 1);
    assert TestSource[1..4] == "123";
    NumberAdvance(TestSource, parse, After(parse, log, 1, 1), 4);
  }

  /** `45.67` takes its fractional part, since a digit follows the dot. */
  lemma SecondNumberEnd()
    ensures NumberEnd(TestSource, 9) == 13
  {
    assert DigitsEnd(TestSource, 10) == 10;
    assert DigitsEnd(TestSource, 9) == 10;
    assert DigitsEnd(TestSource, 13) == 13;
    assert DigitsEnd(TestSource, 11) == 13;
  }

  lemma SecondNumberText()
    ensures TestSource[8..13] == "45.67" && IsDigit(TestSource[8])
  {
  }

  lemma SecondNumberStep(parse: string -> Number, log: seq<LoxError>)
    ensures ScanFrom(TestSource, parse, After(parse, log, 8, 4)) == ScanFrom(TestSource, parse, After(parse, log, 13, 5))
  {
    SecondNumberEnd();
    SecondNumberText();
    OneMore(parse, 4);
    NumberAdvance(TestSource, parse, After(parse, log, 8, 4), 13);
  }

  /** Up to the `(`: `-`, `123`, a blank, `*`, a blank. */
  lemma FirstHalf(parse: string -> Number, log: seq<LoxError>)
    ensures ScanFrom(TestSource, parse, After(parse, log, 0, 0)) == ScanFrom(TestSource, parse, After(parse, log, 7, 3))
  {
    MinusStep(parse, log);
    FirstNumberStep(parse, log);
    FirstBlankStep(parse, log);
    StarStep(parse, log);
    SecondBlankStep(parse, log);
  }

  /** From the `(` on: `(`, `45.67`, `)`. */
  lemma SecondHalf(parse: string -> Number, log: seq<LoxError>)
    ensures ScanFrom(TestSource, parse, After(parse, log, 7, 3)) == ScanFrom(TestSource, parse, After(parse, log, 14, 6))
  {
    OpenStep(parse, log);
    SecondNumberStep(parse, log);
    CloseStep(parse, log);
  }

  /** The scanner test: the six expected tokens, each on line 0, then EOF,
      and nothing reported. */
  lemma ScannerTestTokens(parse: string -> Number, log: seq<LoxError>)
    ensures Scan(TestSource, parse, log) == Completed(ScanState(14, 0, TestTokens(parse("123"), parse("45.67")), log))
  {
    var src := TestSource;
    FirstHalf(parse, log);
    SecondHalf(parse, log);
    ScanFromEnd(src, parse, After(parse, log, 14, 6));
    OneMore(parse, 6);
    assert TestTokens(parse("123"), parse("45.67"))[..7] == TestTokens(parse("123"), parse("45.67"));
  }

  /** Before `)` or EOF no operator loop of the precedence ladder runs. */
  lemma NoOperatorAt(toks: seq<Token>, e: Expr, n: nat)
    requires Terminated(toks) && n < |toks|
    requires toks[n].tokenType == RightParen || toks[n].tokenType == Eof
    ensures FactorTail(toks, e, n) == Parsed(e, n) && TermTail(toks, e, n) == Parsed(e, n)
    ensures ComparisonTail(toks, e, n) == Parsed(e, n) && EqualityTail(toks, e, n) == Parsed(e, n)
  {
  }

  /** A factor that `)` or EOF follows is the whole expression there. */
  lemma FactorIsExpression(toks: seq<Token>, pos: nat, e: Expr, n: nat)
    requires Terminated(toks) && pos < |toks| && n < |toks|
    requires Factor(toks, pos) == Parsed(e, n)
    requires toks[n].tokenType == RightParen || toks[n].tokenType == Eof
    ensures Expression(toks, pos) == Parsed(e, n)
  {
    NoOperatorAt(toks, e, n);
    assert Term(toks, pos) == Parsed(e, n);
    assert Comparison(toks, pos) == Parsed(e, n);
  }

  /** A number or string literal is a unary expression of its own. */
  lemma LiteralIsUnary(toks: seq<Token>, pos: nat)
    requires Terminated(toks) && pos < |toks|
    ensures MatchAt(toks, pos, LiteralTypes) ==> Unary(toks, pos) == Parsed(LiteralExpr(toks[pos].literal), pos + 1)
  {
    ParseProperties.UnarySteps(toks, pos);
    ParseProperties.PrimaryLiteralCases(toks, pos);
  }

  /** `-` applies to the unary expression after it. */
  lemma NegationIsUnary(toks: seq<Token>, pos: nat, e: Expr, n: nat)
    requires Terminated(toks) && pos + 1 < |toks| && toks[pos].tokenType == TokenType.Minus
    requires Unary(toks, pos + 1) == Parsed(e, n)
    ensures Unary(toks, pos) == Parsed(UnaryExpr(toks[pos], e), n)
  {
    ParseProperties.UnarySteps(toks, pos);
  }

  /** `(`, an expression, `)` is a grouping. */
  lemma GroupIsUnary(toks: seq<Token>, pos: nat, e: Expr, n: nat)
    requires Terminated(toks) && pos + 1 < |toks| && n < |toks| && toks[pos].tokenType == LeftParen
    requires Expression(toks, pos + 1) == Parsed(e, n) && toks[n].tokenType == RightParen
    ensures Unary(toks, pos) == Parsed(GroupingExpr(e), n + 1)
  {
    ParseProperties.UnarySteps(toks, pos);
    ParseProperties.PrimaryGrouping(toks, pos);
  }

  /** The shape of the test's token list: `-`, a number, `*`, `(`, a number,
      `)`, EOF. */
  predicate ProductShape(toks: seq<Token>)
  {
    |toks| == 7 && toks[0].tokenType == TokenType.Minus && toks[1].tokenType == NumberLit
    && toks[2].tokenType == Star && toks[3].tokenType == LeftParen && toks[4].tokenType == NumberLit
    && toks[5].tokenType == RightParen && toks[6].tokenType == Eof
  }

  /** The tree such a list parses to: the negated first number times the
      grouped second one. */
  function ProductTree(toks: seq<Token>): Expr
    requires ProductShape(toks)
  {
    BinaryExpr(UnaryExpr(toks[0], LiteralExpr(toks[1].literal)), toks[2], GroupingExpr(LiteralExpr(toks[4].literal)))
  }

  /** The two operands of `*`: `-` and the first number, two tokens, and
      the parenthesised second number, three. */
  lemma LeftOperand(toks: seq<Token>)
    requires ProductShape(toks)
    ensures Unary(toks, 0) == Parsed(ProductTree(toks).left, 2)
  {
    LiteralIsUnary(toks, 1);
    NegationIsUnary(toks, 0, LiteralExpr(toks[1].literal), 2);
  }

  lemma RightOperand(toks: seq<Token>)
    requires ProductShape(toks)
    ensures Unary(toks, 3) == Parsed(ProductTree(toks).right, 6)
  {
    LiteralIsUnary(toks, 4);
    NoOperatorAt(toks, LiteralExpr(toks[4].literal), 5);
    FactorIsExpression(toks, 4, LiteralExpr(toks[4].literal), 5);
    GroupIsUnary(toks, 3, LiteralExpr(toks[4].literal), 5);
  }

  /** The whole list is one product. */
  lemma ProductParse(toks: seq<Token>)
    requires ProductShape(toks)
    ensures Parse(toks) == Some(ProductTree(toks))
  {
    var e := ProductTree(toks);
    LeftOperand(toks);
    RightOperand(toks);
    NoOperatorAt(toks, e, 6);
    assert FactorTail(toks, e.left, 2) == Parsed(e, 6);
    FactorIsExpression(toks, 0, e, 6);
  }

  /** The parser test: the tokens parse as the product of the negated
      literal and the grouped literal, the printer tests' tree once the
      numbers are 123 and 45.67. */
  lemma ParserTestTree(a: Number, b: Number)
    ensures Parse(TestTokens(a, b)) ==
      Some(BinaryExpr(UnaryExpr(TestTokens(a, b)[0], LiteralExpr(Num(a))), TestTokens(a, b)[2], GroupingExpr(LiteralExpr(Num(b)))))
    ensures Parse(TestTokens(123.0, 45.67)) == Some(ExampleTree(0))
  {
    ProductParse(TestTokens(a, b));
    ProductParse(TestTokens(123.0, 45.67));
  }

  /** The whole front end on `-123 * (45.67)`: scanned, parsed and printed
      back as `(* (- 123) (group 45.67))` by either printer. */
  lemma FrontEnd(parse: string -> Number, showNumber: Number -> string, log: seq<LoxError>)
    requires parse("123") == 123.0 && parse("45.67") == 45.67
    requires showNumber(123.0) == "123" && showNumber(45.67) == "45.67"
    ensures Scan(TestSource, parse, log) == Completed(ScanState(14, 0, TestTokens(123.0, 45.67), log))
    ensures var toks := Scan(TestSource, parse, log).state.tokens;
      && Parse(toks).Some?
      && ToLispString(Parse(toks).value, showNumber) == "(* (- 123) (group 45.67))"
      && AstPrint(Parse(toks).value, showNumber) == Some("(* (- 123) (group 45.67))")
  {
    ScannerTestTokens(parse, log);
    ParserTestTree(123.0, 45.67);
    ExampleOutput(showNumber, 0);
  }
}
