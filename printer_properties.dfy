/** What the two printers promise: where the visitor prints at all, that it
    agrees with `ToLispString` on their common fragment, where they part,
    and the outputs of the printer tests. */
module PrinterProperties {
  import opened Wrappers
  import opened Values
  import opened Tokens
  import opened Ast
  import opened Printers

  /** The node kinds `AstPrinter` has a visitor method for that does not
      throw, all the way down. */
  predicate Printable(e: Expr)
  {
    match e
    case BinaryExpr(l, _, r) => Printable(l) && Printable(r)
    case GroupingExpr(inner) => Printable(inner)
    case ListExpr(l, r) => Printable(l) && Printable(r)
    case LiteralExpr(_) => true
    case LogicalExpr(l, _, r) => Printable(l) && Printable(r)
    case UnaryExpr(_, r) => Printable(r)
    case _ => false
  }

  /** The visitor prints exactly the trees made of printable kinds, and
      throws on every tree holding any other node. */
  lemma {:induction false} AstPrintDefined(e: Expr, showNumber: Number -> string)
    ensures AstPrint(e, showNumber).Some? <==> Printable(e)
  {
    match e
    case BinaryExpr(l, _, r) => AstPrintDefined(l, showNumber); AstPrintDefined(r, showNumber);
    case GroupingExpr(inner) => AstPrintDefined(inner, showNumber);
    case ListExpr(l, r) => AstPrintDefined(l, showNumber); AstPrintDefined(r, showNumber);
    case LiteralExpr(_) =>
    case LogicalExpr(l, _, r) => AstPrintDefined(l, showNumber); AstPrintDefined(r, showNumber);
    case UnaryExpr(_, r) => AstPrintDefined(r, showNumber);
    case _ =>
  }

  /** Two parts are joined with one space between them. */
  lemma JoinTwo(a: string, b: string)
    ensures Join(" ", [a, b]) == a + " " + b
  {
    assert [a, b][1..] == [b];
  }

  /** Joins inside a longer text regroup freely. */
  lemma Regroup(x: string, l: string, r: string)
    ensures x + (l + " " + r) == x + l + " " + r
  {
  }

  /** On the common fragment the two printers produce the same text. */
  lemma {:induction false} PrintersAgree(e: Expr, showNumber: Number -> string)
    requires InFragment(e)
    ensures AstPrint(e, showNumber) == Some(ToLispString(e, showNumber))
  {
    match e
    case BinaryExpr(l, op, r) =>
      PrintersAgree(l, showNumber); PrintersAgree(r, showNumber);
      JoinTwo(ToLispString(l, showNumber), ToLispString(r, showNumber));
      Regroup("(" + op.lexeme + " ", ToLispString(l, showNumber), ToLispString(r, showNumber));
    case GroupingExpr(inner) =>
      PrintersAgree(inner, showNumber);
      assert !IsBlank("group") by { assert !IsWhiteSpace("group"[0]); }
      assert "(group " == "(" + "group" + " ";
    case ListExpr(l, r) =>
      PrintersAgree(l, showNumber); PrintersAgree(r, showNumber);
      JoinTwo(ToLispString(l, showNumber), ToLispString(r, showNumber));
      Regroup("(", ToLispString(l, showNumber), ToLispString(r, showNumber));
    case LiteralExpr(_) =>
    case LogicalExpr(l, op, r) =>
      PrintersAgree(l, showNumber); PrintersAgree(r, showNumber);
      JoinTwo(ToLispString(l, showNumber), ToLispString(r, showNumber));
      Regroup("(" + op.lexeme + " ", ToLispString(l, showNumber), ToLispString(r, showNumber));
    case UnaryExpr(op, r) =>
      PrintersAgree(r, showNumber);
  }

  /** Outside the fragment they differ: with an empty operator lexeme the
      visitor drops the name and its space, `ToLispString` keeps the space. */
  lemma BlankOperatorDisagrees(showNumber: Number -> string, line: int)
    ensures AstPrint(BinaryExpr(LiteralExpr(Nil), Token(TokenType.Plus, "", Nil, line), LiteralExpr(Nil)), showNumber)
      == Some("(nil nil)")
    ensures ToLispString(BinaryExpr(LiteralExpr(Nil), Token(TokenType.Plus, "", Nil, line), LiteralExpr(Nil)), showNumber)
      == "( nil nil)"
  {
    var e := BinaryExpr(LiteralExpr(Nil), Token(TokenType.Plus, "", Nil, line), LiteralExpr(Nil));
    assert ToLispString(e.left, showNumber) == "nil" && AstPrint(e.left, showNumber) == Some("nil");
    JoinTwo("nil", "nil");
    assert IsBlank("");
    assert AstPrint(e, showNumber) == Some(Parenthesized("", ["nil", "nil"]));
    assert Parenthesized("", ["nil", "nil"]) == "(" + "nil nil" + ")";
    assert "(" + "nil nil" + ")" == "(nil nil)";
    assert ToLispString(e, showNumber) == "(" + "" + " " + "nil" + " " + "nil" + ")";
    assert "(" + "" + " " + "nil" + " " + "nil" + ")" == "( nil nil)";
  }

  /** `CallExpr` with no arguments keeps the space after the callee. */
  lemma CallWithoutArguments(callee: Expr, paren: Token, showNumber: Number -> string)
    ensures ToLispString(CallExpr(callee, paren, []), showNumber) == "(" + ToLispString(callee, showNumber) + " )"
  {
    var args: seq<Expr> := [];
    assert seq(|args|, i requires 0 <= i < |args| => ToLispString(args[i], showNumber)) == [];
  }

  /** Arguments are separated by single spaces. */
  lemma CallWithTwoArguments(callee: Expr, paren: Token, a: Expr, b: Expr, showNumber: Number -> string)
    ensures ToLispString(CallExpr(callee, paren, [a, b]), showNumber)
      == "(" + ToLispString(callee, showNumber) + " " + ToLispString(a, showNumber) + " " + ToLispString(b, showNumber) + ")"
  {
    var args := [a, b];
    var parts := seq(|args|, i requires 0 <= i < |args| => ToLispString(args[i], showNumber));
    assert parts == [ToLispString(a, showNumber), ToLispString(b, showNumber)];
    JoinTwo(ToLispString(a, showNumber), ToLispString(b, showNumber));
  }

  /** The tree of `-123 * (45.67)` used by both printer tests. */
  function ExampleTree(line: int): Expr
  {
    BinaryExpr(
      UnaryExpr(Token(TokenType.Minus, "-", Nil, line), LiteralExpr(Num(123.0))),
      Token(TokenType.Star, "*", Nil, line),
      GroupingExpr(LiteralExpr(Num(45.67))))
  }

  /** Both printers write the example tree as `(* (- 123) (group 45.67))`,
      given that the numbers print as .NET prints them. */
  lemma ExampleOutput(showNumber: Number -> string, line: int)
    requires showNumber(123.0) == "123" && showNumber(45.67) == "45.67"
    ensures ToLispString(ExampleTree(line), showNumber) == "(* (- 123) (group 45.67))"
    ensures AstPrint(ExampleTree(line), showNumber) == Some("(* (- 123) (group 45.67))")
  {
    var e := ExampleTree(line);
    ExampleParts(showNumber, line);
    assert ToLispString(e, showNumber) == "(" + "*" + " " + "(- 123)" + " " + "(group 45.67)" + ")";
    assert "(" + "*" + " " == "(* ";
    assert "(* " + "(- 123)" == "(* (- 123)";
    assert "(* (- 123)" + " " == "(* (- 123) ";
    assert "(* (- 123) " + "(group 45.67)" == "(* (- 123) (group 45.67)";
    assert "(* (- 123) (group 45.67)" + ")" == "(* (- 123) (group 45.67))";
    assert !IsBlank("-") by { assert !IsWhiteSpace("-"[0]); }
    assert !IsBlank("*") by { assert !IsWhiteSpace("*"[0]); }
    assert InFragment(e.left) && InFragment(e.right);
    PrintersAgree(e, showNumber);
  }

  lemma ExampleParts(showNumber: Number -> string, line: int)
    requires showNumber(123.0) == "123" && showNumber(45.67) == "45.67"
    ensures ToLispString(ExampleTree(line).left, showNumber) == "(- 123)"
    ensures ToLispString(ExampleTree(line).right, showNumber) == "(group 45.67)"
  {
    var e := ExampleTree(line);
    assert ToLispString(e.left.right, showNumber) == "123";
    assert ToLispString(e.right.expression, showNumber) == "45.67";
    assert ToLispString(e.left, showNumber) == "(" + "-" + " " + "123" + ")";
    assert ToLispString(e.right, showNumber) == "(group " + "45.67" + ")";
  }
}
