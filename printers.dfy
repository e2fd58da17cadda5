/** The two tree printers: `ToLispString` of src/Lox/Extensions/ExprExtensions.cs,
    which covers every expression kind, and the visitor of
    src/Lox/Visitors/AstPrinter.cs, which covers the arithmetic and logical
    fragment and throws `NotImplementedException` on the rest (`None` here).
    The visitor's own node family has no conditional expression, so it prints
    no `IfExpr` either. Literal numbers are printed by `showNumber`, which
    stands for .NET's `ToString()` of the boxed number. */
module Printers {
  import opened Wrappers
  import opened Values
  import opened Tokens
  import opened Ast

  /** `string.Join(sep, parts)`. */
  function Join(sep: string, parts: seq<string>): (s: string)
    ensures parts == [] ==> s == ""
    ensures |parts| == 1 ==> s == parts[0]
  {
    if parts == [] then ""
    else if |parts| == 1 then parts[0]
    else parts[0] + sep + Join(sep, parts[1..])
  }

  /** The text of a literal, `Value?.ToString() ?? "nil"`. */
  function LiteralText(v: Value, showNumber: Number -> string): string
  {
    if v.Nil? then "nil" else ObjectText(v, showNumber)
  }

  /** `ToLispString`: every compound node prints as a parenthesised list. */
  function ToLispString(e: Expr, showNumber: Number -> string): string
  {
    match e
    case AssignExpr(name, v) => "(set! " + name.lexeme + " " + ToLispString(v, showNumber) + ")"
    case BinaryExpr(l, op, r) => "(" + op.lexeme + " " + ToLispString(l, showNumber) + " " + ToLispString(r, showNumber) + ")"
    case CallExpr(callee, _, args) =>
      "(" + ToLispString(callee, showNumber) + " "
      + Join(" ", seq(|args|, i requires 0 <= i < |args| => ToLispString(args[i], showNumber))) + ")"
    case GetExpr(obj, name) => "(get " + ToLispString(obj, showNumber) + " " + name.lexeme + ")"
    case GroupingExpr(inner) => "(group " + ToLispString(inner, showNumber) + ")"
    case IfExpr(c, t, f) =>
      "(if " + ToLispString(c, showNumber) + " ? " + ToLispString(t, showNumber) + " : " + ToLispString(f, showNumber) + ")"
    case ListExpr(l, r) => "(" + ToLispString(l, showNumber) + " " + ToLispString(r, showNumber) + ")"
    case LiteralExpr(v) => LiteralText(v, showNumber)
    case LogicalExpr(l, op, r) => "(" + op.lexeme + " " + ToLispString(l, showNumber) + " " + ToLispString(r, showNumber) + ")"
    case SetExpr(obj, name, v) =>
      "(set " + ToLispString(obj, showNumber) + " " + name.lexeme + " " + ToLispString(v, showNumber) + ")"
    case SuperExpr(_, m) => "(super " + m.lexeme + ")"
    case ThisExpr(_) => "this"
    case UnaryExpr(op, r) => "(" + op.lexeme + " " + ToLispString(r, showNumber) + ")"
    case VariableExpr(name) => name.lexeme
  }

  /** `char.IsWhiteSpace`: the Unicode space, line and paragraph separators,
      the control characters U+0009 to U+000D, and U+0085. */
  predicate IsWhiteSpace(c: char)
  {
    c == ' ' || ('\t' <= c <= '\r') || c == '\U{0085}' || c == '\U{00A0}' || c == '\U{1680}'
    || ('\U{2000}' <= c <= '\U{200A}') || c == '\U{2028}' || c == '\U{2029}' || c == '\U{202F}'
    || c == '\U{205F}' || c == '\U{3000}'
  }

  /** `string.IsNullOrWhiteSpace`: empty, or whitespace throughout. */
  predicate IsBlank(s: string)
  {
    forall i :: 0 <= i < |s| ==> IsWhiteSpace(s[i])
  }

  /** What `Parenthesize` builds from a name and the texts of the children. */
  function Parenthesized(name: string, parts: seq<string>): string
  {
    if IsBlank(name) then "(" + Join(" ", parts) + ")"
    else "(" + name + " " + Join(" ", parts) + ")"
  }

  /** `Parenthesize`: an opening parenthesis, the name and a space unless
      the name is blank, the children joined by single spaces, a closing
      parenthesis, appended to one builder in that order. The children are
      printed by the caller. */
  method Parenthesize(name: string, parts: seq<string>) returns (text: string)
    ensures text == Parenthesized(name, parts)
  {
    var builder := "(";
    if !IsBlank(name) {
      builder := builder + name;
      builder := builder + " ";
    }
    builder := builder + Join(" ", parts);
    builder := builder + ")";
    text := builder;
  }

  /** The `AstPrinter` visitor: `None` where it throws. */
  function AstPrint(e: Expr, showNumber: Number -> string): Option<string>
  {
    match e
    case BinaryExpr(l, op, r) =>
      (match (AstPrint(l, showNumber), AstPrint(r, showNumber))
       case (Some(a), Some(b)) => Some(Parenthesized(op.lexeme, [a, b]))
       case _ => None)
    case GroupingExpr(inner) =>
      (match AstPrint(inner, showNumber)
       case Some(a) => Some(Parenthesized("group", [a]))
       case None => None)
    case ListExpr(l, r) =>
      (match (AstPrint(l, showNumber), AstPrint(r, showNumber))
       case (Some(a), Some(b)) => Some(Parenthesized("", [a, b]))
       case _ => None)
    case LiteralExpr(v) => Some(LiteralText(v, showNumber))
    case LogicalExpr(l, op, r) =>
      (match (AstPrint(l, showNumber), AstPrint(r, showNumber))
       case (Some(a), Some(b)) => Some(Parenthesized(op.lexeme, [a, b]))
       case _ => None)
    case UnaryExpr(op, r) =>
      (match AstPrint(r, showNumber)
       case Some(a) => Some(Parenthesized(op.lexeme, [a]))
       case None => None)
    case _ => None
  }

  /** The fragment both printers handle alike: Binary, Unary, Grouping,
      Literal, Logical and List nodes whose operators have a visible lexeme
      (every operator the scanner produces has one). */
  predicate InFragment(e: Expr)
  {
    match e
    case BinaryExpr(l, op, r) => !IsBlank(op.lexeme) && InFragment(l) && InFragment(r)
    case GroupingExpr(inner) => InFragment(inner)
    case ListExpr(l, r) => InFragment(l) && InFragment(r)
    case LiteralExpr(_) => true
    case LogicalExpr(l, op, r) => !IsBlank(op.lexeme) && InFragment(l) && InFragment(r)
    case UnaryExpr(op, r) => !IsBlank(op.lexeme) && InFragment(r)
    case _ => false
  }
}
