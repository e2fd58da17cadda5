/** The parser as the source runs it: a cursor over the token list
    (src/Lox/Parsing/ParserCursor.cs) that the parsing methods of
    src/Lox/Parsing/Parser.cs advance in place. Every parsing method is
    proved to compute the corresponding function of the grammar model and
    to report exactly one diagnostic when, and only when, it throws. */
module Parsing {
  import opened Wrappers
  import opened Values
  import opened Tokens
  import opened Ast
  import opened ParseSpec
  import opened ParseProperties
  import opened Reporting

  class ParserCursor {
    var tokens: seq<Token>
    var current: nat

    /** The cursor stands on a token of a list that ends with EOF. */
    ghost predicate Valid()
      reads this
    {
      Terminated(tokens) && current < |tokens|
    }

    /** A fresh cursor holds an empty list. */
    constructor ()
      ensures tokens == [] && current == 0
    {
      tokens := [];
      current := 0;
    }

    /** `ResetCursor`: installs a copy of the tokens and rewinds. */
    method ResetCursor(toks: seq<Token>)
      modifies this
      ensures tokens == toks && current == 0
    {
      tokens := toks;
      current := 0;
    }

    function Peek(): (t: Token)
      reads this
      requires current < |tokens|
      ensures t == tokens[current]
    {
      tokens[current]
    }

    function Previous(): (t: Token)
      reads this
      requires 1 <= current <= |tokens|
      ensures t == tokens[current - 1]
    {
      tokens[current - 1]
    }

    function IsAtEnd(): (r: bool)
      reads this
      requires current < |tokens|
      ensures r <==> AtEnd(tokens, current)
    {
      Peek().tokenType == Eof
    }

    function Check(t: TokenType): (r: bool)
      reads this
      requires current < |tokens|
      ensures r <==> CheckAt(tokens, current, t)
      ensures r ==> current + 1 < |tokens| || !Terminated(tokens)
    {
      if IsAtEnd() then false else Peek().tokenType == t
    }

    /** `Advance`: moves one token on unless at the end, and returns the
        token before the cursor. At the very first token of a list that
        is only EOF, `Previous()` would read before the list. */
    method Advance() returns (t: Token)
      requires current < |tokens|
      requires current >= 1 || !IsAtEnd()
      modifies this
      ensures tokens == old(tokens)
      ensures current == if AtEnd(tokens, old(current)) then old(current) else old(current) + 1
      ensures 1 <= current <= |tokens| && t == tokens[current - 1]
      ensures old(Valid()) ==> Valid()
    {
      if !IsAtEnd() {
        current := current + 1;
      }
      t := Previous();
    }

    /** `Match(types)`: the types are tried in order; the first that checks
        consumes one token. */
    method Match(types: seq<TokenType>) returns (b: bool)
      requires current < |tokens|
      modifies this
      ensures tokens == old(tokens)
      ensures b <==> MatchAt(tokens, old(current), types)
      ensures current == if b then old(current) + 1 else old(current)
      ensures old(Valid()) ==> Valid()
    {
      for i := 0 to |types|
        invariant current == old(current) && tokens == old(tokens)
        invariant forall j :: 0 <= j < i ==> !CheckAt(tokens, current, types[j])
      {
        if Check(types[i]) {
          var consumed := Advance();
          return true;
        }
      }
      return false;
    }
  }

  class Parser {
    const cursor: ParserCursor
    const reporter: ErrorReporter

    constructor (cursor: ParserCursor, reporter: ErrorReporter)
      ensures this.cursor == cursor && this.reporter == reporter
    {
      this.cursor := cursor;
      this.reporter := reporter;
    }

    /** The state after a parsing method returned `r`, relative to the
        reports made before it: on success the cursor stands where the parse
        stopped and nothing was reported; on a throw the cursor stands on the
        offending token and exactly one diagnostic about it was added. */
    ghost predicate After(r: PResult, errors0: seq<LoxError>, runtime0: seq<RuntimeError>)
      reads this, cursor, reporter
    {
      cursor.Valid() && reporter.runtimeErrors == runtime0 &&
      match r
      case Parsed(_, n) => cursor.current == n && reporter.errors == errors0
      case Failed(at, m) =>
        cursor.current == at && reporter.errors == errors0 + [TokenDiagnostic(cursor.tokens[at], m)]
    }

    /** Nothing but the cursor position changed. */
    ghost predicate Steady(toks: seq<Token>, errors0: seq<LoxError>, runtime0: seq<RuntimeError>)
      reads this, cursor, reporter
    {
      cursor.Valid() && cursor.tokens == toks && reporter.errors == errors0 && reporter.runtimeErrors == runtime0
    }

    /** The cursor stands after the result `m` of `Match(types)` at `p`. */
    ghost predicate Matched(p: nat, types: seq<TokenType>, m: bool)
      reads this, cursor
    {
      p < |cursor.tokens| && (m <==> MatchAt(cursor.tokens, p, types)) &&
      cursor.current == if m then p + 1 else p
    }

    /** `Parse`: resets the cursor and parses one expression; a throw is
        caught and becomes None, after its single report. */
    method Parse(tokens: seq<Token>) returns (r: Option<Expr>)
      requires Terminated(tokens)
      modifies cursor, reporter
      ensures r == ParseSpec.Parse(tokens)
      ensures r.Some? ==> reporter.errors == old(reporter.errors)
      ensures r.None? ==>
        var f := ParseSpec.Expression(tokens, 0);
        f.Failed? && f.at < |tokens| &&
        reporter.errors == old(reporter.errors) + [TokenDiagnostic(tokens[f.at], f.message)]
      ensures reporter.runtimeErrors == old(reporter.runtimeErrors)
    {
      cursor.ResetCursor(tokens);
      var e := Expression();
      match e
      case Parsed(expr, _) => r := Some(expr);
      case Failed(_, _) => r := None;
    }

    method Expression() returns (r: PResult)
      requires cursor.Valid()
      modifies cursor, reporter
      ensures cursor.tokens == old(cursor.tokens)
      ensures r == ParseSpec.Expression(cursor.tokens, old(cursor.current))
      ensures After(r, old(reporter.errors), old(reporter.runtimeErrors))
      decreases |cursor.tokens| - cursor.current, 9
    {
      r := Equality();
    }

    /** `Equality`, with `Comparison()` as its left operand. */
    method Equality() returns (r: PResult)
      requires cursor.Valid()
      modifies cursor, reporter
      ensures cursor.tokens == old(cursor.tokens)
      ensures r == ParseSpec.Equality(cursor.tokens, old(cursor.current))
      ensures After(r, old(reporter.errors), old(reporter.runtimeErrors))
      decreases |cursor.tokens| - cursor.current, 8
    {
      var left := Comparison();
      if left.Failed? {
        return left;
      }
      r := EqualityLoop(left.expr);
    }

    /** The `while (Match(BANG_EQUAL, EQUAL_EQUAL))` loop of `Equality`, after the first operand. */
    method EqualityLoop(left: Expr) returns (r: PResult)
      requires cursor.Valid()
      modifies cursor, reporter
      ensures cursor.tokens == old(cursor.tokens)
      ensures r == EqualityTail(cursor.tokens, left, old(cursor.current))
      ensures After(r, old(reporter.errors), old(reporter.runtimeErrors))
      decreases |cursor.tokens| - cursor.current, 8
    {
      ghost var toks, errs, runtime0 := cursor.tokens, reporter.errors, reporter.runtimeErrors;
      var expr := left;
      ghost var p: nat := cursor.current;
      var m := cursor.Match(EqualityOps);
      while m
        invariant Steady(toks, errs, runtime0)
        invariant Matched(p, EqualityOps, m)
        invariant EqualityTail(toks, expr, p) == EqualityTail(toks, left, old(cursor.current))
        decreases |toks| - cursor.current
      {
        var op := cursor.Previous();
        var right := Comparison();
        if right.Failed? {
          return right;
        }
        expr := BinaryExpr(expr, op, right.expr);
        p := cursor.current;
        m := cursor.Match(EqualityOps);
      }
      return Parsed(expr, cursor.current);
    }

    method Comparison() returns (r: PResult)
      requires cursor.Valid()
      modifies cursor, reporter
      ensures cursor.tokens == old(cursor.tokens)
      ensures r == ParseSpec.Comparison(cursor.tokens, old(cursor.current))
      ensures After(r, old(reporter.errors), old(reporter.runtimeErrors))
      decreases |cursor.tokens| - cursor.current, 7
    {
      var left := Term();
      if left.Failed? {
        return left;
      }
      r := ComparisonLoop(left.expr);
    }

    /** The `while (Match(GREATER, GREATER_EQUAL, LESS, LESS_EQUAL))` loop of `Comparison`, after the first operand. */
    method ComparisonLoop(left: Expr) returns (r: PResult)
      requires cursor.Valid()
      modifies cursor, reporter
      ensures cursor.tokens == old(cursor.tokens)
      ensures r == ComparisonTail(cursor.tokens, left, old(cursor.current))
      ensures After(r, old(reporter.errors), old(reporter.runtimeErrors))
      decreases |cursor.tokens| - cursor.current, 7
    {
      ghost var toks, errs, runtime0 := cursor.tokens, reporter.errors, reporter.runtimeErrors;
      var expr := left;
      ghost var p: nat := cursor.current;
      var m := cursor.Match(ComparisonOps);
      while m
        invariant Steady(toks, errs, runtime0)
        invariant Matched(p, ComparisonOps, m)
        invariant ComparisonTail(toks, expr, p) == ComparisonTail(toks, left, old(cursor.current))
        decreases |toks| - cursor.current
      {
        var op := cursor.Previous();
        var right := Term();
        if right.Failed? {
          return right;
        }
        expr := BinaryExpr(expr, op, right.expr);
        p := cursor.current;
        m := cursor.Match(ComparisonOps);
      }
      return Parsed(expr, cursor.current);
    }

    method Term() returns (r: PResult)
      requires cursor.Valid()
      modifies cursor, reporter
      ensures cursor.tokens == old(cursor.tokens)
      ensures r == ParseSpec.Term(cursor.tokens, old(cursor.current))
      ensures After(r, old(reporter.errors), old(reporter.runtimeErrors))
      decreases |cursor.tokens| - cursor.current, 6
    {
      var left := Factor();
      if left.Failed? {
        return left;
      }
      r := TermLoop(left.expr);
    }

    /** The `while (Match(MINUS, PLUS))` loop of `Term`, after the first operand. */
    method TermLoop(left: Expr) returns (r: PResult)
      requires cursor.Valid()
      modifies cursor, reporter
      ensures cursor.tokens == old(cursor.tokens)
      ensures r == TermTail(cursor.tokens, left, old(cursor.current))
      ensures After(r, old(reporter.errors), old(reporter.runtimeErrors))
      decreases |cursor.tokens| - cursor.current, 6
    {
      ghost var toks, errs, runtime0 := cursor.tokens, reporter.errors, reporter.runtimeErrors;
      var expr := left;
      ghost var p: nat := cursor.current;
      var m := cursor.Match(TermOps);
      while m
        invariant Steady(toks, errs, runtime0)
        invariant Matched(p, TermOps, m)
        invariant TermTail(toks, expr, p) == TermTail(toks, left, old(cursor.current))
        decreases |toks| - cursor.current
      {
        var op := cursor.Previous();
        var right := Factor();
        if right.Failed? {
          return right;
        }
        expr := BinaryExpr(expr, op, right.expr);
        p := cursor.current;
        m := cursor.Match(TermOps);
      }
      return Parsed(expr, cursor.current);
    }

    method Factor() returns (r: PResult)
      requires cursor.Valid()
      modifies cursor, reporter
      ensures cursor.tokens == old(cursor.tokens)
      ensures r == ParseSpec.Factor(cursor.tokens, old(cursor.current))
      ensures After(r, old(reporter.errors), old(reporter.runtimeErrors))
      decreases |cursor.tokens| - cursor.current, 5
    {
      var left := Unary();
      if left.Failed? {
        return left;
      }
      r := FactorLoop(left.expr);
    }

    /** The `while (Match(SLASH, STAR))` loop of `Factor`, after the first operand. */
    method FactorLoop(left: Expr) returns (r: PResult)
      requires cursor.Valid()
      modifies cursor, reporter
      ensures cursor.tokens == old(cursor.tokens)
      ensures r == FactorTail(cursor.tokens, left, old(cursor.current))
      ensures After(r, old(reporter.errors), old(reporter.runtimeErrors))
      decreases |cursor.tokens| - cursor.current, 5
    {
      ghost var toks, errs, runtime0 := cursor.tokens, reporter.errors, reporter.runtimeErrors;
      var expr := left;
      ghost var p: nat := cursor.current;
      var m := cursor.Match(FactorOps);
      while m
        invariant Steady(toks, errs, runtime0)
        invariant Matched(p, FactorOps, m)
        invariant FactorTail(toks, expr, p) == FactorTail(toks, left, old(cursor.current))
        decreases |toks| - cursor.current
      {
        var op := cursor.Previous();
        var right := Unary();
        if right.Failed? {
          return right;
        }
        expr := BinaryExpr(expr, op, right.expr);
        p := cursor.current;
        m := cursor.Match(FactorOps);
      }
      return Parsed(expr, cursor.current);
    }

    method Unary() returns (r: PResult)
      requires cursor.Valid()
      modifies cursor, reporter
      ensures cursor.tokens == old(cursor.tokens)
      ensures r == ParseSpec.Unary(cursor.tokens, old(cursor.current))
      ensures After(r, old(reporter.errors), old(reporter.runtimeErrors))
      decreases |cursor.tokens| - cursor.current, 4
    {
      ghost var toks, pos := cursor.tokens, cursor.current;
      UnarySteps(toks, pos);
      var m := cursor.Match(UnaryOps);
      if m {
        var op := cursor.Previous();
        var right := Unary();
        if right.Failed? {
          return right;
        }
        return Parsed(UnaryExpr(op, right.expr), cursor.current);
      }
      r := Primary();
    }

    method Primary() returns (r: PResult)
      requires cursor.Valid()
      modifies cursor, reporter
      ensures cursor.tokens == old(cursor.tokens)
      ensures r == ParseSpec.Primary(cursor.tokens, old(cursor.current))
      ensures After(r, old(reporter.errors), old(reporter.runtimeErrors))
      decreases |cursor.tokens| - cursor.current, 3
    {
      ghost var toks, pos := cursor.tokens, cursor.current;
      var literal := MatchLiteral();
      if literal.Some? {
        PrimaryLiterals(toks, pos);
        return Parsed(LiteralExpr(literal.value), cursor.current);
      }
      if cursor.Check(LeftParen) {
        r := Parenthesized();
      } else {
        r := NoExpression();
      }
    }

    /** The `(` branch of `Primary`: match the parenthesis, then parse the
        group. */
    method Parenthesized() returns (r: PResult)
      requires cursor.Valid() && CheckAt(cursor.tokens, cursor.current, LeftParen)
      modifies cursor, reporter
      ensures cursor.tokens == old(cursor.tokens)
      ensures r == ParseSpec.Primary(cursor.tokens, old(cursor.current))
      ensures After(r, old(reporter.errors), old(reporter.runtimeErrors))
      decreases |cursor.tokens| - cursor.current, 2
    {
      ghost var toks, pos := cursor.tokens, cursor.current;
      var m := cursor.Match([LeftParen]);
      PrimaryParen(toks, pos);
      r := Grouping();
    }

    /** The last branch of `Primary`: no expression starts here, so the
        current token is reported and nothing is consumed. */
    method NoExpression() returns (r: PResult)
      requires cursor.Valid() && !StartsPrimary(cursor.tokens[cursor.current].tokenType)
      modifies reporter
      ensures r == ParseSpec.Primary(cursor.tokens, cursor.current)
      ensures After(r, old(reporter.errors), old(reporter.runtimeErrors))
    {
      PrimaryUnexpected(cursor.tokens, cursor.current);
      Error(cursor.Peek(), ExpectExpression);
      return Failed(cursor.current, ExpectExpression);
    }

    /** The four literal branches of `Primary`: `false`, `true`, `nil`, then
        a number or a string. */
    method MatchLiteral() returns (literal: Option<Value>)
      requires cursor.Valid()
      modifies cursor
      ensures cursor.tokens == old(cursor.tokens) && cursor.Valid()
      ensures var t := cursor.tokens[old(cursor.current)].tokenType;
        literal.Some? <==> StartsPrimary(t) && t != LeftParen
      ensures literal.Some? ==>
        literal.value == LiteralValue(cursor.tokens[old(cursor.current)]) && cursor.current == old(cursor.current) + 1
      ensures literal.None? ==> cursor.current == old(cursor.current)
    {
      var m := cursor.Match([False]);
      if m {
        return Some(Bool(false));
      }
      m := cursor.Match([True]);
      if m {
        return Some(Bool(true));
      }
      m := cursor.Match([NilKeyword]);
      if m {
        return Some(Value.Nil);
      }
      m := cursor.Match(LiteralTypes);
      if m {
        return Some(cursor.Previous().literal);
      }
      return None;
    }

    /** The parenthesised branch of `Primary`, after the `(`. */
    method Grouping() returns (r: PResult)
      requires cursor.Valid()
      modifies cursor, reporter
      ensures cursor.tokens == old(cursor.tokens)
      ensures r == ParseSpec.Grouping(cursor.tokens, old(cursor.current))
      ensures After(r, old(reporter.errors), old(reporter.runtimeErrors))
      decreases |cursor.tokens| - cursor.current, 10
    {
      var inner := Expression();
      if inner.Failed? {
        return inner;
      }
      var closing := Consume(RightParen, ExpectRightParen);
      if closing.None? {
        return Failed(cursor.current, ExpectRightParen);
      }
      return Parsed(GroupingExpr(inner.expr), cursor.current);
    }

    /** `Consume`: the expected token is taken, or the error is reported at
        the token under the cursor (None stands for the thrown exception). */
    method Consume(t: TokenType, message: string) returns (r: Option<Token>)
      requires cursor.Valid()
      modifies cursor, reporter
      ensures cursor.tokens == old(cursor.tokens) && cursor.Valid()
      ensures reporter.runtimeErrors == old(reporter.runtimeErrors)
      ensures r.Some? <==> CheckAt(cursor.tokens, old(cursor.current), t)
      ensures r.Some? ==>
        r.value == cursor.tokens[old(cursor.current)] && cursor.current == old(cursor.current) + 1 &&
        reporter.errors == old(reporter.errors)
      ensures r.None? ==>
        cursor.current == old(cursor.current) &&
        reporter.errors == old(reporter.errors) + [TokenDiagnostic(cursor.tokens[cursor.current], message)]
    {
      if cursor.Check(t) {
        var taken := cursor.Advance();
        return Some(taken);
      }
      Error(cursor.Peek(), message);
      return None;
    }

    /** `Error`: the single report that precedes every `ParseException`. */
    method Error(token: Token, message: string)
      modifies reporter
      ensures reporter.errors == old(reporter.errors) + [TokenDiagnostic(token, message)]
      ensures reporter.runtimeErrors == old(reporter.runtimeErrors)
    {
      reporter.ErrorAt(token, message);
    }

    /** `Synchronize`: skips to the next statement boundary. */
    method Synchronize()
      requires cursor.Valid()
      requires cursor.current >= 1 || !cursor.IsAtEnd()
      modifies cursor
      ensures cursor.tokens == old(cursor.tokens) && cursor.Valid()
      ensures cursor.current == SyncStop(cursor.tokens, old(cursor.current))
    {
      ghost var toks, pos := cursor.tokens, cursor.current;
      var consumed := cursor.Advance();
      while !cursor.IsAtEnd()
        invariant cursor.Valid() && cursor.tokens == toks && 1 <= cursor.current
        invariant SyncFrom(toks, cursor.current) == SyncStop(toks, pos)
        decreases |toks| - cursor.current
      {
        if cursor.Previous().tokenType == Semicolon {
          return;
        }
        if cursor.Peek().tokenType in StatementStarts {
          return;
        }
        consumed := cursor.Advance();
      }
    }
  }
}
