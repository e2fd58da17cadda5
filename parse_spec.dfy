/** The expression grammar of src/Lox/Parsing/Parser.cs as functions of the
    token list and a position. Each level returns the tree it built and the
    position where it stopped, or the position and message of the
    `ParseException` it threw.

    `Equality` here takes `Comparison` as its left operand, like every
    other level of the ladder. As written, `Equality` calls itself before
    consuming a token and never returns; `EqualityAsWritten` models that. */
module ParseSpec {
  import opened Wrappers
  import opened Values
  import opened Tokens
  import opened Ast

  /** A token list the cursor can walk: it ends with an EOF token, as every
      list the scanner produces does. The cursor never moves past an EOF
      token, so every position it reaches stays in range. */
  predicate Terminated(toks: seq<Token>)
  {
    |toks| > 0 && toks[|toks| - 1].tokenType == Eof
  }

  /** `IsAtEnd`: the token under the cursor is EOF. */
  predicate AtEnd(toks: seq<Token>, pos: nat)
    requires pos < |toks|
  {
    toks[pos].tokenType == Eof
  }

  /** `Check(type)`: false at the end, otherwise a comparison of types. */
  predicate CheckAt(toks: seq<Token>, pos: nat, t: TokenType)
    requires pos < |toks|
  {
    !AtEnd(toks, pos) && toks[pos].tokenType == t
  }

  /** `Match(types)` succeeds: some type of the list checks. */
  predicate MatchAt(toks: seq<Token>, pos: nat, types: seq<TokenType>)
    requires pos < |toks|
  {
    !AtEnd(toks, pos) && toks[pos].tokenType in types
  }

  const EqualityOps: seq<TokenType> := [BangEqual, EqualEqual]
  const ComparisonOps: seq<TokenType> := [Greater, GreaterEqual, Less, LessEqual]
  const TermOps: seq<TokenType> := [Minus, Plus]
  const FactorOps: seq<TokenType> := [Slash, Star]
  const UnaryOps: seq<TokenType> := [Bang, Minus]
  const LiteralTypes: seq<TokenType> := [NumberLit, StringLit]

  const ExpectExpression: string := "Expect expression."
  const ExpectRightParen: string := "Expect ')' after expression."

  /** The token types `Primary` accepts. */
  predicate StartsPrimary(t: TokenType)
  {
    t in {False, True, NilKeyword, NumberLit, StringLit, LeftParen}
  }

  /** The value of the literal node `Primary` builds for a literal token:
      the keywords' own values, otherwise the token's literal. */
  function LiteralValue(tok: Token): Value
  {
    match tok.tokenType
    case False => Bool(false)
    case True => Bool(true)
    case NilKeyword => Value.Nil
    case _ => tok.literal
  }

  datatype PResult = Parsed(expr: Expr, next: nat) | Failed(at: nat, message: string)

  /** A failure is thrown at a token that cannot start a primary expression
      ("Expect expression.") or at a token that is not a closing
      parenthesis ("Expect ')' after expression."). */
  ghost predicate ProperFailure(toks: seq<Token>, at: nat, message: string)
  {
    at < |toks| &&
    ((message == ExpectExpression && !StartsPrimary(toks[at].tokenType)) ||
     (message == ExpectRightParen && !CheckAt(toks, at, RightParen)))
  }

  /** A parse that starts at `pos` stops inside the list, after `pos` when
      `strict` holds, and fails only properly, at or after `pos`. */
  ghost predicate Progress(toks: seq<Token>, pos: nat, r: PResult, strict: bool)
  {
    match r
    case Parsed(_, n) => (pos < n || (!strict && pos == n)) && n < |toks|
    case Failed(at, m) => pos <= at && ProperFailure(toks, at, m)
  }

  // The grammar the trees belong to. An operand on the right of a binary
  // node belongs to the next level down, an operand on the left to the
  // same level: chains associate to the left and the levels give the
  // precedence.

  ghost predicate ExpressionForm(e: Expr)
    decreases e, 6
  {
    EqualityForm(e)
  }

  ghost predicate EqualityForm(e: Expr)
    decreases e, 5
  {
    (e.BinaryExpr? && e.operator.tokenType in EqualityOps && EqualityForm(e.left) && ComparisonForm(e.right))
    || ComparisonForm(e)
  }

  ghost predicate ComparisonForm(e: Expr)
    decreases e, 4
  {
    (e.BinaryExpr? && e.operator.tokenType in ComparisonOps && ComparisonForm(e.left) && TermForm(e.right))
    || TermForm(e)
  }

  ghost predicate TermForm(e: Expr)
    decreases e, 3
  {
    (e.BinaryExpr? && e.operator.tokenType in TermOps && TermForm(e.left) && FactorForm(e.right))
    || FactorForm(e)
  }

  ghost predicate FactorForm(e: Expr)
    decreases e, 2
  {
    (e.BinaryExpr? && e.operator.tokenType in FactorOps && FactorForm(e.left) && UnaryForm(e.right))
    || UnaryForm(e)
  }

  ghost predicate UnaryForm(e: Expr)
    decreases e, 1
  {
    (e.UnaryExpr? && e.operator.tokenType in UnaryOps && UnaryForm(e.right))
    || PrimaryForm(e)
  }

  ghost predicate PrimaryForm(e: Expr)
    decreases e, 0
  {
    e.LiteralExpr? || (e.GroupingExpr? && ExpressionForm(e.expression))
  }

  function Expression(toks: seq<Token>, pos: nat): (r: PResult)
    requires Terminated(toks) && pos < |toks|
    ensures Progress(toks, pos, r, true)
    ensures r.Parsed? ==> ExpressionForm(r.expr)
    decreases |toks| - pos, 9
  {
    Equality(toks, pos)
  }

  function Equality(toks: seq<Token>, pos: nat): (r: PResult)
    requires Terminated(toks) && pos < |toks|
    ensures Progress(toks, pos, r, true)
    ensures r.Parsed? ==> EqualityForm(r.expr)
    decreases |toks| - pos, 8
  {
    match Comparison(toks, pos)
    case Failed(at, m) => Failed(at, m)
    case Parsed(left, n) => EqualityTail(toks, left, n)
  }

  /** The `while (Match(BANG_EQUAL, EQUAL_EQUAL))` loop of `Equality`. */
  function EqualityTail(toks: seq<Token>, left: Expr, pos: nat): (r: PResult)
    requires Terminated(toks) && pos < |toks|
    ensures Progress(toks, pos, r, false)
    ensures r.Parsed? && EqualityForm(left) ==> EqualityForm(r.expr)
    decreases |toks| - pos, 8
  {
    if MatchAt(toks, pos, EqualityOps) then
      match Comparison(toks, pos + 1)
      case Failed(at, m) => Failed(at, m)
      case Parsed(right, n) => EqualityTail(toks, BinaryExpr(left, toks[pos], right), n)
    else Parsed(left, pos)
  }

  function Comparison(toks: seq<Token>, pos: nat): (r: PResult)
    requires Terminated(toks) && pos < |toks|
    ensures Progress(toks, pos, r, true)
    ensures r.Parsed? ==> ComparisonForm(r.expr)
    decreases |toks| - pos, 7
  {
    match Term(toks, pos)
    case Failed(at, m) => Failed(at, m)
    case Parsed(left, n) => ComparisonTail(toks, left, n)
  }

  function ComparisonTail(toks: seq<Token>, left: Expr, pos: nat): (r: PResult)
    requires Terminated(toks) && pos < |toks|
    ensures Progress(toks, pos, r, false)
    ensures r.Parsed? && ComparisonForm(left) ==> ComparisonForm(r.expr)
    decreases |toks| - pos, 7
  {
    if MatchAt(toks, pos, ComparisonOps) then
      match Term(toks, pos + 1)
      case Failed(at, m) => Failed(at, m)
      case Parsed(right, n) => ComparisonTail(toks, BinaryExpr(left, toks[pos], right), n)
    else Parsed(left, pos)
  }

  function Term(toks: seq<Token>, pos: nat): (r: PResult)
    requires Terminated(toks) && pos < |toks|
    ensures Progress(toks, pos, r, true)
    ensures r.Parsed? ==> TermForm(r.expr)
    decreases |toks| - pos, 6
  {
    match Factor(toks, pos)
    case Failed(at, m) => Failed(at, m)
    case Parsed(left, n) => TermTail(toks, left, n)
  }

  function TermTail(toks: seq<Token>, left: Expr, pos: nat): (r: PResult)
    requires Terminated(toks) && pos < |toks|
    ensures Progress(toks, pos, r, false)
    ensures r.Parsed? && TermForm(left) ==> TermForm(r.expr)
    decreases |toks| - pos, 6
  {
    if MatchAt(toks, pos, TermOps) then
      match Factor(toks, pos + 1)
      case Failed(at, m) => Failed(at, m)
      case Parsed(right, n) => TermTail(toks, BinaryExpr(left, toks[pos], right), n)
    else Parsed(left, pos)
  }

  function Factor(toks: seq<Token>, pos: nat): (r: PResult)
    requires Terminated(toks) && pos < |toks|
    ensures Progress(toks, pos, r, true)
    ensures r.Parsed? ==> FactorForm(r.expr)
    decreases |toks| - pos, 5
  {
    match Unary(toks, pos)
    case Failed(at, m) => Failed(at, m)
    case Parsed(left, n) => FactorTail(toks, left, n)
  }

  function FactorTail(toks: seq<Token>, left: Expr, pos: nat): (r: PResult)
    requires Terminated(toks) && pos < |toks|
    ensures Progress(toks, pos, r, false)
    ensures r.Parsed? && FactorForm(left) ==> FactorForm(r.expr)
    decreases |toks| - pos, 5
  {
    if MatchAt(toks, pos, FactorOps) then
      match Unary(toks, pos + 1)
      case Failed(at, m) => Failed(at, m)
      case Parsed(right, n) => FactorTail(toks, BinaryExpr(left, toks[pos], right), n)
    else Parsed(left, pos)
  }

  function Unary(toks: seq<Token>, pos: nat): (r: PResult)
    requires Terminated(toks) && pos < |toks|
    ensures Progress(toks, pos, r, true)
    ensures r.Parsed? ==> UnaryForm(r.expr)
    decreases |toks| - pos, 4
  {
    if MatchAt(toks, pos, UnaryOps) then
      match Unary(toks, pos + 1)
      case Failed(at, m) => Failed(at, m)
      case Parsed(right, n) => Parsed(UnaryExpr(toks[pos], right), n)
    else Primary(toks, pos)
  }

  function Primary(toks: seq<Token>, pos: nat): (r: PResult)
    requires Terminated(toks) && pos < |toks|
    ensures Progress(toks, pos, r, true)
    ensures r.Parsed? ==> PrimaryForm(r.expr)
    decreases |toks| - pos, 3
  {
    if CheckAt(toks, pos, False) then Parsed(LiteralExpr(Bool(false)), pos + 1)
    else if CheckAt(toks, pos, True) then Parsed(LiteralExpr(Bool(true)), pos + 1)
    else if CheckAt(toks, pos, NilKeyword) then Parsed(LiteralExpr(Value.Nil), pos + 1)
    else if MatchAt(toks, pos, LiteralTypes) then Parsed(LiteralExpr(toks[pos].literal), pos + 1)
    else if CheckAt(toks, pos, LeftParen) then Grouping(toks, pos + 1)
    else Failed(pos, ExpectExpression)
  }

  /** The rest of a parenthesised expression, after its `(`: an expression,
      then `Consume(RIGHT_PAREN, ...)`. */
  function Grouping(toks: seq<Token>, pos: nat): (r: PResult)
    requires Terminated(toks) && pos < |toks|
    ensures Progress(toks, pos, r, true)
    ensures r.Parsed? ==> PrimaryForm(r.expr)
    decreases |toks| - pos, 10
  {
    match Expression(toks, pos)
    case Failed(at, m) => Failed(at, m)
    case Parsed(e, n) =>
      if CheckAt(toks, n, RightParen) then Parsed(GroupingExpr(e), n + 1)
      else Failed(n, ExpectRightParen)
  }

  /** `Parse`: the expression at the start of the list, or None when a
      `ParseException` escaped. Tokens after the expression are ignored. */
  function Parse(toks: seq<Token>): (r: Option<Expr>)
    requires Terminated(toks)
    ensures r.Some? <==> Expression(toks, 0).Parsed?
    ensures r.Some? ==> ExpressionForm(r.value) && r.value == Expression(toks, 0).expr
  {
    match Expression(toks, 0)
    case Parsed(e, _) => Some(e)
    case Failed(_, _) => None
  }

  /** `Equality()` as written: its first step is a call of itself at the same
      position. `fuel` bounds the depth of that recursion (the call stack
      of the running program); None means the bound was exhausted. */
  function EqualityAsWritten(toks: seq<Token>, pos: nat, fuel: nat): (r: Option<PResult>)
    requires Terminated(toks) && pos < |toks|
    decreases fuel
  {
    if fuel == 0 then None
    else
      match EqualityAsWritten(toks, pos, fuel - 1)
      case None => None
      case Some(Failed(at, m)) => Some(Failed(at, m))
      case Some(Parsed(left, n)) =>
        if n < |toks| then Some(EqualityTail(toks, left, n)) else None
  }

  const StatementStarts: set<TokenType> := {Class, Fun, Var, For, If, While, Print, Return}

  /** Where the loop of `Synchronize` stops: at the end, right after a
      semicolon, or before a token that starts a statement. */
  predicate SyncStops(toks: seq<Token>, q: nat)
    requires 1 <= q < |toks|
  {
    AtEnd(toks, q) || toks[q - 1].tokenType == Semicolon || toks[q].tokenType in StatementStarts
  }

  /** The loop of `Synchronize`, from position `p`: the first stopping
      position at or after `p`. */
  function SyncFrom(toks: seq<Token>, p: nat): (r: nat)
    requires Terminated(toks) && 1 <= p < |toks|
    ensures p <= r < |toks| && SyncStops(toks, r)
    ensures forall q :: p <= q < r ==> !SyncStops(toks, q)
    decreases |toks| - p
  {
    if SyncStops(toks, p) then p else SyncFrom(toks, p + 1)
  }

  /** `Synchronize`: one `Advance`, then the loop. The first `Advance`
      reads `Previous()`, which needs a token before the cursor when the
      cursor cannot move. */
  function SyncStop(toks: seq<Token>, pos: nat): (r: nat)
    requires Terminated(toks) && pos < |toks|
    requires pos >= 1 || !AtEnd(toks, pos)
    ensures pos < r || AtEnd(toks, pos)
    ensures 1 <= r < |toks| && SyncStops(toks, r)
    ensures forall q :: pos < q < r ==> !SyncStops(toks, q)
  {
    SyncFrom(toks, if AtEnd(toks, pos) then pos else pos + 1)
  }
}
