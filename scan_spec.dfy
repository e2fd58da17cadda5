/** The scanner of src/Lox/Scanning/Scanner.cs as a function of the source
    text: one `ScanToken` step per lexeme, iterated by `ScanFrom` until the
    end of the input, then the EOF token. The imperative scanner (module
    Scanning) is proved to compute exactly this. */
module ScanSpec {
  import opened Wrappers
  import opened Values
  import opened Chars
  import opened Tokens
  import opened Reporting

  /** `Peek()`: the character at `i`, or the NUL sentinel at the end. */
  function PeekAt(src: string, i: nat): char
  {
    if i >= |src| then '\0' else src[i]
  }

  /** `PeekNext()`: the character after `i`, or NUL when there is none. */
  function PeekNextAt(src: string, i: nat): char
  {
    if i + 1 >= |src| then '\0' else src[i + 1]
  }

  /** The keyword table: sixteen reserved words. */
  const Keywords: map<string, TokenType> := map[
    "and" := And, "class" := Class, "else" := Else, "false" := False,
    "for" := For, "fun" := Fun, "if" := If, "nil" := NilKeyword,
    "or" := Or, "print" := Print, "return" := Return, "super" := Super,
    "this" := This, "true" := True, "var" := Var, "while" := While]

  /** `_keywords.GetValueOrDefault(text, IDENTIFIER)`. */
  function KeywordType(text: string): (t: TokenType)
    ensures text in Keywords ==> t == Keywords[text]
    ensures text !in Keywords ==> t == Identifier
  {
    if text in Keywords then Keywords[text] else Identifier
  }

  /** `break` and `continue` are not in the table, and no keyword maps to
      IDENTIFIER or EOF. */
  lemma KeywordTableContents()
    ensures "break" !in Keywords && "continue" !in Keywords
    ensures KeywordType("break") == Identifier && KeywordType("continue") == Identifier
    ensures forall k :: k in Keywords ==> Keywords[k] != Identifier && Keywords[k] != Eof
  {
  }

  /** The scanner's cursor line and position, the token buffer, and the
      reporter's log. */
  datatype ScanState = ScanState(current: nat, line: nat, tokens: seq<Token>, errors: seq<LoxError>)

  /** One `ScanToken` step either completes or indexes past the end. */
  datatype Lexed = Lexed(state: ScanState) | OutOfRange

  /** A whole scan either returns its token list or ends in the
      out-of-range exception; the state is the scanner's at that point. */
  datatype ScanResult = Completed(state: ScanState) | Crashed(state: ScanState)

  /** `AddToken`: appends a token whose lexeme is `src[start..current)`,
      on the cursor's current line. */
  function AddToken(src: string, start: nat, st: ScanState, t: TokenType, literal: Value): (r: ScanState)
    requires start <= st.current <= |src|
    ensures r.current == st.current && r.line == st.line && r.errors == st.errors
    ensures r.tokens == st.tokens + [Token(t, src[start..st.current], literal, st.line)]
  {
    st.(tokens := st.tokens + [Token(t, src[start..st.current], literal, st.line)])
  }

  /** `Error(line, message)` on the cursor's current line. */
  function ReportError(st: ScanState, message: string): (r: ScanState)
    ensures r.current == st.current && r.line == st.line && r.tokens == st.tokens
    ensures r.errors == st.errors + [LineDiagnostic(st.line, message)]
  {
    st.(errors := st.errors + [LineDiagnostic(st.line, message)])
  }

  /** What one step may do: advance, never move the line back, append at
      most one non-EOF token whose lexeme is the text of the step and whose
      line is the line at the end of the step, and append at most one
      diagnostic with an empty where. */
  ghost predicate Step(src: string, st: ScanState, st': ScanState)
  {
    && st.current < st'.current <= |src|
    && st.line <= st'.line
    && |st.tokens| <= |st'.tokens| <= |st.tokens| + 1
    && st'.tokens[..|st.tokens|] == st.tokens
    && (forall k :: |st.tokens| <= k < |st'.tokens| ==>
          && st'.tokens[k].lexeme == src[st.current..st'.current]
          && st'.tokens[k].line == st'.line
          && st'.tokens[k].tokenType != Eof)
    && |st.errors| <= |st'.errors| <= |st.errors| + 1
    && st'.errors[..|st.errors|] == st.errors
    && (forall k :: |st.errors| <= k < |st'.errors| ==> st'.errors[k].where == "")
  }

  /** The loops of a line comment and of a string literal: they stop at
      the first `c` from `i` on (a newline, a quote), or at the end of the
      input. */
  function FirstFrom(src: string, i: nat, c: char): (j: nat)
    requires i <= |src|
    ensures i <= j <= |src|
    ensures j == |src| || src[j] == c
    ensures forall k :: i <= k < j ==> src[k] != c
    decreases |src| - i
  {
    if PeekAt(src, i) != c && i < |src| then FirstFrom(src, i + 1, c) else i
  }

  /** The loop of a block comment as written: it goes on while the current
      character is not `*` AND the next is not `/`, with no end-of-input
      test, so at the end it calls `Advance` past the last character. None
      stands for that out-of-range access. */
  function BlockCommentStop(src: string, i: nat): (r: Option<nat>)
    requires i <= |src|
    ensures r.Some? ==> i <= r.value < |src| && (src[r.value] == '*' || PeekNextAt(src, r.value) == '/')
    ensures r.Some? ==> forall k :: i <= k < r.value ==> src[k] != '*' && PeekNextAt(src, k) != '/'
    ensures r.None? <==> forall k :: i <= k < |src| ==> src[k] != '*' && PeekNextAt(src, k) != '/'
    decreases |src| - i
  {
    if PeekAt(src, i) != '*' && PeekNextAt(src, i) != '/' then
      if i >= |src| then None else BlockCommentStop(src, i + 1)
    else
      Some(i)
  }

  /** The number of newlines in a text. */
  function Newlines(s: string): nat
  {
    if s == [] then 0 else Newlines(s[..|s| - 1]) + (if s[|s| - 1] == '\n' then 1 else 0)
  }

  /** A maximal run of digits starting at `i`. */
  function DigitsEnd(src: string, i: nat): (j: nat)
    requires i <= |src|
    ensures i <= j <= |src|
    ensures forall k :: i <= k < j ==> IsDigit(src[k])
    ensures !IsDigit(PeekAt(src, j))
    decreases |src| - i
  {
    if IsDigit(PeekAt(src, i)) then DigitsEnd(src, i + 1) else i
  }

  /** Where `Number()` may stop, from `i` on: the text `src[i..j)` is
      either digits only, not followed by a `.` and a digit, or digits, one
      `.` and at least one more digit; in both cases no digit follows. */
  ghost predicate NumberRest(src: string, i: nat, j: nat)
    requires i <= j <= |src|
  {
    && !IsDigit(PeekAt(src, j))
    && (|| ((forall k :: i <= k < j ==> IsDigit(src[k])) && !(PeekAt(src, j) == '.' && IsDigit(PeekNextAt(src, j))))
        || (exists m :: i <= m && m + 1 < j && src[m] == '.' && forall k :: i <= k < j && k != m ==> IsDigit(src[k])))
  }

  /** `Number()` after the first digit: digits, then a fractional part only
      when a `.` is followed by a digit. */
  function NumberEnd(src: string, i: nat): (j: nat)
    requires i <= |src|
    ensures i <= j <= |src|
    ensures NumberRest(src, i, j)
  {
    var k := DigitsEnd(src, i);
    if PeekAt(src, k) == '.' && IsDigit(PeekNextAt(src, k)) then DigitsEnd(src, k + 1) else k
  }

  /** A maximal run of identifier characters starting at `i`. */
  function IdentifierEnd(src: string, i: nat): (j: nat)
    requires i <= |src|
    ensures i <= j <= |src|
    ensures forall k :: i <= k < j ==> IsAlphaNumeric(src[k])
    ensures !IsAlphaNumeric(PeekAt(src, j))
    decreases |src| - i
  {
    if IsAlphaNumeric(PeekAt(src, i)) then IdentifierEnd(src, i + 1) else i
  }

  /** `!`, `=`, `<`, `>`: the two-character token when `Match('=')`
      succeeds, the one-character token otherwise. */
  function Operator(src: string, start: nat, st: ScanState, two: TokenType, one: TokenType): (r: ScanState)
    requires start + 1 == st.current <= |src|
    requires two != Eof && one != Eof
    ensures Step(src, st.(current := start), r)
  {
    if st.current < |src| && src[st.current] == '=' then
      AddToken(src, start, st.(current := st.current + 1), two, Value.Nil)
    else
      AddToken(src, start, st, one, Value.Nil)
  }

  /** The `/` case: a line comment, a block comment or a SLASH token. */
  function SlashOrComment(src: string, start: nat, st: ScanState): (r: Lexed)
    requires start + 1 == st.current <= |src|
    ensures r.Lexed? ==> Step(src, st.(current := start), r.state)
  {
    var i := st.current;
    if i < |src| && src[i] == '/' then
      Lexed(st.(current := FirstFrom(src, i + 1, '\n')))
    else if i < |src| && src[i] == '*' then
      BlockComment(src, st.(current := i + 1))
    else
      Lexed(AddToken(src, start, st, Slash, Value.Nil))
  }

  /** A block comment after its opening slash-star: the skip loop, which
      may run off the end, then `Match('*') && Match('/')`, reported when it
      fails. */
  function BlockComment(src: string, st: ScanState): (r: Lexed)
    requires st.current <= |src|
    ensures r.Lexed? ==> r.state.tokens == st.tokens && st.current <= r.state.current <= |src|
  {
    match BlockCommentStop(src, st.current)
    case None => OutOfRange
    case Some(j) =>
      if src[j] == '*' && j + 1 < |src| && src[j + 1] == '/' then
        Lexed(st.(current := j + 2))
      else if src[j] == '*' then
        Lexed(ReportError(st.(current := j + 1), "Expected close of block comment."))
      else
        Lexed(ReportError(st.(current := j), "Expected close of block comment."))
  }

  /** `String()`: newlines inside advance the line; at the end of the input
      it reports once and adds nothing; otherwise the literal is the lexeme
      without its two quotes. */
  function StringLiteral(src: string, start: nat, st: ScanState): (r: ScanState)
    requires start + 1 == st.current <= |src|
    ensures Step(src, st.(current := start), r)
  {
    var j := FirstFrom(src, st.current, '"');
    var st' := st.(current := j, line := st.line + Newlines(src[st.current..j]));
    if j >= |src| then
      ReportError(st', "Unterminated string.")
    else
      AddToken(src, start, st'.(current := j + 1), StringLit, Str(src[start + 1..j]))
  }

  /** `Number()`: the literal is `double.Parse` of the lexeme, here `parse`. */
  function NumberLiteral(src: string, parse: string -> Number, start: nat, st: ScanState): (r: ScanState)
    requires start + 1 == st.current <= |src|
    ensures Step(src, st.(current := start), r)
  {
    var j := NumberEnd(src, st.current);
    AddToken(src, start, st.(current := j), NumberLit, Num(parse(src[start..j])))
  }

  /** `Identifier()`: a keyword type when the text is in the table. */
  function IdentifierToken(src: string, start: nat, st: ScanState): (r: ScanState)
    requires start + 1 == st.current <= |src|
    ensures Step(src, st.(current := start), r)
  {
    var j := IdentifierEnd(src, st.current);
    AddToken(src, start, st.(current := j), KeywordType(src[start..j]), Value.Nil)
  }

  /** The branches of the `switch` in `ScanToken()`. */
  datatype Branch =
    | Single(single: TokenType)
    | TwoChar(two: TokenType, one: TokenType)
    | SlashBranch
    | Blank
    | LineBreak
    | Quote
    | DigitBranch
    | AlphaBranch
    | Unexpected

  /** Which branch of the `switch` a first character takes. */
  function Classify(c: char): (b: Branch)
    ensures b.Single? ==> b.single != Eof
    ensures b.TwoChar? ==> b.two != Eof && b.one != Eof
  {
    match c
    case '(' => Single(LeftParen)
    case ')' => Single(RightParen)
    case '{' => Single(LeftBrace)
    case '}' => Single(RightBrace)
    case ',' => Single(Comma)
    case '.' => Single(Dot)
    case '-' => Single(Minus)
    case '+' => Single(Plus)
    case ';' => Single(Semicolon)
    case '*' => Single(Star)
    case '?' => Single(QuestionMark)
    case ':' => Single(Colon)
    case '!' => TwoChar(BangEqual, Bang)
    case '=' => TwoChar(EqualEqual, Equal)
    case '<' => TwoChar(LessEqual, Less)
    case '>' => TwoChar(GreaterEqual, Greater)
    case '/' => SlashBranch
    case ' ' => Blank
    case '\r' => Blank
    case '\t' => Blank
    case '\n' => LineBreak
    case '"' => Quote
    case _ =>
      if IsDigit(c) then DigitBranch
      else if IsAlpha(c) then AlphaBranch
      else Unexpected
  }

  /** `ScanToken()` for the lexeme that begins at `st.current`. */
  function ScanToken(src: string, parse: string -> Number, st: ScanState): (r: Lexed)
    requires st.current < |src|
    ensures r.Lexed? ==> Step(src, st, r.state)
  {
    var start := st.current;
    var s := st.(current := start + 1);
    match Classify(src[start])
    case Single(t) => Lexed(AddToken(src, start, s, t, Value.Nil))
    case TwoChar(two, one) => Lexed(Operator(src, start, s, two, one))
    case SlashBranch => SlashOrComment(src, start, s)
    case Blank => Lexed(s)
    case LineBreak => Lexed(s.(line := s.line + 1))
    case Quote => Lexed(StringLiteral(src, start, s))
    case DigitBranch => Lexed(NumberLiteral(src, parse, start, s))
    case AlphaBranch => Lexed(IdentifierToken(src, start, s))
    case Unexpected => Lexed(ReportError(s, "Unexpected character."))
  }

  // The branch a step takes, one lemma per case of the switch.

  lemma StepSingle(src: string, parse: string -> Number, st: ScanState)
    requires st.current < |src| && Classify(src[st.current]).Single?
    ensures ScanToken(src, parse, st) == Lexed(AddToken(src, st.current, st.(current := st.current + 1), Classify(src[st.current]).single, Value.Nil))
  {
  }

  lemma StepTwoChar(src: string, parse: string -> Number, st: ScanState)
    requires st.current < |src| && Classify(src[st.current]).TwoChar?
    ensures ScanToken(src, parse, st) == Lexed(Operator(src, st.current, st.(current := st.current + 1), Classify(src[st.current]).two, Classify(src[st.current]).one))
  {
  }

  lemma StepSlash(src: string, parse: string -> Number, st: ScanState)
    requires st.current < |src| && Classify(src[st.current]) == SlashBranch
    ensures ScanToken(src, parse, st) == SlashOrComment(src, st.current, st.(current := st.current + 1))
  {
  }

  lemma StepBlank(src: string, parse: string -> Number, st: ScanState)
    requires st.current < |src| && Classify(src[st.current]) == Blank
    ensures ScanToken(src, parse, st) == Lexed(st.(current := st.current + 1))
  {
  }

  lemma StepLineBreak(src: string, parse: string -> Number, st: ScanState)
    requires st.current < |src| && Classify(src[st.current]) == LineBreak
    ensures ScanToken(src, parse, st) == Lexed(st.(current := st.current + 1, line := st.line + 1))
  {
  }

  lemma StepQuote(src: string, parse: string -> Number, st: ScanState)
    requires st.current < |src| && Classify(src[st.current]) == Quote
    ensures ScanToken(src, parse, st) == Lexed(StringLiteral(src, st.current, st.(current := st.current + 1)))
  {
  }

  lemma StepDigit(src: string, parse: string -> Number, st: ScanState)
    requires st.current < |src| && Classify(src[st.current]) == DigitBranch
    ensures ScanToken(src, parse, st) == Lexed(NumberLiteral(src, parse, st.current, st.(current := st.current + 1)))
  {
  }

  lemma StepAlpha(src: string, parse: string -> Number, st: ScanState)
    requires st.current < |src| && Classify(src[st.current]) == AlphaBranch
    ensures ScanToken(src, parse, st) == Lexed(IdentifierToken(src, st.current, st.(current := st.current + 1)))
  {
  }

  lemma StepUnexpected(src: string, parse: string -> Number, st: ScanState)
    requires st.current < |src| && Classify(src[st.current]) == Unexpected
    ensures ScanToken(src, parse, st) == Lexed(ReportError(st.(current := st.current + 1), "Unexpected character."))
  {
  }

  /** `ScanTokens` from a given state: steps until the end of the input and
      then appends the EOF token with an empty lexeme and the final line. */
  function ScanFrom(src: string, parse: string -> Number, st: ScanState): (r: ScanResult)
    requires st.current <= |src|
    decreases |src| - st.current
  {
    if st.current >= |src| then
      Completed(st.(tokens := st.tokens + [Token(Eof, "", Value.Nil, st.line)]))
    else
      match ScanToken(src, parse, st)
      case OutOfRange => Crashed(st)
      case Lexed(next) => ScanFrom(src, parse, next)
  }

  /** `ScanTokens(source)`: a reset cursor (position 0, line 0) and an empty
      buffer; `log` is what the reporter held before. */
  function Scan(src: string, parse: string -> Number, log: seq<LoxError>): ScanResult
  {
    ScanFrom(src, parse, ScanState(0, 0, [], log))
  }
}
