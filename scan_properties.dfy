/** What the scanner of src/Lox/Scanning/Scanner.cs promises, proved about
    its functional model ScanSpec: the shape of the token list, the effect
    of each kind of lexeme, and exactly when the block-comment loop runs
    off the end of the input. */
module ScanProperties {
  import opened Wrappers
  import opened Values
  import opened Chars
  import opened Tokens
  import opened Reporting
  import opened ScanSpec

  /** `s` is a slice `src[a..b)` with `from <= a`. */
  ghost predicate SliceFrom(src: string, from: nat, s: string)
  {
    exists a: nat, b: nat :: from <= a <= b <= |src| && s == src[a..b]
  }

  /** The scan went from `st` to `f`, and the tokens `f.tokens[|st.tokens|..hi)`
      are the ones it appended: none is EOF, each lexeme is a slice of the
      source at or after where the scan started, and lines never decrease
      and lie between the start and the final line. The diagnostics it
      appended come from `Error(line, …)` and have an empty where. */
  ghost predicate Grows(src: string, st: ScanState, f: ScanState, hi: nat)
  {
    && st.line <= f.line
    && |st.tokens| <= hi <= |f.tokens|
    && f.tokens[..|st.tokens|] == st.tokens
    && (forall k :: |st.tokens| <= k < hi ==>
          && f.tokens[k].tokenType != Eof
          && SliceFrom(src, st.current, f.tokens[k].lexeme)
          && st.line <= f.tokens[k].line <= f.line)
    && (forall i, j :: |st.tokens| <= i < j < hi ==> f.tokens[i].line <= f.tokens[j].line)
    && |st.errors| <= |f.errors|
    && f.errors[..|st.errors|] == st.errors
    && (forall k :: |st.errors| <= k < |f.errors| ==> f.errors[k].where == "")
  }

  lemma GrowsStep(src: string, st: ScanState, mid: ScanState, f: ScanState, hi: nat)
    requires Step(src, st, mid)
    requires Grows(src, mid, f, hi)
    ensures Grows(src, st, f, hi)
  {
    var n := |st.tokens|;
    assert f.tokens[..n] == st.tokens by {
      assert f.tokens[..n] == f.tokens[..|mid.tokens|][..n];
    }
    forall k | n <= k < hi
      ensures SliceFrom(src, st.current, f.tokens[k].lexeme) && st.line <= f.tokens[k].line
    {
      if k < |mid.tokens| {
        assert f.tokens[k] == mid.tokens[k];
        assert mid.tokens[k].lexeme == src[st.current..mid.current];
      } else {
        var a: nat, b: nat :| mid.current <= a <= b <= |src| && f.tokens[k].lexeme == src[a..b];
      }
    }
    forall i, j | n <= i < j < hi
      ensures f.tokens[i].line <= f.tokens[j].line
    {
      if i < |mid.tokens| {
        assert f.tokens[i] == mid.tokens[i];
      }
    }
    assert f.errors[..|st.errors|] == st.errors by {
      assert f.errors[..|st.errors|] == f.errors[..|mid.errors|][..|st.errors|];
    }
    forall k | |st.errors| <= k < |f.errors|
      ensures f.errors[k].where == ""
    {
      if k < |mid.errors| {
        assert f.errors[k] == mid.errors[k];
      }
    }
  }

  /** A completed scan from `st` appends its tokens, then exactly one EOF
      token with an empty lexeme, no literal and the final line; no EOF
      token comes before it. A crashed scan keeps the same shape without
      the EOF token. */
  ghost predicate Shaped(src: string, st: ScanState, r: ScanResult)
  {
    match r
    case Completed(f) =>
      && |f.tokens| > |st.tokens|
      && f.tokens[|f.tokens| - 1] == Token(Eof, "", Value.Nil, f.line)
      && Grows(src, st, f, |f.tokens| - 1)
    case Crashed(f) => Grows(src, st, f, |f.tokens|)
  }

  lemma ShapedStep(src: string, st: ScanState, next: ScanState, r: ScanResult)
    requires Step(src, st, next)
    requires Shaped(src, next, r)
    ensures Shaped(src, st, r)
  {
    match r
    case Completed(f) => GrowsStep(src, st, next, f, |f.tokens| - 1);
    case Crashed(f) => GrowsStep(src, st, next, f, |f.tokens|);
  }

  lemma {:induction false} ScanFromShape(src: string, parse: string -> Number, st: ScanState)
    requires st.current <= |src|
    ensures Shaped(src, st, ScanFrom(src, parse, st))
    decreases |src| - st.current
  {
    if st.current >= |src| {
      var f := ScanFrom(src, parse, st).state;
      assert f.tokens[..|st.tokens|] == st.tokens;
    } else {
      match ScanToken(src, parse, st)
      case OutOfRange =>
        assert ScanFrom(src, parse, st).state == st;
      case Lexed(next) =>
        ScanFromShape(src, parse, next);
        ShapedStep(src, st, next, ScanFrom(src, parse, next));
    }
  }

  /** `ScanTokens`: the list ends with exactly one EOF token on the final
      line, every other token's lexeme is a slice of the source and lines
      never decrease; the diagnostics it reports follow what the reporter
      held before, each with an empty where. */
  lemma ScanShape(src: string, parse: string -> Number, log: seq<LoxError>)
    ensures Scan(src, parse, log).Completed? ==>
      var f := Scan(src, parse, log).state;
      var toks := f.tokens;
      && |toks| >= 1
      && toks[|toks| - 1] == Token(Eof, "", Value.Nil, f.line)
      && (forall k :: 0 <= k < |toks| - 1 ==> toks[k].tokenType != Eof && SliceFrom(src, 0, toks[k].lexeme))
      && (forall i, j :: 0 <= i < j < |toks| ==> toks[i].line <= toks[j].line)
      && |log| <= |f.errors| && f.errors[..|log|] == log
      && (forall k :: |log| <= k < |f.errors| ==> f.errors[k].where == "")
  {
    var st := ScanState(0, 0, [], log);
    ScanFromShape(src, parse, st);
    var r := Scan(src, parse, log);
    if r.Completed? {
      ShapeFromStart(src, log, r.state);
    }
  }

  /** What `Shaped` says of a scan that started at the beginning. */
  lemma ShapeFromStart(src: string, log: seq<LoxError>, f: ScanState)
    requires Shaped(src, ScanState(0, 0, [], log), Completed(f))
    ensures var toks := f.tokens;
      && |toks| >= 1
      && toks[|toks| - 1] == Token(Eof, "", Value.Nil, f.line)
      && (forall k :: 0 <= k < |toks| - 1 ==> toks[k].tokenType != Eof && SliceFrom(src, 0, toks[k].lexeme))
      && (forall i, j :: 0 <= i < j < |toks| ==> toks[i].line <= toks[j].line)
      && |log| <= |f.errors| && f.errors[..|log|] == log
      && (forall k :: |log| <= k < |f.errors| ==> f.errors[k].where == "")
  {
  }

  // The branch a step takes, selected by its first character.

  lemma AtSlash(src: string, parse: string -> Number, st: ScanState)
    requires st.current < |src| && src[st.current] == '/'
    ensures ScanToken(src, parse, st) == SlashOrComment(src, st.current, st.(current := st.current + 1))
  {
    assert Classify(src[st.current]) == SlashBranch;
    StepSlash(src, parse, st);
  }

  lemma AtQuote(src: string, parse: string -> Number, st: ScanState)
    requires st.current < |src| && src[st.current] == '"'
    ensures ScanToken(src, parse, st) == Lexed(StringLiteral(src, st.current, st.(current := st.current + 1)))
  {
    assert Classify(src[st.current]) == Quote;
    StepQuote(src, parse, st);
  }

  lemma AtDigit(src: string, parse: string -> Number, st: ScanState)
    requires st.current < |src| && IsDigit(src[st.current])
    ensures ScanToken(src, parse, st) == Lexed(NumberLiteral(src, parse, st.current, st.(current := st.current + 1)))
  {
    assert Classify(src[st.current]) == DigitBranch;
    StepDigit(src, parse, st);
  }

  lemma AtAlpha(src: string, parse: string -> Number, st: ScanState)
    requires st.current < |src| && IsAlpha(src[st.current])
    ensures ScanToken(src, parse, st) == Lexed(IdentifierToken(src, st.current, st.(current := st.current + 1)))
  {
    ClassesDisjoint(src[st.current]);
    assert Classify(src[st.current]) == AlphaBranch;
    StepAlpha(src, parse, st);
  }

  lemma NotAtSlash(src: string, parse: string -> Number, st: ScanState)
    requires st.current < |src| && src[st.current] != '/'
    ensures ScanToken(src, parse, st).Lexed?
  {
    assert Classify(src[st.current]) != SlashBranch;
  }

  lemma ScanFromStep(src: string, parse: string -> Number, st: ScanState, next: ScanState)
    requires st.current < |src| && ScanToken(src, parse, st) == Lexed(next)
    ensures ScanFrom(src, parse, st) == ScanFrom(src, parse, next)
  {
  }

  lemma ScanFromEnd(src: string, parse: string -> Number, st: ScanState)
    requires st.current == |src|
    ensures ScanFrom(src, parse, st) == Completed(st.(tokens := st.tokens + [Token(Eof, "", Value.Nil, st.line)]))
  {
  }

  /** In the `/` branch a step fails exactly when the block-comment loop
      runs off the end. */
  lemma SlashCrashes(src: string, i: nat, s: ScanState)
    requires i + 1 == s.current <= |src| && src[i] == '/'
    ensures SlashOrComment(src, i, s).OutOfRange? <==>
      i + 1 < |src| && src[i + 1] == '*' && BlockCommentStop(src, i + 2).None?
  {
  }

  lemma SlashStepCrashes(src: string, parse: string -> Number, st: ScanState)
    requires st.current < |src| && src[st.current] == '/'
    ensures ScanToken(src, parse, st).OutOfRange? <==>
      st.current + 1 < |src| && src[st.current + 1] == '*' && BlockCommentStop(src, st.current + 2).None?
  {
    AtSlash(src, parse, st);
    SlashCrashes(src, st.current, st.(current := st.current + 1));
  }

  /** The only way a single step fails: an opening slash-star whose skip
      loop finds no `*` and no character followed by `/` before the end of
      the input. */
  lemma StepCrashes(src: string, parse: string -> Number, st: ScanState)
    requires st.current < |src|
    ensures ScanToken(src, parse, st).OutOfRange? <==>
      && src[st.current] == '/'
      && st.current + 1 < |src| && src[st.current + 1] == '*'
      && BlockCommentStop(src, st.current + 2).None?
  {
    if src[st.current] == '/' {
      SlashStepCrashes(src, parse, st);
    } else {
      NotAtSlash(src, parse, st);
    }
  }

  /** A source without an opening slash-star (the characters `/` and `*`
      next to each other) is always scanned to the end. */
  lemma {:induction false} NoBlockCommentCompletes(src: string, parse: string -> Number, st: ScanState)
    requires st.current <= |src|
    requires forall i :: 0 <= i < |src| - 1 ==> !(src[i] == '/' && src[i + 1] == '*')
    ensures ScanFrom(src, parse, st).Completed?
    decreases |src| - st.current
  {
    if st.current < |src| {
      StepCrashes(src, parse, st);
      match ScanToken(src, parse, st)
      case Lexed(next) =>
        ScanFromStep(src, parse, st, next);
        NoBlockCommentCompletes(src, parse, next);
    }
  }

  /** An opening slash-star alone, or followed by text with no `*` and no
      `/`, makes `Advance` index past the end of the string. */
  lemma UnterminatedBlockCommentCrashes(parse: string -> Number, log: seq<LoxError>)
    ensures Scan("/*", parse, log) == Crashed(ScanState(0, 0, [], log))
    ensures Scan("/* abc", parse, log) == Crashed(ScanState(0, 0, [], log))
  {
    var st := ScanState(0, 0, [], log);
    assert BlockCommentStop("/*", 2) == None;
    StepCrashes("/*", parse, st);
    var s := "/* abc";
    assert BlockCommentStop(s, 2) == None by {
      assert BlockCommentStop(s, 6) == None;
      assert BlockCommentStop(s, 5) == None;
      assert BlockCommentStop(s, 4) == None;
      assert BlockCommentStop(s, 3) == None;
    }
    StepCrashes(s, parse, st);
  }

  /** Each of `!`, `=`, `<`, `>`: with `=` after it the two-character token,
      otherwise the one-character token. */
  lemma OperatorTokens(src: string, parse: string -> Number, st: ScanState)
    requires st.current < |src| && src[st.current] in "!=<>"
    ensures var i := st.current;
      var c := src[i];
      var two := if c == '!' then BangEqual else if c == '=' then EqualEqual else if c == '<' then LessEqual else GreaterEqual;
      var one := if c == '!' then Bang else if c == '=' then Equal else if c == '<' then Less else Greater;
      ScanToken(src, parse, st) ==
        if i + 1 < |src| && src[i + 1] == '=' then
          Lexed(st.(current := i + 2, tokens := st.tokens + [Token(two, src[i..i + 2], Value.Nil, st.line)]))
        else
          Lexed(st.(current := i + 1, tokens := st.tokens + [Token(one, src[i..i + 1], Value.Nil, st.line)]))
  {
    var c := src[st.current];
    if c == '!' {
      assert Classify(c) == TwoChar(BangEqual, Bang);
    } else if c == '=' {
      assert Classify(c) == TwoChar(EqualEqual, Equal);
    } else if c == '<' {
      assert Classify(c) == TwoChar(LessEqual, Less);
    } else {
      assert Classify(c) == TwoChar(GreaterEqual, Greater);
    }
    StepTwoChar(src, parse, st);
  }

  /** `//` skips up to, not past, the next newline (or to the end) and
      emits nothing. */
  lemma LineComment(src: string, parse: string -> Number, st: ScanState)
    requires st.current + 1 < |src| && src[st.current] == '/' && src[st.current + 1] == '/'
    ensures ScanToken(src, parse, st).Lexed?
    ensures var r := ScanToken(src, parse, st).state;
      && r.tokens == st.tokens && r.errors == st.errors && r.line == st.line
      && (r.current == |src| || src[r.current] == '\n')
      && forall k :: st.current + 2 <= k < r.current ==> src[k] != '\n'
  {
    AtSlash(src, parse, st);
  }

  /** In the `/` branch, an opening slash-star emits nothing, and reports
      "Expected close of block comment." unless the skip loop stops exactly
      at a closing star-slash (`AtSlash` selects this branch). */
  lemma SlashBlockComment(src: string, i: nat, st: ScanState)
    requires i + 1 == st.current && i + 1 < |src| && src[i] == '/' && src[i + 1] == '*'
    requires BlockCommentStop(src, i + 2).Some?
    ensures var j := BlockCommentStop(src, i + 2).value;
      var closed := src[j] == '*' && j + 1 < |src| && src[j + 1] == '/';
      var r := SlashOrComment(src, i, st);
      && r.Lexed?
      && r.state.tokens == st.tokens && r.state.line == st.line
      && (closed ==> r.state.errors == st.errors && r.state.current == j + 2)
      && (!closed ==> r.state.errors == st.errors + [LoxError(st.line, "", "Expected close of block comment.")])
  {
  }

  lemma FirstQuoteFrom(src: string, i: nat, j: nat)
    requires i <= j <= |src|
    requires j == |src| || src[j] == '"'
    requires forall k :: i <= k < j ==> src[k] != '"'
    ensures FirstFrom(src, i, '"') == j
    decreases j - i
  {
  }

  lemma StringLiteralTo(src: string, start: nat, st: ScanState, j: nat)
    requires start + 1 == st.current <= j < |src| && src[j] == '"'
    requires forall k :: st.current <= k < j ==> src[k] != '"'
    ensures var line := st.line + Newlines(src[st.current..j]);
      StringLiteral(src, start, st) ==
        ScanState(j + 1, line, st.tokens + [Token(StringLit, src[start..j + 1], Str(src[st.current..j]), line)], st.errors)
  {
    FirstQuoteFrom(src, st.current, j);
  }

  /** A terminated string: the lexeme runs from quote to quote, the literal
      drops the two quotes, and the line advances by the newlines inside. */
  lemma StringToken(src: string, parse: string -> Number, st: ScanState, j: nat)
    requires st.current < j < |src| && src[st.current] == '"' && src[j] == '"'
    requires forall k :: st.current < k < j ==> src[k] != '"'
    ensures var line := st.line + Newlines(src[st.current + 1..j]);
      ScanToken(src, parse, st) ==
        Lexed(ScanState(j + 1, line, st.tokens + [Token(StringLit, src[st.current..j + 1], Str(src[st.current + 1..j]), line)], st.errors))
  {
    var next := st.(current := st.current + 1);
    AtQuote(src, parse, st);
    assert forall k :: next.current <= k < j ==> src[k] != '"';
    StringLiteralTo(src, st.current, next, j);
    assert next.line == st.line && next.tokens == st.tokens && next.errors == st.errors;
  }

  /** A string with no closing quote: one "Unterminated string." on the
      line reached at the end, and no token. */
  lemma UnterminatedString(src: string, parse: string -> Number, st: ScanState)
    requires st.current < |src| && src[st.current] == '"'
    requires forall k :: st.current < k < |src| ==> src[k] != '"'
    ensures var line := st.line + Newlines(src[st.current + 1..]);
      ScanToken(src, parse, st) ==
        Lexed(ScanState(|src|, line, st.tokens, st.errors + [LoxError(line, "", "Unterminated string.")]))
  {
    AtQuote(src, parse, st);
    FirstQuoteFrom(src, st.current + 1, |src|);
    assert src[st.current + 1..|src|] == src[st.current + 1..];
  }

  /** The newline count of a concatenation is the sum of the counts. */
  lemma {:induction false} NewlinesAppend(a: string, b: string)
    ensures Newlines(a + b) == Newlines(a) + Newlines(b)
    decreases |b|
  {
    if b != [] {
      assert (a + b)[..|a + b| - 1] == a + b[..|b| - 1];
      NewlinesAppend(a, b[..|b| - 1]);
    } else {
      assert a + b == a;
    }
  }

  /** A newline inside a string increments the line once. */
  lemma NewlineInString(parse: string -> Number, log: seq<LoxError>)
    ensures ScanToken("\"a\nb\"", parse, ScanState(0, 0, [], log)) ==
      Lexed(ScanState(5, 1, [Token(StringLit, "\"a\nb\"", Str("a\nb"), 1)], log))
  {
    var src := "\"a\nb\"";
    StringToken(src, parse, ScanState(0, 0, [], log), 4);
    assert src[1..4] == "a\nb";
    assert src[0..5] == src;
    assert Newlines("a\nb") == 1 by {
      NewlinesAppend("a\n", "b");
      NewlinesAppend("a", "\n");
      assert "a\n" + "b" == "a\nb";
      assert "a" + "\n" == "a\n";
      assert "a"[..0] == "";
      assert "\n"[..0] == "";
      assert "b"[..0] == "";
    }
  }

  /** A number is a maximal run of digits, with a fractional part only
      when `.` is followed by a digit; the literal is the parse of the
      lexeme. */
  lemma NumberToken(src: string, parse: string -> Number, st: ScanState)
    requires st.current < |src| && IsDigit(src[st.current])
    ensures var e := NumberEnd(src, st.current + 1);
      && ScanToken(src, parse, st) ==
         Lexed(st.(current := e, tokens := st.tokens + [Token(NumberLit, src[st.current..e], Num(parse(src[st.current..e])), st.line)]))
      && NumberRest(src, st.current, e)
  {
    AtDigit(src, parse, st);
    var e := NumberEnd(src, st.current + 1);
    if exists m :: st.current + 1 <= m && m + 1 < e && src[m] == '.' && forall k :: st.current + 1 <= k < e && k != m ==> IsDigit(src[k]) {
      var m :| st.current + 1 <= m && m + 1 < e && src[m] == '.' && forall k :: st.current + 1 <= k < e && k != m ==> IsDigit(src[k]);
      assert forall k :: st.current <= k < e && k != m ==> IsDigit(src[k]);
    }
  }

  /** A digit run that ends where no digit follows is the run `DigitsEnd`
      finds. */
  lemma DigitsEndAt(src: string, i: nat, j: nat)
    requires i <= j <= |src|
    requires forall k :: i <= k < j ==> IsDigit(src[k])
    requires !IsDigit(PeekAt(src, j))
    ensures DigitsEnd(src, i) == j
  {
  }

  /** `NumberRest` pins the end of a number down: the only end it allows is
      the one `NumberEnd` computes. */
  lemma NumberRestExact(src: string, i: nat, j: nat)
    requires i <= j <= |src| && NumberRest(src, i, j)
    ensures j == NumberEnd(src, i)
  {
    if exists m :: i <= m && m + 1 < j && src[m] == '.' && forall k :: i <= k < j && k != m ==> IsDigit(src[k]) {
      var m :| i <= m && m + 1 < j && src[m] == '.' && forall k :: i <= k < j && k != m ==> IsDigit(src[k]);
      DigitsEndAt(src, i, m);
      DigitsEndAt(src, m + 1, j);
    } else {
      DigitsEndAt(src, i, j);
    }
  }

  /** In `1.5` the number takes the fraction; in `1.2.3` it stops before the
      second `.`. */
  lemma NumberEndExamples()
    ensures NumberEnd("1.5", 1) == 3
    ensures NumberEnd("1.2.3", 1) == 3
  {
    var a, b := "1.5", "1.2.3";
    assert a[1] == '.' && IsDigit(a[2]) && PeekAt(a, 3) == '\0';
    assert NumberRest(a, 1, 3);
    NumberRestExact(a, 1, 3);
    assert b[1] == '.' && IsDigit(b[2]) && PeekAt(b, 3) == '.';
    assert NumberRest(b, 1, 3);
    NumberRestExact(b, 1, 3);
  }

  /** `1.` is the number `1` followed by a separate DOT token. */
  lemma TrailingDot(parse: string -> Number, log: seq<LoxError>)
    ensures Scan("1.", parse, log) == Completed(ScanState(2, 0,
      [Token(NumberLit, "1", Num(parse("1")), 0), Token(Dot, ".", Value.Nil, 0), Token(Eof, "", Value.Nil, 0)], log))
  {
    var src := "1.";
    var st0 := ScanState(0, 0, [], log);
    var st1 := ScanState(1, 0, [Token(NumberLit, "1", Num(parse("1")), 0)], log);
    var st2 := ScanState(2, 0, st1.tokens + [Token(Dot, ".", Value.Nil, 0)], log);
    assert NumberEnd(src, 1) == 1 by {
      assert DigitsEnd(src, 1) == 1;
    }
    assert src[0..1] == "1";
    NumberToken(src, parse, st0);
    ScanFromStep(src, parse, st0, st1);
    assert Classify(src[1]) == Single(Dot);
    StepSingle(src, parse, st1);
    assert src[1..2] == ".";
    ScanFromStep(src, parse, st1, st2);
    ScanFromEnd(src, parse, st2);
  }

  /** An identifier is a maximal alphanumeric run, typed by the keyword
      table. */
  lemma IdentifierTokenShape(src: string, parse: string -> Number, st: ScanState)
    requires st.current < |src| && IsAlpha(src[st.current])
    ensures var e := IdentifierEnd(src, st.current + 1);
      var text := src[st.current..e];
      ScanToken(src, parse, st) ==
        Lexed(st.(current := e, tokens := st.tokens + [Token(KeywordType(text), text, Value.Nil, st.line)]))
  {
    AtAlpha(src, parse, st);
  }


  /** Space, CR and tab emit nothing; `\n` only moves to the next line;
      any other character that starts no lexeme reports "Unexpected
      character." and emits nothing. */
  lemma WhitespaceAndUnknown(src: string, parse: string -> Number, st: ScanState)
    requires st.current < |src|
    ensures src[st.current] in " \r\t" ==> ScanToken(src, parse, st) == Lexed(st.(current := st.current + 1))
    ensures src[st.current] == '\n' ==> ScanToken(src, parse, st) == Lexed(st.(current := st.current + 1, line := st.line + 1))
    ensures src[st.current] !in "(){},.-+;*?:!=<>/ \r\t\n\"" && !IsAlphaNumeric(src[st.current]) ==>
      ScanToken(src, parse, st) == Lexed(st.(current := st.current + 1, errors := st.errors + [LoxError(st.line, "", "Unexpected character.")]))
  {
    var c := src[st.current];
    if c in " \r\t" {
      assert Classify(c) == Blank;
    } else if c == '\n' {
      assert Classify(c) == LineBreak;
    } else if c !in "(){},.-+;*?:!=<>/ \r\t\n\"" && !IsAlphaNumeric(c) {
      assert Classify(c) == Unexpected;
    }
  }

  /** `break` and `continue` scan as identifiers. */
  lemma BreakIsIdentifier(parse: string -> Number, log: seq<LoxError>)
    ensures Scan("break", parse, log) ==
      Completed(ScanState(5, 0, [Token(Identifier, "break", Value.Nil, 0), Token(Eof, "", Value.Nil, 0)], log))
  {
    var src := "break";
    var st0 := ScanState(0, 0, [], log);
    var st1 := ScanState(5, 0, [Token(Identifier, "break", Value.Nil, 0)], log);
    assert IdentifierEnd(src, 1) == 5 by {
      assert IdentifierEnd(src, 5) == 5;
      assert IdentifierEnd(src, 4) == 5;
      assert IdentifierEnd(src, 3) == 5;
      assert IdentifierEnd(src, 2) == 5;
    }
    assert src[0..5] == src;
    KeywordTableContents();
    IdentifierTokenShape(src, parse, st0);
    ScanFromStep(src, parse, st0, st1);
    ScanFromEnd(src, parse, st1);
  }

  /** Corrected skip of a block comment: the position right after the first
      closing star-slash at or after `i`, or the end of the input when there is none. */
  function BlockCommentEnd(src: string, i: nat): (j: nat)
    requires i <= |src|
    ensures i <= j <= |src|
    decreases |src| - i
  {
    if i + 1 < |src| && src[i] == '*' && src[i + 1] == '/' then i + 2
    else if i >= |src| then |src|
    else BlockCommentEnd(src, i + 1)
  }

  /** The corrected skip never indexes past the end, and either stops right
      after the first closing star-slash or reaches the end with none in
      between. */
  lemma {:induction false} BlockCommentEndCorrect(src: string, i: nat)
    requires i <= |src|
    ensures var j := BlockCommentEnd(src, i);
      && (forall k :: i <= k < j - 2 ==> !(src[k] == '*' && src[k + 1] == '/'))
      && ((i + 2 <= j && src[j - 2] == '*' && src[j - 1] == '/') ||
          (j == |src| && forall k :: i <= k < |src| - 1 ==> !(src[k] == '*' && src[k + 1] == '/')))
    decreases |src| - i
  {
    if i + 1 < |src| && src[i] == '*' && src[i + 1] == '/' {
    } else if i >= |src| {
    } else {
      BlockCommentEndCorrect(src, i + 1);
    }
  }

  const EarlyStopSource: string := "/* a*b */"

  const EarlyStopError: LoxError := LoxError(0, "", "Expected close of block comment.")

  /** The comment is closed early after `a*` and reported. */
  lemma EarlyStopComment(parse: string -> Number, log: seq<LoxError>)
    ensures ScanToken(EarlyStopSource, parse, ScanState(0, 0, [], log)) ==
      Lexed(ScanState(5, 0, [], log + [EarlyStopError]))
  {
    var src := EarlyStopSource;
    var st0 := ScanState(0, 0, [], log);
    assert BlockCommentStop(src, 2) == Some(4) by {
      assert BlockCommentStop(src, 4) == Some(4);
      assert BlockCommentStop(src, 3) == Some(4);
    }
    AtSlash(src, parse, st0);
    SlashBlockComment(src, 0, st0.(current := 1));
  }

  /** Then `b` scans as an identifier. */
  lemma EarlyStopHead(parse: string -> Number, log: seq<LoxError>)
    ensures ScanFrom(EarlyStopSource, parse, ScanState(0, 0, [], log)) ==
      ScanFrom(EarlyStopSource, parse, ScanState(6, 0, [Token(Identifier, "b", Value.Nil, 0)], log + [EarlyStopError]))
  {
    var src := EarlyStopSource;
    var errs := log + [EarlyStopError];
    var st0 := ScanState(0, 0, [], log);
    var st1 := ScanState(5, 0, [], errs);
    var st2 := ScanState(6, 0, [Token(Identifier, "b", Value.Nil, 0)], errs);
    EarlyStopComment(parse, log);
    ScanFromStep(src, parse, st0, st1);
    assert IdentifierEnd(src, 6) == 6;
    assert src[5..6] == "b";
    KeywordTableContents();
    IdentifierTokenShape(src, parse, st1);
    ScanFromStep(src, parse, st1, st2);
  }

  /** The buffer once `b` is scanned, and once `*` is scanned after it. */
  const EarlyStopB: seq<Token> := [Token(Identifier, "b", Value.Nil, 0)]
  const EarlyStopBStar: seq<Token> := EarlyStopB + [Token(Star, "*", Value.Nil, 0)]

  lemma EarlyStopBlank(parse: string -> Number, errs: seq<LoxError>)
    ensures ScanToken(EarlyStopSource, parse, ScanState(6, 0, EarlyStopB, errs)) == Lexed(ScanState(7, 0, EarlyStopB, errs))
  {
    WhitespaceAndUnknown(EarlyStopSource, parse, ScanState(6, 0, EarlyStopB, errs));
  }
  lemma EarlyStopStar(parse: string -> Number, errs: seq<LoxError>)
    ensures ScanToken(EarlyStopSource, parse, ScanState(7, 0, EarlyStopB, errs)) == Lexed(ScanState(8, 0, EarlyStopBStar, errs))
  {
    var src := EarlyStopSource;
    assert Classify(src[7]) == Single(Star);
    StepSingle(src, parse, ScanState(7, 0, EarlyStopB, errs));
    assert src[7..8] == "*";
  }
  lemma EarlyStopSlash(parse: string -> Number, errs: seq<LoxError>)
    ensures ScanToken(EarlyStopSource, parse, ScanState(8, 0, EarlyStopBStar, errs)) ==
      Lexed(ScanState(9, 0, EarlyStopBStar + [Token(Slash, "/", Value.Nil, 0)], errs))
  {
    var src := EarlyStopSource;
    AtSlash(src, parse, ScanState(8, 0, EarlyStopBStar, errs));
    assert src[8..9] == "/";
  }
  /** The rest, a blank then `*` and `/`, scans as STAR and SLASH. */
  lemma EarlyStopTail(parse: string -> Number, errs: seq<LoxError>)
    ensures ScanFrom(EarlyStopSource, parse, ScanState(6, 0, [Token(Identifier, "b", Value.Nil, 0)], errs)) ==
      Completed(ScanState(9, 0, [Token(Identifier, "b", Value.Nil, 0), Token(Star, "*", Value.Nil, 0),
        Token(Slash, "/", Value.Nil, 0), Token(Eof, "", Value.Nil, 0)], errs))
  {
    var src := EarlyStopSource;
    var st2 := ScanState(6, 0, EarlyStopB, errs);
    var st3 := ScanState(7, 0, EarlyStopB, errs);
    var st4 := ScanState(8, 0, EarlyStopBStar, errs);
    var st5 := ScanState(9, 0, EarlyStopBStar + [Token(Slash, "/", Value.Nil, 0)], errs);
    EarlyStopBlank(parse, errs);
    ScanFromStep(src, parse, st2, st3);
    EarlyStopStar(parse, errs);
    ScanFromStep(src, parse, st3, st4);
    EarlyStopSlash(parse, errs);
    ScanFromStep(src, parse, st4, st5);
    ScanFromEnd(src, parse, st5);
  }
  lemma EarlyStopInBlockComment(parse: string -> Number, log: seq<LoxError>)
    ensures Scan(EarlyStopSource, parse, log) == Completed(ScanState(9, 0,
      [Token(Identifier, "b", Value.Nil, 0), Token(Star, "*", Value.Nil, 0), Token(Slash, "/", Value.Nil, 0), Token(Eof, "", Value.Nil, 0)],
      log + [EarlyStopError]))
    ensures BlockCommentEnd(EarlyStopSource, 2) == |EarlyStopSource|
  {
    var src := EarlyStopSource;
    EarlyStopHead(parse, log);
    EarlyStopTail(parse, log + [EarlyStopError]);
    assert BlockCommentEnd(src, 7) == 9;
    assert BlockCommentEnd(src, 4) == 9 by {
      assert BlockCommentEnd(src, 6) == 9;
      assert BlockCommentEnd(src, 5) == 9;
    }
    assert BlockCommentEnd(src, 2) == 9 by {
      assert BlockCommentEnd(src, 3) == 9;
    }
  }
}
