/** The imperative scanner: the cursor of src/Lox/Scanning/ScannerCursor.cs
    and the scanner of src/Lox/Scanning/Scanner.cs, each method proved to
    compute what ScanSpec says. */
module Scanning {
  import opened Wrappers
  import opened Values
  import opened Chars
  import opened Tokens
  import opened Reporting
  import opened ScanSpec

  /** A cursor over the source: the lexeme being scanned is
      `source[start..current)`, and `line` counts the newlines seen. */
  class ScannerCursor {
    var start: nat
    var current: nat
    var line: nat
    var source: string

    ghost predicate Valid()
      reads this
    {
      start <= current <= |source|
    }

    constructor ()
      ensures Valid() && start == 0 && current == 0 && line == 0 && source == ""
    {
      start, current, line, source := 0, 0, 0, "";
    }

    function IsAtEnd(): (r: bool)
      reads this
      ensures r <==> current >= |source|
    {
      current >= |source|
    }

    function CurrentText(): (s: string)
      reads this
      requires Valid()
      ensures |s| == current - start
      ensures forall k :: 0 <= k < |s| ==> s[k] == source[start + k]
    {
      source[start..current]
    }

    /** The character under the cursor, or NUL at the end. */
    function Peek(): (c: char)
      reads this
      ensures c == PeekAt(source, current)
      ensures current < |source| ==> c == source[current]
    {
      if IsAtEnd() then '\0' else source[current]
    }

    /** The character after it, or NUL when there is none. */
    function PeekNext(): (c: char)
      reads this
      ensures c == PeekNextAt(source, current)
      ensures current + 1 < |source| ==> c == source[current + 1]
    {
      if current + 1 >= |source| then '\0' else source[current + 1]
    }

    method ResetCursor(src: string)
      modifies this
      ensures Valid()
      ensures start == 0 && current == 0 && line == 0 && source == src
    {
      start, current, line, source := 0, 0, 0, src;
    }

    method BeginLexeme()
      modifies this
      requires Valid()
      ensures Valid()
      ensures start == old(current) && current == old(current)
      ensures line == old(line) && source == old(source)
    {
      start := current;
    }

    method NewLine()
      modifies this
      requires Valid()
      ensures Valid()
      ensures line == old(line) + 1
      ensures start == old(start) && current == old(current) && source == old(source)
    {
      line := line + 1;
    }

    /** Indexing past the end throws in the source; here the caller must
        show there is a character left. */
    method Advance() returns (c: char)
      modifies this
      requires Valid() && current < |source|
      ensures Valid()
      ensures c == old(source[current]) && current == old(current) + 1
      ensures start == old(start) && line == old(line) && source == old(source)
    {
      c := source[current];
      current := current + 1;
    }

    /** Consumes `expected` if it is the next character. */
    method Match(expected: char) returns (r: bool)
      modifies this
      requires Valid()
      ensures Valid()
      ensures r <==> old(current) < |source| && source[old(current)] == expected
      ensures current == if r then old(current) + 1 else old(current)
      ensures start == old(start) && line == old(line) && source == old(source)
    {
      if IsAtEnd() {
        return false;
      }
      if source[current] != expected {
        return false;
      }
      current := current + 1;
      return true;
    }
  }

  /** The scanner: a cursor, the reporter it reports to, the token buffer,
      and `double.Parse` as the parameter `parse`. */
  class Scanner {
    const cursor: ScannerCursor
    const reporter: ErrorReporter
    const parse: string -> Number
    var tokens: seq<Token>

    ghost predicate Valid()
      reads this, cursor
    {
      cursor.Valid()
    }

    /** The part of the state the functional model tracks. */
    ghost function State(): ScanState
      reads this, cursor, reporter
    {
      ScanState(cursor.current, cursor.line, tokens, reporter.errors)
    }

    constructor (cursor: ScannerCursor, reporter: ErrorReporter, parse: string -> Number)
      requires cursor.Valid()
      ensures Valid() && this.cursor == cursor && this.reporter == reporter && this.parse == parse
      ensures tokens == []
    {
      this.cursor := cursor;
      this.reporter := reporter;
      this.parse := parse;
      tokens := [];
    }

    /** `ScanTokens(source)`: the token list of a completed scan, or None
        where the source would throw because `Advance` ran past the end;
        either way the buffer and the reporter's log are those of `Scan`. */
    method ScanTokens(source: string) returns (r: Option<seq<Token>>)
      modifies this, cursor, reporter
      ensures Valid() && cursor.source == source
      ensures Scan(source, parse, old(reporter.errors)).Completed? ==>
        r == Some(tokens) && State() == Scan(source, parse, old(reporter.errors)).state
      ensures Scan(source, parse, old(reporter.errors)).Crashed? ==>
        r == None
        && tokens == Scan(source, parse, old(reporter.errors)).state.tokens
        && reporter.errors == Scan(source, parse, old(reporter.errors)).state.errors
    {
      cursor.ResetCursor(source);
      tokens := [];
      ghost var init := State();
      while !cursor.IsAtEnd()
        invariant Valid() && cursor.source == source
        invariant ScanFrom(source, parse, State()) == ScanFrom(source, parse, init)
        decreases |source| - cursor.current
      {
        cursor.BeginLexeme();
        var ok := ScanToken();
        if !ok {
          return None;
        }
      }
      tokens := tokens + [Token(Eof, "", Value.Nil, cursor.line)];
      return Some(tokens);
    }

    /** One `ScanToken()`: false stands for the out-of-range exception, and
        then the buffer and the log are as they were. */
    method ScanToken() returns (ok: bool)
      modifies this, cursor, reporter
      requires Valid() && cursor.start == cursor.current < |cursor.source|
      ensures Valid() && cursor.source == old(cursor.source)
      ensures ok ==> ScanSpec.ScanToken(cursor.source, parse, old(State())) == Lexed(State())
      ensures !ok ==> ScanSpec.ScanToken(cursor.source, parse, old(State())) == OutOfRange
      ensures !ok ==> tokens == old(tokens) && reporter.errors == old(reporter.errors)
    {
      ghost var st := State();
      ghost var src := cursor.source;
      var c := cursor.Advance();
      assert c == src[st.current] && State() == st.(current := st.current + 1);
      ok := true;
      match Classify(c)
      case Single(t) =>
        StepSingle(src, parse, st);
        AddToken(t, Value.Nil);
      case TwoChar(two, one) =>
        StepTwoChar(src, parse, st);
        var m := cursor.Match('=');
        AddToken(if m then two else one, Value.Nil);
      case SlashBranch =>
        StepSlash(src, parse, st);
        ok := ScanSlash();
      case Blank =>
        StepBlank(src, parse, st);
      case LineBreak =>
        StepLineBreak(src, parse, st);
        cursor.NewLine();
      case Quote =>
        StepQuote(src, parse, st);
        ScanString();
      case DigitBranch =>
        StepDigit(src, parse, st);
        ScanNumber();
      case AlphaBranch =>
        StepAlpha(src, parse, st);
        ScanIdentifier();
      case Unexpected =>
        StepUnexpected(src, parse, st);
        reporter.ErrorOnLine(cursor.line, "Unexpected character.");
    }

    /** `AddToken(type, literal)`: the lexeme is the current text, the line
        the cursor's. */
    method AddToken(t: TokenType, literal: Value)
      modifies this
      requires Valid()
      ensures tokens == old(tokens) + [Token(t, cursor.source[cursor.start..cursor.current], literal, cursor.line)]
    {
      tokens := tokens + [Token(t, cursor.CurrentText(), literal, cursor.line)];
    }

    /** The `/` case: a line comment, a block comment whose skip loop may
        run off the end (false), or SLASH. */
    method ScanSlash() returns (ok: bool)
      modifies this, cursor, reporter
      requires Valid() && cursor.start + 1 == cursor.current <= |cursor.source|
      ensures Valid() && cursor.source == old(cursor.source)
      ensures ok ==> SlashOrComment(old(cursor.source), old(cursor.start), old(State())) == Lexed(State())
      ensures !ok ==> SlashOrComment(old(cursor.source), old(cursor.start), old(State())) == OutOfRange
      ensures !ok ==> tokens == old(tokens) && reporter.errors == old(reporter.errors)
    {
      var m := cursor.Match('/');
      if m {
        // `//`: skip to the next newline, leaving it for the next step.
        SkipLineComment();
        return true;
      }
      m := cursor.Match('*');
      if m {
        ok := ScanBlockComment();
        return;
      }
      AddToken(Slash, Value.Nil);
      return true;
    }

    /** A block comment after its opening slash-star: the skip loop, then
        the end marker, reported when it is missing. */
    method ScanBlockComment() returns (ok: bool)
      modifies cursor, reporter
      requires Valid() && cursor.start + 2 == cursor.current <= |cursor.source|
      ensures Valid() && cursor.source == old(cursor.source)
      ensures ok ==> BlockComment(old(cursor.source), old(State())) == Lexed(State())
      ensures !ok ==> BlockComment(old(cursor.source), old(State())) == OutOfRange
      ensures tokens == old(tokens)
      ensures !ok ==> reporter.errors == old(reporter.errors)
    {
      ok := SkipBlockComment();
      if !ok {
        return false;
      }
      var star := cursor.Match('*');
      var foundEndMarker := false;
      if star {
        foundEndMarker := cursor.Match('/');
      }
      if !foundEndMarker {
        reporter.ErrorOnLine(cursor.line, "Expected close of block comment.");
      }
      return true;
    }

    /** The line-comment loop: up to the next newline or the end. */
    method SkipLineComment()
      modifies cursor
      requires Valid()
      ensures Valid() && cursor.source == old(cursor.source)
      ensures cursor.current == FirstFrom(cursor.source, old(cursor.current), '\n')
      ensures cursor.start == old(cursor.start) && cursor.line == old(cursor.line)
    {
      ghost var i0 := cursor.current;
      while cursor.Peek() != '\n' && !cursor.IsAtEnd()
        invariant Valid() && cursor.source == old(cursor.source)
        invariant cursor.start == old(cursor.start) && cursor.line == old(cursor.line)
        invariant i0 <= cursor.current <= |cursor.source|
        invariant FirstFrom(cursor.source, cursor.current, '\n') == FirstFrom(cursor.source, i0, '\n')
        decreases |cursor.source| - cursor.current
      {
        var _ := cursor.Advance();
      }
    }

    /** The block-comment loop as written, with no end-of-input test: false
        where `Advance` would index past the end of the source. */
    method SkipBlockComment() returns (ok: bool)
      modifies cursor
      requires Valid()
      ensures Valid() && cursor.source == old(cursor.source)
      ensures ok ==> BlockCommentStop(cursor.source, old(cursor.current)) == Some(cursor.current)
      ensures !ok ==> BlockCommentStop(cursor.source, old(cursor.current)) == None
      ensures cursor.start == old(cursor.start) && cursor.line == old(cursor.line)
    {
      ghost var i0 := cursor.current;
      while cursor.Peek() != '*' && cursor.PeekNext() != '/'
        invariant Valid() && cursor.source == old(cursor.source)
        invariant cursor.start == old(cursor.start) && cursor.line == old(cursor.line)
        invariant i0 <= cursor.current <= |cursor.source|
        invariant BlockCommentStop(cursor.source, cursor.current) == BlockCommentStop(cursor.source, i0)
        decreases |cursor.source| - cursor.current
      {
        if cursor.IsAtEnd() {
          // `Advance` would index past the end of the source here.
          return false;
        }
        var _ := cursor.Advance();
      }
      return true;
    }

    /** `String()`: walks to the closing quote, counting newlines. */
    method ScanString()
      modifies this, cursor, reporter
      requires Valid() && cursor.start + 1 == cursor.current <= |cursor.source|
      ensures Valid() && cursor.source == old(cursor.source)
      ensures State() == StringLiteral(old(cursor.source), old(cursor.start), old(State()))
    {
      ghost var src := cursor.source;
      SkipStringBody();
      if cursor.IsAtEnd() {
        reporter.ErrorOnLine(cursor.line, "Unterminated string.");
        return;
      }
      // Step over the `"` that ends the string.
      var _ := cursor.Advance();
      var text := cursor.CurrentText();
      var value := text[1..|text| - 1];
      assert value == src[cursor.start + 1..cursor.current - 1];
      AddToken(StringLit, Str(value));
    }

    /** The loop of `String()`: up to the closing quote or the end, moving
        the line on at each newline. */
    method SkipStringBody()
      modifies cursor
      requires Valid()
      ensures Valid() && cursor.source == old(cursor.source) && cursor.start == old(cursor.start)
      ensures cursor.current == FirstFrom(cursor.source, old(cursor.current), '"')
      ensures cursor.line == old(cursor.line) + Newlines(cursor.source[old(cursor.current)..cursor.current])
    {
      ghost var src := cursor.source;
      ghost var i0 := cursor.current;
      while cursor.Peek() != '"' && !cursor.IsAtEnd()
        invariant Valid() && cursor.source == src && cursor.start == old(cursor.start)
        invariant i0 <= cursor.current <= |src|
        invariant FirstFrom(src, cursor.current, '"') == FirstFrom(src, i0, '"')
        invariant cursor.line == old(cursor.line) + Newlines(src[i0..cursor.current])
        decreases |src| - cursor.current
      {
        NewlinesStep(src, i0, cursor.current);
        if cursor.Peek() == '\n' {
          cursor.NewLine();
        }
        var _ := cursor.Advance();
      }
    }

    /** `Identifier()`: a maximal alphanumeric run, typed by the keyword
        table. */
    method ScanIdentifier()
      modifies this, cursor
      requires Valid() && cursor.start + 1 == cursor.current <= |cursor.source|
      ensures Valid() && cursor.source == old(cursor.source)
      ensures State() == IdentifierToken(old(cursor.source), old(cursor.start), old(State()))
    {
      ghost var src := cursor.source;
      ghost var i0 := cursor.current;
      while IsAlphaNumeric(cursor.Peek())
        invariant Valid() && cursor.source == src && cursor.start == old(cursor.start)
        invariant i0 <= cursor.current <= |src|
        invariant IdentifierEnd(src, cursor.current) == IdentifierEnd(src, i0)
        invariant tokens == old(tokens) && cursor.line == old(cursor.line)
        decreases |src| - cursor.current
      {
        var _ := cursor.Advance();
      }
      var text := cursor.CurrentText();
      AddToken(KeywordType(text), Value.Nil);
    }

    /** `Number()`: digits, then a fraction only when `.` is followed by a
        digit; the literal is `parse` of the lexeme. */
    method ScanNumber()
      modifies this, cursor
      requires Valid() && cursor.start + 1 == cursor.current <= |cursor.source|
      ensures Valid() && cursor.source == old(cursor.source)
      ensures State() == NumberLiteral(old(cursor.source), parse, old(cursor.start), old(State()))
    {
      SkipDigits();
      // A `.` followed by a digit starts the fraction.
      if cursor.Peek() == '.' && IsDigit(cursor.PeekNext()) {
        // Step over the `.`.
        var _ := cursor.Advance();
        SkipDigits();
      }
      AddToken(NumberLit, Num(parse(cursor.CurrentText())));
    }

    /** A digit loop of `Number()`. */
    method SkipDigits()
      modifies cursor
      requires Valid()
      ensures Valid() && cursor.source == old(cursor.source)
      ensures cursor.current == DigitsEnd(cursor.source, old(cursor.current))
      ensures cursor.start == old(cursor.start) && cursor.line == old(cursor.line)
    {
      ghost var i0 := cursor.current;
      while IsDigit(cursor.Peek())
        invariant Valid() && cursor.source == old(cursor.source)
        invariant cursor.start == old(cursor.start) && cursor.line == old(cursor.line)
        invariant i0 <= cursor.current <= |cursor.source|
        invariant DigitsEnd(cursor.source, cursor.current) == DigitsEnd(cursor.source, i0)
        decreases |cursor.source| - cursor.current
      {
        var _ := cursor.Advance();
      }
    }
  }

  /** One more character walked over inside a string. */
  lemma NewlinesStep(src: string, i: nat, j: nat)
    requires i <= j < |src|
    ensures Newlines(src[i..j + 1]) == Newlines(src[i..j]) + (if src[j] == '\n' then 1 else 0)
  {
    assert src[i..j + 1][..j - i] == src[i..j];
  }
}
