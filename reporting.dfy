/** Diagnostics: the `LoxError` record (src/Lox/Reporting/LoxError.cs), the
    where-selection of the default `Error` methods of `IErrorReporter`
    (src/Lox/Reporting/IErrorReporter.cs), and a reporter that keeps a log,
    as the test reporter of the repository does. */
module Reporting {
  import opened Tokens
  import Chars

  datatype LoxError = LoxError(line: int, where: string, message: string)

  /** A runtime exception: the offending token and the message. */
  datatype RuntimeError = RuntimeError(token: Token, message: string)

  /** Decimal text of an integer, as string interpolation writes it. */
  function NatToString(n: nat): (s: string)
    ensures |s| > 0 && forall i :: 0 <= i < |s| ==> Chars.IsDigit(s[i])
  {
    if n < 10 then [Digit(n)] else NatToString(n / 10) + [Digit(n % 10)]
  }

  function Digit(d: nat): char
    requires d < 10
  {
    ['0', '1', '2', '3', '4', '5', '6', '7', '8', '9'][d]
  }

  function IntToString(n: int): string
  {
    if n < 0 then "-" + NatToString(-n) else NatToString(n)
  }

  /** Reads back a run of decimal digits. */
  function ParseNat(s: string): nat
    requires forall i :: 0 <= i < |s| ==> Chars.IsDigit(s[i])
  {
    if s == [] then 0
    else
      var d := s[|s| - 1];
      assert Chars.IsDigit(d);
      10 * ParseNat(s[..|s| - 1]) + (d as int - '0' as int)
  }

  lemma {:induction false} NatToStringRoundTrip(n: nat)
    ensures ParseNat(NatToString(n)) == n
  {
    var s := NatToString(n);
    if n >= 10 {
      NatToStringRoundTrip(n / 10);
      assert s[..|s| - 1] == NatToString(n / 10);
    }
  }

  /** The text up to the first `]`. */
  function UpToBracket(s: string): string
  {
    if s == [] || s[0] == ']' then [] else [s[0]] + UpToBracket(s[1..])
  }

  lemma {:induction false} UpToBracketDigits(d: string, rest: string)
    requires forall i :: 0 <= i < |d| ==> Chars.IsDigit(d[i])
    ensures UpToBracket(d + "]" + rest) == d
  {
    if d != [] {
      assert (d + "]" + rest)[1..] == d[1..] + "]" + rest;
      UpToBracketDigits(d[1..], rest);
    }
  }

  /** `LoxError.ToString()`: `"[line {Line}] Error{Where}: {Message}"`. */
  function ErrorText(e: LoxError): string
  {
    "[line " + IntToString(e.line) + "] Error" + e.where + ": " + e.message
  }

  /** The line number can be read back from the text of a diagnostic. */
  lemma ErrorTextLine(e: LoxError)
    requires e.line >= 0
    ensures |ErrorText(e)| > 6 && ErrorText(e)[..6] == "[line "
    ensures UpToBracket(ErrorText(e)[6..]) == NatToString(e.line)
    ensures ParseNat(UpToBracket(ErrorText(e)[6..])) == e.line
  {
    var d := NatToString(e.line);
    var rest := " Error" + e.where + ": " + e.message;
    assert ErrorText(e) == "[line " + (d + "]" + rest);
    assert ErrorText(e)[6..] == d + "]" + rest;
    UpToBracketDigits(d, rest);
    NatToStringRoundTrip(e.line);
  }

  /** With an empty where the text is `[line N] Error: msg`; a where such as
      " at end" is inserted verbatim right after "Error". */
  lemma ErrorTextShape(e: LoxError)
    ensures e.where == "" ==> ErrorText(e) == "[line " + IntToString(e.line) + "] Error: " + e.message
    ensures e.where == " at end" ==> ErrorText(e) == "[line " + IntToString(e.line) + "] Error at end: " + e.message
  {
  }

  /** Where-selection of `Error(Token, message)`: " at end" for the end of
      input, " at '<lexeme>'" otherwise. */
  function Where(token: Token): (w: string)
    ensures w == " at end" <==> token.tokenType == Eof
    ensures token.tokenType != Eof ==> |w| == |token.lexeme| + 6 && w[5..|w| - 1] == token.lexeme
    ensures token.tokenType != Eof ==> w[..5] == " at '" && w[|w| - 1] == '\''
  {
    if token.tokenType == Eof then " at end"
    else
      var w := " at '" + token.lexeme + "'";
      assert w[|w| - 1] == '\'' != " at end"[6];
      w
  }

  /** The single report that `Error(token, message)` makes. */
  function TokenDiagnostic(token: Token, message: string): (e: LoxError)
    ensures e.line == token.line && e.message == message
    ensures e.where == " at end" <==> token.tokenType == Eof
  {
    LoxError(token.line, Where(token), message)
  }

  /** The text a user sees for a report made at a token: "at end" for the
      end of input, otherwise the lexeme between single quotes. */
  lemma TokenErrorText(token: Token, message: string)
    ensures token.tokenType == Eof ==>
      ErrorText(TokenDiagnostic(token, message)) == "[line " + IntToString(token.line) + "] Error at end: " + message
    ensures token.tokenType != Eof ==>
      ErrorText(TokenDiagnostic(token, message)) == "[line " + IntToString(token.line) + "] Error at '" + token.lexeme + "': " + message
  {
  }

  /** The single report that `Error(line, message)` makes: an empty where. */
  function LineDiagnostic(line: int, message: string): (e: LoxError)
    ensures e.line == line && e.where == "" && e.message == message
  {
    LoxError(line, "", message)
  }

  /** A reporter that logs what it is told, with the default `Error`
      methods of the reporter interface. */
  class ErrorReporter {
    var errors: seq<LoxError>
    var runtimeErrors: seq<RuntimeError>

    constructor ()
      ensures errors == [] && runtimeErrors == []
    {
      errors := [];
      runtimeErrors := [];
    }

    function HadError(): (r: bool)
      reads this
      ensures r <==> errors != []
    {
      |errors| > 0
    }

    function HadRuntimeError(): (r: bool)
      reads this
      ensures r <==> runtimeErrors != []
    {
      |runtimeErrors| > 0
    }

    method Report(line: int, where: string, message: string)
      modifies this
      ensures errors == old(errors) + [LoxError(line, where, message)]
      ensures runtimeErrors == old(runtimeErrors)
    {
      errors := errors + [LoxError(line, where, message)];
    }

    /** `Error(Token, message)`: exactly one report, located at the token. */
    method ErrorAt(token: Token, message: string)
      modifies this
      ensures errors == old(errors) + [TokenDiagnostic(token, message)]
      ensures runtimeErrors == old(runtimeErrors)
    {
      if token.tokenType == Eof {
        Report(token.line, " at end", message);
      } else {
        Report(token.line, " at '" + token.lexeme + "'", message);
      }
    }

    /** `Error(int, message)`: exactly one report, with an empty where. */
    method ErrorOnLine(line: int, message: string)
      modifies this
      ensures errors == old(errors) + [LineDiagnostic(line, message)]
      ensures runtimeErrors == old(runtimeErrors)
    {
      Report(line, "", message);
    }

    method RuntimeErrorReported(error: RuntimeError)
      modifies this
      ensures runtimeErrors == old(runtimeErrors) + [error]
      ensures errors == old(errors)
    {
      runtimeErrors := runtimeErrors + [error];
    }

    method ResetErrorFlags()
      modifies this
      ensures errors == [] && runtimeErrors == []
      ensures !HadError() && !HadRuntimeError()
    {
      errors := [];
      runtimeErrors := [];
    }
  }
}
