/** Tokens (src/Lox/Token.cs): a type, the lexeme it was scanned from, an
    optional literal value and the line it ended on. */
module Tokens {
  import opened Wrappers
  import opened Values

  datatype TokenType =
    // Single-character tokens.
    | LeftParen | RightParen | LeftBrace | RightBrace
    | Comma | Dot | Minus | Plus | Semicolon | Slash | Star
    | QuestionMark | Colon
    // One or two character tokens.
    | Bang | BangEqual | Equal | EqualEqual
    | Greater | GreaterEqual | Less | LessEqual
    // Literals.
    | Identifier | StringLit | NumberLit
    // Keywords.
    | And | Class | Else | False | Fun | For | If | NilKeyword | Or
    | Print | Return | Super | This | True | Var | While
    | Break | Continue
    | Eof

  datatype Token = Token(tokenType: TokenType, lexeme: string, literal: Value, line: int)

  /** `Token.Equals(Token?)`: compares line, type and lexeme and ignores the
      literal. `other` is `obj as Token`: None stands for null and for an
      object that is not a token. */
  function Equals(t: Token, other: Option<Token>): (r: bool)
    ensures other.None? ==> !r
    ensures other.Some? ==> (r <==> t.(literal := Value.Nil) == other.value.(literal := Value.Nil))
  {
    if other.None? then false
    else t.line == other.value.line && t.tokenType == other.value.tokenType && t.lexeme == other.value.lexeme
  }

  /** Token equality is an equivalence relation that ignores the literal. */
  lemma EqualsIsEquivalence(a: Token, b: Token, c: Token)
    ensures Equals(a, Some(a))
    ensures Equals(a, Some(b)) == Equals(b, Some(a))
    ensures Equals(a, Some(b)) && Equals(b, Some(c)) ==> Equals(a, Some(c))
    ensures Equals(a, Some(a.(literal := c.literal)))
  {
  }

  /** The name `Enum.ToString()` gives each token type. */
  function TypeName(t: TokenType): string
  {
    match t
    case LeftParen => "LEFT_PAREN"
    case RightParen => "RIGHT_PAREN"
    case LeftBrace => "LEFT_BRACE"
    case RightBrace => "RIGHT_BRACE"
    case Comma => "COMMA"
    case Dot => "DOT"
    case Minus => "MINUS"
    case Plus => "PLUS"
    case Semicolon => "SEMICOLON"
    case Slash => "SLASH"
    case Star => "STAR"
    case QuestionMark => "QUESTION_MARK"
    case Colon => "COLON"
    case Bang => "BANG"
    case BangEqual => "BANG_EQUAL"
    case Equal => "EQUAL"
    case EqualEqual => "EQUAL_EQUAL"
    case Greater => "GREATER"
    case GreaterEqual => "GREATER_EQUAL"
    case Less => "LESS"
    case LessEqual => "LESS_EQUAL"
    case Identifier => "IDENTIFIER"
    case StringLit => "STRING"
    case NumberLit => "NUMBER"
    case And => "AND"
    case Class => "CLASS"
    case Else => "ELSE"
    case False => "FALSE"
    case Fun => "FUN"
    case For => "FOR"
    case If => "IF"
    case NilKeyword => "NIL"
    case Or => "OR"
    case Print => "PRINT"
    case Return => "RETURN"
    case Super => "SUPER"
    case This => "THIS"
    case True => "TRUE"
    case Var => "VAR"
    case While => "WHILE"
    case Break => "BREAK"
    case Continue => "CONTINUE"
    case Eof => "EOF"
  }

  /** The text before the first space of `s`, and the text after it. */
  function BeforeSpace(s: string): string
  {
    if s == [] then [] else if s[0] == ' ' then [] else [s[0]] + BeforeSpace(s[1..])
  }

  function AfterSpace(s: string): string
  {
    if s == [] then [] else if s[0] == ' ' then s[1..] else AfterSpace(s[1..])
  }

  lemma {:induction false} SplitAtSpace(a: string, b: string)
    requires ' ' !in a
    ensures BeforeSpace(a + " " + b) == a
    ensures AfterSpace(a + " " + b) == b
  {
    if a != [] {
      assert (a + " " + b)[1..] == a[1..] + " " + b;
      SplitAtSpace(a[1..], b);
    } else {
      assert a + " " + b == [' '] + b;
    }
  }

  /** `Token.ToString()`: `"{Type} {Lexeme} {Literal}"`, where a null literal
      interpolates as the empty string. */
  function ToString(t: Token, showNumber: Number -> string): string
  {
    TypeName(t.tokenType) + " " + t.lexeme + " " + ObjectText(t.literal, showNumber)
  }

  lemma TypeNameHasNoSpace(t: TokenType)
    ensures ' ' !in TypeName(t)
  {
  }

  /** `ToString` can be split back into its three fields when the lexeme has
      no space (no scanned lexeme except a string literal's has one). */
  lemma ToStringFields(t: Token, showNumber: Number -> string)
    requires ' ' !in t.lexeme
    ensures BeforeSpace(ToString(t, showNumber)) == TypeName(t.tokenType)
    ensures BeforeSpace(AfterSpace(ToString(t, showNumber))) == t.lexeme
    ensures AfterSpace(AfterSpace(ToString(t, showNumber))) == ObjectText(t.literal, showNumber)
  {
    var name, rest := TypeName(t.tokenType), t.lexeme + " " + ObjectText(t.literal, showNumber);
    TypeNameHasNoSpace(t.tokenType);
    assert ToString(t, showNumber) == name + " " + rest;
    SplitAtSpace(name, rest);
    SplitAtSpace(t.lexeme, ObjectText(t.literal, showNumber));
  }
}
