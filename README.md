# A verified model of the Lox tree-walking interpreter

This project models the core of a C# interpreter for Lox, the small dynamically
typed language of *Crafting Interpreters*, and proves properties of that model.
The pipeline has four stages. The scanner turns source text into tokens. The
expression parser turns tokens into a syntax tree. An arena of scope
dictionaries (`Environment`) holds the variables. The interpreter walks the tree
and runs the statements. Two tree printers write trees as Lisp-like text.

Each stage is modelled twice:

- as pure functions: the scanner in `ScanSpec`, the grammar in `ParseSpec`, the
  evaluator in `Evaluation`, and the printers in `Printers`;
- as classes whose methods update their state in place, as the C# objects do:
  `Scanning.ScannerCursor` and `Scanning.Scanner`, `Parsing.ParserCursor` and
  `Parsing.Parser`, `Environment.Environments`, and `Interpreting.Interpreter`.

Every method is proved to compute what its function says. Properties of the
language are then proved about the functions.

Modelling choices:

- **Exceptions and crashes become results.** A thrown exception is a failing
  result that every caller passes on:
  - a `ParseException` is `Failed`;
  - a Lox `RuntimeException` is `Fault.Runtime`;
  - an invalid cast in `*` or `/` is `InvalidCast`;
  - an unhandled node kind is `NotImplemented`;
  - the scanner indexing past the end of its input is `Crashed`/`OutOfRange`.
- **Numbers are exact reals**, so a division by zero, whose double result
  cannot be held, is the `NonFinite` fault.
- **`while` loops are bounded by fuel.** Each loop may run at most `fuel`
  iterations; one that would run longer stops with `OutOfFuel`. The fuel
  lemmas prove that with enough fuel nothing else changes.
- **Scopes form an arena.** Every `Environment` object ever created is one
  frame of a sequence. Its enclosing scope is an index smaller than its own,
  so a chain of enclosing scopes always ends.

The modules are:

- `Wrappers` (Option/Result/Outcome), `Values`, `Tokens`, `Chars`, `Reporting`
  and `Ast`;
- `ScanSpec`, `Scanning` and `ScanProperties`;
- `ParseSpec`, `Parsing` and `ParseProperties`;
- `Environment` and `EnvironmentProperties`;
- `Evaluation`, `EvaluationInvariants`, `EvaluationProperties` and
  `Interpreting`;
- `Printers` and `PrinterProperties`;
- `Scenarios`, which follows the text `-123 * (45.67)` of the scanner, parser
  and printer tests through the whole front end.

## Model

| member | source | states |
|---|---|---|
| Values.IsTruthy | src/Lox/Extensions/ObjectExtensions.cs:5-10 | exactly nil and false are falsey; every other value, 0 and "" included, is truthy |
| Values.IsFalsey | src/Lox/Extensions/ObjectExtensions.cs:12-15 | is the negation of truthiness: true exactly for nil and false |
| Values.IsEqual | src/Lox/Extensions/ObjectExtensions.cs:17-23 | nil equals only nil; otherwise `Equals` compares kind and content, so the relation is equality of values |
| Values.IsEqualReflexiveSymmetric | src/Lox/Extensions/ObjectExtensions.cs:17-23 | `IsEqual` is reflexive and symmetric |
| Values.IsEqualNeedsSameKind | src/Lox/Extensions/ObjectExtensions.cs:17-23 | values of different kinds (nil, bool, number, string) are never equal |
| Values.ObjectText | src/Lox/Token.cs:18 | defines the text of a boxed value: "True"/"False" for booleans, the string itself, the number as `showNumber` writes it, and "" for null; `Tokens.ToStringFields` reads it back out of a token's text |
| Tokens.Equals | src/Lox/Token.cs:21-35 | a non-token is never equal; two tokens are equal exactly when they agree on everything but the literal |
| Tokens.EqualsIsEquivalence | src/Lox/Token.cs:31-35 | token equality is reflexive, symmetric and transitive, and ignores the literal |
| Tokens.TypeName | src/Lox/Token.cs:18 | defines the upper-case name of every token type; `Tokens.TypeNameHasNoSpace` proves no name holds a space |
| Tokens.ToString | src/Lox/Token.cs:16-19 | defines the text type, space, lexeme, space, literal; `Tokens.ToStringFields` proves the three fields can be split back out of it |
| Tokens.TypeNameHasNoSpace | src/Lox/Token.cs:16-19 | no token-type name contains a space |
| Tokens.SplitAtSpace | src/Lox/Token.cs:16-19 | text joined at a space can be split back when the first part has no space |
| Tokens.ToStringFields | src/Lox/Token.cs:16-19 | `ToString` of a token whose lexeme has no space splits back into its type name, lexeme and literal text |
| Chars.IsAlpha | src/Lox/Extensions/CharExtensions.cs:5-10 | defines the ASCII letters and `_`; `Chars.ClassesDisjoint` proves them disjoint from the digits and NUL outside them |
| Chars.IsDigit | src/Lox/Extensions/CharExtensions.cs:12-15 | defines `0` to `9`; `ScanSpec.DigitsEnd` uses it for the maximal digit run |
| Chars.IsAlphaNumeric | src/Lox/Extensions/CharExtensions.cs:17-20 | defines a letter, `_` or a digit; `Chars.PunctuationNotAlphaNumeric` proves the quote, newline and dot outside it |
| Chars.ClassesDisjoint | src/Lox/Extensions/CharExtensions.cs:5-20 | letters and digits are disjoint; the NUL returned past the end of the input is neither, so it ends every digit and identifier run |
| Chars.PunctuationNotAlphaNumeric | src/Lox/Extensions/CharExtensions.cs:5-20 | the quote, the newline and the dot are not identifier characters |
| Reporting.NatToString | src/Lox/Reporting/LoxError.cs:5-8 | the decimal text of a line number is a non-empty string of digits |
| Reporting.NatToStringRoundTrip | src/Lox/Reporting/LoxError.cs:5-8 | reading the decimal text back gives the number (round trip) |
| Reporting.ErrorText | src/Lox/Reporting/LoxError.cs:5-8 | defines "[line N] Error" followed by the where-part, ": " and the message; `Reporting.ErrorTextLine` and `Reporting.ErrorTextShape` prove the line is recoverable and the where-part verbatim |
| Reporting.UpToBracketDigits | src/Lox/Reporting/LoxError.cs:5-8 | a run of digits followed by `]` is recovered as the text before the bracket |
| Reporting.ErrorTextLine | src/Lox/Reporting/LoxError.cs:5-8 | a diagnostic's text starts with "[line " and the line number can be read back from it |
| Reporting.ErrorTextShape | src/Lox/Reporting/LoxError.cs:5-8 | the where-part is inserted verbatim after "Error": an empty where gives "Error: msg", " at end" gives "Error at end: msg" |
| Reporting.Where | src/Lox/Reporting/IErrorReporter.cs:16-26 | the where-part is " at end" exactly for the EOF token; otherwise it is " at '", the token's lexeme and a closing quote |
| Reporting.TokenDiagnostic | src/Lox/Reporting/IErrorReporter.cs:16-26 | the report made for a token carries its line and the message, and says " at end" exactly at EOF |
| Reporting.TokenErrorText | src/Lox/Reporting/IErrorReporter.cs:16-26 | a report made at a token reads "[line N] Error at end: msg" at EOF and "[line N] Error at 'lexeme': msg" elsewhere |
| Reporting.LineDiagnostic | src/Lox/Reporting/IErrorReporter.cs:28-31 | the report made for a line carries that line and the message, with an empty where |
| Reporting.ErrorReporter.constructor | test/Lox.Test/TestErrorReporter.cs:10-11 | a fresh reporter holds no diagnostics and no runtime errors |
| Reporting.ErrorReporter.HadError | test/Lox.Test/TestErrorReporter.cs:17 | true exactly when some diagnostic was reported |
| Reporting.ErrorReporter.HadRuntimeError | test/Lox.Test/TestErrorReporter.cs:18 | true exactly when some runtime error was reported |
| Reporting.ErrorReporter.Report | test/Lox.Test/TestErrorReporter.cs:26-29 | appends exactly one diagnostic and leaves the runtime errors alone |
| Reporting.ErrorReporter.ErrorAt | src/Lox/Reporting/IErrorReporter.cs:16-26 | `Error(token, message)` appends exactly one diagnostic located at the token |
| Reporting.ErrorReporter.ErrorOnLine | src/Lox/Reporting/IErrorReporter.cs:28-31 | `Error(line, message)` appends exactly one diagnostic with an empty where |
| Reporting.ErrorReporter.RuntimeErrorReported | test/Lox.Test/TestErrorReporter.cs:31-34 | appends exactly one runtime error and leaves the diagnostics alone |
| Reporting.ErrorReporter.ResetErrorFlags | test/Lox.Test/TestErrorReporter.cs:36-40 | clears both logs, so neither flag is set afterwards |
| ScanSpec.KeywordType | src/Lox/Scanning/Scanner.cs:11-29 | a word in the keyword table gets its keyword type; any other word is an IDENTIFIER |
| ScanSpec.KeywordTableContents | src/Lox/Scanning/Scanner.cs:11-29 | `break` and `continue` are not reserved, and no keyword maps to IDENTIFIER or EOF |
| ScanSpec.AddToken | src/Lox/Scanning/Scanner.cs:147-156 | appends one token whose lexeme is the text from the lexeme start to the cursor, on the current line, and changes nothing else |
| ScanSpec.ReportError | src/Lox/Scanning/Scanner.cs:141 | appends one line diagnostic on the current line and changes nothing else |
| ScanSpec.Step | src/Lox/Scanning/Scanner.cs:66-145 | defines what one step of `ScanToken` may do: advance inside the input, keep the line from moving back, append at most one non-EOF token carrying the step's text and line, and at most one diagnostic with an empty where; `ScanSpec.ScanToken` proves every completed step is one |
| ScanSpec.Newlines | src/Lox/Scanning/Scanner.cs:162 | counts the newlines of a text; `ScanProperties.NewlinesAppend` proves it adds over concatenation and `ScanProperties.StringToken` that a string moves the line on by that count |
| ScanSpec.FirstFrom | src/Lox/Scanning/Scanner.cs:160-164 | the string loop, and the `//` loop of line 99 with a newline for the quote, stop at the first occurrence of the character, not past it, or at the end of the input |
| ScanSpec.BlockCommentStop | src/Lox/Scanning/Scanner.cs:104 | the block-comment loop stops at the first `*` or at the first character followed by `/`; it runs off the end exactly when there is neither |
| ScanSpec.DigitsEnd | src/Lox/Scanning/Scanner.cs:192 | a digit loop consumes a maximal run of digits |
| ScanSpec.NumberRest | src/Lox/Scanning/Scanner.cs:192-201 | defines the two shapes a number may end in, both with no digit after them; `ScanProperties.NumberRestExact` proves only `NumberEnd` has them |
| ScanSpec.NumberEnd | src/Lox/Scanning/Scanner.cs:192-201 | stops where `NumberRest` says: after digits not followed by `.` and a digit, or after digits, one `.` and a maximal non-empty digit run |
| ScanSpec.IdentifierEnd | src/Lox/Scanning/Scanner.cs:183 | the identifier loop consumes a maximal run of letters, digits and underscores |
| ScanSpec.Operator | src/Lox/Scanning/Scanner.cs:83-94 | scanning `!`, `=`, `<` or `>` is a legal step: it advances and appends one token whose lexeme is the text scanned |
| ScanSpec.SlashOrComment | src/Lox/Scanning/Scanner.cs:95-116 | a completed `/` step is a legal step: comments add no token and SLASH adds one |
| ScanSpec.BlockComment | src/Lox/Scanning/Scanner.cs:101-111 | a block comment that completes adds no token and stays inside the input |
| ScanSpec.StringLiteral | src/Lox/Scanning/Scanner.cs:158-179 | scanning a string is a legal step: at most one token and at most one diagnostic, and the line never moves back |
| ScanSpec.NumberLiteral | src/Lox/Scanning/Scanner.cs:190-204 | scanning a number is a legal step appending one NUMBER token |
| ScanSpec.IdentifierToken | src/Lox/Scanning/Scanner.cs:181-188 | scanning an identifier is a legal step appending one token |
| ScanSpec.Classify | src/Lox/Scanning/Scanner.cs:69-143 | no branch of the switch produces an EOF token |
| ScanSpec.ScanToken | src/Lox/Scanning/Scanner.cs:66-145 | every completed step advances, keeps lines monotone, and appends at most one non-EOF token and at most one line diagnostic |
| ScanSpec.ScanFrom | src/Lox/Scanning/Scanner.cs:56-62 | defines the loop of `ScanTokens`: steps until the end of the input, then the EOF token; `ScanProperties.ScanFromShape` proves the shape of what it appends and `ScanProperties.NoBlockCommentCompletes` when it completes |
| ScanSpec.Scan | src/Lox/Scanning/Scanner.cs:51-64 | defines `ScanTokens` from a reset cursor on line 0; `ScanProperties.ScanShape` proves its result shape and `Scanning.Scanner.ScanTokens` that the class computes it |
| Scanning.ScannerCursor.constructor | src/Lox/Scanning/ScannerCursor.cs:7-10 | a fresh cursor is at position 0 on line 0 of an empty source |
| Scanning.ScannerCursor.IsAtEnd | src/Lox/Scanning/ScannerCursor.cs:16 | true exactly when the position has reached the length of the source |
| Scanning.ScannerCursor.CurrentText | src/Lox/Scanning/ScannerCursor.cs:18 | is the source text from the lexeme start up to the position |
| Scanning.ScannerCursor.Peek | src/Lox/Scanning/ScannerCursor.cs:58-62 | is the character under the cursor, or NUL at the end |
| Scanning.ScannerCursor.PeekNext | src/Lox/Scanning/ScannerCursor.cs:64-68 | is the character after the cursor, or NUL when there is none |
| Scanning.ScannerCursor.ResetCursor | src/Lox/Scanning/ScannerCursor.cs:24-31 | installs the source and rewinds position, lexeme start and line to 0 |
| Scanning.ScannerCursor.BeginLexeme | src/Lox/Scanning/ScannerCursor.cs:34-37 | moves the lexeme start to the position and changes nothing else |
| Scanning.ScannerCursor.NewLine | src/Lox/Scanning/ScannerCursor.cs:39-42 | increments the line and changes nothing else |
| Scanning.ScannerCursor.Advance | src/Lox/Scanning/ScannerCursor.cs:44-47 | returns the character under the cursor and moves one on |
| Scanning.ScannerCursor.Match | src/Lox/Scanning/ScannerCursor.cs:49-56 | consumes one character exactly when it is the expected one; at the end it consumes nothing |
| Scanning.Scanner.constructor | src/Lox/Scanning/Scanner.cs:39-45 | the scanner holds the given cursor and reporter and an empty token buffer |
| Scanning.Scanner.ScanTokens | src/Lox/Scanning/Scanner.cs:51-64 | returns the token list, the final line and the reporter's log of the functional scan; where the source would throw it returns None, with the buffer and log of `Scan` |
| Scanning.Scanner.ScanToken | src/Lox/Scanning/Scanner.cs:66-145 | performs exactly the step `ScanSpec.ScanToken` describes, or reports the out-of-range crash with buffer and log unchanged |
| Scanning.Scanner.AddToken | src/Lox/Scanning/Scanner.cs:147-156 | appends the token of the current text on the cursor's line |
| Scanning.Scanner.ScanSlash | src/Lox/Scanning/Scanner.cs:95-116 | performs the `/` branch as `SlashOrComment` describes, crash included |
| Scanning.Scanner.ScanBlockComment | src/Lox/Scanning/Scanner.cs:101-111 | performs the block-comment branch as `BlockComment` describes, and never adds a token |
| Scanning.Scanner.SkipLineComment | src/Lox/Scanning/Scanner.cs:99 | the loop stops where `FirstFrom` with a newline says, without changing the line |
| Scanning.Scanner.SkipBlockComment | src/Lox/Scanning/Scanner.cs:104 | the loop, as written, stops where `BlockCommentStop` says, or reports that `Advance` would run off the end |
| Scanning.Scanner.ScanString | src/Lox/Scanning/Scanner.cs:158-179 | performs `String()` exactly as `StringLiteral` describes |
| Scanning.Scanner.SkipStringBody | src/Lox/Scanning/Scanner.cs:160-164 | stops at the closing quote or the end and adds one line per newline walked over |
| Scanning.Scanner.ScanIdentifier | src/Lox/Scanning/Scanner.cs:181-188 | performs `Identifier()` exactly as `IdentifierToken` describes |
| Scanning.Scanner.ScanNumber | src/Lox/Scanning/Scanner.cs:190-204 | performs `Number()` exactly as `NumberLiteral` describes |
| Scanning.Scanner.SkipDigits | src/Lox/Scanning/Scanner.cs:192 | consumes the maximal digit run `DigitsEnd` describes |
| ScanProperties.ScanFromShape | src/Lox/Scanning/Scanner.cs:56-62 | from any state, a completed scan appends its tokens and then exactly one EOF token; a crashed one has the same shape without the EOF token |
| ScanProperties.ScanShape | src/Lox/Scanning/Scanner.cs:51-64 | a completed scan ends with exactly one EOF token, with an empty lexeme on the final line; every other lexeme is a slice of the source; lines never decrease; diagnostics are appended after the old log, each with an empty where |
| ScanProperties.SlashCrashes | src/Lox/Scanning/Scanner.cs:95-111 | the `/` branch fails exactly when a slash-star is followed by text with no `*` and no character followed by `/` |
| ScanProperties.StepCrashes | src/Lox/Scanning/Scanner.cs:66-145 | the only way a single step fails is an opening slash-star whose skip loop runs off the end |
| ScanProperties.NoBlockCommentCompletes | src/Lox/Scanning/Scanner.cs:51-64 | a source with no slash-star is always scanned to the end |
| ScanProperties.UnterminatedBlockCommentCrashes | src/Lox/Scanning/Scanner.cs:104 | on "/*" and on "/* abc" the scan crashes before producing anything |
| ScanProperties.OperatorTokens | src/Lox/Scanning/Scanner.cs:83-94 | `!`, `=`, `<` and `>` give the two-character token when `=` follows and the one-character token otherwise |
| ScanProperties.LineComment | src/Lox/Scanning/Scanner.cs:96-100 | `//` emits nothing, reports nothing, and stops at the next newline without consuming it |
| ScanProperties.SlashBlockComment | src/Lox/Scanning/Scanner.cs:101-111 | a block comment emits nothing; it consumes the closing star-slash when the loop stops there and otherwise reports "Expected close of block comment." once |
| ScanProperties.StringToken | src/Lox/Scanning/Scanner.cs:158-179 | a terminated string's lexeme runs from quote to quote, its literal drops the two quotes, and the line advances by the newlines inside |
| ScanProperties.UnterminatedString | src/Lox/Scanning/Scanner.cs:166-170 | an unterminated string emits no token and reports "Unterminated string." once, on the line reached at the end |
| ScanProperties.NewlinesAppend | src/Lox/Scanning/Scanner.cs:162 | the newline count of a concatenation is the sum of the counts |
| ScanProperties.NewlineInString | src/Lox/Scanning/Scanner.cs:160-164 | a newline inside a string moves the line on once, and the token is on the new line |
| ScanProperties.NumberToken | src/Lox/Scanning/Scanner.cs:190-204 | a number is a maximal digit run, or such a run, one `.` and a non-empty maximal digit run, taken exactly when `.` is followed by a digit; its literal is the parse of the lexeme |
| ScanProperties.DigitsEndAt | src/Lox/Scanning/Scanner.cs:192 | a digit run followed by no digit is exactly the run the digit loop consumes |
| ScanProperties.NumberRestExact | src/Lox/Scanning/Scanner.cs:192-201 | any end of the shape `NumberRest` describes is the end `NumberEnd` computes, so the shape determines the lexeme |
| ScanProperties.NumberEndExamples | src/Lox/Scanning/Scanner.cs:192-201 | in `1.5` the number takes the fraction, and in `1.2.3` it stops before the second `.` |
| ScanProperties.TrailingDot | src/Lox/Scanning/Scanner.cs:195-201 | "1." scans as the number 1, a DOT and EOF |
| ScanProperties.IdentifierTokenShape | src/Lox/Scanning/Scanner.cs:181-188 | an identifier is a maximal alphanumeric run whose type comes from the keyword table |
| ScanProperties.WhitespaceAndUnknown | src/Lox/Scanning/Scanner.cs:118-143 | space, CR and tab emit nothing; a newline only increments the line; any other character that starts no lexeme reports "Unexpected character." and emits nothing |
| ScanProperties.BreakIsIdentifier | src/Lox/Scanning/Scanner.cs:11-29 | "break" scans as an IDENTIFIER followed by EOF |
| ScanProperties.BlockCommentEnd | src/Lox/Scanning/Scanner.cs:101-111 | the corrected skip of a block comment stays inside the input |
| ScanProperties.BlockCommentEndCorrect | src/Lox/Scanning/Scanner.cs:101-111 | the corrected skip stops right after the first closing star-slash, or at the end of the input when there is none |
| ScanProperties.EarlyStopComment | src/Lox/Scanning/Scanner.cs:104-110 | in "/* a*b */" the comment ends after `a*` and "Expected close of block comment." is reported |
| ScanProperties.EarlyStopInBlockComment | src/Lox/Scanning/Scanner.cs:104-110 | "/* a*b */" scans as `b`, `*`, `/` and EOF with one diagnostic, while the corrected skip consumes it all |
| ParseSpec.Expression | src/Lox/Parsing/Parser.cs:43-46 | an expression consumes at least one token, stops inside the list, fails only at a token that cannot start a primary or is not `)`, and builds a tree of the grammar |
| ParseSpec.Equality | src/Lox/Parsing/Parser.cs:48-60 | the corrected rule, with a comparison as the first operand: consumes at least one token and builds a chain of `==`/`!=` over comparisons |
| ParseSpec.EqualityTail | src/Lox/Parsing/Parser.cs:52-57 | the loop only moves forward and extends an equality chain to an equality chain |
| ParseSpec.Comparison | src/Lox/Parsing/Parser.cs:62-74 | consumes at least one token and builds a chain of comparison operators over terms |
| ParseSpec.ComparisonTail | src/Lox/Parsing/Parser.cs:66-71 | the loop only moves forward and extends a comparison chain to a comparison chain |
| ParseSpec.Term | src/Lox/Parsing/Parser.cs:76-88 | consumes at least one token and builds a chain of `+`/`-` over factors |
| ParseSpec.TermTail | src/Lox/Parsing/Parser.cs:80-85 | the loop only moves forward and extends a term chain to a term chain |
| ParseSpec.Factor | src/Lox/Parsing/Parser.cs:90-102 | consumes at least one token and builds a chain of `*`/`/` over unary expressions |
| ParseSpec.FactorTail | src/Lox/Parsing/Parser.cs:94-99 | the loop only moves forward and extends a factor chain to a factor chain |
| ParseSpec.Unary | src/Lox/Parsing/Parser.cs:104-114 | consumes at least one token and builds prefix operators over a primary |
| ParseSpec.Primary | src/Lox/Parsing/Parser.cs:116-135 | consumes at least one token and builds a literal or a grouping, or fails properly where it stands |
| ParseSpec.Grouping | src/Lox/Parsing/Parser.cs:127-132 | after `(`, consumes at least one token and builds a grouping node, or fails properly |
| ParseSpec.Parse | src/Lox/Parsing/Parser.cs:30-41 | yields a tree exactly when the expression parses, and that tree belongs to the grammar; a `ParseException` becomes None |
| ParseSpec.LiteralValue | src/Lox/Parsing/Parser.cs:118-125 | defines the value of a literal node: false, true and nil for the keywords, the token's literal otherwise; `ParseProperties.PrimaryLiteralCases` proves `Primary` builds exactly it |
| ParseSpec.EqualityAsWritten | src/Lox/Parsing/Parser.cs:48-60 | defines `Equality()` as written, with the depth of its self-call bounded; `ParseProperties.EqualityAsWrittenDiverges` proves it returns nothing at any depth |
| ParseSpec.SyncStops | src/Lox/Parsing/Parser.cs:154-168 | defines where the loop of `Synchronize` stops: at EOF, right after a semicolon, or before a statement keyword; `ParseSpec.SyncFrom` and `ParseSpec.SyncStop` prove they stop at its first position |
| ParseSpec.SyncFrom | src/Lox/Parsing/Parser.cs:154-172 | the loop stops at the first stopping position: the end, right after a semicolon, or before a statement keyword |
| ParseSpec.SyncStop | src/Lox/Parsing/Parser.cs:150-173 | `Synchronize` moves at least one token unless at the end, and stops at the first boundary after that |
| Parsing.ParserCursor.constructor | src/Lox/Parsing/ParserCursor.cs:7-8 | a fresh cursor holds an empty list at position 0 |
| Parsing.ParserCursor.ResetCursor | src/Lox/Parsing/ParserCursor.cs:46-51 | installs the tokens and rewinds to position 0 |
| Parsing.ParserCursor.Peek | src/Lox/Parsing/ParserCursor.cs:53-56 | is the token under the cursor |
| Parsing.ParserCursor.Previous | src/Lox/Parsing/ParserCursor.cs:58-61 | is the token before the cursor |
| Parsing.ParserCursor.IsAtEnd | src/Lox/Parsing/ParserCursor.cs:14 | true exactly when the token under the cursor is EOF |
| Parsing.ParserCursor.Check | src/Lox/Parsing/ParserCursor.cs:26-30 | false at the end, otherwise whether the current token has the type; on a terminated list a match never stands on the last token |
| Parsing.ParserCursor.Advance | src/Lox/Parsing/ParserCursor.cs:20-24 | moves one token on unless at EOF and returns the token before the cursor |
| Parsing.ParserCursor.Match | src/Lox/Parsing/ParserCursor.cs:32-44 | consumes one token exactly when some listed type checks, and otherwise nothing |
| Parsing.Parser.constructor | src/Lox/Parsing/Parser.cs:18-24 | the parser holds the given cursor and reporter |
| Parsing.Parser.Parse | src/Lox/Parsing/Parser.cs:30-41 | returns the grammar's result; on success nothing is reported, and on failure exactly one diagnostic is reported, at the offending token |
| Parsing.Parser.Expression | src/Lox/Parsing/Parser.cs:43-46 | computes `ParseSpec.Expression` and reports exactly one diagnostic when, and only when, it throws |
| Parsing.Parser.Equality | src/Lox/Parsing/Parser.cs:48-60 | computes the corrected `ParseSpec.Equality`, reporting exactly when it throws |
| Parsing.Parser.EqualityLoop | src/Lox/Parsing/Parser.cs:52-57 | the `while` loop computes `EqualityTail`, reporting exactly when it throws |
| Parsing.Parser.Comparison | src/Lox/Parsing/Parser.cs:62-74 | computes `ParseSpec.Comparison`, reporting exactly when it throws |
| Parsing.Parser.ComparisonLoop | src/Lox/Parsing/Parser.cs:66-71 | the `while` loop computes `ComparisonTail`, reporting exactly when it throws |
| Parsing.Parser.Term | src/Lox/Parsing/Parser.cs:76-88 | computes `ParseSpec.Term`, reporting exactly when it throws |
| Parsing.Parser.TermLoop | src/Lox/Parsing/Parser.cs:80-85 | the `while` loop computes `TermTail`, reporting exactly when it throws |
| Parsing.Parser.Factor | src/Lox/Parsing/Parser.cs:90-102 | computes `ParseSpec.Factor`, reporting exactly when it throws |
| Parsing.Parser.FactorLoop | src/Lox/Parsing/Parser.cs:94-99 | the `while` loop computes `FactorTail`, reporting exactly when it throws |
| Parsing.Parser.Unary | src/Lox/Parsing/Parser.cs:104-114 | computes `ParseSpec.Unary`, reporting exactly when it throws |
| Parsing.Parser.Primary | src/Lox/Parsing/Parser.cs:116-135 | computes `ParseSpec.Primary`, reporting exactly when it throws |
| Parsing.Parser.Parenthesized | src/Lox/Parsing/Parser.cs:127-132 | the `(` branch computes `ParseSpec.Primary` at the parenthesis |
| Parsing.Parser.NoExpression | src/Lox/Parsing/Parser.cs:134 | at a token that starts no expression, reports "Expect expression." there and consumes nothing |
| Parsing.Parser.MatchLiteral | src/Lox/Parsing/Parser.cs:118-125 | succeeds exactly on `false`, `true`, `nil`, a number or a string, consuming it and yielding its value |
| Parsing.Parser.Grouping | src/Lox/Parsing/Parser.cs:129-131 | computes `ParseSpec.Grouping`, reporting exactly when it throws |
| Parsing.Parser.Consume | src/Lox/Parsing/Parser.cs:137-142 | takes the expected token, or reports the message at the current token and consumes nothing |
| Parsing.Parser.Error | src/Lox/Parsing/Parser.cs:144-148 | reports exactly one diagnostic, located at the token |
| Parsing.Parser.Synchronize | src/Lox/Parsing/Parser.cs:150-173 | moves the cursor to where `SyncStop` says |
| ParseProperties.EqualityAsWrittenDiverges | src/Lox/Parsing/Parser.cs:48-50 | `Equality()` as written reaches no result at any recursion depth |
| ParseProperties.PrecedenceExample | src/Lox/Parsing/Parser.cs:76-102 | `1 + 2 * 3` parses as `1 + (2 * 3)` |
| ParseProperties.PrecedenceTerm | src/Lox/Parsing/Parser.cs:76-88 | the term of `1 + 2 * 3` spans the whole list, with the product as the right operand of `+` |
| ParseProperties.LeftAssociationExample | src/Lox/Parsing/Parser.cs:76-88 | `1 - 2 - 3` parses as `(1 - 2) - 3` |
| ParseProperties.UnaryNestingExample | src/Lox/Parsing/Parser.cs:104-114 | `! - 1` nests to the right, as `!(-1)` |
| ParseProperties.MissingRightParen | src/Lox/Parsing/Parser.cs:127-142 | `(1` fails with "Expect ')' after expression." at the token after the `1`, and `Parse` yields None |
| ParseProperties.ExpectExpressionAtEnd | src/Lox/Parsing/Parser.cs:134 | `1 +` fails with "Expect expression." at the EOF token |
| ParseProperties.ExpectExpressionAtParen | src/Lox/Parsing/Parser.cs:134 | a stray `)` fails with "Expect expression." where it stands |
| ParseProperties.UnarySteps | src/Lox/Parsing/Parser.cs:104-114 | at `!` or `-` the result is that operator over the unary expression after it; elsewhere it is the primary |
| ParseProperties.PrimaryLiterals | src/Lox/Parsing/Parser.cs:118-125 | every literal token becomes a literal node of its value and consumes exactly that token |
| ParseProperties.PrimaryLiteralCases | src/Lox/Parsing/Parser.cs:118-125 | `false`, `true` and `nil` give their own values; a number or a string gives the token's literal |
| ParseProperties.PrimaryUnexpected | src/Lox/Parsing/Parser.cs:134 | a token that cannot start a primary fails with "Expect expression." where it stands |
| ParseProperties.PrimaryParen | src/Lox/Parsing/Parser.cs:127-132 | at `(` the primary is the grouping after it |
| ParseProperties.PrimaryGrouping | src/Lox/Parsing/Parser.cs:127-132 | an inner expression followed by `)` becomes a grouping node; without the `)` the failure is at the token that stands there; an inner failure passes through |
| ParseProperties.ParseSound | src/Lox/Parsing/Parser.cs:30-41 | every tree `Parse` returns belongs to the grammar, and every failure is a proper one |
| ParseProperties.OperandsOfLowerLevel | src/Lox/Parsing/Parser.cs:76-102 | the right operand of `+`/`-` is a factor and the left a term, and the right operand of `*`/`/` is a unary expression, which makes the chains associate to the left |
| ParseProperties.SyncAfterSemicolon | src/Lox/Parsing/Parser.cs:150-156 | from inside a statement, `Synchronize` stops right after the next semicolon |
| ParseProperties.SyncBeforeStatement | src/Lox/Parsing/Parser.cs:158-168 | `Synchronize` stops before a keyword that starts a statement |
| Environment.Links | src/Lox/Environment.cs:10 | records the enclosing scope of every scope, one entry per scope |
| Environment.Nearest | src/Lox/Environment.cs:85-96 | the scope found binds the name and is the current scope or one that encloses it |
| Environment.Lookup | src/Lox/Environment.cs:85-96 | defines the value held by the nearest binding scope; `EnvironmentProperties.LookupAfterAssign`, `LookupAfterDefine`, `LookupExtended` and `LookupFreshScope` prove how it reacts to each change of the arena |
| Environment.Assigned | src/Lox/Environment.cs:57 | defines the arena with one binding of one scope replaced; `EnvironmentProperties.AssignedLinks`, `AssignKeepsOtherNames` and `AssignInvisible` prove it re-links nothing, changes no other name and is invisible from older scopes |
| Environment.UndefinedMessage | src/Lox/Environment.cs:65 | defines "Variable X has not been defined."; `Environment.Environments.Set` and `Get` fail with it exactly when the name is bound nowhere |
| Environment.Environments.constructor | src/Lox/Environment.cs:5-10 | the arena starts empty and valid |
| Environment.Environments.NewEnvironment | src/Lox/Environment.cs:5-10 | adds one empty scope with the given enclosing scope and returns its index |
| Environment.Environments.IsDefined | src/Lox/Environment.cs:21-24 | true exactly when the scope or one enclosing it binds the name |
| Environment.Environments.IsDefinedToken | src/Lox/Environment.cs:16-19 | true exactly when the lexeme is visible from the scope |
| Environment.Environments.Define | src/Lox/Environment.cs:41-51 | binds the name in this scope, overwriting a local binding, and changes no other scope |
| Environment.Environments.DefineToken | src/Lox/Environment.cs:36-39 | `Define` of the token's lexeme |
| Environment.Environments.Set | src/Lox/Environment.cs:53-67 | assigns in the nearest scope that binds the name; when none does, it fails with "Variable X has not been defined." and changes nothing |
| Environment.Environments.SetName | src/Lox/Environment.cs:69-83 | as `Set`, with the message of the application exception |
| Environment.Environments.Get | src/Lox/Environment.cs:85-96 | yields the value held by the nearest scope that binds the name, or the undefined-variable runtime error |
| Environment.Environments.GetName | src/Lox/Environment.cs:98-109 | as `Get`, with the message of the application exception |
| EnvironmentProperties.AssignedLinks | src/Lox/Environment.cs:53-83 | assigning never re-links scopes |
| EnvironmentProperties.LinksAcyclic | src/Lox/Environment.cs:10 | acyclicity depends only on the links, so any state with the same links stays acyclic |
| EnvironmentProperties.LookupAfterAssign | src/Lox/Environment.cs:53-96 | after `Set` the nearest binding is the same scope and `Get` yields the new value |
| EnvironmentProperties.LookupAfterDefine | src/Lox/Environment.cs:41-51 | after `Define` in a scope, `Get` from that scope yields the new value |
| EnvironmentProperties.AssignKeepsOtherNames | src/Lox/Environment.cs:53-83 | assigning one name changes no other name, seen from any scope |
| EnvironmentProperties.AssignInvisible | src/Lox/Environment.cs:41-83 | an assignment in a newer scope is invisible from older scopes, so a block's declarations never leak out |
| EnvironmentProperties.SetKeepsShadowed | src/Lox/Environment.cs:53-67 | `Set` leaves a shadowed outer binding as it was |
| EnvironmentProperties.LookupExtended | src/Lox/Environment.cs:5-10 | creating a scope changes nothing that the older scopes see |
| EnvironmentProperties.LookupFreshScope | src/Lox/Environment.cs:85-96 | a fresh scope sees exactly what its enclosing scope sees |
| Evaluation.CheckNumberOperands | src/Lox/Interpreting/Interpreter.cs:358-362 | passes exactly when both operands are numbers |
| Evaluation.Binary | src/Lox/Interpreting/Interpreter.cs:200-251 | defines the operator switch on evaluated operands; `EvaluationProperties.NilOperandFails`, `EqualityOperators`, `NumericOperators`, `ComparisonsAgree`, `PlusOperator`, `CastingOperators` and `OtherBinaryOperators` prove its cases |
| Evaluation.Unary | src/Lox/Interpreting/Interpreter.cs:324-336 | defines the operator switch on the evaluated operand; `EvaluationProperties.UnaryOperators` proves its cases |
| Evaluation.Eval | src/Lox/Interpreting/Interpreter.cs:42-62 | defines `Evaluate`; `EvaluationInvariants.EvalValid` and `EvalKeepsLinks` prove it keeps the state valid and the scopes linked as before |
| Evaluation.EvalAssign | src/Lox/Interpreting/Interpreter.cs:189-194 | defines `VisitAssignExpr`; `EvaluationProperties.AssignmentStores` proves it yields the value and stores it in the nearest binding |
| Evaluation.Store | src/Lox/Interpreting/Interpreter.cs:192 | defines `Set(Token)` of an evaluated value; `EvaluationProperties.AssignmentStores` proves a name bound nowhere fails and stores nothing |
| Evaluation.EvalBinary | src/Lox/Interpreting/Interpreter.cs:196-252 | defines `VisitBinaryExpr`: the left operand, then the right, then `Binary`; the lemmas under `Evaluation.Binary` state the operators |
| Evaluation.EvalIf | src/Lox/Interpreting/Interpreter.cs:269-277 | defines `VisitIfExpr`; `EvaluationProperties.IfExprOneBranch` proves exactly one branch is evaluated |
| Evaluation.EvalList | src/Lox/Interpreting/Interpreter.cs:279-283 | defines `VisitListExpr`; `EvaluationProperties.ListYieldsRight` proves it yields its right side |
| Evaluation.EvalLogical | src/Lox/Interpreting/Interpreter.cs:290-304 | defines `VisitLogicalExpr`; `EvaluationProperties.LogicalTruth`, `LogicalRight` and `LogicalShortCircuit` prove its truth table and short circuit |
| Evaluation.EvalUnary | src/Lox/Interpreting/Interpreter.cs:321-337 | defines `VisitUnaryExpr`: the operand, then `Unary` |
| Evaluation.EvalVariable | src/Lox/Interpreting/Interpreter.cs:339-346 | defines `VisitVariableExpr`; `EvaluationProperties.UnderscoreReadsLastResult` and `VariableReadsNearest` prove what `_` and other names read |
| Evaluation.Exec | src/Lox/Interpreting/Interpreter.cs:79-91 | defines `Execute`; `EvaluationInvariants.ExecExtends` proves every statement only extends the state and `EvaluationProperties.ExecFuel` that more fuel changes nothing |
| Evaluation.ExecBlock | src/Lox/Interpreting/Interpreter.cs:93-117 | defines `VisitBlockStmt` with `ExecuteBlock`; `EvaluationInvariants.BlockExtends`, `EvaluationProperties.BlockSeesEnclosing` and `BlockVarIsLocal` prove the scope is popped and its declarations stay local |
| Evaluation.ExecExpression | src/Lox/Interpreting/Interpreter.cs:124-128 | defines `VisitExpressionStmt`; `EvaluationProperties.ExpressionStatementSetsLastResult` proves the value lands in `LastResult` |
| Evaluation.ExecIf | src/Lox/Interpreting/Interpreter.cs:135-147 | defines `VisitIfStmt`; `EvaluationProperties.StatementsResetLastResult` proves a completed one leaves `LastResult` nil |
| Evaluation.ExecPrint | src/Lox/Interpreting/Interpreter.cs:149-155 | defines `VisitPrintStmt`; `EvaluationProperties.PrintAppendsOneLine` proves it writes exactly one line, or nothing on a fault |
| Evaluation.ExecVar | src/Lox/Interpreting/Interpreter.cs:162-173 | defines `VisitVarStmt`; `EvaluationProperties.StatementsResetLastResult` proves a completed one leaves `LastResult` nil |
| Evaluation.ExecWhile | src/Lox/Interpreting/Interpreter.cs:175-183 | defines `VisitWhileStmt` with at most `fuel` iterations; `EvaluationProperties.WhileStopsAtFalsy`, `WhileRunsBodyThenRetests`, `WhileResetsLastResult` and `WhileFuel` prove its behaviour |
| Evaluation.WhileAgain | src/Lox/Interpreting/Interpreter.cs:177-180 | defines one more turn of the loop after the body; `EvaluationProperties.WhileRunsBodyThenRetests` proves a completed body starts the loop over |
| Evaluation.ExecList | src/Lox/Interpreting/Interpreter.cs:68-71 | defines the `foreach` over statements, stopping at the first fault; `EvaluationInvariants.ExecExtends` covers it |
| Evaluation.Interpret | src/Lox/Interpreting/Interpreter.cs:64-77 | defines `Interpret`; `EvaluationInvariants.InterpretExtends`, `EvaluationProperties.EmptyProgramResetsLastResult` and `InterpretMoreFuel` prove its invariant, the empty case and fuel independence |
| EvaluationInvariants.EvalKeepsLinks | src/Lox/Interpreting/Interpreter.cs:42-62 | evaluating an expression never creates, removes or re-links a scope |
| EvaluationInvariants.EvalValid | src/Lox/Interpreting/Interpreter.cs:42-62 | evaluating an expression keeps the interpreter state valid |
| EvaluationInvariants.ExecExtends | src/Lox/Interpreting/Interpreter.cs:79-91 | every statement leaves the stack as it found it, only adds scopes, keeps old links and only appends output |
| EvaluationInvariants.BlockExtends | src/Lox/Interpreting/Interpreter.cs:93-117 | a block pops the scope it pushed, on a fault as well |
| EvaluationInvariants.WhileExtends | src/Lox/Interpreting/Interpreter.cs:175-183 | a loop only extends the state, however many iterations it runs |
| EvaluationInvariants.InterpretExtends | src/Lox/Interpreting/Interpreter.cs:64-77 | a whole program keeps the state valid and only extends it |
| EvaluationProperties.NilOperandFails | src/Lox/Interpreting/Interpreter.cs:198-200 | a nil operand fails every binary operator, `==` and `!=` included, and nothing else produces that error |
| EvaluationProperties.EqualityOperators | src/Lox/Interpreting/Interpreter.cs:204-208 | on non-nil operands `==` is equality of values and `!=` its negation; both are symmetric |
| EvaluationProperties.NumericOperators | src/Lox/Interpreting/Interpreter.cs:210-228 | `>`, `>=`, `<`, `<=` and `-` succeed exactly on two numbers and otherwise fail with "Operands must be numbers." |
| EvaluationProperties.ComparisonsAgree | src/Lox/Interpreting/Interpreter.cs:210-224 | on numbers `<` negates `>=`, `>` negates `<=`, and `>` is `<` with the operands swapped |
| EvaluationProperties.PlusOperator | src/Lox/Interpreting/Interpreter.cs:230-241 | `+` succeeds exactly on two numbers or two strings, concatenates strings, and otherwise fails with "Operands must be two numbers or two strings." |
| EvaluationProperties.CastingOperators | src/Lox/Interpreting/Interpreter.cs:243-247 | `*` and `/` check nothing: a non-number operand is the invalid-cast crash, never a Lox runtime error |
| EvaluationProperties.OtherBinaryOperators | src/Lox/Interpreting/Interpreter.cs:248-251 | an operator outside the switch yields nil |
| EvaluationProperties.UnaryOperators | src/Lox/Interpreting/Interpreter.cs:321-337 | nil fails exactly with "Value cannot be null."; `!` is falsiness; `-` needs a number and undoes itself; other operators yield nil |
| EvaluationProperties.UnderscoreReadsLastResult | src/Lox/Interpreting/Interpreter.cs:339-344 | `_` reads `LastResult` and changes nothing |
| EvaluationProperties.VariableReadsNearest | src/Lox/Interpreting/Interpreter.cs:339-346 | any other name reads the nearest binding, or fails with "Variable X has not been defined." |
| EvaluationProperties.AssignmentStores | src/Lox/Interpreting/Interpreter.cs:189-194 | an assignment returns the value and stores it in the nearest binding; a name bound nowhere fails and stores nothing |
| EvaluationProperties.LogicalTruth | src/Lox/Interpreting/Interpreter.cs:290-304 | the truthiness of `or` is the disjunction, and of `and` the conjunction, of the operands' truthiness |
| EvaluationProperties.LogicalRight | src/Lox/Interpreting/Interpreter.cs:290-304 | when the left operand does not decide, the result is the right operand's, scopes included |
| EvaluationProperties.LogicalShortCircuit | src/Lox/Interpreting/Interpreter.cs:290-304 | when the left operand decides, the right one is not evaluated |
| EvaluationProperties.IfExprOneBranch | src/Lox/Interpreting/Interpreter.cs:269-277 | a conditional expression evaluates exactly one branch, chosen by the truthiness of the condition |
| EvaluationProperties.ListYieldsRight | src/Lox/Interpreting/Interpreter.cs:279-283 | a list evaluates its left side for its effects and yields its right side |
| EvaluationProperties.ExpressionStatementSetsLastResult | src/Lox/Interpreting/Interpreter.cs:124-128 | an expression statement leaves its value in `LastResult` |
| EvaluationProperties.StatementsResetLastResult | src/Lox/Interpreting/Interpreter.cs:112-183 | every other statement that completes leaves `LastResult` nil |
| EvaluationProperties.WhileResetsLastResult | src/Lox/Interpreting/Interpreter.cs:175-183 | a loop that completes leaves `LastResult` nil |
| EvaluationProperties.EmptyProgramResetsLastResult | src/Lox/Interpreting/Interpreter.cs:64-77 | an empty program resets `LastResult` and changes nothing else |
| EvaluationProperties.PrintAppendsOneLine | src/Lox/Interpreting/Interpreter.cs:149-155 | a `print` that completes appends exactly the text of its value; one that faults appends nothing |
| EvaluationProperties.WhileStopsAtFalsy | src/Lox/Interpreting/Interpreter.cs:175-183 | a loop whose condition is falsy runs no body, completes and resets `LastResult` |
| EvaluationProperties.WhileRunsBodyThenRetests | src/Lox/Interpreting/Interpreter.cs:175-183 | a truthy condition runs the body once and then starts over from the state the body left |
| EvaluationProperties.UnderscoreStatementKeepsState | test/Lox.Test/Visitors/InterpreterTests.cs:249-270 | running `_;` keeps the whole state, so `LastResult` survives it |
| EvaluationProperties.ArithmeticStatementResult | test/Lox.Test/Visitors/InterpreterTests.cs:234-246 | `3*12-5;` leaves 31 in `LastResult` |
| EvaluationProperties.BlockSeesEnclosing | src/Lox/Interpreting/Interpreter.cs:112-117 | inside a block every name reads what it reads outside |
| EvaluationProperties.BlockVarIsLocal | src/Lox/Interpreting/Interpreter.cs:93-117 | a variable declared in a block is gone when the block ends; outside, names read what they read before |
| EvaluationProperties.ExecFuel | src/Lox/Interpreting/Interpreter.cs:79-91 | a statement that did not run out of fuel gives the same run with more fuel |
| EvaluationProperties.WhileFuel | src/Lox/Interpreting/Interpreter.cs:175-183 | a loop that did not run out of fuel gives the same run with more fuel |
| EvaluationProperties.InterpretMoreFuel | src/Lox/Interpreting/Interpreter.cs:64-77 | a program that did not run out of fuel gives the same run with any larger budget |
| Interpreting.OutputWriter.constructor | test/Lox.Test/TestOutputWriter.cs:5-27 | a fresh writer holds no lines |
| Interpreting.OutputWriter.WriteLine | test/Lox.Test/TestOutputWriter.cs:21-24 | appends exactly one line |
| Interpreting.Interpreter.constructor | src/Lox/Interpreting/Interpreter.cs:24-29 | the interpreter starts with one empty global scope on the stack, a nil `LastResult` and the writer's lines |
| Interpreting.Interpreter.CurrentEnvironment | src/Lox/Interpreting/Interpreter.cs:35 | is the top of the scope stack, an existing scope |
| Interpreting.Interpreter.Evaluate | src/Lox/Interpreting/Interpreter.cs:42-62 | yields the value and the new scopes that `Evaluation.Eval` gives, and keeps the state valid |
| Interpreting.Interpreter.VisitAssignExpr | src/Lox/Interpreting/Interpreter.cs:189-194 | computes `Evaluation.EvalAssign` |
| Interpreting.Interpreter.VisitBinaryExpr | src/Lox/Interpreting/Interpreter.cs:196-252 | computes `Evaluation.EvalBinary`: left operand first, then the right, then the operator |
| Interpreting.Interpreter.VisitIfExpr | src/Lox/Interpreting/Interpreter.cs:269-277 | computes `Evaluation.EvalIf` |
| Interpreting.Interpreter.VisitListExpr | src/Lox/Interpreting/Interpreter.cs:279-283 | computes `Evaluation.EvalList` |
| Interpreting.Interpreter.VisitLogicalExpr | src/Lox/Interpreting/Interpreter.cs:290-304 | computes `Evaluation.EvalLogical`, short-circuit included |
| Interpreting.Interpreter.VisitUnaryExpr | src/Lox/Interpreting/Interpreter.cs:321-337 | computes `Evaluation.EvalUnary` |
| Interpreting.Interpreter.VisitVariableExpr | src/Lox/Interpreting/Interpreter.cs:339-346 | computes `Evaluation.EvalVariable` and changes nothing |
| Interpreting.Interpreter.Interpret | src/Lox/Interpreting/Interpreter.cs:64-77 | leaves the outcome and the state that `Evaluation.Interpret` gives, and a valid state |
| Interpreting.Interpreter.ExecuteAll | src/Lox/Interpreting/Interpreter.cs:68-71 | the `foreach` runs the statements as `Evaluation.ExecList` says: in order, stopping at the first fault |
| Interpreting.Interpreter.Execute | src/Lox/Interpreting/Interpreter.cs:79-91 | leaves the outcome and the state that `Evaluation.Exec` gives |
| Interpreting.Interpreter.VisitBlockStmt | src/Lox/Interpreting/Interpreter.cs:112-117 | computes `Evaluation.ExecBlock`: a fresh scope enclosed by the current one, with `LastResult` reset only when the block completes |
| Interpreting.Interpreter.ExecuteBlock | src/Lox/Interpreting/Interpreter.cs:93-108 | runs the statements with the scope pushed, and pops it whether or not they fault |
| Interpreting.Interpreter.VisitExpressionStmt | src/Lox/Interpreting/Interpreter.cs:124-128 | computes `Evaluation.ExecExpression` |
| Interpreting.Interpreter.VisitIfStmt | src/Lox/Interpreting/Interpreter.cs:135-147 | computes `Evaluation.ExecIf` |
| Interpreting.Interpreter.VisitPrintStmt | src/Lox/Interpreting/Interpreter.cs:149-155 | computes `Evaluation.ExecPrint`, writing to the writer |
| Interpreting.Interpreter.VisitVarStmt | src/Lox/Interpreting/Interpreter.cs:162-173 | computes `Evaluation.ExecVar` |
| Interpreting.Interpreter.VisitWhileStmt | src/Lox/Interpreting/Interpreter.cs:175-183 | computes `Evaluation.ExecWhile` |
| Printers.LiteralText | src/Lox/Extensions/ExprExtensions.cs:14-15 | defines "nil" for null and the value's text otherwise; `PrinterProperties.ExampleOutput` shows it on numbers |
| Printers.ToLispString | src/Lox/Extensions/ExprExtensions.cs:5-24 | defines the Lisp-like text of every node kind; `PrinterProperties.PrintersAgree` proves it agrees with the visitor on the common fragment |
| Printers.IsWhiteSpace | src/Lox/Visitors/AstPrinter.cs:83 | defines the characters .NET counts as white space; `PrinterProperties.BlankOperatorDisagrees` shows what a blank name does |
| Printers.IsBlank | src/Lox/Visitors/AstPrinter.cs:83 | defines `string.IsNullOrWhiteSpace` on a non-null text; `Printers.Parenthesize` drops the name exactly when it holds |
| Printers.Parenthesized | src/Lox/Visitors/AstPrinter.cs:78-92 | defines the text `Parenthesize` builds; `Printers.Parenthesize` proves the builder produces it |
| Printers.AstPrint | src/Lox/Visitors/AstPrinter.cs:13-76 | defines the visitor, None where it throws; `PrinterProperties.AstPrintDefined` proves exactly where it throws |
| Printers.Join | src/Lox/Extensions/ExprExtensions.cs:9 | joining no parts gives the empty text, and joining one part gives that part |
| Printers.Parenthesize | src/Lox/Visitors/AstPrinter.cs:78-92 | builds the text `Parenthesized` describes: the name and a space only when the name is not blank |
| PrinterProperties.AstPrintDefined | src/Lox/Visitors/AstPrinter.cs:13-76 | the visitor prints exactly the trees made of binary, grouping, list, literal, logical and unary nodes, and throws on any other |
| PrinterProperties.PrintersAgree | src/Lox/Extensions/ExprExtensions.cs:5-24 | on the common fragment, where every operator has a visible lexeme, the visitor and `ToLispString` give the same text |
| PrinterProperties.BlankOperatorDisagrees | src/Lox/Visitors/AstPrinter.cs:78-92 | with an empty operator lexeme the visitor drops the name and its space, while `ToLispString` keeps the space |
| PrinterProperties.CallWithoutArguments | src/Lox/Extensions/ExprExtensions.cs:9 | a call with no arguments keeps the space after the callee |
| PrinterProperties.CallWithTwoArguments | src/Lox/Extensions/ExprExtensions.cs:9 | the arguments of a call are separated by single spaces |
| PrinterProperties.ExampleOutput | test/Lox.Test/AstPrinterTests.cs:8-21 | both printers write the tree of `-123 * (45.67)` as `(* (- 123) (group 45.67))` |
| Scenarios.ScannerTestTokens | test/Lox.Test/ScannerTests.cs:5-25 | scanning `-123 * (45.67)` completes at the end of the text on line 0 with MINUS, NUMBER `123`, STAR, LEFT_PAREN, NUMBER `45.67`, RIGHT_PAREN and EOF, all on line 0, the numbers valued as `parse` reads them, and nothing reported |
| Scenarios.SingleAdvance | src/Lox/Scanning/Scanner.cs:66-82 | a single-character lexeme moves the cursor one place and appends its token, whatever follows |
| Scenarios.BlankAdvance | src/Lox/Scanning/Scanner.cs:118-122 | a blank moves the cursor one place and emits nothing |
| Scenarios.NumberAdvance | src/Lox/Scanning/Scanner.cs:190-204 | a number token runs from its first digit to where `NumberEnd` stops, its value `parse` of its text |
| Scenarios.FirstNumberEnd | src/Lox/Scanning/Scanner.cs:190-201 | `123` in the test text ends at the blank after it |
| Scenarios.SecondNumberEnd | src/Lox/Scanning/Scanner.cs:194-201 | `45.67` in the test text takes its fractional part and ends at the `)` |
| Scenarios.NoOperatorAt | src/Lox/Parsing/Parser.cs:48-102 | before `)` or EOF none of the four operator loops runs: each returns its left operand where it stands |
| Scenarios.FactorIsExpression | src/Lox/Parsing/Parser.cs:43-102 | a factor followed by `)` or EOF is the whole expression at that position |
| Scenarios.LiteralIsUnary | src/Lox/Parsing/Parser.cs:104-125 | a number or string token is, on its own, the unary expression of its literal |
| Scenarios.NegationIsUnary | src/Lox/Parsing/Parser.cs:104-111 | `-` followed by a unary expression is that expression negated, ending where it ends |
| Scenarios.GroupIsUnary | src/Lox/Parsing/Parser.cs:104-132 | `(`, an expression and `)` are the grouping of that expression, ending after the `)` |
| Scenarios.LeftOperand | src/Lox/Parsing/Parser.cs:104-125 | in a list shaped `- n * ( m ) EOF` the first two tokens are the negation of the first literal |
| Scenarios.RightOperand | src/Lox/Parsing/Parser.cs:104-132 | in such a list tokens 3 to 5 are the grouping of the second literal |
| Scenarios.ProductParse | src/Lox/Parsing/Parser.cs:30-132 | every list shaped `- n * ( m ) EOF` parses to the product of the negated first literal and the grouped second one |
| Scenarios.ParserTestTree | test/Lox.Test/ParserTests.cs:7-26 | the test's token list parses to that product; with the numbers 123 and 45.67 it is the printer tests' tree, its tokens on line 0 |
| Scenarios.FrontEnd | test/Lox.Test/ParserTests.cs:17-25 | scanned, parsed and printed by either printer, `-123 * (45.67)` comes back as `(* (- 123) (group 45.67))` when the numbers read and print as .NET reads and prints them, on the grammar with `Equality` corrected |

## Left out

- Console I/O, the command-line host, the REPL and file execution sources are not modelled (they are I/O). The ConsoleErrorReporter, ServiceCollectionExtensions and Lox.cs top level are not part of this model.
- `Stringify` (used by `print`), .NET's `double.ToString()` and `double.Parse` are parameters: `stringify`, `showNumber` and `parse`.
- Floating point: numbers are exact reals. Rounding, infinities and NaN are not modelled. A division by zero is the `NonFinite` fault rather than an infinite or NaN value.
- Interpreting.Interpreter.VisitWhileStmt: every `while` loop is bounded by `fuel` iterations. A loop that would run longer stops with `OutOfFuel`, which the source has no counterpart for. The fuel lemmas show that larger budgets change nothing else.
- The node kinds the interpreter throws `NotImplementedException` on (call, get, set, super, this, class, function and return) are the `NotImplemented` fault. They are not modelled further.
- The statement parser, `for` loops, `break`/`continue` and conditional expressions are not modelled for the parser, because the parser here only parses expressions. The interpreter and printers still take the full syntax tree.
- Parsing.Parser.Parse: requires an EOF-terminated token list, as every list the scanner produces is. The source would index past the end of a list without EOF.
- Parsing.ParserCursor.Peek: requires the cursor on a token; the source throws on an out-of-range index.
- Parsing.ParserCursor.Previous: requires a token before the cursor; the source throws on an out-of-range index.
- Parsing.Parser.Synchronize: requires that `Previous` not read before the list. It is unreachable from `Parse` in this source.
- Scanning.ScannerCursor.Advance: requires a character left. The scanner method that would call it past the end instead returns the crash outcome, which `Scan` models as `Crashed`.
- A `ParseException` is the `Failed` result, and the scanner's out-of-range exception is `Crashed`/`OutOfRange`.
- The defensive guards in `Current`, `Pop`, `Nearest` and `Assigned` (an empty stack, a link to a scope that is not older, a missing scope) never apply in a valid state. They exist only to keep the functions total.
- `AstPrinter` visits its own node family. It is modelled on the shared syntax tree, and that family has no conditional expression, so `AstPrint` prints none. `Parenthesize` receives the children already printed.
- `Token.GetHashCode` is not modelled (it is hashing). It combines the literal, which `Equals` ignores.
- The superseded copies src/Lox/Interpreter.cs, src/Lox/Visitors/Interpreter.cs, src/Lox/AstPrinter.cs, src/Lox/Parser.cs and src/Lox/Scanner.cs are not part of this model. The Interpreting, Parsing, Scanning and Visitors versions are modelled instead.
- Visitor and `Accept` plumbing is not modelled; pattern matching on the datatype replaces it.
- Text is a sequence of Unicode scalar values (Dafny's `char`), not of UTF-16 code units as in C#. `ScanSpec.Scan`, `Scanning.Scanner.ScanTokens` and the cursor therefore step over a character outside the Basic Multilingual Plane once. Outside a string, such a character (U+1F600, say) gets one "Unexpected character." in the model, while the source reports one per surrogate, two in all (src/Lox/Scanning/Scanner.cs:139-142). Positions and the bounds of `CurrentText` count scalar values, so they differ from the source's indices after such a character, and a lone surrogate cannot occur in the model's input.
- Scenarios.ScannerTestTokens: the model's scan ends with the EOF token, which the list in `CanScanSourceTextIntoTokens` leaves out, and its literal values are whatever `parse` gives (`Token.Equals` ignores literals).
- Scenarios.ParserTestTree: it is stated for the grammar with `Equality` corrected (see Findings). Its tokens are on line 0, where the scanner puts them; the tree in `CanParseTokensIntoExpression` has line-1 tokens and an integer literal, and `Token.Equals` compares lines.
- Scenarios.FrontEnd: it is stated for the grammar with `Equality` corrected (see Findings). On this token list the source's `Parse` never returns, because `Equality` calls itself first (src/Lox/Parsing/Parser.cs:50).

## Findings

| source | as written | input that shows it | evidently intended | confidence | as-written member | corrected member |
|---|---|---|---|---|---|---|
| src/Lox/Scanning/Scanner.cs:104 | the block-comment loop runs while the character is not `*` AND the next is not `/`, with no end-of-input test, so `Advance` indexes past the end | "/*" and "/* abc" | skip to the first closing star-slash, stopping at the end of the input and reporting the unclosed comment | not executed | ScanProperties.UnterminatedBlockCommentCrashes | ScanProperties.BlockCommentEndCorrect |
| src/Lox/Scanning/Scanner.cs:104-110 | the same `&&` stops the loop at any `*` or any character before `/`, ending the comment early with a spurious error | "/* a*b */" scans as `b`, `*`, `/` plus "Expected close of block comment." | the whole comment is skipped with no diagnostic | not executed | ScanProperties.EarlyStopInBlockComment | ScanProperties.BlockCommentEnd |
| src/Lox/Parsing/Parser.cs:50 | `Equality()` first calls itself at the same position, so it recurses without end and `Parse` never returns | any token list | the first operand is `Comparison()` | not executed | ParseProperties.EqualityAsWrittenDiverges | Parsing.Parser.Equality |
