# jlox scanner, modelled and verified in Dafny

This project models the lexical scanner of jlox, a tree-walking
interpreter for the Lox language (`jlox/Scanner.java`), and proves what
it guarantees about the tokens it produces.

The scanner makes one left-to-right pass over a source string. It keeps
two cursors, `start` and `current`, and a `line` counter, and it appends
tokens to a list. Its lexing rules are:

- single-character punctuation;
- maximal munch for `!=`, `==`, `<=` and `>=`;
- skipped `//` comments and whitespace;
- string literals without escapes, which may span lines;
- number literals that leave a trailing `.` alone;
- identifiers, with no keyword lookup;
- a diagnostic for any other character, after which scanning continues.

The project has four modules:

- `Tokens` (`tokens.dfy`): the token kinds the scanner emits, literal values, tokens and diagnostics.
- `Lexer` (`lexer.dfy`): the reference definition as pure functions over a `ScanState`:
  - `Step` scans one lexeme;
  - `ScanFrom` steps until the end of the source;
  - `Scan` is a whole scan followed by the EOF token.

  The scanner's loops are described by `RunEnd`, the end of a maximal run of characters of one kind.
- `Scanning` (`scanner.dfy`): the `Scanner` class in its original imperative form:
  - the same fields and the same `while` loops, with the comment loop of `scanToken` moved into the helper method `SkipLineComment`;
  - one `AddToken` method that takes the literal (`NoLiteral` for Java's `null`) in place of Java's two `addToken` overloads;
  - the character classes `IsDigit`, `IsAlpha` and `IsAlphaNumeric` as predicates of `Lexer` rather than methods of the class;
  - each method is proved to perform exactly the matching step of `Lexer`.
- `LexerProperties` (`properties.dfy`):
  - the lexing rules, stated one case at a time;
  - the invariant `Consistent`, which every step preserves;
  - the resulting guarantees about a complete scan: exactly one final EOF, lexemes that are ordered source slices, the line count, per-kind token shapes and the diagnostics;
  - concrete examples.

A diagnostic that `Lox.error` would print is recorded as an entry
`Diagnostic(line, message)` appended to the scanner's `errors` log. A
ghost field `spans` records the source slice `[start, current)` of each
token. It exists only to state the slice property and does not exist in
the original.

## Model

| member | source | states |
|---|---|---|
| Lexer.CharAt | jlox/Scanner.java:181-196 | the lookahead character is the source character at the index, or `'\0'` once the index is past the end |
| Lexer.RunEnd | jlox/Scanner.java:119-121 | the end of a maximal run lies between its start and the end of the source |
| Lexer.RunEndIsMaximal | jlox/Scanner.java:145-151 | every character a scanning loop consumes continues its run, and the loop stops at the end of the source or at the first character that does not |
| Lexer.NewlinesSplit | jlox/Scanner.java:145-148 | the number of newlines in adjacent slices adds up, so newlines counted inside a string and by the newline case together count each newline once |
| Lexer.Step | jlox/Scanner.java:33-116 | one step always consumes at least one character and never moves past the end of the source |
| Lexer.IsDigit | jlox/Scanner.java:206-208 | an ASCII decimal digit; no digit is also a letter, so the number and identifier cases never overlap |
| Lexer.IsAlpha | jlox/Scanner.java:198-200 | an ASCII letter or `_`; never the `'\0'` lookahead sentinel |
| Lexer.IsAlphaNumeric | jlox/Scanner.java:202-204 | a letter, `_` or digit; never the `'\0'` sentinel, a newline or a double quote, so a word never crosses a line or a string |
| Lexer.Initial | jlox/Scanner.java:12-17 | a fresh scanner is at index 0 on line 1, with no tokens and no diagnostics |
| Lexer.AddToken | jlox/Scanner.java:223-226 | appending a token adds exactly one token and leaves the cursor, the line and the diagnostics unchanged |
| Lexer.OperatorStep | jlox/Scanner.java:69-80 | an operator step emits exactly one token, consumes at most one extra character, and reports nothing |
| Lexer.StringStep | jlox/Scanner.java:144-164 | a string step never moves the line backwards, and it adds either exactly one token or exactly one diagnostic |
| Lexer.NumberStep | jlox/Scanner.java:126-142 | a number step emits exactly one token on the current line and reports nothing |
| Lexer.IdentifierStep | jlox/Scanner.java:118-124 | an identifier step emits exactly one token on the current line and reports nothing |
| Lexer.ScanFrom | jlox/Scanner.java:24-27 | stepping to the end stops exactly at the end of the source and never moves the line backwards |
| Lexer.Finish | jlox/Scanner.java:29 | it appends the EOF token on the final line and changes nothing else |
| Lexer.Scan | jlox/Scanner.java:23-31 | a complete scan consumes the whole source and ends with an EOF token on its final line |
| Lexer.NumberEnd | jlox/Scanner.java:127-139 | a number's end lies between its start and the end of the source |
| Scanning.Scanner.constructor | jlox/Scanner.java:11-21 | a fresh scanner is at index 0 on line 1, with no tokens and no diagnostics |
| Scanning.Scanner.ScanTokens | jlox/Scanner.java:23-31 | the loop terminates; it leaves exactly the state of the reference scan from the current state, plus an EOF token on the final line; it returns that token list |
| Scanning.Scanner.ScanToken | jlox/Scanner.java:33-116 | scanning one lexeme changes the cursor, line, tokens and diagnostics exactly as one `Lexer.Step` does |
| Scanning.Scanner.SkipLineComment | jlox/Scanner.java:83-85 | the comment loop stops at the first newline after the cursor, or at the end of the source |
| Scanning.Scanner.ScanIdentifier | jlox/Scanner.java:118-124 | identifier scanning emits exactly the reference identifier step |
| Scanning.Scanner.ScanNumber | jlox/Scanner.java:126-142 | number scanning, including the optional fraction, emits exactly the reference number step |
| Scanning.Scanner.ScanString | jlox/Scanner.java:144-164 | string scanning counts the newlines it crosses; it emits the reference string token or reports an unterminated string |
| Scanning.Scanner.Match | jlox/Scanner.java:166-177 | it reports a match if and only if a next character exists and equals the expected one; it advances by one exactly on a match and otherwise leaves `current` unchanged |
| Scanning.Scanner.Peek | jlox/Scanner.java:181-187 | it returns the character at `current`, or `'\0'` at the end |
| Scanning.Scanner.PeekNext | jlox/Scanner.java:190-196 | it returns the character after `current`, or `'\0'` past the end |
| Scanning.Scanner.IsAtEnd | jlox/Scanner.java:210-212 | once the source is consumed, both lookaheads yield only the `'\0'` sentinel |
| Scanning.Scanner.Advance | jlox/Scanner.java:215-217 | it returns the character at `current` and moves past it |
| Scanning.Scanner.AddToken | jlox/Scanner.java:219-226 | it appends one token whose lexeme is the slice `[start, current)`, on the current line |
| Scanning.Lex | jlox/Scanner.java:19-31 | a fresh scanner's token list and diagnostics are those of the reference scan `Lexer.Scan` |
| LexerProperties.LineAtWithoutNewlines | jlox/Scanner.java:97-99 | consuming characters other than newlines leaves the line unchanged |
| LexerProperties.RunEndStops | jlox/Scanner.java:145-151 | a scanning loop stops exactly at the first character that does not continue its run |
| LexerProperties.StepPunctuation | jlox/Scanner.java:37-66 | each of the ten punctuation characters becomes a one-character token of its kind, with no literal |
| LexerProperties.StepOperator | jlox/Scanner.java:69-80 | `!`, `=`, `<` or `>` followed by `=` becomes the two-character kind; otherwise it becomes the one-character kind, consuming one character |
| LexerProperties.StepSlash | jlox/Scanner.java:81-88 | a `/` not followed by `/` becomes `Slash` |
| LexerProperties.StepLineComment | jlox/Scanner.java:81-86 | `//` consumes up to, but not including, the next newline or the end of input, and emits nothing |
| LexerProperties.StepBlank | jlox/Scanner.java:91-95 | a space, `'\r'` or `'\t'` is consumed and emits nothing |
| LexerProperties.StepNewline | jlox/Scanner.java:97-99 | a newline is consumed, emits nothing and advances the line by one |
| LexerProperties.StepString | jlox/Scanner.java:144-164 | a terminated string emits one `String` token: the lexeme runs from quote to quote, the literal is the text strictly between the quotes, and the line is that of the closing quote |
| LexerProperties.StepUnterminatedString | jlox/Scanner.java:153-156 | an unterminated string consumes the rest of the input, emits no token, and reports "Unterminated string" on the last line |
| LexerProperties.StepNumber | jlox/Scanner.java:126-142 | a digit starts a `Number` token that runs to `NumberEnd`; its value is its own text |
| LexerProperties.StepIdentifier | jlox/Scanner.java:118-124 | a letter or `_` starts an `Identifier` token with no literal, running over the maximal alphanumeric run |
| LexerProperties.StepUnexpected | jlox/Scanner.java:106-114 | any other character is consumed and reported as "Unexpected character." on the current line; no token is emitted |
| LexerProperties.NumberLexeme | jlox/Scanner.java:126-142 | a number lexeme is a run of digits, optionally with one `.` that has digits on both sides; it is followed neither by a digit nor, when it has no fraction, by `.` and a digit |
| LexerProperties.IdentifierLexeme | jlox/Scanner.java:198-208 | an identifier lexeme starts with `[A-Za-z_]`, consists of `[A-Za-z0-9_]`, and is not followed by another such character |
| LexerProperties.StringLexeme | jlox/Scanner.java:158-163 | a terminated string's lexeme is quote, text without quotes, quote; its literal is that text |
| LexerProperties.EmitKeeps | jlox/Scanner.java:223-226 | appending a well-formed token scanned from the cursor preserves the invariant |
| LexerProperties.SkipKeeps | jlox/Scanner.java:91-99 | consuming input without emitting a token, and possibly reporting a diagnostic, preserves the invariant |
| LexerProperties.PunctuationStepKeeps | jlox/Scanner.java:37-88 | a punctuation mark or a lone slash preserves the invariant |
| LexerProperties.OperatorStepKeeps | jlox/Scanner.java:69-80 | a one- or two-character operator preserves the invariant |
| LexerProperties.NumberStepKeeps | jlox/Scanner.java:126-142 | a number preserves the invariant |
| LexerProperties.IdentifierStepKeeps | jlox/Scanner.java:118-124 | an identifier preserves the invariant |
| LexerProperties.StringKeeps | jlox/Scanner.java:144-164 | a string literal, terminated or not, preserves the invariant |
| LexerProperties.SilentStepKeeps | jlox/Scanner.java:81-114 | a whitespace character, a newline, a comment, a string or an unexpected character preserves the invariant |
| LexerProperties.StepKeepsConsistent | jlox/Scanner.java:33-116 | every step preserves the invariant |
| LexerProperties.ScanFromConsistent | jlox/Scanner.java:24-27 | the scanning loop preserves the invariant and consumes the whole source |
| LexerProperties.ScanConsistent | jlox/Scanner.java:23-31 | a complete scan is consistent up to its final EOF token |
| LexerProperties.ScanEndsWithEof | jlox/Scanner.java:29 | the token list ends with exactly one EOF token, which has lexeme `""`, no literal and the last line; no other token is EOF |
| LexerProperties.ScanCountsLines | jlox/Scanner.java:17 | the scan consumes the whole source, and the final line is 1 plus the number of newlines in the source |
| LexerProperties.ScanLexemesAreSlices | jlox/Scanner.java:223-226 | every non-EOF lexeme is exactly the source slice it was scanned from and carries the line on which that slice ends; the slices are in source order and never overlap |
| LexerProperties.ScanTokensShaped | jlox/Scanner.java:33-164 | every non-EOF token has the shape its kind demands (string, number, identifier, punctuation or operator), and the next character could not have extended it |
| LexerProperties.ScanDiagnostics | jlox/Scanner.java:112 | every diagnostic is "Unexpected character." or "Unterminated string", reported on a line of the source |
| LexerProperties.ExampleLessEqual | jlox/Scanner.java:75-77 | `<=` scans to `LessEqual` and then EOF |
| LexerProperties.ExampleTrailingDot | jlox/Scanner.java:132 | `12.` scans to `Number "12"`, `Dot`, EOF |
| LexerProperties.ExampleFraction | jlox/Scanner.java:132-139 | `12.34` scans to one `Number` token |
| LexerProperties.ExampleString | jlox/Scanner.java:144-164 | a string after a newline scans to a `String` token on line 2 whose value excludes the quotes |
| LexerProperties.ExampleComment | jlox/Scanner.java:81-85 | a comment emits nothing, and the newline after it is still counted |
| LexerProperties.ExampleUnexpected | jlox/Scanner.java:111-113 | `@;` reports one unexpected character and still emits the `;` |
| LexerProperties.ExampleUnterminated | jlox/Scanner.java:153-156 | an unterminated string spanning a newline reports an error on line 2 and emits only EOF |

## Left out

- The NUMBER literal is not converted to a double. `Double.parseDouble` (jlox/Scanner.java:141) is floating point. The literal is kept as the lexeme text (`NumberValue(text)`), which is the exact input of that conversion.
- `Lox.error` (jlox/Scanner.java:112, 154) belongs to a class that is not part of this model. Its printing and any error flag are left out. Each call is modelled as an entry appended to the `errors` log.
- Keyword recognition is absent from the source: the `HashMap`/`Map` imports are unused. Every word is an `Identifier` with no literal: `addToken(IDENTIFIER)` passes `null` (jlox/Scanner.java:123).
- Java `int` overflow of `current` and `line` is not modelled: a Java string is shorter than 2^31 characters, so neither counter can overflow.
- `scanTokens` returns its internal list itself, so the caller aliases the scanner's state. The model returns the sequence value, so later mutation through that alias is not captured.
- The source is modelled as a sequence of Unicode scalar values (Dafny `char`), not of UTF-16 code units (Java `char`). Two behaviours differ as a result:
  - A character outside the Basic Multilingual Plane, such as U+1F600, is two Java `char`s. Outside a string or comment, jlox reports "Unexpected character." once for each of the two (jlox/Scanner.java:106-113). The model sees one character and reports it once. Inside strings and comments, the lexeme and literal text are the same in both.
  - A Java `String` can hold a lone surrogate, which a Dafny `string` cannot represent, so such input is outside the model.
- jlox/LoxFunction.java and jlox/Return.java are not part of this model. They belong to the interpreter, not the scanner.
- Scanning.Scanner.ScanTokens: requires `Valid()` (both cursors within the source). The constructor establishes it and every method preserves it. The Java code never states it but relies on it.
