/** The reference definition of the jlox scanner as pure functions.

    A scan is a sequence of steps over a `ScanState`; each step starts at
    the `current` cursor (the scanner's `start`), consumes at least one
    character and may append one token or one diagnostic. The imperative
    `Scanning.Scanner` class is proved to follow these functions step by
    step, and `LexerProperties` proves what they guarantee. */
module Lexer {
  import opened Tokens

  // ---------------------------------------------------------------------
  // Character classes

  /** A decimal digit. Digits and letters are disjoint, which is why the
      scanner's fallback tests one before the other without overlap. */
  predicate IsDigit(c: char)
    ensures IsDigit(c) ==> !IsAlpha(c)
  {
    '0' <= c <= '9'
  }

  /** An ASCII letter or underscore. */
  predicate IsAlpha(c: char)
    ensures IsAlpha(c) ==> c != '\0'
  {
    ('a' <= c <= 'z') || ('A' <= c <= 'Z') || c == '_'
  }

  /** A character that continues an identifier: never the `'\0'`
      lookahead sentinel, a newline or a double quote. */
  predicate IsAlphaNumeric(c: char)
    ensures IsAlphaNumeric(c) ==> c != '\0' && c != '\n' && c != '"'
  {
    IsAlpha(c) || IsDigit(c)
  }

  /** The runs of characters the scanner consumes in a loop: the digits of
      a number, the letters, digits and underscores of an identifier, the
      text of a line comment (up to a newline) and the text of a string
      literal (up to a double quote). */
  datatype Run = Digits | Word | CommentText | StringText

  /** Whether `c` continues a run of the given kind. */
  predicate Continues(run: Run, c: char) {
    match run
    case Digits => IsDigit(c)
    case Word => IsAlphaNumeric(c)
    case CommentText => c != '\n'
    case StringText => c != '"'
  }

  /** The character `i` positions into `s`, or the `'\0'` sentinel that
      the scanner's lookahead returns past the end of the source. */
  function CharAt(s: string, i: nat): (c: char)
    ensures i < |s| ==> c == s[i]
    ensures i >= |s| ==> c == '\0'
  {
    if i < |s| then s[i] else '\0'
  }

  /** The end of the maximal run of characters satisfying `p` that starts
      at `i`: the first index at or after `i` that is the end of the
      source or holds a character failing `p`. Every scanner loop that
      advances "while the next character is ..." stops here. */
  function RunEnd(s: string, i: nat, run: Run): (r: nat)
    requires i <= |s|
    ensures i <= r <= |s|
    decreases |s| - i
  {
    if i < |s| && Continues(run, s[i]) then RunEnd(s, i + 1, run) else i
  }

  /** `RunEnd` ends a maximal run: every character before it satisfies
      `p`, and the one at it (if any) does not. */
  lemma {:induction false} RunEndIsMaximal(s: string, i: nat, run: Run)
    requires i <= |s|
    ensures forall k :: i <= k < RunEnd(s, i, run) ==> Continues(run, s[k])
    ensures RunEnd(s, i, run) == |s| || !Continues(run, s[RunEnd(s, i, run)])
    decreases |s| - i
  {
    if i < |s| && Continues(run, s[i]) {
      RunEndIsMaximal(s, i + 1, run);
    }
  }

  /** The number of newline characters in the slice `s[a..b]`. */
  function Newlines(s: string, a: nat, b: nat): nat
    requires a <= b <= |s|
    decreases b - a
  {
    if a == b then 0 else Newlines(s, a, b - 1) + (if s[b - 1] == '\n' then 1 else 0)
  }

  /** Counting newlines distributes over adjacent slices. */
  lemma {:induction false} NewlinesSplit(s: string, a: nat, b: nat, c: nat)
    requires a <= b <= c <= |s|
    ensures Newlines(s, a, c) == Newlines(s, a, b) + Newlines(s, b, c)
    decreases c - b
  {
    if b < c {
      NewlinesSplit(s, a, b, c - 1);
    }
  }

  // ---------------------------------------------------------------------
  // Scanner state

  /** The source slice `[start, end)` a token was scanned from. */
  datatype Span = Span(start: nat, end: nat)

  /** The scanner's mutable state: the `current` cursor, the `line`
      counter, the tokens emitted so far, the source span of each of them,
      and the diagnostics reported so far. */
  datatype ScanState = ScanState(
    current: nat,
    line: nat,
    tokens: seq<Token>,
    spans: seq<Span>,
    errors: seq<Diagnostic>)

  /** A freshly constructed scanner: at the first character, on line 1. */
  function Initial(): (r: ScanState)
    ensures r.current == 0 && r.line == 1
    ensures r.tokens == [] && r.spans == [] && r.errors == []
  {
    ScanState(0, 1, [], [], [])
  }

  /** Appends a token of the given kind whose lexeme is the slice from
      `start` to the current cursor, on the current line. */
  function AddToken(s: string, st: ScanState, start: nat, kind: TokenType, literal: Literal): (r: ScanState)
    requires start <= st.current <= |s|
    ensures r.current == st.current && r.line == st.line && r.errors == st.errors
    ensures |r.tokens| == |st.tokens| + 1
  {
    st.(tokens := st.tokens + [Token(kind, s[start..st.current], literal, st.line)],
        spans := st.spans + [Span(start, st.current)])
  }

  /** The operator case of a step: with `st.current` just after the
      operator character, consume a following `=` if there is one and emit
      the two-character kind, otherwise emit the one-character kind. */
  function OperatorStep(s: string, st: ScanState, start: nat, two: TokenType, one: TokenType): (r: ScanState)
    requires start < st.current <= |s|
    ensures st.current <= r.current <= st.current + 1 && r.current <= |s|
    ensures r.line == st.line && r.errors == st.errors && |r.tokens| == |st.tokens| + 1
  {
    if st.current < |s| && s[st.current] == '=' then
      AddToken(s, st.(current := st.current + 1), start, two, NoLiteral)
    else
      AddToken(s, st, start, one, NoLiteral)
  }

  /** The string-literal case: `st.current` is just after the opening
      quote at `start`. Consumes up to the closing quote, counting the
      newlines inside; at end of input reports an unterminated string
      instead of emitting a token. */
  function StringStep(s: string, st: ScanState, start: nat): (r: ScanState)
    requires st.current == start + 1 <= |s|
    ensures st.current <= r.current <= |s| && st.line <= r.line
    ensures |r.tokens| + |r.errors| == |st.tokens| + |st.errors| + 1
  {
    var close := RunEnd(s, st.current, StringText);
    var line := st.line + Newlines(s, st.current, close);
    if close == |s| then
      st.(current := close, line := line,
          errors := st.errors + [Diagnostic(line, UnterminatedString)])
    else
      AddToken(s, st.(current := close + 1, line := line), start, String, StringValue(s[start + 1..close]))
  }

  /** The end of a number literal whose integer digits continue at `i`: a
      run of digits, extended by a `.` and a second run of digits only when
      the character after the `.` is a digit. */
  function NumberEnd(s: string, i: nat): (r: nat)
    requires i <= |s|
    ensures i <= r <= |s|
  {
    var whole := RunEnd(s, i, Digits);
    if CharAt(s, whole) == '.' && IsDigit(CharAt(s, whole + 1)) then RunEnd(s, whole + 1, Digits) else whole
  }

  /** The number case: `st.current` is just after the first digit at
      `start`. The literal value is the lexeme text. */
  function NumberStep(s: string, st: ScanState, start: nat): (r: ScanState)
    requires st.current == start + 1 <= |s|
    ensures st.current <= r.current <= |s|
    ensures r.line == st.line && r.errors == st.errors && |r.tokens| == |st.tokens| + 1
  {
    var end := NumberEnd(s, st.current);
    AddToken(s, st.(current := end), start, Number, NumberValue(s[start..end]))
  }

  /** The identifier case: `st.current` is just after the first letter at
      `start`. Consumes a run of letters, digits and underscores. */
  function IdentifierStep(s: string, st: ScanState, start: nat): (r: ScanState)
    requires st.current == start + 1 <= |s|
    ensures st.current <= r.current <= |s|
    ensures r.line == st.line && r.errors == st.errors && |r.tokens| == |st.tokens| + 1
  {
    AddToken(s, st.(current := RunEnd(s, st.current, Word)), start, Identifier, NoLiteral)
  }

  /** One step of the scan: the character at `st.current` decides what is
      consumed and what, if anything, is emitted. */
  function Step(s: string, st: ScanState): (r: ScanState)
    requires st.current < |s|
    ensures st.current < r.current <= |s| && st.line <= r.line
  {
    var start := st.current;
    var c := s[start];
    var next := st.(current := start + 1);
    match c
    case '(' => AddToken(s, next, start, LeftParen, NoLiteral)
    case ')' => AddToken(s, next, start, RightParen, NoLiteral)
    case '{' => AddToken(s, next, start, LeftBrace, NoLiteral)
    case '}' => AddToken(s, next, start, RightBrace, NoLiteral)
    case ',' => AddToken(s, next, start, Comma, NoLiteral)
    case '.' => AddToken(s, next, start, Dot, NoLiteral)
    case '-' => AddToken(s, next, start, Minus, NoLiteral)
    case '+' => AddToken(s, next, start, Plus, NoLiteral)
    case ';' => AddToken(s, next, start, Semicolon, NoLiteral)
    case '*' => AddToken(s, next, start, Star, NoLiteral)
    case '!' => OperatorStep(s, next, start, BangEqual, Bang)
    case '=' => OperatorStep(s, next, start, EqualEqual, Equal)
    case '<' => OperatorStep(s, next, start, LessEqual, Less)
    case '>' => OperatorStep(s, next, start, GreaterEqual, Greater)
    case '/' =>
      if start + 1 < |s| && s[start + 1] == '/' then
        next.(current := RunEnd(s, start + 2, CommentText))
      else
        AddToken(s, next, start, Slash, NoLiteral)
    case ' ' => next
    case '\r' => next
    case '\t' => next
    case '\n' => next.(line := st.line + 1)
    case '"' => StringStep(s, next, start)
    case _ =>
      if IsDigit(c) then NumberStep(s, next, start)
      else if IsAlpha(c) then IdentifierStep(s, next, start)
      else next.(errors := st.errors + [Diagnostic(st.line, UnexpectedCharacter)])
  }

  /** Steps from `st` until the cursor reaches the end of the source. */
  function ScanFrom(s: string, st: ScanState): (r: ScanState)
    ensures st.current <= |s| ==> r.current == |s|
    ensures st.line <= r.line
    decreases |s| - st.current
  {
    if st.current >= |s| then st else ScanFrom(s, Step(s, st))
  }

  /** Appends the end-of-input token on the final line. */
  function Finish(st: ScanState): (r: ScanState)
    ensures r.current == st.current && r.line == st.line && r.errors == st.errors
    ensures r.tokens == st.tokens + [EofToken(st.line)]
  {
    st.(tokens := st.tokens + [EofToken(st.line)])
  }

  /** The complete scan of `s` by a fresh scanner. */
  function Scan(s: string): (r: ScanState)
    ensures r.current == |s| && r.line >= 1
    ensures |r.tokens| >= 1 && r.tokens[|r.tokens| - 1] == EofToken(r.line)
  {
    Finish(ScanFrom(s, Initial()))
  }
}
