/** What the jlox scanner guarantees about its output, proved of the
    reference definition in `Lexer` (and so, through the step-by-step
    correspondence, of the `Scanning.Scanner` class).

    The central invariant is `Consistent`: every token emitted so far is
    the exact source slice recorded in its span, the spans appear in
    source order without overlapping, each token has the shape its kind
    demands (maximal munch included), and the line counter equals one
    plus the number of newlines consumed. */
module LexerProperties {
  import opened Tokens
  import opened Lexer

  datatype Option<T> = None | Some(value: T)

  // ---------------------------------------------------------------------
  // Vocabulary

  /** The 1-based line holding position `i` of `s` (the line a scanner
      whose cursor is at `i` is on). */
  function LineAt(s: string, i: nat): (l: nat)
    requires i <= |s|
    ensures l >= 1
  {
    1 + Newlines(s, 0, i)
  }

  /** Whether the character at position `i` exists and is `c`. */
  predicate NextIs(s: string, i: nat, c: char) {
    i < |s| && s[i] == c
  }

  /** The kind a single-character punctuation mark scans to, if it is one. */
  function PunctuationKind(c: char): (k: Option<TokenType>)
  {
    match c
    case '(' => Some(LeftParen)
    case ')' => Some(RightParen)
    case '{' => Some(LeftBrace)
    case '}' => Some(RightBrace)
    case ',' => Some(Comma)
    case '.' => Some(Dot)
    case '-' => Some(Minus)
    case '+' => Some(Plus)
    case ';' => Some(Semicolon)
    case '*' => Some(Star)
    case _ => None
  }

  /** The kind an operator character scans to, alone (`two` false) or
      followed by `=` (`two` true). */
  function OperatorKind(c: char, two: bool): (k: Option<TokenType>)
  {
    match c
    case '!' => Some(if two then BangEqual else Bang)
    case '=' => Some(if two then EqualEqual else Equal)
    case '<' => Some(if two then LessEqual else Less)
    case '>' => Some(if two then GreaterEqual else Greater)
    case _ => None
  }

  /** A string literal's lexeme: two double quotes with none in between. */
  ghost predicate IsStringLexeme(lx: string) {
    && |lx| >= 2 && lx[0] == '"' && lx[|lx| - 1] == '"'
    && forall k :: 0 < k < |lx| - 1 ==> lx[k] != '"'
  }

  /** A number literal's lexeme: digits, optionally with a single `.` that
      has digits on both sides. */
  ghost predicate IsNumberLexeme(lx: string) {
    && |lx| > 0 && IsDigit(lx[0]) && IsDigit(lx[|lx| - 1])
    && (forall k :: 0 <= k < |lx| ==> IsDigit(lx[k]) || lx[k] == '.')
    && (forall j, k :: 0 <= j < k < |lx| && lx[j] == '.' ==> lx[k] != '.')
  }

  /** An identifier's lexeme: a letter or underscore, then letters,
      digits and underscores. */
  ghost predicate IsIdentifierLexeme(lx: string) {
    && |lx| > 0 && IsAlpha(lx[0])
    && forall k :: 0 <= k < |lx| ==> IsAlphaNumeric(lx[k])
  }

  /** Token `t`, whose lexeme ends at position `end` of `s`, has the shape
      its kind demands, and could not have been extended (maximal munch). */
  ghost predicate Shaped(s: string, t: Token, end: nat)
    requires end <= |s|
  {
    var lx := t.lexeme;
    match t.kind
    case String =>
      IsStringLexeme(lx) && t.literal == StringValue(lx[1..|lx| - 1])
    case Number =>
      && IsNumberLexeme(lx) && t.literal == NumberValue(lx)
      && !(end < |s| && IsDigit(s[end]))
      && ('.' !in lx ==> !(NextIs(s, end, '.') && end + 1 < |s| && IsDigit(s[end + 1])))
    case Identifier =>
      && IsIdentifierLexeme(lx) && t.literal == NoLiteral
      && !(end < |s| && IsAlphaNumeric(s[end]))
    case Eof => false
    case _ =>
      && t.literal == NoLiteral
      && |lx| in {1, 2}
      && (|lx| == 1 ==>
            || PunctuationKind(lx[0]) == Some(t.kind)
            || (OperatorKind(lx[0], false) == Some(t.kind) && !NextIs(s, end, '='))
            || (lx[0] == '/' && t.kind == Slash && !NextIs(s, end, '/')))
      && (|lx| == 2 ==> lx[1] == '=' && OperatorKind(lx[0], true) == Some(t.kind))
  }

  /** Token `t` was scanned from span `sp` of `s`: its lexeme is that
      slice, it carries the line the slice ends on, and it is well shaped. */
  ghost predicate Lexed(s: string, t: Token, sp: Span) {
    && sp.start < sp.end <= |s|
    && t.lexeme == s[sp.start..sp.end]
    && t.line == LineAt(s, sp.end)
    && Shaped(s, t, sp.end)
  }

  /** A diagnostic the scanner can report, on a line reached so far. */
  ghost predicate Reportable(e: Diagnostic, line: nat) {
    && (e.message == UnexpectedCharacter || e.message == UnterminatedString)
    && 1 <= e.line <= line
  }

  /** The invariant of every scan state reachable from `Initial()`. */
  ghost predicate Consistent(s: string, st: ScanState) {
    && st.current <= |s|
    && st.line == LineAt(s, st.current)
    && |st.spans| == |st.tokens|
    && (forall i :: 0 <= i < |st.tokens| ==> Lexed(s, st.tokens[i], st.spans[i]))
    && (forall i :: 0 <= i < |st.spans| ==> st.spans[i].end <= st.current)
    && (forall i, j :: 0 <= i < j < |st.spans| ==> st.spans[i].end <= st.spans[j].start)
    && (forall e :: e in st.errors ==> Reportable(e, st.line))
  }

  // ---------------------------------------------------------------------
  // Lines

  /** Consuming characters other than newlines leaves the line unchanged. */
  lemma {:induction false} LineAtWithoutNewlines(s: string, a: nat, b: nat)
    requires a <= b <= |s|
    requires forall k :: a <= k < b ==> s[k] != '\n'
    ensures LineAt(s, b) == LineAt(s, a)
    decreases b - a
  {
    if a < b {
      LineAtWithoutNewlines(s, a, b - 1);
    }
  }

  /** A run stops at the first character that does not continue it. */
  lemma {:induction false} RunEndStops(s: string, i: nat, stop: nat, run: Run)
    requires i <= stop <= |s|
    requires forall k :: i <= k < stop ==> Continues(run, s[k])
    requires stop == |s| || !Continues(run, s[stop])
    ensures RunEnd(s, i, run) == stop
    decreases stop - i
  {
    if i < stop {
      RunEndStops(s, i + 1, stop, run);
    }
  }

  // ---------------------------------------------------------------------
  // The shapes of the multi-character lexemes

  /** A number scanned from the digit at `start` is a well-formed number
      lexeme, contains no newline, and is maximal. */
  lemma {:induction false} NumberLexeme(s: string, start: nat)
    requires start < |s| && IsDigit(s[start])
    ensures var end := NumberEnd(s, start + 1); var lx := s[start..end];
      && start < end
      && IsNumberLexeme(lx)
      && !(end < |s| && IsDigit(s[end]))
      && ('.' !in lx ==> !(NextIs(s, end, '.') && end + 1 < |s| && IsDigit(s[end + 1])))
      && (forall k :: start <= k < end ==> s[k] != '\n')
  {
    var whole := RunEnd(s, start + 1, Digits);
    RunEndIsMaximal(s, start + 1, Digits);
    var end := NumberEnd(s, start + 1);
    var lx := s[start..end];
    if CharAt(s, whole) == '.' && IsDigit(CharAt(s, whole + 1)) {
      RunEndIsMaximal(s, whole + 1, Digits);
      assert end > whole + 1;
      assert lx[whole - start] == '.';
      assert forall k :: 0 <= k < |lx| && k != whole - start ==> IsDigit(lx[k]);
    } else {
      assert forall k :: 0 <= k < |lx| ==> IsDigit(lx[k]);
      assert '.' !in lx;
    }
  }

  /** An identifier scanned from the letter at `start` is a well-formed
      identifier lexeme, contains no newline, and is maximal. */
  lemma {:induction false} IdentifierLexeme(s: string, start: nat)
    requires start < |s| && IsAlpha(s[start])
    ensures var end := RunEnd(s, start + 1, Word); var lx := s[start..end];
      && start < end
      && IsIdentifierLexeme(lx)
      && !(end < |s| && IsAlphaNumeric(s[end]))
      && (forall k :: start <= k < end ==> s[k] != '\n')
  {
    RunEndIsMaximal(s, start + 1, Word);
  }

  // ---------------------------------------------------------------------
  // What one step does, case by case

  /** `st` after consuming up to `end` (now on `line`) and emitting `t`,
      scanned from the cursor up to `end`. */
  function Emit(st: ScanState, end: nat, line: nat, t: Token): (r: ScanState)
  {
    st.(current := end, line := line, tokens := st.tokens + [t], spans := st.spans + [Span(st.current, end)])
  }

  /** `st` after consuming up to `end` (now on `line`) without emitting a
      token, reporting the diagnostics `reported`. */
  function Skip(st: ScanState, end: nat, line: nat, reported: seq<Diagnostic>): (r: ScanState)
  {
    st.(current := end, line := line, errors := st.errors + reported)
  }

  /** A newline is consumed and advances the line counter. */
  lemma {:induction false} StepNewline(s: string, st: ScanState)
    requires st.current < |s| && s[st.current] == '\n'
    ensures Step(s, st) == Skip(st, st.current + 1, st.line + 1, [])
  {
  }

  /** A blank, carriage return or tab is consumed silently. */
  lemma {:induction false} StepBlank(s: string, st: ScanState)
    requires st.current < |s| && s[st.current] in " \r\t"
    ensures Step(s, st) == Skip(st, st.current + 1, st.line, [])
  {
  }

  /** A character that begins no lexeme is consumed and reported, on the
      current line, as unexpected; scanning goes on. */
  lemma {:induction false} StepUnexpected(s: string, st: ScanState)
    requires st.current < |s|
    requires var c := s[st.current]; !IsAlphaNumeric(c) && c !in "(){},.-+;*!=<>/\" \r\t\n"
    ensures Step(s, st) == Skip(st, st.current + 1, st.line, [Diagnostic(st.line, UnexpectedCharacter)])
  {
  }

  /** A punctuation mark is a one-character token of its kind. */
  lemma {:induction false} StepPunctuation(s: string, st: ScanState)
    requires st.current < |s| && PunctuationKind(s[st.current]).Some?
    ensures var c := s[st.current];
      Step(s, st) == Emit(st, st.current + 1, st.line, Token(PunctuationKind(c).value, [c], NoLiteral, st.line))
  {
    assert s[st.current..st.current + 1] == [s[st.current]];
  }

  /** Maximal munch: an operator character followed by `=` is a
      two-character token, otherwise a one-character token. */
  lemma {:induction false} StepOperator(s: string, st: ScanState)
    requires st.current < |s| && OperatorKind(s[st.current], false).Some?
    ensures var start := st.current; var two := NextIs(s, start + 1, '=');
      var end := if two then start + 2 else start + 1;
      Step(s, st) == Emit(st, end, st.line, Token(OperatorKind(s[start], two).value, s[start..end], NoLiteral, st.line))
  {
  }

  /** A slash not followed by another slash is the division token. */
  lemma {:induction false} StepSlash(s: string, st: ScanState)
    requires st.current < |s| && s[st.current] == '/' && !NextIs(s, st.current + 1, '/')
    ensures Step(s, st) == Emit(st, st.current + 1, st.line, Token(Slash, "/", NoLiteral, st.line))
  {
    assert s[st.current..st.current + 1] == "/";
  }

  /** Two slashes open a comment that runs to the end of the line: it is
      consumed without a token, and the newline ending it is left for the
      next step. */
  lemma {:induction false} StepLineComment(s: string, st: ScanState)
    requires st.current < |s| && s[st.current] == '/' && NextIs(s, st.current + 1, '/')
    ensures var end := Step(s, st).current;
      && Step(s, st) == Skip(st, end, st.line, [])
      && st.current + 2 <= end
      && (forall k :: st.current <= k < end ==> s[k] != '\n')
      && (end == |s| || s[end] == '\n')
  {
    RunEndIsMaximal(s, st.current + 2, CommentText);
  }

  /** A string literal runs to the first closing quote; its value is the
      text between the quotes and it is emitted on the line of the closing
      quote. */
  lemma {:induction false} StepString(s: string, st: ScanState, close: nat)
    requires st.current < close < |s| && s[st.current] == '"' && s[close] == '"'
    requires forall k :: st.current < k < close ==> s[k] != '"'
    ensures var line := st.line + Newlines(s, st.current + 1, close);
      Step(s, st) == Emit(st, close + 1, line, Token(String, s[st.current..close + 1], StringValue(s[st.current + 1..close]), line))
  {
    RunEndStops(s, st.current + 1, close, StringText);
  }

  /** A string literal with no closing quote consumes the rest of the
      source and reports an unterminated string on the last line. */
  lemma {:induction false} StepUnterminatedString(s: string, st: ScanState)
    requires st.current < |s| && s[st.current] == '"'
    requires forall k :: st.current < k < |s| ==> s[k] != '"'
    ensures var line := st.line + Newlines(s, st.current + 1, |s|);
      Step(s, st) == Skip(st, |s|, line, [Diagnostic(line, UnterminatedString)])
  {
    RunEndStops(s, st.current + 1, |s|, StringText);
  }

  /** A digit starts a number literal, whose value is its text. */
  lemma {:induction false} StepNumber(s: string, st: ScanState)
    requires st.current < |s| && IsDigit(s[st.current])
    ensures var start := st.current; var end := NumberEnd(s, start + 1);
      Step(s, st) == Emit(st, end, st.line, Token(Number, s[start..end], NumberValue(s[start..end]), st.line))
  {
  }

  /** A letter or underscore starts an identifier. */
  lemma {:induction false} StepIdentifier(s: string, st: ScanState)
    requires st.current < |s| && IsAlpha(s[st.current])
    ensures var start := st.current; var end := RunEnd(s, start + 1, Word);
      Step(s, st) == Emit(st, end, st.line, Token(Identifier, s[start..end], NoLiteral, st.line))
  {
  }

  // ---------------------------------------------------------------------
  // The invariant

  /** Emitting a well-formed token scanned from the cursor keeps the
      invariant. */
  lemma {:induction false} EmitKeeps(s: string, st: ScanState, end: nat, line: nat, t: Token)
    requires Consistent(s, st)
    requires st.current < end <= |s| && line == LineAt(s, end) && st.line <= line
    requires Lexed(s, t, Span(st.current, end))
    ensures Consistent(s, Emit(st, end, line, t))
  {
  }

  /** Consuming input without emitting a token, possibly reporting
      diagnostics, keeps the invariant. */
  lemma {:induction false} SkipKeeps(s: string, st: ScanState, end: nat, line: nat, reported: seq<Diagnostic>)
    requires Consistent(s, st)
    requires st.current < end <= |s| && line == LineAt(s, end) && st.line <= line
    requires forall e :: e in reported ==> Reportable(e, line)
    ensures Consistent(s, Skip(st, end, line, reported))
  {
  }

  /** A step that emits no token keeps the invariant. */
  lemma {:induction false} SilentStepKeeps(s: string, st: ScanState)
    requires Consistent(s, st) && st.current < |s|
    requires var c := s[st.current];
      c in " \r\t\n\"" || (c == '/' && NextIs(s, st.current + 1, '/'))
      || (!IsAlphaNumeric(c) && c !in "(){},.-+;*!=<>/\" \r\t\n")
    ensures Consistent(s, Step(s, st))
  {
    var start := st.current;
    var c := s[start];
    if c == '\n' {
      StepNewline(s, st);
      SkipKeeps(s, st, start + 1, st.line + 1, []);
    } else if c in " \r\t" {
      StepBlank(s, st);
      SkipKeeps(s, st, start + 1, st.line, []);
    } else if c == '/' {
      StepLineComment(s, st);
      LineAtWithoutNewlines(s, start, Step(s, st).current);
      SkipKeeps(s, st, Step(s, st).current, st.line, []);
    } else if c == '"' {
      StringKeeps(s, st);
    } else {
      StepUnexpected(s, st);
      SkipKeeps(s, st, start + 1, st.line, [Diagnostic(st.line, UnexpectedCharacter)]);
    }
  }

  /** A terminated string literal is a well-formed string token. */
  lemma {:induction false} StringLexeme(s: string, start: nat, close: nat)
    requires start < close < |s| && s[start] == '"' && s[close] == '"'
    requires forall k :: start < k < close ==> s[k] != '"'
    ensures Lexed(s, Token(String, s[start..close + 1], StringValue(s[start + 1..close]), LineAt(s, close + 1)), Span(start, close + 1))
  {
    var lx := s[start..close + 1];
    var text := s[start + 1..close];
    assert |lx| == close + 1 - start;
    assert forall k :: 0 <= k < |text| ==> lx[1..|lx| - 1][k] == text[k];
  }

  /** A terminated string literal keeps the invariant. */
  lemma {:induction false} TerminatedStringKeeps(s: string, st: ScanState, close: nat)
    requires Consistent(s, st)
    requires st.current < close < |s| && s[st.current] == '"' && s[close] == '"'
    requires forall k :: st.current < k < close ==> s[k] != '"'
    ensures Consistent(s, Step(s, st))
  {
    var start := st.current;
    var line := st.line + Newlines(s, start + 1, close);
    StepString(s, st, close);
    NewlinesSplit(s, 0, start + 1, close);
    StringLexeme(s, start, close);
    EmitKeeps(s, st, close + 1, line, Token(String, s[start..close + 1], StringValue(s[start + 1..close]), line));
  }

  /** An unterminated string literal keeps the invariant. */
  lemma {:induction false} UnterminatedStringKeeps(s: string, st: ScanState)
    requires Consistent(s, st)
    requires st.current < |s| && s[st.current] == '"'
    requires forall k :: st.current < k < |s| ==> s[k] != '"'
    ensures Consistent(s, Step(s, st))
  {
    var start := st.current;
    var line := st.line + Newlines(s, start + 1, |s|);
    StepUnterminatedString(s, st);
    NewlinesSplit(s, 0, start + 1, |s|);
    SkipKeeps(s, st, |s|, line, [Diagnostic(line, UnterminatedString)]);
  }

  /** A string literal, terminated or not, keeps the invariant. */
  lemma {:induction false} StringKeeps(s: string, st: ScanState)
    requires Consistent(s, st) && st.current < |s| && s[st.current] == '"'
    ensures Consistent(s, Step(s, st))
  {
    var close := RunEnd(s, st.current + 1, StringText);
    RunEndIsMaximal(s, st.current + 1, StringText);
    if close == |s| {
      UnterminatedStringKeeps(s, st);
    } else {
      TerminatedStringKeeps(s, st, close);
    }
  }

  /** A punctuation mark or a lone slash keeps the invariant. */
  lemma {:induction false} PunctuationStepKeeps(s: string, st: ScanState)
    requires Consistent(s, st) && st.current < |s|
    requires var c := s[st.current]; PunctuationKind(c).Some? || (c == '/' && !NextIs(s, st.current + 1, '/'))
    ensures Consistent(s, Step(s, st))
  {
    var start := st.current;
    var c := s[start];
    if PunctuationKind(c).Some? {
      StepPunctuation(s, st);
      EmitKeeps(s, st, start + 1, st.line, Token(PunctuationKind(c).value, [c], NoLiteral, st.line));
    } else {
      StepSlash(s, st);
      EmitKeeps(s, st, start + 1, st.line, Token(Slash, "/", NoLiteral, st.line));
    }
  }

  /** A one- or two-character operator keeps the invariant. */
  lemma {:induction false} OperatorStepKeeps(s: string, st: ScanState)
    requires Consistent(s, st) && st.current < |s| && OperatorKind(s[st.current], false).Some?
    ensures Consistent(s, Step(s, st))
  {
    var start := st.current;
    var c := s[start];
    var two := NextIs(s, start + 1, '=');
    var end := if two then start + 2 else start + 1;
    StepOperator(s, st);
    LineAtWithoutNewlines(s, start, end);
    EmitKeeps(s, st, end, st.line, Token(OperatorKind(c, two).value, s[start..end], NoLiteral, st.line));
  }

  /** A number keeps the invariant. */
  lemma {:induction false} NumberStepKeeps(s: string, st: ScanState)
    requires Consistent(s, st) && st.current < |s| && IsDigit(s[st.current])
    ensures Consistent(s, Step(s, st))
  {
    var start := st.current;
    var end := NumberEnd(s, start + 1);
    StepNumber(s, st);
    NumberLexeme(s, start);
    LineAtWithoutNewlines(s, start, end);
    EmitKeeps(s, st, end, st.line, Token(Number, s[start..end], NumberValue(s[start..end]), st.line));
  }

  /** An identifier keeps the invariant. */
  lemma {:induction false} IdentifierStepKeeps(s: string, st: ScanState)
    requires Consistent(s, st) && st.current < |s| && IsAlpha(s[st.current])
    ensures Consistent(s, Step(s, st))
  {
    var start := st.current;
    var end := RunEnd(s, start + 1, Word);
    StepIdentifier(s, st);
    IdentifierLexeme(s, start);
    LineAtWithoutNewlines(s, start, end);
    EmitKeeps(s, st, end, st.line, Token(Identifier, s[start..end], NoLiteral, st.line));
  }

  /** Every step keeps the invariant. */
  lemma {:induction false} StepKeepsConsistent(s: string, st: ScanState)
    requires Consistent(s, st) && st.current < |s|
    ensures Consistent(s, Step(s, st))
  {
    var c := s[st.current];
    if IsDigit(c) {
      NumberStepKeeps(s, st);
    } else if IsAlpha(c) {
      IdentifierStepKeeps(s, st);
    } else if OperatorKind(c, false).Some? {
      OperatorStepKeeps(s, st);
    } else if PunctuationKind(c).Some? || (c == '/' && !NextIs(s, st.current + 1, '/')) {
      PunctuationStepKeeps(s, st);
    } else {
      SilentStepKeeps(s, st);
    }
  }


  /** Scanning to the end keeps the invariant and consumes the whole
      source. */
  lemma {:induction false} ScanFromConsistent(s: string, st: ScanState)
    requires Consistent(s, st)
    ensures Consistent(s, ScanFrom(s, st))
    ensures ScanFrom(s, st).current == |s|
    decreases |s| - st.current
  {
    if st.current < |s| {
      StepKeepsConsistent(s, st);
      ScanFromConsistent(s, Step(s, st));
    }
  }

  /** A complete scan is consistent up to its final end-of-input token. */
  lemma {:induction false} ScanConsistent(s: string)
    ensures var r := ScanFrom(s, Initial());
      && Consistent(s, r) && r.current == |s|
      && Scan(s) == r.(tokens := r.tokens + [EofToken(r.line)])
  {
    ScanFromConsistent(s, Initial());
  }

  // ---------------------------------------------------------------------
  // What a complete scan produces

  /** The token list ends with exactly one end-of-input token, which
      carries the last line of the source. */
  lemma {:induction false} ScanEndsWithEof(s: string)
    ensures var r := Scan(s);
      && |r.tokens| >= 1
      && r.tokens[|r.tokens| - 1] == EofToken(LineAt(s, |s|))
      && forall i :: 0 <= i < |r.tokens| - 1 ==> r.tokens[i].kind != Eof
  {
    ScanConsistent(s);
  }

  /** The scan consumes the whole source, and its line counter ends at one
      plus the number of newlines in the source. */
  lemma {:induction false} ScanCountsLines(s: string)
    ensures Scan(s).current == |s|
    ensures Scan(s).line == LineAt(s, |s|)
  {
    ScanConsistent(s);
  }

  /** Every token but the last is an exact slice of the source, carrying
      the line its slice ends on; the slices appear in source order and do
      not overlap. */
  lemma {:induction false} ScanLexemesAreSlices(s: string)
    ensures var r := Scan(s);
      && |r.spans| == |r.tokens| - 1
      && (forall i :: 0 <= i < |r.spans| ==>
            && r.spans[i].start < r.spans[i].end <= |s|
            && r.tokens[i].lexeme == s[r.spans[i].start..r.spans[i].end]
            && r.tokens[i].line == LineAt(s, r.spans[i].end))
      && (forall i, j :: 0 <= i < j < |r.spans| ==> r.spans[i].end <= r.spans[j].start)
  {
    ScanConsistent(s);
  }

  /** Every token but the last has the shape its kind demands and could
      not have been extended by the characters that follow it. */
  lemma {:induction false} ScanTokensShaped(s: string)
    ensures var r := Scan(s);
      && |r.spans| == |r.tokens| - 1
      && forall i :: 0 <= i < |r.spans| ==> r.spans[i].end <= |s| && Shaped(s, r.tokens[i], r.spans[i].end)
  {
    ScanConsistent(s);
  }

  /** Every diagnostic is one of the scanner's two messages, reported on a
      line of the source. */
  lemma {:induction false} ScanDiagnostics(s: string)
    ensures forall e :: e in Scan(s).errors ==> Reportable(e, LineAt(s, |s|))
  {
    ScanConsistent(s);
  }

  // ---------------------------------------------------------------------
  // Examples
  //
  // Each example names its input through a parameter fixed by `requires`
  // rather than writing `Scan("...")` on a literal: with a literal argument
  // the verifier unfolds the whole scan eagerly, which is far costlier than
  // the step-by-step proof below. Each lemma is about that one input only.

  /** `<=` is one two-character operator, not `<` followed by `=`. */
  lemma {:induction false} ExampleLessEqual(s: string)
    requires s == "<="
    ensures Scan(s).tokens == [Token(LessEqual, "<=", NoLiteral, 1), EofToken(1)]
  {
    var s0 := Initial();
    StepOperator(s, s0);
    var s1 := Emit(s0, 2, 1, Token(LessEqual, "<=", NoLiteral, 1));
    assert Step(s, s0) == s1 by { assert s[0..2] == s; }
    assert ScanFrom(s, s0) == ScanFrom(s, s1) == s1;
  }

  /** A trailing `.` is not part of a number. */
  lemma {:induction false} ExampleTrailingDot(s: string)
    requires s == "12."
    ensures Scan(s).tokens == [Token(Number, "12", NumberValue("12"), 1), Token(Dot, ".", NoLiteral, 1), EofToken(1)]
  {
    var s0 := Initial();
    RunEndStops(s, 1, 2, Digits);
    StepNumber(s, s0);
    var s1 := Emit(s0, 2, 1, Token(Number, "12", NumberValue("12"), 1));
    assert Step(s, s0) == s1 by { assert s[0..2] == "12"; }
    StepPunctuation(s, s1);
    var s2 := Emit(s1, 3, 1, Token(Dot, ".", NoLiteral, 1));
    assert ScanFrom(s, s0) == ScanFrom(s, s1) == ScanFrom(s, s2) == s2;
  }

  /** A fractional part is part of the number. */
  lemma {:induction false} ExampleFraction(s: string)
    requires s == "12.34"
    ensures Scan(s).tokens == [Token(Number, "12.34", NumberValue("12.34"), 1), EofToken(1)]
  {
    var s0 := Initial();
    RunEndStops(s, 1, 2, Digits);
    RunEndStops(s, 3, 5, Digits);
    StepNumber(s, s0);
    var s1 := Emit(s0, 5, 1, Token(Number, s, NumberValue(s), 1));
    assert Step(s, s0) == s1 by { assert s[0..5] == s; }
    assert ScanFrom(s, s0) == ScanFrom(s, s1) == s1;
  }

  /** A string literal's value excludes the quotes, and the token carries
      the line of its closing quote. */
  lemma {:induction false} ExampleString(s: string)
    requires s == "\n\"ab\""
    ensures Scan(s).tokens == [Token(String, "\"ab\"", StringValue("ab"), 2), EofToken(2)]
  {
    var s0 := Initial();
    StepNewline(s, s0);
    var s1 := Skip(s0, 1, 2, []);
    StepString(s, s1, 4);
    assert Newlines(s, 2, 4) == 0;
    var s2 := Emit(s1, 5, 2, Token(String, "\"ab\"", StringValue("ab"), 2));
    assert Step(s, s1) == s2 by { assert s[1..5] == "\"ab\"" && s[2..4] == "ab"; }
    assert ScanFrom(s, s0) == ScanFrom(s, s1) == ScanFrom(s, s2) == s2;
  }

  /** A comment runs to the end of its line; the newline still counts. */
  lemma {:induction false} ExampleComment(s: string)
    requires s == "// note\n+"
    ensures Scan(s).tokens == [Token(Plus, "+", NoLiteral, 2), EofToken(2)]
  {
    var s0 := Initial();
    StepLineComment(s, s0);
    RunEndStops(s, 2, 7, CommentText);
    var s1 := Skip(s0, 7, 1, []);
    StepNewline(s, s1);
    var s2 := Skip(s1, 8, 2, []);
    StepPunctuation(s, s2);
    var s3 := Emit(s2, 9, 2, Token(Plus, "+", NoLiteral, 2));
    assert ScanFrom(s, s0) == ScanFrom(s, s1) == ScanFrom(s, s2) == ScanFrom(s, s3) == s3;
  }

  /** An unexpected character is reported and skipped, and scanning goes
      on. */
  lemma {:induction false} ExampleUnexpected(s: string)
    requires s == "@;"
    ensures Scan(s).tokens == [Token(Semicolon, ";", NoLiteral, 1), EofToken(1)]
    ensures Scan(s).errors == [Diagnostic(1, UnexpectedCharacter)]
  {
    var s0 := Initial();
    StepUnexpected(s, s0);
    var s1 := Skip(s0, 1, 1, [Diagnostic(1, UnexpectedCharacter)]);
    StepPunctuation(s, s1);
    var s2 := Emit(s1, 2, 1, Token(Semicolon, ";", NoLiteral, 1));
    assert ScanFrom(s, s0) == ScanFrom(s, s1) == ScanFrom(s, s2) == s2;
  }

  /** An unterminated string is reported on the last line and yields no
      token. */
  lemma {:induction false} ExampleUnterminated(s: string)
    requires s == "\"a\nb"
    ensures Scan(s).tokens == [EofToken(2)]
    ensures Scan(s).errors == [Diagnostic(2, UnterminatedString)]
  {
    var s0 := Initial();
    StepUnterminatedString(s, s0);
    assert Newlines(s, 1, 4) == 1;
    var s1 := Skip(s0, 4, 2, [Diagnostic(2, UnterminatedString)]);
    assert ScanFrom(s, s0) == ScanFrom(s, s1) == s1;
  }
}
