/** The jlox scanner as the imperative object it is: two cursors and a line
    counter over a fixed source string, and a token list that grows in
    place. Every method is proved to perform exactly the corresponding
    step of the reference definition in `Lexer`. */
module Scanning {
  import opened Tokens
  import Lexer

  class Scanner {
    const source: string
    /** The tokens emitted so far, in order. */
    var tokens: seq<Token>
    /** Diagnostics reported so far, in order (the scanner's error channel). */
    var errors: seq<Diagnostic>
    /** The source slice each token in `tokens` was scanned from. */
    ghost var spans: seq<Lexer.Span>
    /** Index of the first character of the token being scanned. */
    var start: nat
    /** Index of the next character to consume. */
    var current: nat
    /** The source line `current` is on. */
    var line: nat

    ghost predicate Valid()
      reads this
    {
      start <= current <= |source|
    }

    /** The state the reference definition speaks about. */
    ghost function State(): Lexer.ScanState
      reads this
    {
      Lexer.ScanState(current, line, tokens, spans, errors)
    }

    constructor (source: string)
      ensures Valid() && this.source == source && start == 0
      ensures State() == Lexer.Initial()
    {
      this.source := source;
      tokens, errors, spans := [], [], [];
      start, current, line := 0, 0, 1;
    }

    /** Scans the whole remaining source and appends the end-of-input
        token; returns the token list. */
    method ScanTokens() returns (result: seq<Token>)
      requires Valid()
      modifies this
      ensures Valid()
      ensures State() == Lexer.Finish(Lexer.ScanFrom(source, old(State())))
      ensures result == tokens
    {
      ghost var goal := Lexer.ScanFrom(source, State());
      while !IsAtEnd()
        invariant Valid()
        invariant Lexer.ScanFrom(source, State()) == goal
        decreases |source| - current
      {
        start := current;
        ScanToken();
      }
      tokens := tokens + [EofToken(line)];
      result := tokens;
    }

    /** Scans one lexeme starting at `start`. */
    method ScanToken()
      requires Valid() && start == current < |source|
      modifies this
      ensures Valid() && start == old(start)
      ensures State() == Lexer.Step(source, old(State()))
    {
      var c := Advance();
      match c {
        case '(' => AddToken(LeftParen, NoLiteral);
        case ')' => AddToken(RightParen, NoLiteral);
        case '{' => AddToken(LeftBrace, NoLiteral);
        case '}' => AddToken(RightBrace, NoLiteral);
        case ',' => AddToken(Comma, NoLiteral);
        case '.' => AddToken(Dot, NoLiteral);
        case '-' => AddToken(Minus, NoLiteral);
        case '+' => AddToken(Plus, NoLiteral);
        case ';' => AddToken(Semicolon, NoLiteral);
        case '*' => AddToken(Star, NoLiteral);
        case '!' =>
          var two := Match('=');
          AddToken(if two then BangEqual else Bang, NoLiteral);
        case '=' =>
          var two := Match('=');
          AddToken(if two then EqualEqual else Equal, NoLiteral);
        case '<' =>
          var two := Match('=');
          AddToken(if two then LessEqual else Less, NoLiteral);
        case '>' =>
          var two := Match('=');
          AddToken(if two then GreaterEqual else Greater, NoLiteral);
        case '/' =>
          var comment := Match('/');
          if comment {
            SkipLineComment();
          } else {
            AddToken(Slash, NoLiteral);
          }
        case ' ' =>
        case '\r' =>
        case '\t' =>
        case '\n' =>
          line := line + 1;
        case '"' =>
          ScanString();
        case _ =>
          if Lexer.IsDigit(c) {
            ScanNumber();
          } else if Lexer.IsAlpha(c) {
            ScanIdentifier();
          } else {
            errors := errors + [Diagnostic(line, UnexpectedCharacter)];
          }
      }
    }

    /** Consumes the text of a line comment, up to but not including the
        newline that ends it (or to the end of the source). */
    method SkipLineComment()
      requires Valid()
      modifies this`current
      ensures Valid()
      ensures current == Lexer.RunEnd(source, old(current), Lexer.CommentText)
    {
      ghost var end := Lexer.RunEnd(source, current, Lexer.CommentText);
      while Peek() != '\n' && !IsAtEnd()
        invariant start <= current <= |source|
        invariant Lexer.RunEnd(source, current, Lexer.CommentText) == end
        decreases |source| - current
      {
        var _ := Advance();
      }
    }

    /** Scans the rest of an identifier whose first letter is at `start`. */
    method ScanIdentifier()
      requires Valid() && current == start + 1
      modifies this
      ensures Valid() && start == old(start)
      ensures State() == Lexer.IdentifierStep(source, old(State()), start)
    {
      ghost var end := Lexer.RunEnd(source, current, Lexer.Word);
      while Lexer.IsAlphaNumeric(Peek())
        invariant start < current <= |source|
        invariant Lexer.RunEnd(source, current, Lexer.Word) == end
        modifies this`current
        decreases |source| - current
      {
        var _ := Advance();
      }
      AddToken(Identifier, NoLiteral);
    }

    /** Scans the rest of a number whose first digit is at `start`. */
    method ScanNumber()
      requires Valid() && current == start + 1
      modifies this
      ensures Valid() && start == old(start)
      ensures State() == Lexer.NumberStep(source, old(State()), start)
    {
      ghost var whole := Lexer.RunEnd(source, current, Lexer.Digits);
      ghost var end := Lexer.NumberEnd(source, current);
      while Lexer.IsDigit(Peek())
        invariant start < current <= |source|
        invariant Lexer.RunEnd(source, current, Lexer.Digits) == whole
        modifies this`current
        decreases |source| - current
      {
        var _ := Advance();
      }
      if Peek() == '.' && Lexer.IsDigit(PeekNext()) {
        var _ := Advance();
        while Lexer.IsDigit(Peek())
          invariant start < current <= |source|
          invariant Lexer.RunEnd(source, current, Lexer.Digits) == end
          modifies this`current
          decreases |source| - current
        {
          var _ := Advance();
        }
      }
      AddToken(Number, NumberValue(source[start..current]));
    }

    /** Scans the rest of a string literal whose opening quote is at
        `start`. */
    method ScanString()
      requires Valid() && current == start + 1
      modifies this
      ensures Valid() && start == old(start)
      ensures State() == Lexer.StringStep(source, old(State()), start)
    {
      ghost var close := Lexer.RunEnd(source, current, Lexer.StringText);
      ghost var line0 := line;
      while Peek() != '"' && !IsAtEnd()
        invariant start < current <= |source|
        invariant Lexer.RunEnd(source, current, Lexer.StringText) == close
        invariant line == line0 + Lexer.Newlines(source, start + 1, current)
        modifies this`current, this`line
        decreases |source| - current
      {
        if Peek() == '\n' {
          line := line + 1;
        }
        var _ := Advance();
      }
      if IsAtEnd() {
        errors := errors + [Diagnostic(line, UnterminatedString)];
        return;
      }
      var _ := Advance();
      var value := source[start + 1..current - 1];
      AddToken(String, StringValue(value));
    }

    /** Consumes the next character if it is `expected`. */
    method Match(expected: char) returns (matched: bool)
      requires Valid()
      modifies this`current
      ensures Valid()
      ensures matched <==> old(current) < |source| && source[old(current)] == expected
      ensures current == if matched then old(current) + 1 else old(current)
    {
      if IsAtEnd() {
        return false;
      }
      if source[current] != expected {
        return false;
      }
      current := current + 1;
      return true;
    }

    /** The next character, or `'\0'` at the end of the source. */
    function Peek(): (c: char)
      reads this
      ensures c == Lexer.CharAt(source, current)
    {
      if IsAtEnd() then '\0' else source[current]
    }

    /** The character after the next one, or `'\0'` past the end. */
    function PeekNext(): (c: char)
      reads this
      ensures c == Lexer.CharAt(source, current + 1)
    {
      if current + 1 >= |source| then '\0' else source[current + 1]
    }

    /** Whether the whole source has been consumed; from there on the
        lookahead yields only the `'\0'` sentinel. */
    predicate IsAtEnd()
      reads this
      ensures IsAtEnd() ==> Lexer.CharAt(source, current) == '\0' && Lexer.CharAt(source, current + 1) == '\0'
    {
      current >= |source|
    }

    /** Consumes and returns the next character. */
    method Advance() returns (c: char)
      requires Valid() && current < |source|
      modifies this`current
      ensures Valid()
      ensures c == source[old(current)] && current == old(current) + 1
    {
      c := source[current];
      current := current + 1;
    }

    /** Appends a token whose lexeme is the slice `[start, current)`. */
    method AddToken(kind: TokenType, literal: Literal)
      requires Valid()
      modifies this`tokens, this`spans
      ensures State() == Lexer.AddToken(source, old(State()), start, kind, literal)
    {
      tokens := tokens + [Token(kind, source[start..current], literal, line)];
      spans := spans + [Lexer.Span(start, current)];
    }
  }

  /** Scans `source` with a fresh scanner: the token list and the
      diagnostics reported along the way. */
  method Lex(source: string) returns (tokens: seq<Token>, errors: seq<Diagnostic>)
    ensures tokens == Lexer.Scan(source).tokens
    ensures errors == Lexer.Scan(source).errors
  {
    var scanner := new Scanner(source);
    tokens := scanner.ScanTokens();
    errors := scanner.errors;
  }
}
