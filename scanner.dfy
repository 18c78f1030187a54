/** The scanner itself: an object whose cursors, line counter, token list
    and error flag are updated in place as it walks the source text once. */
module Scanning {
  import opened Tokens
  import opened Lexemes
  import opened ScanSpec

  class Scanner {
    /** The text being scanned; never changed. */
    const source: string
    var tokens: seq<Token>
    /** Index of the first character of the lexeme being recognised. */
    var start: nat
    /** Index of the next character to consume. */
    var current: nat
    var line: nat
    var hadError: bool
    /** Every (line, message) pair handed to the error sink, in order. */
    ghost var errors: seq<Report>

    ghost predicate Valid()
      reads this
    {
      start <= current <= |source| && hadError == (errors != [])
    }

    /** The scanner's state as a value of the functional account. */
    ghost function Snap(): State
      reads this
    {
      State(tokens, start, current, line, hadError, errors)
    }

    /** `Scanner::new`: a scanner over `sourceCode`, at its start, on line 1. */
    constructor (sourceCode: string)
      ensures source == sourceCode
      ensures Valid() && Snap() == Initial()
    {
      source := sourceCode;
      tokens := [];
      start := 0;
      current := 0;
      line := 1;
      hadError := false;
      errors := [];
    }

    /** `scan_tokens`: scans until the cursor reaches the end of the text,
        then appends the `Eof` token. */
    method ScanTokens()
      requires Valid() && Halts(source, Snap())
      modifies this
      ensures Valid()
      ensures Snap() == Finish(Run(source, old(Snap())))
    {
      while !IsAtEnd()
        invariant Valid() && Halts(source, Snap())
        invariant Run(source, Snap()) == Run(source, old(Snap()))
        decreases |source| - current
      {
        ghost var before := Snap();
        start := current;
        ScanToken();
        RunUnfold(source, before);
      }
      tokens := tokens + [NewToken(Eof, "", Null, line)];
    }

    /** `scan_token`: one step of the scan, from `start == current`. */
    method ScanToken()
      requires Valid() && start == current < |source|
      requires !CommentSpins(source, current)
      modifies this
      ensures Valid()
      ensures Snap() == Step(source, old(Snap()))
    {
      var c := Advance();
      match c
      case '(' => AddTokenSingle(LeftParen);
      case ')' => AddTokenSingle(RightParen);
      case '{' => AddTokenSingle(LeftBrace);
      case '}' => AddTokenSingle(RightBrace);
      case ',' => AddTokenSingle(Comma);
      case '.' => AddTokenSingle(Dot);
      case '-' => AddTokenSingle(Minus);
      case '+' => AddTokenSingle(Plus);
      case ';' => AddTokenSingle(Semicolon);
      case '*' => AddTokenSingle(Star);
      case '!' => AddTokenExpectDouble(Bang);
      case '=' => AddTokenExpectDouble(Equal);
      case '<' => AddTokenExpectDouble(Less);
      case '>' => AddTokenExpectDouble(Greater);
      case '/' => AddTokenExpectDouble(Slash);
      case ' ' =>
      case '\r' =>
      case '\t' =>
      case '\n' => line := line + 1;
      case '"' => HandleString();
      case _ => HandleNonSingleChar(c);
    }

    /** `handle_non_single_char`: a number, an identifier, or an error. */
    method HandleNonSingleChar(c: char)
      requires Valid() && start < current
      modifies this
      ensures Valid()
      ensures Snap() == NonSingleCharStep(source, old(Snap()), c)
    {
      if IsDigit(c) {
        HandleNumber();
      } else if IsAlpha(c) {
        Identifier();
      } else {
        Error(UnexpectedCharacter);
      }
    }

    /** `handle_string`: the rest of a string literal after its opening quote. */
    method HandleString()
      requires Valid() && start + 1 == current
      modifies this
      ensures Valid()
      ensures Snap() == StringStep(source, old(Snap()))
    {
      SkipStringBody();
      // Unterminated string
      if IsAtEnd() {
        Error(UnterminatedString);
        return;
      }
      CloseString();
    }

    /** The end of `handle_string` at a closing quote: consumes it and adds
        the `String` token whose literal is the text between the quotes. */
    method CloseString()
      requires start < current < |source|
      modifies this`current, this`tokens
      ensures Snap() == CloseQuote(source, old(Snap()))
    {
      // The closing "
      var _ := Advance();
      var s := start + 1;
      var c := current - 1;
      var value := source[s..c];
      AddToken(String, value);
    }

    /** The loop of `handle_string`: consumes characters up to the next quote
        or the end of the text, counting the line feeds it passes. */
    method SkipStringBody()
      requires current <= |source|
      modifies this`current, this`line
      ensures Snap() == SkipString(source, old(Snap()))
    {
      while Peek() != '"' && !IsAtEnd()
        invariant old(current) <= current <= |source|
        invariant forall k :: old(current) <= k < current ==> InClass(source[k], NotQuote)
        invariant line == old(line) + Newlines(source[old(current)..current])
        decreases |source| - current
      {
        NewlinesExtend(source, old(current), current);
        if Peek() == '\n' {
          line := line + 1;
        }
        var _ := Advance();
      }
      RunEndUnique(source, old(current), current, NotQuote);
    }

    /** `handle_number`: the rest of a number literal after its first digit. */
    method HandleNumber()
      requires Valid() && start < current
      modifies this
      ensures Valid()
      ensures Snap() == NumberStep(source, old(Snap()))
    {
      var p := Peek();
      while IsDigit(p)
        invariant old(current) <= current <= |source|
        invariant forall k :: old(current) <= k < current ==> InClass(source[k], Digits)
        invariant p == Peek()
        invariant start == old(start) && line == old(line) && tokens == old(tokens)
        invariant hadError == old(hadError) && errors == old(errors)
        decreases |source| - current
      {
        var _ := Advance();
        p := Peek();
      }
      RunEndUnique(source, old(current), current, Digits);
      var peekNext := PeekNext();
      if p == '.' && IsDigit(peekNext) {
        // The fraction branch: `peek_next` returns the character at
        // `current`, which is `p` itself, so a `.` is never followed by a
        // digit here.
        assert false;
      }
      var value := source[start..current];
      AddToken(Number, value);
    }

    /** `identifier`: the rest of an identifier after its first character,
        classified by the reserved-word table. */
    method Identifier()
      requires Valid() && start < current
      modifies this
      ensures Valid()
      ensures Snap() == IdentifierStep(source, old(Snap()))
    {
      var p := Peek();
      while IsAlphaNum(p)
        invariant old(current) <= current <= |source|
        invariant forall k :: old(current) <= k < current ==> InClass(source[k], IdentChars)
        invariant p == Peek()
        invariant start == old(start) && line == old(line) && tokens == old(tokens)
        invariant hadError == old(hadError) && errors == old(errors)
        decreases |source| - current
      {
        var _ := Advance();
        p := Peek();
      }
      RunEndUnique(source, old(current), current, IdentChars);
      var text := source[start..current];
      AddTokenSingle(KeywordKind(text));
    }

    /** `add_token`: appends `source[start..current]` as a token of `kind`. */
    method AddToken(kind: TokenType, lit: string)
      requires start <= current <= |source|
      modifies this`tokens
      ensures Snap() == WithToken(source, old(Snap()), kind, lit)
    {
      var s := start;
      var c := current;
      var text := source[s..c];
      var t := NewToken(kind, text, lit, line);
      tokens := tokens + [t];
    }

    /** `add_token_single`: a token without a literal value. */
    method AddTokenSingle(kind: TokenType)
      requires start <= current <= |source|
      modifies this`tokens
      ensures Snap() == WithToken(source, old(Snap()), kind, Null)
    {
      AddToken(kind, Null);
    }

    /** `add_token_expect_double`: the operator character has been consumed.
        The source's comment loop never stops when the `/` it matches is the
        last character of the text, so that case is excluded. */
    method AddTokenExpectDouble(arg: TokenType)
      requires Valid() && start + 1 == current
      requires !(Matches(source, current, '/') && current + 1 == |source|)
      modifies this
      ensures Valid()
      ensures Snap() == OperatorStep(source, old(Snap()), arg)
    {
      SkipCommentOrAddSlash();
      AddEqualFormOrSingle(arg);
    }

    /** The first half of `add_token_expect_double`: a `/` after the operator
        character opens a comment, anything else adds a `Slash` token. */
    method SkipCommentOrAddSlash()
      requires Valid() && start + 1 == current
      requires !(Matches(source, current, '/') && current + 1 == |source|)
      modifies this
      ensures Valid()
      ensures Snap() == SlashOrComment(source, old(Snap()))
    {
      var comment := MatchOp('/');
      if comment {
        // Comment goes until end of line: the loop runs only while
        // `peek() != '\n' && is_at_end()`, which the precondition rules out
        // here, so it never moves the cursor.
        if Peek() != '\n' && IsAtEnd() {
          assert false;
        }
      } else {
        AddTokenSingle(Slash);
      }
    }

    /** The second half of `add_token_expect_double`: a following `=` gives
        the two-character form of `arg`, otherwise `arg` itself; kinds with no
        such form are reported. */
    method AddEqualFormOrSingle(arg: TokenType)
      requires Valid() && start < current
      modifies this
      ensures Valid()
      ensures Snap() == EqualOrSingle(source, old(Snap()), arg)
    {
      var double := MatchOp('=');
      if double {
        if arg.Bang? {
          AddTokenSingle(BangEqual);
        } else if arg.Equal? {
          AddTokenSingle(EqualEqual);
        } else if arg.Less? {
          AddTokenSingle(LessEqual);
        } else if arg.Greater? {
          AddTokenSingle(GreaterEqual);
        } else {
          Error(UnexpectedCharacter);
        }
      } else {
        if arg.Bang? || arg.Equal? || arg.Less? || arg.Greater? {
          AddTokenSingle(arg);
        } else {
          Error(UnexpectedCharacter);
        }
      }
    }

    /** `match_op`: consumes the next character when it is `expected`. */
    method MatchOp(expected: char) returns (matched: bool)
      modifies this`current
      ensures matched == Matches(source, old(current), expected)
      ensures current == if matched then old(current) + 1 else old(current)
    {
      var e: bool;
      var getChar := SourceCharAt(current);
      match getChar {
        case None => e := false;
        case Some(ch) => e := ch != expected;
      }
      if IsAtEnd() || e {
        matched := false;
      } else {
        current := current + 1;
        matched := true;
      }
    }

    /** `advance`: consumes one character and returns it (NUL past the end). */
    method Advance() returns (c: char)
      modifies this`current
      ensures current == old(current) + 1
      ensures c == CharAt(source, old(current))
    {
      current := current + 1;
      var getChar := SourceCharAt(current - 1);
      match getChar
      case None => c := '\0';
      case Some(ch) => c := ch;
    }

    /** `peek`: the character at the cursor, or NUL at the end. */
    function Peek(): (c: char)
      reads this
      ensures c == CharAt(source, current)
    {
      // past the `is_at_end` test `source_char_at` always finds a character
      if IsAtEnd() then '\0' else SourceCharAt(current).value
    }

    /** `peek_next`: meant to look one character past the cursor, it reads
        the character AT the cursor, so it always agrees with `Peek`. */
    function PeekNext(): (c: char)
      reads this
      ensures c == CharAt(source, current) == Peek()
    {
      var sourceLength := |source|;
      if current >= sourceLength then '\0' else SourceCharAt(current).value
    }

    /** `source_char_at`: the character at `idx`, if there is one. */
    function SourceCharAt(idx: nat): (r: Option<char>)
      ensures idx < |source| ==> r == Some(source[idx])
      ensures idx >= |source| ==> r == None
    {
      if idx < |source| then Some(source[idx]) else None
    }

    /** `is_at_end`: the cursor has reached the end of the text, which is
        exactly when `source_char_at` finds no character there. */
    function IsAtEnd(): (b: bool)
      reads this
      ensures b <==> SourceCharAt(current).None?
    {
      current >= |source|
    }

    /** `error`/`report`: hands (line, message) to the error sink, which
        raises the error flag. */
    method Error(message: string)
      modifies this`hadError, this`errors
      ensures Snap() == WithError(old(Snap()), message)
    {
      errors := errors + [Report(line, message)];
      hadError := true;
    }
  }
}
