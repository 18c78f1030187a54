/** What a scan guarantees: the state invariant every step keeps, the shape
    of every token a step adds, the `Eof` token at the end, and the rules of
    each recognition routine. */
module ScanFacts {
  import opened Tokens
  import opened Lexemes
  import opened ScanSpec

  /** The scanner's invariant between steps: the cursors lie within the text,
      the line counter is one more than the line feeds consumed so far, and
      the error flag is raised exactly when an error has been reported. */
  predicate Inv(s: string, st: State) {
    st.start <= st.current <= |s|
    && st.line == 1 + Newlines(s[..st.current])
    && (st.hadError <==> st.errors != [])
  }

  /** The literal rule: a number's literal is its lexeme, a string's is its
      lexeme without the two quotes, every other kind carries "null". */
  predicate LiteralRule(t: Token) {
    if t.kind.Number? then t.literal == t.lexeme
    else if t.kind.String? then
      2 <= |t.lexeme| && t.lexeme[0] == '"' && t.lexeme[|t.lexeme| - 1] == '"'
      && t.literal == t.lexeme[1..|t.lexeme| - 1]
    else t.literal == Null
  }

  /** A token a step added: its lexeme is a non-empty prefix of the text the
      step consumed, it is tagged with the line the step ended on, it is not
      `Eof`, and it follows the literal rule. */
  predicate Lexed(s: string, from: nat, r: State, t: Token) {
    from <= r.current <= |s|
    && 0 < |t.lexeme| && t.lexeme <= s[from..r.current]
    && t.line == r.line && !t.kind.Eof? && LiteralRule(t)
  }

  /** Every token `r` has beyond those of `st` was lexed from `s[from..]`. */
  predicate AddsLexed(s: string, from: nat, st: State, r: State) {
    |st.tokens| <= |r.tokens|
    && forall i :: |st.tokens| <= i < |r.tokens| ==> Lexed(s, from, r, r.tokens[i])
  }

  /** A report a step made: tagged with the line the step ended on, and
      carrying one of the scanner's two messages. */
  predicate Reported(r: State, e: Report) {
    e.line == r.line && (e.message == UnexpectedCharacter || e.message == UnterminatedString)
  }

  /** What one step from `st` to `r` guarantees: the line counter grows by
      the line feeds consumed, every added token was lexed from the consumed
      text, every added report is one of the two messages, and the error
      flag is raised exactly when the step reported something (or it was
      already raised). */
  predicate StepOk(s: string, st: State, r: State) {
    && Moves(s, st, r) && st.start <= st.current
    && r.line == st.line + Newlines(s[st.current..r.current])
    && AddsLexed(s, st.start, st, r)
    && (forall i :: |st.errors| <= i < |r.errors| ==> Reported(r, r.errors[i]))
    && r.hadError == (st.hadError || |st.errors| < |r.errors|)
  }

  /** Every character of `s[i..j]` differs from the line feed. */
  lemma NoLineFeeds(s: string, i: nat, j: nat)
    requires i <= j <= |s|
    requires forall k :: i <= k < j ==> s[k] != '\n'
    ensures Newlines(s[i..j]) == 0
  {
    assert forall k :: 0 <= k < j - i ==> s[i..j][k] == s[i + k];
    NewlinesZero(s[i..j]);
  }

  // ---------------------------------------------------------------------
  // add_token_expect_double

  /** The first half consumes only a `/` after the operator character. */
  lemma SlashOrCommentFacts(s: string, st: State)
    requires st.start + 1 == st.current <= |s|
    requires !(Matches(s, st.current, '/') && st.current + 1 == |s|)
    ensures var r := SlashOrComment(s, st);
      && r.line == st.line && r.errors == st.errors && r.hadError == st.hadError
      && (r.current == st.current + 1 <==> Matches(s, st.current, '/'))
      && (r.current == st.current + 1 ==> s[st.current] == '/' && r.tokens == st.tokens)
      && (r.current == st.current ==>
            r.tokens == st.tokens + [Token(Slash, s[st.start..st.current], Null, st.line)])
  {
  }

  /** The second half consumes only an `=`; it adds the two-character kind
      after an `=`, the operator's own kind otherwise, and reports every kind
      that has no two-character form. */
  lemma EqualOrSingleFacts(s: string, st: State, arg: TokenType)
    requires st.start < st.current <= |s|
    ensures var r := EqualOrSingle(s, st, arg);
      && r.line == st.line
      && (r.current == st.current + 1 <==> Matches(s, st.current, '='))
      && (r.current == st.current + 1 ==> s[st.current] == '=')
      && (r.current == st.current || r.current == st.current + 1)
      && (EqualForm(arg).Some? ==>
            && r.errors == st.errors && r.hadError == st.hadError
            && r.tokens == st.tokens + [Token(
                 if r.current == st.current then arg else EqualForm(arg).value,
                 s[st.start..r.current], Null, st.line)])
      && (EqualForm(arg).None? ==>
            && r.tokens == st.tokens && r.hadError
            && r.errors == st.errors + [Report(st.line, UnexpectedCharacter)])
  {
    if Matches(s, st.current, '=') {
      assert EqualOrSingle(s, st, arg).current == st.current + 1;
    } else {
      assert EqualOrSingle(s, st, arg).current == st.current;
    }
  }

  /** `/` has no two-character form, so it is always reported as an
      unexpected character, whatever follows it. */
  lemma SlashAlwaysReported(s: string, st: State)
    requires st.start + 1 == st.current <= |s|
    requires !(Matches(s, st.current, '/') && st.current + 1 == |s|)
    ensures var r := OperatorStep(s, st, Slash);
      r.hadError && r.errors == st.errors + [Report(st.line, UnexpectedCharacter)]
  {
    SlashOrCommentFacts(s, st);
    EqualOrSingleFacts(s, SlashOrComment(s, st), Slash);
  }

  /** An operator character not followed by `/` first adds a one-character
      `Slash` token; then comes the two-character kind when an `=` follows,
      the operator's own kind otherwise. */
  lemma OperatorSlashFirst(s: string, st: State, arg: TokenType)
    requires st.start + 1 == st.current <= |s|
    requires !Matches(s, st.current, '/')
    requires EqualForm(arg).Some?
    ensures var r := OperatorStep(s, st, arg);
      && r.errors == st.errors
      && r.tokens[..|st.tokens| + 1] == st.tokens + [Token(Slash, s[st.start..st.current], Null, st.line)]
      && |r.tokens| == |st.tokens| + 2
      && r.tokens[|st.tokens| + 1].kind
           == (if Matches(s, st.current, '=') then EqualForm(arg).value else arg)
  {
    SlashOrCommentFacts(s, st);
    var st1 := SlashOrComment(s, st);
    EqualOrSingleFacts(s, st1, arg);
    var r := EqualOrSingle(s, st1, arg);
    assert r.tokens == st1.tokens + [r.tokens[|st.tokens| + 1]];
  }

  /** Two steps that end on the same line compose into one. */
  lemma StepOkThen(s: string, a: State, b: State, c: State)
    requires StepOk(s, a, b) && StepOk(s, b, c) && b.line == c.line
    ensures StepOk(s, a, c)
  {
    NewlinesJoin(s, a.current, b.current, c.current);
    assert c.tokens[..|b.tokens|] == b.tokens;
    assert c.errors[..|b.errors|] == b.errors;
    forall i | |a.tokens| <= i < |b.tokens|
      ensures Lexed(s, a.start, c, c.tokens[i])
    {
      assert c.tokens[i] == b.tokens[i];
      assert s[a.start..b.current] <= s[a.start..c.current];
    }
    forall i | |a.errors| <= i < |b.errors|
      ensures Reported(c, c.errors[i])
    {
      assert c.errors[i] == b.errors[i];
    }
  }

  /** The first half of `add_token_expect_double` as a step. */
  lemma SlashOrCommentOk(s: string, st: State)
    requires st.start + 1 == st.current <= |s|
    requires !(Matches(s, st.current, '/') && st.current + 1 == |s|)
    ensures StepOk(s, st, SlashOrComment(s, st))
    ensures SlashOrComment(s, st).line == st.line
  {
    SlashOrCommentFacts(s, st);
    var r := SlashOrComment(s, st);
    NoLineFeeds(s, st.current, r.current);
  }

  /** The second half of `add_token_expect_double` as a step. */
  lemma EqualOrSingleOk(s: string, st: State, arg: TokenType)
    requires st.start < st.current <= |s|
    ensures StepOk(s, st, EqualOrSingle(s, st, arg))
    ensures EqualOrSingle(s, st, arg).line == st.line
  {
    EqualOrSingleFacts(s, st, arg);
    var r := EqualOrSingle(s, st, arg);
    NoLineFeeds(s, st.current, r.current);
    assert EqualForm(arg).Some? ==> !arg.Number? && !arg.String? && !arg.Eof?;
  }

  /** `add_token_expect_double` as a step: it consumes no line feed, adds
      one or two operator tokens whose lexemes start at the operator
      character, or reports an unexpected character. */
  lemma OperatorStepOk(s: string, st: State, arg: TokenType)
    requires st.start + 1 == st.current <= |s|
    requires !(Matches(s, st.current, '/') && st.current + 1 == |s|)
    ensures StepOk(s, st, OperatorStep(s, st, arg))
    ensures OperatorStep(s, st, arg).line == st.line
  {
    SlashOrCommentOk(s, st);
    var st1 := SlashOrComment(s, st);
    EqualOrSingleOk(s, st1, arg);
    EqualOrSingleFacts(s, st1, arg);
    StepOkThen(s, st, st1, EqualOrSingle(s, st1, arg));
  }

  /** The text strictly inside `s[i..j]`. */
  lemma InnerSlice(s: string, i: nat, j: nat)
    requires i + 2 <= j <= |s|
    ensures s[i..j][1..j - i - 1] == s[i + 1..j - 1]
  {
    var inner := s[i..j][1..j - i - 1];
    assert forall k :: 0 <= k < j - i - 2 ==> inner[k] == s[i + 1 + k];
  }

  /** A token list one longer than `a`, with `a` as its prefix and `t` as
      its last element, is `a + [t]`. */
  lemma TokensSnoc(a: seq<Token>, b: seq<Token>, t: Token)
    requires |b| == |a| + 1 && b[..|a|] == a && b[|a|] == t
    ensures b == a + [t]
  {
    assert b == b[..|a|] + [b[|a|]];
  }

  /** A closed string literal adds one token after the existing ones: a
      `String` token whose lexeme runs from the opening quote through the
      closing one, whose literal lies between them, on the line reached. */
  lemma StringStepLastToken(s: string, st: State)
    requires st.start + 1 == st.current <= |s|
    requires RunEnd(s, st.current, NotQuote) < |s|
    ensures var r := StringStep(s, st);
      && |r.tokens| == |st.tokens| + 1 && r.tokens[..|st.tokens|] == st.tokens
      && r.tokens[|st.tokens|] == Token(String, s[st.start..r.current], s[st.start + 1..r.current - 1], r.line)
  {
  }

  /** The same, as the token list itself. */
  lemma StringStepToken(s: string, st: State)
    requires st.start + 1 == st.current <= |s|
    requires RunEnd(s, st.current, NotQuote) < |s|
    ensures var r := StringStep(s, st);
      r.tokens == st.tokens + [Token(String, s[st.start..r.current], s[st.start + 1..r.current - 1], r.line)]
  {
    StringStepLastToken(s, st);
    var r := StringStep(s, st);
    TokensSnoc(st.tokens, r.tokens, Token(String, s[st.start..r.current], s[st.start + 1..r.current - 1], r.line));
  }

  /** `handle_string` from its first character: it stops at the first
      quote or at the end of the text, counting the line feeds on its way.
      When a quote follows, it consumes it and adds a `String` token whose
      lexeme runs from the opening to the closing quote and whose literal is
      the text between them; otherwise it reports an unterminated string at
      the end of the text and adds nothing. */
  lemma StringStepFacts(s: string, st: State)
    requires st.start + 1 == st.current <= |s|
    ensures var r := StringStep(s, st);
      && r.start == st.start
      && (forall k :: st.current <= k < r.current - 1 ==> s[k] != '"')
      && ('"' in s[st.current..] ==>
            && st.current + 1 <= r.current && s[r.current - 1] == '"'
            && r.line == st.line + Newlines(s[st.current..r.current - 1])
            && r.tokens == st.tokens + [Token(String, s[st.start..r.current], s[st.start + 1..r.current - 1], r.line)]
            && r.errors == st.errors && r.hadError == st.hadError)
      && ('"' !in s[st.current..] ==>
            && r.current == |s| && r.line == st.line + Newlines(s[st.current..])
            && r.tokens == st.tokens && r.hadError
            && r.errors == st.errors + [Report(r.line, UnterminatedString)])
  {
    var q, r := RunEnd(s, st.current, NotQuote), StringStep(s, st);
    FirstQuote(s, st.current);
    if q < |s| {
      StringStepToken(s, st);
      assert r.current - 1 == q;
    }
  }

  /** A step that adds exactly one lexed token and reports nothing is a
      good step. */
  lemma OneTokenOk(s: string, st: State, r: State, t: Token)
    requires Moves(s, st, r) && st.start <= st.current
    requires r.line == st.line + Newlines(s[st.current..r.current])
    requires |r.tokens| == |st.tokens| + 1 && r.tokens[|st.tokens|] == t
    requires Lexed(s, st.start, r, t)
    requires r.errors == st.errors && r.hadError == st.hadError
    ensures StepOk(s, st, r)
  {
  }

  /** A step that adds no token and reports one of the two messages is a
      good step. */
  lemma OneReportOk(s: string, st: State, r: State, message: string)
    requires Moves(s, st, r) && st.start <= st.current
    requires r.line == st.line + Newlines(s[st.current..r.current])
    requires r.tokens == st.tokens
    requires message == UnexpectedCharacter || message == UnterminatedString
    requires r.errors == st.errors + [Report(r.line, message)] && r.hadError
    ensures StepOk(s, st, r)
  {
  }

  /** A quoted stretch of the text is lexed as a `String` token whose
      literal drops the two quotes. */
  lemma StringTokenLexed(s: string, from: nat, r: State)
    requires from + 2 <= r.current <= |s|
    requires s[from] == '"' && s[r.current - 1] == '"'
    ensures Lexed(s, from, r, Token(String, s[from..r.current], s[from + 1..r.current - 1], r.line))
  {
    InnerSlice(s, from, r.current);
  }

  /** A step that consumes a quoted stretch `s[st.start..q + 1]`, counts
      its line feeds and adds it as one `String` token is a good step. */
  lemma QuotedTokenOk(s: string, st: State, r: State, q: nat)
    requires st.start + 1 == st.current <= q < |s| && s[st.start] == '"' && s[q] == '"'
    requires r.start == st.start && r.current == q + 1
    requires r.line == st.line + Newlines(s[st.current..q])
    requires r.errors == st.errors && r.hadError == st.hadError
    requires |r.tokens| == |st.tokens| + 1 && r.tokens[..|st.tokens|] == st.tokens
    requires r.tokens[|st.tokens|] == Token(String, s[st.start..r.current], s[st.start + 1..r.current - 1], r.line)
    ensures StepOk(s, st, r)
  {
    NewlinesExtend(s, st.current, q);
    StringTokenLexed(s, st.start, r);
    OneTokenOk(s, st, r, r.tokens[|st.tokens|]);
  }

  /** A closed string literal as a step. */
  lemma StringClosedOk(s: string, st: State)
    requires st.start + 1 == st.current <= |s|
    requires s[st.start] == '"' && RunEnd(s, st.current, NotQuote) < |s|
    ensures StepOk(s, st, StringStep(s, st))
    ensures var r := StringStep(s, st);
      r.errors == st.errors && |r.tokens| == |st.tokens| + 1 && r.tokens[|st.tokens|].kind.String?
  {
    StringStepLastToken(s, st);
    QuotedTokenOk(s, st, StringStep(s, st), RunEnd(s, st.current, NotQuote));
  }

  /** An unterminated string literal as a step. */
  lemma StringUnterminatedOk(s: string, st: State)
    requires st.start + 1 == st.current <= |s|
    requires RunEnd(s, st.current, NotQuote) == |s|
    ensures StepOk(s, st, StringStep(s, st))
    ensures var r := StringStep(s, st);
      r.tokens == st.tokens && |r.errors| == |st.errors| + 1
      && r.errors[|st.errors|].message == UnterminatedString
  {
    var r := StringStep(s, st);
    OneReportOk(s, st, r, UnterminatedString);
  }

  /** `handle_string` as a step: the line counter grows by the line feeds of
      the literal, and either one `String` token is added or the one report
      is an unterminated string. */
  lemma StringStepOk(s: string, st: State)
    requires st.start + 1 == st.current <= |s|
    requires s[st.start] == '"'
    ensures StepOk(s, st, StringStep(s, st))
    ensures var r := StringStep(s, st);
      if RunEnd(s, st.current, NotQuote) < |s| then
        r.errors == st.errors && |r.tokens| == |st.tokens| + 1 && r.tokens[|st.tokens|].kind.String?
      else
        r.tokens == st.tokens && |r.errors| == |st.errors| + 1
        && r.errors[|st.errors|].message == UnterminatedString
  {
    if RunEnd(s, st.current, NotQuote) < |s| {
      StringClosedOk(s, st);
    } else {
      StringUnterminatedOk(s, st);
    }
  }

  /** `handle_number` as a step: no line feed, one `Number` token. */
  lemma NumberStepOk(s: string, st: State)
    requires st.start + 1 == st.current <= |s|
    ensures StepOk(s, st, NumberStep(s, st))
    ensures var r := NumberStep(s, st);
      r.line == st.line && r.errors == st.errors
      && |r.tokens| == |st.tokens| + 1 && r.tokens[|st.tokens|].kind.Number?
  {
    var j := RunEnd(s, st.current, Digits);
    NoLineFeeds(s, st.current, j);
  }

  /** `identifier` as a step: no line feed, one identifier or reserved-word
      token. */
  lemma IdentifierStepOk(s: string, st: State)
    requires st.start + 1 == st.current <= |s|
    ensures StepOk(s, st, IdentifierStep(s, st))
    ensures var r := IdentifierStep(s, st);
      r.line == st.line && r.errors == st.errors && |r.tokens| == |st.tokens| + 1
      && r.tokens[|st.tokens|].kind == KeywordKind(r.tokens[|st.tokens|].lexeme)
  {
    var j := RunEnd(s, st.current, IdentChars);
    NoLineFeeds(s, st.current, j);
    var k := KeywordKind(s[st.start..j]);
    assert !k.Number? && !k.String? && !k.Eof?;
  }

  /** `handle_non_single_char` as a step. */
  lemma NonSingleCharStepOk(s: string, st: State, c: char)
    requires st.start + 1 == st.current <= |s|
    ensures StepOk(s, st, NonSingleCharStep(s, st, c))
  {
    if IsDigit(c) {
      NumberStepOk(s, st);
    } else if IsAlpha(c) {
      IdentifierStepOk(s, st);
    }
  }

  /** A good step taken after consuming one character other than a line
      feed is a good step from before that character. */
  lemma AfterOneChar(s: string, st: State, r: State)
    requires st.start == st.current < |s| && s[st.current] != '\n'
    requires StepOk(s, st.(current := st.current + 1), r)
    ensures StepOk(s, st, r)
  {
    NewlinesExtend(s, st.current, st.current);
    assert s[st.current..st.current] == [];
    NewlinesJoin(s, st.current, st.current + 1, r.current);
  }

  /** A punctuation character becomes one token of a kind without a literal. */
  lemma PunctuationOk(s: string, st: State, k: TokenType)
    requires st.start == st.current < |s| && PunctuationKind(s[st.current]) == Some(k)
    ensures StepOk(s, st, WithToken(s, st.(current := st.current + 1), k, Null))
  {
    NewlinesExtend(s, st.current, st.current);
    assert s[st.current..st.current] == [];
  }

  /** An operator character hands the rest of the step to
      `add_token_expect_double`. */
  lemma OperatorCharOk(s: string, st: State, arg: TokenType)
    requires st.start == st.current < |s| && OperatorKind(s[st.current]) == Some(arg)
    requires !CommentSpins(s, st.current)
    ensures var st1 := st.(current := st.current + 1);
      StepOk(s, st, OperatorStep(s, st1, arg))
  {
    var st1 := st.(current := st.current + 1);
    OperatorStepOk(s, st1, arg);
    AfterOneChar(s, st, OperatorStep(s, st1, arg));
  }

  /** Blanks are skipped; a line feed is skipped and counted. */
  lemma BlankOk(s: string, st: State)
    requires st.start == st.current < |s| && s[st.current] in " \r\t\n"
    ensures StepOk(s, st, st.(current := st.current + 1,
                              line := st.line + if s[st.current] == '\n' then 1 else 0))
  {
    NewlinesExtend(s, st.current, st.current);
    assert s[st.current..st.current] == [];
  }

  /** `scan_token` as a step from `start == current`. */
  lemma StepIsOk(s: string, st: State)
    requires st.start == st.current < |s|
    requires !CommentSpins(s, st.current)
    ensures StepOk(s, st, Step(s, st))
  {
    var st1 := st.(current := st.current + 1);
    match s[st.current]
    case '(' => PunctuationOk(s, st, LeftParen);
    case ')' => PunctuationOk(s, st, RightParen);
    case '{' => PunctuationOk(s, st, LeftBrace);
    case '}' => PunctuationOk(s, st, RightBrace);
    case ',' => PunctuationOk(s, st, Comma);
    case '.' => PunctuationOk(s, st, Dot);
    case '-' => PunctuationOk(s, st, Minus);
    case '+' => PunctuationOk(s, st, Plus);
    case ';' => PunctuationOk(s, st, Semicolon);
    case '*' => PunctuationOk(s, st, Star);
    case '!' => OperatorCharOk(s, st, Bang);
    case '=' => OperatorCharOk(s, st, Equal);
    case '<' => OperatorCharOk(s, st, Less);
    case '>' => OperatorCharOk(s, st, Greater);
    case '/' => OperatorCharOk(s, st, Slash);
    case ' ' => BlankOk(s, st);
    case '\r' => BlankOk(s, st);
    case '\t' => BlankOk(s, st);
    case '\n' => BlankOk(s, st);
    case '"' =>
      StringStepOk(s, st1);
      AfterOneChar(s, st, StringStep(s, st1));
    case c =>
      NonSingleCharStepOk(s, st1, c);
      AfterOneChar(s, st, NonSingleCharStep(s, st1, c));
  }

  /** A token of the scan's output other than the last: a non-empty lexeme,
      not `Eof`, following the literal rule. */
  predicate Shaped(t: Token) {
    0 < |t.lexeme| && !t.kind.Eof? && LiteralRule(t)
  }

  /** What a run of steps from `st` to `r` guarantees about what it added:
      the line counter never decreases, every added token is shaped and
      tagged with a line it reached, and every added report carries one of
      the two messages and such a line. */
  predicate RunOk(st: State, r: State) {
    && st.line <= r.line
    && |st.tokens| <= |r.tokens| && |st.errors| <= |r.errors|
    && (forall i :: |st.tokens| <= i < |r.tokens| ==>
          Shaped(r.tokens[i]) && st.line <= r.tokens[i].line <= r.line)
    && (forall i :: |st.errors| <= i < |r.errors| ==>
          (r.errors[i].message == UnexpectedCharacter || r.errors[i].message == UnterminatedString)
          && st.line <= r.errors[i].line <= r.line)
  }

  /** The loop of `scan_tokens` keeps the invariant, and everything it adds
      is shaped. */
  lemma {:induction false} RunIsOk(s: string, st: State)
    requires Inv(s, st) && Halts(s, st)
    ensures Inv(s, Run(s, st)) && RunOk(st, Run(s, st))
    decreases |s| - st.current
  {
    if st.current < |s| {
      var st0 := st.(start := st.current);
      var r1 := Step(s, st0);
      StepIsOk(s, st0);
      NewlinesSplit(s, st.current, r1.current);
      assert Inv(s, r1);
      RunIsOk(s, r1);
      var r := Run(s, r1);
      assert r.tokens[..|r1.tokens|] == r1.tokens;
      assert r.errors[..|r1.errors|] == r1.errors;
      forall i | |st.tokens| <= i < |r1.tokens|
        ensures Shaped(r.tokens[i]) && st.line <= r.tokens[i].line <= r.line
      {
        assert r.tokens[i] == r1.tokens[i];
        assert Lexed(s, st0.start, r1, r1.tokens[i]);
      }
      forall i | |st.errors| <= i < |r1.errors|
        ensures (r.errors[i].message == UnexpectedCharacter || r.errors[i].message == UnterminatedString)
          && st.line <= r.errors[i].line <= r.line
      {
        assert r.errors[i] == r1.errors[i];
        assert Reported(r1, r1.errors[i]);
      }
    }
  }

  /** The comment loop spins only on a `/` that ends the text, so a text
      that does not end in an operator character and `/` is always scanned
      to the end, from any state. */
  lemma {:induction false} HaltsUnlessEndsInOperatorSlash(s: string, st: State)
    requires st.current <= |s| && !EndsInOperatorSlash(s)
    ensures Halts(s, st)
    decreases |s| - st.current
  {
    if st.current < |s| {
      assert !CommentSpins(s, st.current);
      HaltsUnlessEndsInOperatorSlash(s, Step(s, st.(start := st.current)));
    }
  }

  /** The end of a whole run: appending `Eof` to a final state that keeps
      the invariant, with everything it added well formed. */
  lemma FinishOk(s: string, r: State, f: State)
    requires Inv(s, r) && r.current == |s| && RunOk(Initial(), r) && f == Finish(r)
    ensures 1 <= |f.tokens|
      && f.tokens[|f.tokens| - 1] == Token(Eof, "", Null, 1 + Newlines(s))
      && (forall i :: 0 <= i < |f.tokens| - 1 ==>
            Shaped(f.tokens[i]) && 1 <= f.tokens[i].line <= 1 + Newlines(s))
      && (forall e :: e in f.errors ==>
            (e.message == UnexpectedCharacter || e.message == UnterminatedString)
            && 1 <= e.line <= 1 + Newlines(s))
      && (f.hadError <==> f.errors != [])
  {
    assert s[..r.current] == s;
    forall e | e in r.errors
      ensures (e.message == UnexpectedCharacter || e.message == UnterminatedString)
        && 1 <= e.line <= 1 + Newlines(s)
    {
      var i :| 0 <= i < |r.errors| && r.errors[i] == e;
    }
  }

  /** The whole scan: the last token is `Eof` with an empty lexeme, the
      literal "null" and the number of the text's last line; no earlier
      token is `Eof`, every earlier token is shaped and lies on a line of
      the text; every report carries one of the two messages; and the error
      flag is raised exactly when something was reported. */
  lemma ScanOutput(s: string)
    requires Halts(s, Initial())
    ensures var r := Scan(s);
      && 1 <= |r.tokens|
      && r.tokens[|r.tokens| - 1] == Token(Eof, "", Null, 1 + Newlines(s))
      && (forall i :: 0 <= i < |r.tokens| - 1 ==>
            Shaped(r.tokens[i]) && 1 <= r.tokens[i].line <= 1 + Newlines(s))
      && (forall e :: e in r.errors ==>
            (e.message == UnexpectedCharacter || e.message == UnterminatedString)
            && 1 <= e.line <= 1 + Newlines(s))
      && (r.hadError <==> r.errors != [])
  {
    var r := Run(s, Initial());
    assert s[..0] == [];
    RunIsOk(s, Initial());
    FinishOk(s, r, Scan(s));
  }

  /** A digit starts a `Number` token whose lexeme, and literal, is the
      maximal run of digits from there: a `.` is never part of it. */
  lemma NumberIsMaximalDigitRun(s: string, st: State)
    requires st.start == st.current < |s| && IsDigit(s[st.current])
    ensures !CommentSpins(s, st.current)
    ensures var r := Step(s, st);
      && (forall k :: st.current <= k < r.current ==> IsDigit(s[k]))
      && (r.current == |s| || !IsDigit(s[r.current]))
      && r.tokens == st.tokens + [Token(Number, s[st.current..r.current], s[st.current..r.current], st.line)]
      && r.line == st.line && r.errors == st.errors && r.hadError == st.hadError
  {
    assert PunctuationKind(s[st.current]).None? && OperatorKind(s[st.current]).None?;
    assert Step(s, st) == NumberStep(s, st.(current := st.current + 1));
  }

  /** A letter or `_` starts a token whose lexeme is the maximal run of
      identifier characters from there; its kind is a reserved word's
      exactly when the lexeme is that word, and `Identifier` otherwise. */
  lemma IdentifierIsMaximalRun(s: string, st: State)
    requires st.start == st.current < |s| && IsAlpha(s[st.current])
    ensures !CommentSpins(s, st.current)
    ensures var r := Step(s, st);
      && (forall k :: st.current <= k < r.current ==> IsAlphaNum(s[k]))
      && (r.current == |s| || !IsAlphaNum(s[r.current]))
      && |r.tokens| == |st.tokens| + 1 && r.tokens[..|st.tokens|] == st.tokens
      && var t := r.tokens[|st.tokens|];
      && t.lexeme == s[st.current..r.current] && t.literal == Null && t.line == st.line
      && (t.kind.Identifier? <==> t.lexeme !in Keywords)
      && (t.lexeme in Keywords ==> t.kind == Keywords[t.lexeme])
      && r.line == st.line && r.errors == st.errors && r.hadError == st.hadError
  {
    CharacterClassesDisjoint(s[st.current]);
    assert PunctuationKind(s[st.current]).None? && OperatorKind(s[st.current]).None?;
    assert Step(s, st) == IdentifierStep(s, st.(current := st.current + 1));
  }

  /** A quote hands the rest of the step to `handle_string`. */
  lemma QuoteStartsString(s: string, st: State)
    requires st.start == st.current < |s| && s[st.current] == '"'
    ensures !CommentSpins(s, st.current)
    ensures Step(s, st) == StringStep(s, st.(current := st.current + 1))
  {
    assert PunctuationKind(s[st.current]).None? && OperatorKind(s[st.current]).None?;
  }

  /** A quote starts a string literal. When another quote follows somewhere,
      one `String` token is added whose lexeme runs to the first such quote
      and whose literal is the text between the two quotes, and the line
      counter has passed the literal's line feeds; otherwise nothing is
      added, "Unterminated string." is reported, and the cursor is at the
      end of the text. */
  lemma StringLiteralRules(s: string, st: State)
    requires st.start == st.current < |s| && s[st.current] == '"'
    ensures !CommentSpins(s, st.current)
    ensures var r := Step(s, st);
      && (forall k :: st.current < k < r.current - 1 ==> s[k] != '"')
      && ('"' in s[st.current + 1..] ==>
            && st.current + 2 <= r.current && s[r.current - 1] == '"'
            && r.line == st.line + Newlines(s[st.current + 1..r.current - 1])
            && r.tokens == st.tokens + [Token(String, s[st.current..r.current],
                                              s[st.current + 1..r.current - 1], r.line)]
            && r.errors == st.errors && r.hadError == st.hadError)
      && ('"' !in s[st.current + 1..] ==>
            && r.current == |s|
            && r.line == st.line + Newlines(s[st.current + 1..])
            && r.tokens == st.tokens && r.hadError
            && r.errors == st.errors + [Report(r.line, UnterminatedString)])
  {
    QuoteStartsString(s, st);
    StringStepFacts(s, st.(current := st.current + 1));
  }

  /** A character that starts no token is reported as unexpected and
      skipped; scanning goes on after it, and the flag stays raised. */
  lemma UnexpectedCharacterRecovery(s: string, st: State)
    requires st.start == st.current < |s|
    requires var c := s[st.current];
      PunctuationKind(c).None? && OperatorKind(c).None? && !IsDigit(c) && !IsAlpha(c)
      && c !in " \r\t\n\""
    ensures !CommentSpins(s, st.current)
    ensures Step(s, st) == st.(current := st.current + 1, hadError := true,
                               errors := st.errors + [Report(st.line, UnexpectedCharacter)])
  {
  }

  /** Once raised, the error flag stays raised for the rest of the scan,
      and reports are only ever appended. */
  lemma {:induction false} ErrorFlagNeverReset(s: string, st: State)
    requires st.current <= |s| && Halts(s, st)
    requires st.hadError
    ensures Run(s, st).hadError
    decreases |s| - st.current
  {
    if st.current < |s| {
      var r1 := Step(s, st.(start := st.current));
      StepIsOk(s, st.(start := st.current));
      ErrorFlagNeverReset(s, r1);
    }
  }

  /** Punctuation becomes a one-character token of its kind; blanks are
      skipped; a line feed only moves the line counter on. */
  lemma SingleCharacterRules(s: string, st: State)
    requires st.start == st.current < |s| && OperatorKind(s[st.current]).None?
    ensures !CommentSpins(s, st.current)
    ensures var c, r := s[st.current], Step(s, st);
      && (PunctuationKind(c).Some? ==>
            r == st.(current := st.current + 1,
                     tokens := st.tokens + [Token(PunctuationKind(c).value, [c], Null, st.line)]))
      && (c == ' ' || c == '\r' || c == '\t' ==> r == st.(current := st.current + 1))
      && (c == '\n' ==> r == st.(current := st.current + 1, line := st.line + 1))
  {
    assert s[st.current..st.current + 1] == [s[st.current]];
  }
}
