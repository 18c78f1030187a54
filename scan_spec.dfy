/** A functional account of the scanner: each recognition routine of
    `Scanner` as a function from one scanner state to the next, and the whole
    forward pass as their iteration. The imperative `Scanner` class is proved
    to compute exactly these functions. */
module ScanSpec {
  import opened Tokens
  import opened Lexemes

  /** One call of the error sink: the line it was given and the message. */
  datatype Report = Report(line: nat, message: string)

  /** The mutable part of a scanner (the source text is fixed and passed
      alongside): tokens so far, the lexeme's start, the cursor, the line
      counter, the error flag and the log of reported errors. */
  datatype State = State(
    tokens: seq<Token>,
    start: nat,
    current: nat,
    line: nat,
    hadError: bool,
    errors: seq<Report>)

  const UnexpectedCharacter: string := "Unexpected character."
  const UnterminatedString: string := "Unterminated string."
  /** The literal text of every token kind that has no literal value. */
  const Null: string := "null"

  /** `Scanner::new`: no tokens, both cursors at 0, on line 1, no error. */
  function Initial(): State {
    State([], 0, 0, 1, false, [])
  }

  /** `add_token`: appends a token whose lexeme is `source[start..current]`,
      tagged with the current line. */
  function WithToken(s: string, st: State, kind: TokenType, lit: string): State
    requires st.start <= st.current <= |s|
  {
    st.(tokens := st.tokens + [NewToken(kind, s[st.start..st.current], lit, st.line)])
  }

  /** `error`/`report`: logs the message at the current line and raises the flag. */
  function WithError(st: State, message: string): State {
    st.(hadError := true, errors := st.errors + [Report(st.line, message)])
  }

  /** `add_token` appends exactly one token, with the lexeme between the
      cursors and the current line, and changes nothing else. */
  lemma WithTokenAppends(s: string, st: State, kind: TokenType, lit: string)
    requires st.start <= st.current <= |s|
    ensures var r := WithToken(s, st, kind, lit);
      && |r.tokens| == |st.tokens| + 1 && r.tokens[..|st.tokens|] == st.tokens
      && r.tokens[|st.tokens|] == Token(kind, s[st.start..st.current], lit, st.line)
      && r.(tokens := st.tokens) == st
  {
    var r := WithToken(s, st, kind, lit);
    assert r.tokens[..|st.tokens|] == st.tokens;
  }

  /** `error` appends exactly one report, on the current line, raises the
      flag and changes nothing else. */
  lemma WithErrorAppends(st: State, message: string)
    ensures var r := WithError(st, message);
      && r.hadError && |r.errors| == |st.errors| + 1 && r.errors[..|st.errors|] == st.errors
      && r.errors[|st.errors|] == Report(st.line, message)
      && r.(hadError := st.hadError, errors := st.errors) == st
  {
    var r := WithError(st, message);
    assert r.errors[..|st.errors|] == st.errors;
  }

  /** The test `match_op` makes: the character at `i` exists and is `expected`. */
  predicate Matches(s: string, i: nat, expected: char) {
    i < |s| && s[i] == expected
  }

  /** The two-character kind `add_token_expect_double` emits for `arg` after
      an `=`; `None` for the kinds it rejects. */
  function EqualForm(arg: TokenType): Option<TokenType> {
    match arg
    case Bang => Some(BangEqual)
    case Equal => Some(EqualEqual)
    case Less => Some(LessEqual)
    case Greater => Some(GreaterEqual)
    case _ => None
  }

  /** The one input on which the comment loop of `add_token_expect_double`
      never stops: an operator character at `i` followed by a `/` that is the
      last character of the text. */
  predicate CommentSpins(s: string, i: nat) {
    i + 2 == |s| && OperatorKind(s[i]).Some? && s[i + 1] == '/'
  }

  /** A text that ends in an operator character followed by `/`. Outside
      such texts no step of the scan reaches the spinning comment loop
      (`ScanFacts.HaltsUnlessEndsInOperatorSlash`); some texts of this form
      are scanned to the end all the same, because an earlier step consumes
      the operator character. */
  predicate EndsInOperatorSlash(s: string) {
    |s| >= 2 && CommentSpins(s, |s| - 2)
  }

  /** What every recognition routine does to the state: `start` stays, the
      cursor moves forward but not past the end, and tokens and reports are
      only appended. */
  predicate Moves(s: string, st: State, r: State) {
    r.start == st.start && st.current <= r.current <= |s|
    && st.tokens <= r.tokens && st.errors <= r.errors
  }

  /** The first half of `add_token_expect_double`, with the operator
      character consumed: a following `/` is consumed (the comment loop after
      it never moves the cursor) and no token is added; otherwise a `Slash`
      token is added, whatever the operator. */
  function SlashOrComment(s: string, st: State): (r: State)
    requires st.start + 1 == st.current <= |s|
    requires !(Matches(s, st.current, '/') && st.current + 1 == |s|)
    ensures Moves(s, st, r) && st.start + 1 <= r.current <= st.start + 2
    ensures r.current == st.current + 1 <==> Matches(s, st.current, '/')
    ensures |r.tokens| == |st.tokens| + 1 <==> !Matches(s, st.current, '/')
    ensures r.line == st.line && r.errors == st.errors
  {
    if Matches(s, st.current, '/') then st.(current := st.current + 1)
    else WithToken(s, st, Slash, Null)
  }

  /** The second half of `add_token_expect_double(arg)`: a following `=` is
      consumed and gives the two-character kind, else `arg` itself is added;
      kinds without a two-character form are reported instead. */
  function EqualOrSingle(s: string, st: State, arg: TokenType): (r: State)
    requires st.start < st.current <= |s|
    ensures Moves(s, st, r)
    ensures st.current <= r.current <= st.current + 1
    ensures r.current == st.current + 1 <==> Matches(s, st.current, '=')
    ensures r.line == st.line
    ensures |r.tokens| + |r.errors| == |st.tokens| + |st.errors| + 1
  {
    if Matches(s, st.current, '=') then
      var st1 := st.(current := st.current + 1);
      if arg.Bang? then WithToken(s, st1, BangEqual, Null)
      else if arg.Equal? then WithToken(s, st1, EqualEqual, Null)
      else if arg.Less? then WithToken(s, st1, LessEqual, Null)
      else if arg.Greater? then WithToken(s, st1, GreaterEqual, Null)
      else WithError(st1, UnexpectedCharacter)
    else if arg.Bang? || arg.Equal? || arg.Less? || arg.Greater? then WithToken(s, st, arg, Null)
    else WithError(st, UnexpectedCharacter)
  }

  /** `add_token_expect_double(arg)`, with the operator character consumed. */
  function OperatorStep(s: string, st: State, arg: TokenType): (r: State)
    requires st.start + 1 == st.current <= |s|
    requires !(Matches(s, st.current, '/') && st.current + 1 == |s|)
    ensures Moves(s, st, r)
  {
    EqualOrSingle(s, SlashOrComment(s, st), arg)
  }

  /** The loop of `handle_string`: runs to the next quote or the end of the
      text, counting the line feeds it passes. */
  function SkipString(s: string, st: State): (r: State)
    requires st.current <= |s|
    ensures r.current == RunEnd(s, st.current, NotQuote)
    ensures r.line == st.line + Newlines(s[st.current..r.current])
  {
    var q := RunEnd(s, st.current, NotQuote);
    st.(current := q, line := st.line + Newlines(s[st.current..q]))
  }

  /** The end of `handle_string` at a quote: consumes it and adds a
      `String` token whose literal is the text between the two quotes. */
  function CloseQuote(s: string, st: State): (r: State)
    requires st.start < st.current < |s|
    ensures r.current == st.current + 1 && |r.tokens| == |st.tokens| + 1
  {
    var st1 := st.(current := st.current + 1);
    WithToken(s, st1, String, s[st1.start + 1..st1.current - 1])
  }

  /** `handle_string`, with the opening quote consumed: at the end of the
      text reports an unterminated string, otherwise closes the literal. */
  function StringStep(s: string, st: State): (r: State)
    requires st.start + 1 == st.current <= |s|
    ensures Moves(s, st, r)
  {
    var st1 := SkipString(s, st);
    if st1.current == |s| then WithError(st1, UnterminatedString)
    else CloseQuote(s, st1)
  }

  /** `handle_number`: the maximal run of digits becomes a `Number` token
      whose literal is its lexeme. A `.` is never taken in: `peek_next`
      reads the character at `current`, which is then the `.` itself. */
  function NumberStep(s: string, st: State): (r: State)
    requires st.start < st.current <= |s|
    ensures Moves(s, st, r)
  {
    var j := RunEnd(s, st.current, Digits);
    WithToken(s, st.(current := j), Number, s[st.start..j])
  }

  /** `identifier`: the maximal run of identifier characters becomes a token
      of its reserved word's kind, or `Identifier`. */
  function IdentifierStep(s: string, st: State): (r: State)
    requires st.start < st.current <= |s|
    ensures Moves(s, st, r)
  {
    var j := RunEnd(s, st.current, IdentChars);
    WithToken(s, st.(current := j), KeywordKind(s[st.start..j]), Null)
  }

  /** `handle_non_single_char(c)`: a digit starts a number, a letter or `_`
      an identifier; anything else is reported as unexpected. */
  function NonSingleCharStep(s: string, st: State, c: char): (r: State)
    requires st.start < st.current <= |s|
    ensures Moves(s, st, r)
  {
    if IsDigit(c) then NumberStep(s, st)
    else if IsAlpha(c) then IdentifierStep(s, st)
    else WithError(st, UnexpectedCharacter)
  }

  /** The punctuation `scan_token` turns into a one-character token. */
  function PunctuationKind(c: char): Option<TokenType> {
    match c
    case '(' => Some(LeftParen)
    case ')' => Some(RightParen)
    case '{' => Some(LeftBrace)
    case '}' => Some(RightBrace)
    case ',' => Some(Comma)
    case '.' => Some(Dot)
    case '-' => Some(Minus)
    case '+' => Some(Plus)
    case ';' => Some(Semicolon)
    case '*' => Some(Star)
    case _ => None
  }

  /** The kind `scan_token` passes to `add_token_expect_double` for an
      operator character. */
  function OperatorKind(c: char): Option<TokenType> {
    match c
    case '!' => Some(Bang)
    case '=' => Some(Equal)
    case '<' => Some(Less)
    case '>' => Some(Greater)
    case '/' => Some(Slash)
    case _ => None
  }

  /** `scan_token`: consumes one character and dispatches on it. Every step
      moves the cursor forward and leaves it within the text. */
  function Step(s: string, st: State): (r: State)
    requires st.start == st.current < |s|
    requires !CommentSpins(s, st.current)
    ensures Moves(s, st, r) && st.current < r.current
  {
    var st1 := st.(current := st.current + 1);
    match s[st.current]
    case '(' => WithToken(s, st1, LeftParen, Null)
    case ')' => WithToken(s, st1, RightParen, Null)
    case '{' => WithToken(s, st1, LeftBrace, Null)
    case '}' => WithToken(s, st1, RightBrace, Null)
    case ',' => WithToken(s, st1, Comma, Null)
    case '.' => WithToken(s, st1, Dot, Null)
    case '-' => WithToken(s, st1, Minus, Null)
    case '+' => WithToken(s, st1, Plus, Null)
    case ';' => WithToken(s, st1, Semicolon, Null)
    case '*' => WithToken(s, st1, Star, Null)
    case '!' => OperatorStep(s, st1, Bang)
    case '=' => OperatorStep(s, st1, Equal)
    case '<' => OperatorStep(s, st1, Less)
    case '>' => OperatorStep(s, st1, Greater)
    case '/' => OperatorStep(s, st1, Slash)
    case ' ' => st1
    case '\r' => st1
    case '\t' => st1
    case '\n' => st1.(line := st1.line + 1)
    case '"' => StringStep(s, st1)
    case c => NonSingleCharStep(s, st1, c)
  }

  /** The loop of `scan_tokens`, started from `st`, stops: no step it takes
      starts where the comment loop spins. */
  predicate Halts(s: string, st: State)
    requires st.current <= |s|
    decreases |s| - st.current
  {
    st.current == |s|
    || (!CommentSpins(s, st.current) && Halts(s, Step(s, st.(start := st.current))))
  }

  /** The loop of `scan_tokens`: set `start` to the cursor and take a step,
      until the cursor reaches the end of the text. The tokens and reports
      already present are kept as a prefix. */
  function Run(s: string, st: State): (r: State)
    requires st.current <= |s| && Halts(s, st)
    ensures r.current == |s|
    ensures st.tokens <= r.tokens && st.errors <= r.errors
    decreases |s| - st.current
  {
    if st.current >= |s| then st
    else Run(s, Step(s, st.(start := st.current)))
  }

  /** One turn of the `scan_tokens` loop leaves the rest of the run unchanged. */
  lemma RunUnfold(s: string, st: State)
    requires st.current < |s| && Halts(s, st)
    ensures Run(s, st) == Run(s, Step(s, st.(start := st.current)))
  {
  }

  /** The end of `scan_tokens`: the `Eof` token, with an empty lexeme, the
      literal "null" and the final line. */
  function Finish(st: State): State {
    st.(tokens := st.tokens + [NewToken(Eof, "", Null, st.line)])
  }

  /** `scan_tokens` ends by appending exactly one `Eof` token, on the final
      line, and changes nothing else. */
  lemma FinishAppendsEof(st: State)
    ensures var r := Finish(st);
      && |r.tokens| == |st.tokens| + 1 && r.tokens[..|st.tokens|] == st.tokens
      && r.tokens[|st.tokens|] == Token(Eof, "", Null, st.line)
      && r.(tokens := st.tokens) == st
  {
    var r := Finish(st);
    assert r.tokens[..|st.tokens|] == st.tokens;
  }

  /** A whole scan of `s` by a new scanner. */
  function Scan(s: string): (r: State)
    requires Halts(s, Initial())
    ensures r.current == |s| && 1 <= |r.tokens| && r.tokens[|r.tokens| - 1].kind.Eof?
  {
    Finish(Run(s, Initial()))
  }
}
