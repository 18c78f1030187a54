/** Whole scans of short texts, worked out to the last token. */
module ScanExamples {
  import opened Tokens
  import opened Lexemes
  import opened ScanSpec
  import opened ScanFacts

  const FractionText: string := "123.45"

  lemma FractionSteps()
    ensures Step(FractionText, Initial())
         == State([Token(Number, "123", "123", 1)], 0, 3, 1, false, [])
    ensures Step(FractionText, State([Token(Number, "123", "123", 1)], 3, 3, 1, false, []))
         == State([Token(Number, "123", "123", 1), Token(Dot, ".", Null, 1)], 3, 4, 1, false, [])
  {
    var s := FractionText;
    NumberIsMaximalDigitRun(s, Initial());
    assert !IsDigit(s[3]);
    assert s[0..3] == "123";
    SingleCharacterRules(s, State([Token(Number, "123", "123", 1)], 3, 3, 1, false, []));
  }

  /** "123.45" is two numbers around a dot: the number rule never takes a
      fraction in. */
  lemma NumberWithFraction()
    ensures Halts(FractionText, Initial())
    ensures Scan(FractionText).tokens == [
      Token(Number, "123", "123", 1), Token(Dot, ".", Null, 1),
      Token(Number, "45", "45", 1), Token(Eof, "", Null, 1)]
    ensures !Scan(FractionText).hadError
  {
    var s := FractionText;
    FractionSteps();
    var st2 := State([Token(Number, "123", "123", 1), Token(Dot, ".", Null, 1)], 4, 4, 1, false, []);
    NumberIsMaximalDigitRun(s, st2);
    var st3 := Step(s, st2);
    assert s[4..st3.current] == "45";
    HaltsUnlessEndsInOperatorSlash(s, Initial());
    RunUnfold(s, Initial());
    HaltsUnlessEndsInOperatorSlash(s, State([Token(Number, "123", "123", 1)], 0, 3, 1, false, []));
    RunUnfold(s, State([Token(Number, "123", "123", 1)], 0, 3, 1, false, []));
    HaltsUnlessEndsInOperatorSlash(s, st2.(start := 3));
    RunUnfold(s, st2.(start := 3));
    assert Run(s, Initial()) == st3;
  }

  const BangEqualText: string := "!="

  lemma BangEqualStep()
    ensures Step(BangEqualText, Initial()) == State(
      [Token(Slash, "!", Null, 1), Token(BangEqual, "!=", Null, 1)], 0, 2, 1, false, [])
  {
    var s := BangEqualText;
    var st1 := Initial().(current := 1);
    assert Step(s, Initial()) == OperatorStep(s, st1, Bang);
    SlashOrCommentFacts(s, st1);
    var st2 := SlashOrComment(s, st1);
    EqualOrSingleFacts(s, st2, Bang);
    assert s[0..1] == "!" && s[0..2] == "!=";
  }

  /** "!=" gives a spurious `Slash` for the `!` before the `BangEqual`. */
  lemma OperatorWithSpuriousSlash()
    ensures Halts(BangEqualText, Initial())
    ensures Scan(BangEqualText).tokens == [
      Token(Slash, "!", Null, 1), Token(BangEqual, "!=", Null, 1), Token(Eof, "", Null, 1)]
    ensures !Scan(BangEqualText).hadError
  {
    BangEqualStep();
    HaltsUnlessEndsInOperatorSlash(BangEqualText, Initial());
    RunUnfold(BangEqualText, Initial());
  }

  const OpenStringText: string := "\"abc"

  lemma OpenStringStep()
    ensures Step(OpenStringText, Initial())
         == State([], 0, 4, 1, true, [Report(1, UnterminatedString)])
  {
    var s := OpenStringText;
    StringLiteralRules(s, Initial());
    assert s[1..] == "abc";
    NoLineFeeds(s, 1, 4);
    assert '"' !in s[1..];
  }

  /** An unterminated string adds no token and reports once, on its line. */
  lemma UnterminatedStringReported()
    ensures Halts(OpenStringText, Initial())
    ensures Scan(OpenStringText).tokens == [Token(Eof, "", Null, 1)]
    ensures Scan(OpenStringText).errors == [Report(1, UnterminatedString)]
    ensures Scan(OpenStringText).hadError
  {
    OpenStringStep();
    HaltsUnlessEndsInOperatorSlash(OpenStringText, Initial());
    RunUnfold(OpenStringText, Initial());
  }

  const MultiLineStringText: string := "\"a\nb\""

  lemma MultiLineStringBody()
    ensures RunEnd(MultiLineStringText, 1, NotQuote) == 4
    ensures Newlines(MultiLineStringText[1..4]) == 1
    ensures MultiLineStringText[1..4] == "a\nb"
  {
    var s := MultiLineStringText;
    RunEndUnique(s, 1, 4, NotQuote);
    NoLineFeeds(s, 1, 2);
    NewlinesExtend(s, 1, 2);
    NewlinesExtend(s, 1, 3);
  }

  lemma MultiLineStringStep()
    ensures Step(MultiLineStringText, Initial())
         == State([Token(String, "\"a\nb\"", "a\nb", 2)], 0, 5, 2, false, [])
  {
    var s := MultiLineStringText;
    MultiLineStringBody();
    assert Step(s, Initial()) == StringStep(s, Initial().(current := 1));
    assert s[0..5] == s;
  }

  /** A string spanning two lines is tagged with the line of its closing
      quote, and so is the `Eof` after it. */
  lemma MultiLineString()
    ensures Halts(MultiLineStringText, Initial())
    ensures Scan(MultiLineStringText).tokens == [
      Token(String, "\"a\nb\"", "a\nb", 2), Token(Eof, "", Null, 2)]
    ensures !Scan(MultiLineStringText).hadError
  {
    MultiLineStringStep();
    HaltsUnlessEndsInOperatorSlash(MultiLineStringText, Initial());
    RunUnfold(MultiLineStringText, Initial());
  }

  const CommentText: string := "//x"

  lemma CommentSteps()
    ensures Step(CommentText, Initial())
         == State([], 0, 2, 1, true, [Report(1, UnexpectedCharacter)])
    ensures Step(CommentText, State([], 2, 2, 1, true, [Report(1, UnexpectedCharacter)]))
         == State([Token(Identifier, "x", Null, 1)], 2, 3, 1, true, [Report(1, UnexpectedCharacter)])
  {
    var s := CommentText;
    var st1 := Initial().(current := 1);
    assert Step(s, Initial()) == OperatorStep(s, st1, Slash);
    SlashOrCommentFacts(s, st1);
    EqualOrSingleFacts(s, SlashOrComment(s, st1), Slash);
    var st2 := State([], 2, 2, 1, true, [Report(1, UnexpectedCharacter)]);
    IdentifierIsMaximalRun(s, st2);
    assert s[2..3] == "x";
    assert "x" !in Keywords;
  }

  /** "//x" is not a comment: the second `/` is consumed, the first is
      reported as an unexpected character, and the comment's text is scanned
      as an identifier. */
  lemma CommentTextIsScanned()
    ensures Halts(CommentText, Initial())
    ensures Scan(CommentText).tokens == [Token(Identifier, "x", Null, 1), Token(Eof, "", Null, 1)]
    ensures Scan(CommentText).errors == [Report(1, UnexpectedCharacter)]
  {
    CommentSteps();
    HaltsUnlessEndsInOperatorSlash(CommentText, Initial());
    RunUnfold(CommentText, Initial());
    HaltsUnlessEndsInOperatorSlash(CommentText, State([], 0, 2, 1, true, [Report(1, UnexpectedCharacter)]));
    RunUnfold(CommentText, State([], 0, 2, 1, true, [Report(1, UnexpectedCharacter)]));
  }

  /** The empty text scans to the `Eof` token alone, on line 1. */
  lemma EmptyText()
    ensures Scan("") == State([Token(Eof, "", Null, 1)], 0, 0, 1, false, [])
  {
  }

  /** A one-digit text scans to its number and `Eof`, both on line 1. */
  lemma SingleDigit()
    ensures Halts("9", Initial())
    ensures Scan("9").tokens == [Token(Number, "9", "9", 1), Token(Eof, "", Null, 1)]
  {
    NumberIsMaximalDigitRun("9", Initial());
    var r := Step("9", Initial());
    assert r.current == 1 && "9"[0..1] == "9";
    HaltsUnlessEndsInOperatorSlash("9", Initial());
    RunUnfold("9", Initial());
  }

  const ClassText: string := "class"

  lemma ClassStep()
    ensures Step(ClassText, Initial()) == State([Token(Class, "class", Null, 1)], 0, 5, 1, false, [])
  {
    IdentifierIsMaximalRun(ClassText, Initial());
    assert ClassText[0..5] == ClassText;
  }

  /** "class" is one reserved-word token, not an identifier. */
  lemma ReservedWordScanned()
    ensures Halts(ClassText, Initial())
    ensures Scan(ClassText).tokens == [Token(Class, "class", Null, 1), Token(Eof, "", Null, 1)]
  {
    ClassStep();
    HaltsUnlessEndsInOperatorSlash(ClassText, Initial());
    RunUnfold(ClassText, Initial());
  }

  const StrayText: string := "@1"

  lemma StraySteps()
    ensures Step(StrayText, Initial())
         == State([], 0, 1, 1, true, [Report(1, UnexpectedCharacter)])
    ensures Step(StrayText, State([], 1, 1, 1, true, [Report(1, UnexpectedCharacter)]))
         == State([Token(Number, "1", "1", 1)], 1, 2, 1, true, [Report(1, UnexpectedCharacter)])
  {
    UnexpectedCharacterRecovery(StrayText, Initial());
    var st1 := State([], 1, 1, 1, true, [Report(1, UnexpectedCharacter)]);
    NumberIsMaximalDigitRun(StrayText, st1);
    assert Step(StrayText, st1).current == 2;
    assert StrayText[1..2] == "1";
  }

  /** After an unexpected character the scan goes on: "@1" reports the `@`
      once and still yields the number. */
  lemma StrayCharacterRecovery()
    ensures Halts(StrayText, Initial())
    ensures Scan(StrayText).tokens == [Token(Number, "1", "1", 1), Token(Eof, "", Null, 1)]
    ensures Scan(StrayText).errors == [Report(1, UnexpectedCharacter)]
    ensures Scan(StrayText).hadError
  {
    StraySteps();
    HaltsUnlessEndsInOperatorSlash(StrayText, Initial());
    RunUnfold(StrayText, Initial());
    HaltsUnlessEndsInOperatorSlash(StrayText, State([], 0, 1, 1, true, [Report(1, UnexpectedCharacter)]));
    RunUnfold(StrayText, State([], 0, 1, 1, true, [Report(1, UnexpectedCharacter)]));
  }

  const EqualSlashText: string := "!=/"

  /** Ending in an operator character and `/` does not decide the matter:
      in "!=/" the `=` is consumed with the `!`, so the last `/` is scanned
      on its own and the scan ends, while in "!/" the comment loop spins. */
  lemma OperatorSlashAtTheEnd()
    ensures EndsInOperatorSlash(EqualSlashText) && Halts(EqualSlashText, Initial())
    ensures EndsInOperatorSlash("!/") && !Halts("!/", Initial())
  {
    var s := EqualSlashText;
    var st1 := Initial().(current := 1);
    assert Step(s, Initial()) == OperatorStep(s, st1, Bang);
    SlashOrCommentFacts(s, st1);
    EqualOrSingleFacts(s, SlashOrComment(s, st1), Bang);
    var r1 := Step(s, Initial());
    assert r1.current == 2 && !CommentSpins(s, 2);
    var r2 := Step(s, r1.(start := 2));
    assert Halts(s, r2);
    assert Halts(s, r1);
    assert CommentSpins("!/", 0);
  }

  /** The number loop run directly from a fresh scanner on a text that does
      not start with a digit consumes nothing, and `add_token(Number, ..)`
      then appends a `Number` token with an empty lexeme and literal. */
  lemma NumberLoopOnNonDigit(s: string)
    requires |s| > 0 && !IsDigit(s[0])
    ensures RunEnd(s, 0, Digits) == 0
    ensures WithToken(s, Initial(), Number, s[0..RunEnd(s, 0, Digits)])
         == Initial().(tokens := [Token(Number, "", "", 1)])
  {
  }
}
