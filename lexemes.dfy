/** The pure helpers of the scanner: character classes, character lookup,
    maximal runs, newline counting and the reserved-word table. */
module Lexemes {
  import opened Tokens

  datatype Option<T> = None | Some(value: T)

  /** `is_digit`: an ASCII decimal digit. */
  predicate IsDigit(c: char) {
    '0' <= c <= '9'
  }

  /** `is_alpha`: an ASCII letter or the underscore. */
  predicate IsAlpha(c: char) {
    ('a' <= c <= 'z') || ('A' <= c <= 'Z') || c == '_'
  }

  /** `is_alphanum`: a character that may continue an identifier. */
  predicate IsAlphaNum(c: char) {
    IsAlpha(c) || IsDigit(c)
  }

  /** The character classes the scanner consumes maximal runs of. */
  datatype CharClass =
    | Digits      // the rest of a number: `is_digit`
    | IdentChars  // the rest of an identifier: `is_alphanum`
    | NotQuote    // the body of a string literal: anything but `"`

  predicate InClass(c: char, cls: CharClass) {
    match cls
    case Digits => IsDigit(c)
    case IdentChars => IsAlphaNum(c)
    case NotQuote => c != '"'
  }

  /** `source_char_at(i)` followed by the scanner's `None => '\0'`: the
      character at index `i`, or NUL past the end of the text. */
  function CharAt(s: string, i: nat): (c: char)
    ensures i < |s| ==> c == s[i]
    ensures i >= |s| ==> c == '\0'
  {
    if i < |s| then s[i] else '\0'
  }

  /** The end of the maximal run of characters satisfying `p` that starts at
      index `i`: every character in `s[i..j]` satisfies `p`, and the run stops
      at the end of the text or at the first character that does not. */
  function RunEnd(s: string, i: nat, cls: CharClass): (j: nat)
    requires i <= |s|
    ensures i <= j <= |s|
    ensures forall k :: i <= k < j ==> InClass(s[k], cls)
    ensures j == |s| || !InClass(s[j], cls)
    decreases |s| - i
  {
    if i < |s| && InClass(s[i], cls) then RunEnd(s, i + 1, cls) else i
  }

  /** Any index that satisfies the run's characterisation is the run's end. */
  lemma {:induction false} RunEndUnique(s: string, i: nat, j: nat, cls: CharClass)
    requires i <= j <= |s|
    requires forall k :: i <= k < j ==> InClass(s[k], cls)
    requires j == |s| || !InClass(s[j], cls)
    ensures RunEnd(s, i, cls) == j
    decreases |s| - i
  {
    if i < j {
      RunEndUnique(s, i + 1, j, cls);
    }
  }

  /** The run of non-quote characters from `i` stops before the end of the
      text exactly when a quote follows somewhere from `i` on; when it does
      not stop, it is the whole rest of the text. */
  lemma FirstQuote(s: string, i: nat)
    requires i <= |s|
    ensures var q := RunEnd(s, i, NotQuote);
      && ('"' in s[i..] <==> q < |s|)
      && (q == |s| ==> s[i..q] == s[i..])
  {
    var q, rest := RunEnd(s, i, NotQuote), s[i..];
    if q < |s| {
      assert rest[q - i] == s[q];
    } else {
      forall k | 0 <= k < |rest|
        ensures rest[k] != '"'
      {
        assert rest[k] == s[i + k];
      }
    }
  }

  /** Number of line feeds in a text. */
  function Newlines(s: string): nat {
    if s == [] then 0
    else Newlines(s[..|s| - 1]) + (if s[|s| - 1] == '\n' then 1 else 0)
  }

  /** Extending a text by one character adds one exactly when it is a line feed. */
  lemma NewlinesSnoc(a: string, c: char)
    ensures Newlines(a + [c]) == Newlines(a) + (if c == '\n' then 1 else 0)
  {
    assert (a + [c])[..|a|] == a;
  }

  /** Widening a slice by one character adds one exactly when it is a line feed. */
  lemma NewlinesExtend(s: string, i: nat, j: nat)
    requires i <= j < |s|
    ensures Newlines(s[i..j + 1]) == Newlines(s[i..j]) + (if s[j] == '\n' then 1 else 0)
  {
    assert s[i..j + 1] == s[i..j] + [s[j]];
    NewlinesSnoc(s[i..j], s[j]);
  }

  /** Counting line feeds distributes over concatenation. */
  lemma {:induction false} NewlinesConcat(a: string, b: string)
    ensures Newlines(a + b) == Newlines(a) + Newlines(b)
    decreases |b|
  {
    if b == [] {
      assert a + b == a;
    } else {
      var init, last := b[..|b| - 1], b[|b| - 1];
      assert b == init + [last];
      assert a + b == (a + init) + [last];
      NewlinesConcat(a, init);
      NewlinesSnoc(a + init, last);
      NewlinesSnoc(init, last);
    }
  }

  /** Counting line feeds distributes over a split of the text. */
  lemma NewlinesSplit(s: string, i: nat, j: nat)
    requires i <= j <= |s|
    ensures Newlines(s[..j]) == Newlines(s[..i]) + Newlines(s[i..j])
  {
    assert s[..j] == s[..i] + s[i..j];
    NewlinesConcat(s[..i], s[i..j]);
  }

  /** Counting line feeds distributes over adjacent slices. */
  lemma NewlinesJoin(s: string, i: nat, j: nat, k: nat)
    requires i <= j <= k <= |s|
    ensures Newlines(s[i..k]) == Newlines(s[i..j]) + Newlines(s[j..k])
  {
    assert s[i..k] == s[i..j] + s[j..k];
    NewlinesConcat(s[i..j], s[j..k]);
  }

  /** A text without line feeds counts none, and one with a line feed counts some. */
  lemma {:induction false} NewlinesZero(s: string)
    ensures Newlines(s) == 0 <==> '\n' !in s
    decreases |s|
  {
    if s != [] {
      var init := s[..|s| - 1];
      assert s == init + [s[|s| - 1]];
      NewlinesZero(init);
    }
  }

  /** The sixteen reserved words, as the table in `identifier` spells them. */
  const Keywords: map<string, TokenType> := map[
    "and" := And, "class" := Class, "else" := Else, "false" := False,
    "fun" := Fun, "for" := For, "if" := If, "nil" := Nil,
    "or" := Or, "print" := Print, "return" := Return, "super" := Super,
    "this" := This, "true" := True, "var" := Var, "while" := While
  ]

  /** The kinds of the reserved words. */
  predicate IsKeywordKind(k: TokenType) {
    k in {And, Class, Else, False, Fun, For, If, Nil, Or, Print, Return, Super, This, True, Var, While}
  }

  /** The kind `identifier` gives an identifier-shaped text: its reserved
      word's kind when the text is one of the sixteen words (compared exactly,
      case included), and `Identifier` otherwise. */
  function KeywordKind(text: string): (k: TokenType)
    ensures k == Identifier <==> text !in Keywords
    ensures k != Identifier ==> IsKeywordKind(k)
  {
    if text in Keywords then Keywords[text] else Identifier
  }

  /** The spelling of a reserved word's kind: the inverse of the table. */
  function KeywordSpelling(k: TokenType): Option<string> {
    match k
    case And => Some("and")
    case Class => Some("class")
    case Else => Some("else")
    case False => Some("false")
    case Fun => Some("fun")
    case For => Some("for")
    case If => Some("if")
    case Nil => Some("nil")
    case Or => Some("or")
    case Print => Some("print")
    case Return => Some("return")
    case Super => Some("super")
    case This => Some("this")
    case True => Some("true")
    case Var => Some("var")
    case While => Some("while")
    case _ => None
  }

  /** Each reserved-word kind is reached from exactly its spelling, and only
      reserved-word kinds have one. */
  lemma KeywordSpellingRoundTrip(k: TokenType)
    ensures IsKeywordKind(k) <==> KeywordSpelling(k).Some?
    ensures KeywordSpelling(k).Some? ==> KeywordKind(KeywordSpelling(k).value) == k
  {
  }

  /** Each reserved word maps to a kind spelled by that word, so no two
      words share a kind. */
  lemma KeywordKindRoundTrip(text: string)
    ensures text in Keywords ==> KeywordSpelling(KeywordKind(text)) == Some(text)
  {
  }

  /** Reserved words are matched exactly: "class" is a keyword, while a
      longer word that starts with it, or a different capitalisation, is not. */
  lemma KeywordBoundaries()
    ensures KeywordKind("class") == Class
    ensures KeywordKind("classify") == Identifier
    ensures KeywordKind("Class") == Identifier
    ensures KeywordKind("or") == Or && KeywordKind("orchid") == Identifier
  {
  }

  /** The letters, the underscore and the digits listed in the scanner's own
      character-class test, in its order. */
  const TestLower: string := "abcdefghijklmnopqrstuvwxyz"
  const TestUpper: string := "ABCDEFGHIJKLMNOPQRSTUVWXYZ"
  const TestAlphas: string := "_" + TestLower + TestUpper
  const TestDigits: string := "0123456789"

  lemma TestLowerExact(d: char)
    ensures 'a' <= d <= 'z' <==> d in TestLower
  {
  }

  lemma TestUpperExact(d: char)
    ensures 'A' <= d <= 'Z' <==> d in TestUpper
  {
  }

  /** `is_alpha` holds for exactly the characters of the test's list. */
  lemma IsAlphaExact(d: char)
    ensures IsAlpha(d) <==> d in TestAlphas
  {
    TestLowerExact(d);
    TestUpperExact(d);
    assert d in TestAlphas <==> d == '_' || d in TestLower || d in TestUpper;
  }

  /** `is_digit` holds for exactly the ten digits of the test's list. */
  lemma IsDigitExact(d: char)
    ensures IsDigit(d) <==> d in TestDigits
  {
  }

  /** `is_alphanum` holds for exactly the characters of the two lists. */
  lemma IsAlphaNumExact(d: char)
    ensures IsAlphaNum(d) <==> d in TestAlphas + TestDigits
  {
    IsAlphaExact(d);
    IsDigitExact(d);
  }

  /** The text of the scanner's own character-class test, in two halves. */
  const LiterateUpper: string := "THE_QUICK_BROWN_FOX_" + "JUMPS_OVER_THE_LAZY_" + "DOG___"
  const LiterateLower: string := "the_quick_brown_fox_" + "jumps_over_the_lazy_" + "dog___1234567890"
  const LiterateText: string := LiterateUpper + LiterateLower

  lemma LiterateUpperIsAlphaNum()
    ensures forall c :: c in LiterateUpper ==> IsAlphaNum(c)
  {
    assert forall c :: c in "THE_QUICK_BROWN_FOX_" ==> IsAlphaNum(c);
    assert forall c :: c in "JUMPS_OVER_THE_LAZY_" ==> IsAlphaNum(c);
    assert forall c :: c in "DOG___" ==> IsAlphaNum(c);
  }

  lemma LiterateLowerIsAlphaNum()
    ensures forall c :: c in LiterateLower ==> IsAlphaNum(c)
  {
    assert forall c :: c in "the_quick_brown_fox_" ==> IsAlphaNum(c);
    assert forall c :: c in "jumps_over_the_lazy_" ==> IsAlphaNum(c);
    assert forall c :: c in "dog___1234567890" ==> IsAlphaNum(c);
  }

  /** Every character of that text may continue an identifier. */
  lemma LiterateTextIsAlphaNum()
    ensures |LiterateText| == 102
    ensures forall c :: c in LiterateText ==> IsAlphaNum(c)
  {
    LiterateUpperIsAlphaNum();
    LiterateLowerIsAlphaNum();
  }

  /** Digits and letters are disjoint, and no identifier character is one
      that drives another branch of `scan_token`: punctuation, operators,
      the quote, blanks, the line feed and NUL. */
  lemma CharacterClassesDisjoint(c: char)
    ensures IsAlpha(c) ==> !IsDigit(c)
    ensures IsAlphaNum(c) ==> c !in "\0\n\"./=!<> \t\r(){},-+;*"
  {
  }
}
