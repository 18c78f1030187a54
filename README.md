# rjlox scanner, modelled in Dafny

This project models the lexical scanner of rjlox, a Rust implementation of
the Lox scripting language. The scanner turns the source text into a list of
tokens in one forward pass. It recognises punctuation, one- and
two-character operators, string and number literals, identifiers and the
sixteen reserved words. It hands every lexical error to an error sink and
keeps scanning.

The model follows the code as written, including where the code does not do
what its comments or a reader expect:

- Every operator character `!`, `=`, `<`, `>` and `/` that is not followed
  by `/` first adds a one-character `Slash` token.
- `//` does not start a comment. The comment loop runs only while
  `peek() != '\n' && is_at_end()`. In the middle of the text it never runs,
  so the second `/` is consumed and the comment's text is scanned as
  ordinary tokens. `/` has no two-character form, so it is always reported
  as an unexpected character.
- When the consumed `/` is the last character of the text, that loop never
  stops (`ScanSpec.CommentSpins`). A whole scan is modelled from the states
  whose scan never reaches that point (`ScanSpec.Halts`), and exactly
  those.
- `peek_next` reads the character at the cursor, not the one after it. So
  the fraction branch of `handle_number` is unreachable, and `123.45` scans
  as `123`, `.` and `45`. The model keeps that branch and proves it dead
  with `assert false`.
- A string literal that spans lines is tagged with the line of its closing
  quote. `add_token` reads the line counter after the string loop has
  counted the line feeds.
- Tokens without a literal value carry the literal text `"null"`.

The source's own comments and dead code show a different intent on some of
these points: the comment "Comment goes until end of line." above the
comment loop (`src/scanner/mod.rs:157`), the read of `current + 1` left
commented out in `peek_next` (`src/scanner/mod.rs:224`), and the fraction
branch of `handle_number` (`src/scanner/mod.rs:101-107`). The model follows
the code, not those comments.

Layout:

- `token.dfy`, module `Tokens`: the token kinds and the `Token` record
  (`src/scanner/token.rs`).
- `lexemes.dfy`, module `Lexemes`: the pure parts of the scanner. This
  covers `is_digit`, `is_alpha` and `is_alphanum`, character lookup, maximal
  runs, line-feed counting and the reserved-word table.
- `scan_spec.dfy`, module `ScanSpec`: a functional account of the scanner.
  It describes each recognition routine as a function from one scanner
  state to the next, `Run` as the loop of `scan_tokens`, and `Scan` as a
  whole scan.
- `scanner.dfy`, module `Scanning`: the `Scanner` class. Its fields are
  updated in place by methods with the same loops as the source. Each
  method is proved to compute the matching `ScanSpec` function on the
  state (`Snap()`).
- `scan_facts.dfy`, module `ScanFacts`: what a scan guarantees. This covers
  the invariant every step keeps, the shape of every token and report, the
  final `Eof` token, and the rules of each routine.
- `scan_examples.dfy`, module `ScanExamples`: whole scans of short texts,
  worked out to the last token.

The error sink `error`/`report` of `src/main.rs` has two effects here. It
appends `(line, message)` to a ghost log (`errors`), and it raises the
scanner's `hadError` flag.

## Model

| member | source | states |
|---|---|---|
| Tokens.NewToken | src/scanner/token.rs:13-20 | the token stores its kind, lexeme, literal and line exactly as given |
| Lexemes.CharAt | src/scanner/mod.rs:231-233 | the character at an index inside the text, and NUL past its end |
| Lexemes.RunEnd | src/scanner/mod.rs:95-100 | the end of the maximal run of a character class from an index: every character before it is in the class, and it is the end of the text or a character outside the class |
| Lexemes.RunEndUnique | src/scanner/mod.rs:114-119 | any index with that characterisation is the run's end, so a loop that stops there has found the maximal run |
| Lexemes.FirstQuote | src/scanner/mod.rs:76-81 | the run of non-quote characters stops before the end of the text exactly when a quote follows, and otherwise covers the rest of the text |
| Lexemes.KeywordKind | src/scanner/mod.rs:120-143 | the kind is `Identifier` exactly when the text is not one of the sixteen words, and a reserved word's kind otherwise |
| Lexemes.KeywordSpellingRoundTrip | src/scanner/mod.rs:123-141 | each reserved-word kind is reached from its own spelling, and only reserved-word kinds have one |
| Lexemes.KeywordKindRoundTrip | src/scanner/mod.rs:123-141 | each reserved word maps to the kind spelled by that word, so no two words share a kind |
| Lexemes.KeywordBoundaries | src/scanner/mod.rs:252-275 | "class" is the reserved word; "classify", "Class" and "orchid" are identifiers |
| Lexemes.IsAlphaExact | src/scanner/mod.rs:238-240 | `is_alpha` (`IsAlpha`) holds for a character exactly when it is in the `alphas` list of the scanner's test: `_`, `a` to `z`, `A` to `Z` |
| Lexemes.IsAlphaNumExact | src/scanner/mod.rs:241-243 | `is_alphanum` (`IsAlphaNum`) holds for a character exactly when it is in the test's `alphas` or `digits` list |
| Lexemes.IsDigitExact | src/scanner/mod.rs:244-246 | `is_digit` (`IsDigit`) holds for a character exactly when it is in the test's `digits` list, `0` to `9` |
| Lexemes.LiterateTextIsAlphaNum | src/scanner/mod.rs:326-348 | the test's text has 102 characters, and every one of them may continue an identifier |
| Lexemes.CharacterClassesDisjoint | src/scanner/mod.rs:238-246 | no letter is a digit, and no identifier character is one that `scan_token` handles otherwise: NUL, line feed, quote, blank (space, tab, carriage return), `( ) { } , . - + ; *` or `/ = ! < >` |
| ScanSpec.SlashOrComment | src/scanner/mod.rs:156-163 | the first half of `add_token_expect_double` consumes one more character exactly when a `/` follows the operator character, adds one token exactly when it does not, and leaves the line counter and the reports unchanged |
| ScanSpec.EqualOrSingle | src/scanner/mod.rs:164-180 | the second half consumes exactly the `=` that follows, if any, leaves the line counter alone, and adds exactly one token or one report |
| ScanSpec.OperatorStep | src/scanner/mod.rs:155-181 | `add_token_expect_double` keeps `start`, moves the cursor forward within the text and only appends |
| ScanSpec.SkipString | src/scanner/mod.rs:76-81 | the loop of `handle_string` stops at the end of the maximal run of non-quote characters, and the line counter grows by the line feeds in that run |
| ScanSpec.CloseQuote | src/scanner/mod.rs:87-92 | at a closing quote the cursor moves past it and exactly one token is added |
| ScanSpec.StringStep | src/scanner/mod.rs:75-93 | `handle_string` keeps `start`, moves the cursor forward within the text and only appends |
| ScanSpec.NumberStep | src/scanner/mod.rs:95-112 | `handle_number` keeps `start`, moves the cursor forward within the text and only appends |
| ScanSpec.IdentifierStep | src/scanner/mod.rs:114-143 | `identifier` keeps `start`, moves the cursor forward within the text and only appends |
| ScanSpec.NonSingleCharStep | src/scanner/mod.rs:66-74 | `handle_non_single_char` keeps `start`, moves the cursor forward within the text and only appends |
| ScanSpec.Step | src/scanner/mod.rs:38-65 | every `scan_token` step advances the cursor by at least one, stays within the text and only appends tokens and reports |
| ScanSpec.WithTokenAppends | src/scanner/mod.rs:145-151 | `add_token` (`WithToken`) appends exactly one token, of the given kind and literal, with lexeme `source[start..current]` and the current line, and changes nothing else |
| ScanSpec.WithErrorAppends | src/main.rs:59-65 | `error` (`WithError`) appends exactly one report, with the message and the current line, raises the flag and changes nothing else |
| ScanSpec.Run | src/scanner/mod.rs:29-34 | from any state whose scan stops (`Halts`), the loop of `scan_tokens` ends with the cursor at the end of the text, keeping the tokens and reports it started with as a prefix |
| ScanSpec.RunUnfold | src/scanner/mod.rs:30-33 | one turn of the loop sets `start` to the cursor, takes a step and leaves the rest of the run unchanged |
| ScanSpec.FinishAppendsEof | src/scanner/mod.rs:35-36 | the end of `scan_tokens` (`Finish`) appends exactly one `Eof` token with lexeme "", literal "null" and the current line, and changes nothing else |
| ScanSpec.Scan | src/scanner/mod.rs:17-36 | a new scanner's `scan_tokens` leaves the cursor at the end of the text and the token list ending in `Eof` |
| Scanning.Scanner.constructor | src/scanner/mod.rs:18-27 | a new scanner holds the text, no tokens, both cursors at 0, line 1 and no error |
| Scanning.Scanner.ScanTokens | src/scanner/mod.rs:29-37 | the scanner ends in the state of the run from its old state, with `Eof` appended |
| Scanning.Scanner.ScanToken | src/scanner/mod.rs:38-65 | one `scan_token` call changes the state exactly as `Step` does |
| Scanning.Scanner.HandleNonSingleChar | src/scanner/mod.rs:66-74 | the state changes exactly as `NonSingleCharStep` says |
| Scanning.Scanner.HandleString | src/scanner/mod.rs:75-93 | the state changes exactly as `StringStep` says |
| Scanning.Scanner.SkipStringBody | src/scanner/mod.rs:76-81 | the loop changes the cursor and line counter exactly as `SkipString` says, and nothing else |
| Scanning.Scanner.CloseString | src/scanner/mod.rs:87-92 | consuming the closing quote and adding the `String` token changes the state exactly as `CloseQuote` says |
| Scanning.Scanner.HandleNumber | src/scanner/mod.rs:95-112 | the state changes exactly as `NumberStep` says; the fraction branch is never taken |
| Scanning.Scanner.Identifier | src/scanner/mod.rs:114-143 | the state changes exactly as `IdentifierStep` says |
| Scanning.Scanner.AddToken | src/scanner/mod.rs:145-151 | appends one token of the kind and literal given, with lexeme `source[start..current]` and the current line, and changes nothing else (`WithToken`) |
| Scanning.Scanner.AddTokenSingle | src/scanner/mod.rs:152-154 | appends the same token with the literal "null" |
| Scanning.Scanner.AddTokenExpectDouble | src/scanner/mod.rs:155-181 | the state changes exactly as `OperatorStep` says |
| Scanning.Scanner.SkipCommentOrAddSlash | src/scanner/mod.rs:156-163 | the state changes exactly as `SlashOrComment` says; the comment loop never runs |
| Scanning.Scanner.AddEqualFormOrSingle | src/scanner/mod.rs:164-180 | the state changes exactly as `EqualOrSingle` says |
| Scanning.Scanner.MatchOp | src/scanner/mod.rs:182-196 | returns whether the character at the cursor is the expected one, and consumes it exactly then |
| Scanning.Scanner.Advance | src/scanner/mod.rs:197-204 | moves the cursor on by one and returns the character it passed, or NUL past the end |
| Scanning.Scanner.Peek | src/scanner/mod.rs:206-217 | the character at the cursor, or NUL at the end |
| Scanning.Scanner.PeekNext | src/scanner/mod.rs:218-230 | the character at the cursor, the same as `peek`, not the one after it |
| Scanning.Scanner.SourceCharAt | src/scanner/mod.rs:231-233 | the character at an index inside the text, and none past its end |
| Scanning.Scanner.IsAtEnd | src/scanner/mod.rs:234-236 | true exactly when `source_char_at` finds no character at the cursor |
| Scanning.Scanner.Error | src/main.rs:59-65 | the report is appended to the log with the current line, and the flag is raised |
| ScanFacts.SlashOrCommentFacts | src/scanner/mod.rs:156-163 | a following `/` is consumed and adds nothing; otherwise a `Slash` token with the operator character as its lexeme is added |
| ScanFacts.EqualOrSingleFacts | src/scanner/mod.rs:164-180 | after an `=` the two-character kind is added with a lexeme that ends at the `=`, otherwise the operator's own kind; kinds with no two-character form are reported instead |
| ScanFacts.SlashAlwaysReported | src/scanner/mod.rs:164-180 | `/` is always reported as an unexpected character, whatever follows it |
| ScanFacts.OperatorSlashFirst | src/scanner/mod.rs:155-169 | an operator character not followed by `/` adds `Slash` first, then the two-character kind after an `=` or its own kind otherwise |
| ScanFacts.SlashOrCommentOk | src/scanner/mod.rs:156-163 | the first operator half is a well-formed step (`StepOk`) that leaves the line counter unchanged, so it consumes no line feed |
| ScanFacts.EqualOrSingleOk | src/scanner/mod.rs:164-180 | the second operator half is a well-formed step (`StepOk`) that leaves the line counter unchanged |
| ScanFacts.OperatorStepOk | src/scanner/mod.rs:155-181 | an operator step is a well-formed step (`StepOk`) that leaves the line counter unchanged |
| ScanFacts.StringStepFacts | src/scanner/mod.rs:75-93 | the string loop stops at the first quote; with one, the quote is consumed and one `String` token is added whose lexeme runs from quote to quote and whose literal lies between them, tagged with the line after the literal's line feeds; without one, the cursor is at the end, nothing is added and "Unterminated string." is reported |
| ScanFacts.StringStepToken | src/scanner/mod.rs:87-92 | a closed literal adds exactly one token after the existing ones: `String`, from quote to quote, the text between them as literal, on the line reached |
| ScanFacts.StringClosedOk | src/scanner/mod.rs:87-92 | a closed string literal is a well-formed step that adds exactly one `String` token and no report |
| ScanFacts.StringUnterminatedOk | src/scanner/mod.rs:82-86 | an unterminated string literal is a well-formed step that adds no token and exactly one "Unterminated string." report |
| ScanFacts.StringStepOk | src/scanner/mod.rs:75-93 | a string step is well formed, and adds one `String` token and no report when a quote closes it, or no token and one "Unterminated string." report otherwise |
| ScanFacts.NumberStepOk | src/scanner/mod.rs:95-112 | a number step is well formed, leaves the line counter and the reports unchanged, and adds exactly one `Number` token |
| ScanFacts.IdentifierStepOk | src/scanner/mod.rs:114-143 | an identifier step is well formed, leaves the line counter and the reports unchanged, and adds exactly one token whose kind is the keyword table's verdict on its lexeme |
| ScanFacts.NonSingleCharStepOk | src/scanner/mod.rs:66-74 | a number, identifier or unexpected-character step is well formed |
| ScanFacts.PunctuationOk | src/scanner/mod.rs:41-50 | a punctuation character becomes one token of its own kind in a well-formed step that consumes no line feed |
| ScanFacts.OperatorCharOk | src/scanner/mod.rs:51-55 | an operator character followed by `add_token_expect_double` is a well-formed step |
| ScanFacts.BlankOk | src/scanner/mod.rs:56-60 | a space, carriage return or tab is skipped, and a line feed is skipped and counted, in a well-formed step |
| ScanFacts.StepIsOk | src/scanner/mod.rs:38-65 | every step counts exactly the line feeds it consumes, adds tokens lexed from the consumed text on the current line, adds only the two reports, and raises the flag exactly when it reports |
| ScanFacts.RunIsOk | src/scanner/mod.rs:29-34 | the loop keeps `start <= current <= |source|`, `line == 1 + the line feeds in source[..current]` and `hadError <==> errors != []`, and everything it adds is well formed |
| ScanFacts.HaltsUnlessEndsInOperatorSlash | src/scanner/mod.rs:155-163 | the comment loop can spin only on a `/` that ends the text, so every text that does not end in an operator character and `/` is scanned to the end from any state |
| ScanFacts.FinishOk | src/scanner/mod.rs:29-36 | appending `Eof` to the end state of a well-formed run gives one final `Eof` on the last line, well-formed tokens before it, and only the two messages |
| ScanFacts.ScanOutput | src/scanner/mod.rs:29-37 | a scan ends with exactly one `Eof` token, with lexeme "", literal "null" and the last line; no earlier token is `Eof`; every report carries one of the two messages; the flag is raised exactly when something was reported |
| ScanFacts.NumberIsMaximalDigitRun | src/scanner/mod.rs:95-112 | a digit starts a `Number` token whose lexeme and literal are the maximal digit run, so a `.` is never taken in |
| ScanFacts.IdentifierIsMaximalRun | src/scanner/mod.rs:114-143 | a letter or `_` starts a token over the maximal identifier run, whose kind is a reserved word's exactly when the lexeme is that word |
| ScanFacts.QuoteStartsString | src/scanner/mod.rs:61 | a quote hands the rest of the step to `handle_string`, and cannot reach the spinning comment loop |
| ScanFacts.StringLiteralRules | src/scanner/mod.rs:75-93 | with a closing quote, one `String` token is added: its lexeme includes both quotes and its literal is the text between them. Without one, no token is added, "Unterminated string." is reported and the cursor is at the end |
| ScanFacts.UnexpectedCharacterRecovery | src/scanner/mod.rs:63-73 | a character that starts no token is reported as "Unexpected character." on the current line, adds no token, and scanning resumes after it |
| ScanFacts.ErrorFlagNeverReset | src/main.rs:59-62 | once raised, the error flag stays raised to the end of the scan |
| ScanFacts.SingleCharacterRules | src/scanner/mod.rs:41-60 | punctuation becomes a one-character token, blanks are skipped, and a line feed only moves the line counter |
| ScanExamples.NumberWithFraction | src/scanner/mod.rs:101-107 | "123.45" scans to `Number "123"`, `Dot`, `Number "45"`, `Eof` |
| ScanExamples.OperatorWithSpuriousSlash | src/scanner/mod.rs:155-169 | "!=" scans to `Slash "!"`, `BangEqual "!="`, `Eof` |
| ScanExamples.UnterminatedStringReported | src/scanner/mod.rs:82-86 | an unterminated string yields only `Eof` and one "Unterminated string." report on line 1 |
| ScanExamples.MultiLineString | src/scanner/mod.rs:75-93 | a string over two lines is one `String` token tagged with line 2, and so is the `Eof` after it |
| ScanExamples.CommentTextIsScanned | src/scanner/mod.rs:155-163 | "//x" yields an unexpected-character report and the identifier `x`: comments are not skipped |
| ScanExamples.StrayCharacterRecovery | src/scanner/mod.rs:66-74 | "@1" reports the `@` once and still yields `Number "1"` and `Eof` |
| ScanExamples.OperatorSlashAtTheEnd | src/scanner/mod.rs:155-163 | "!=/" ends in an operator character and `/` and is still scanned to the end, because the `=` is consumed with the `!`; "!/" never finishes |
| ScanExamples.NumberLoopOnNonDigit | src/scanner/mod.rs:361-401 | on a text starting with a non-digit, the number loop consumes nothing and `add_token` appends a `Number` token with lexeme and literal "" on line 1 |
| ScanExamples.EmptyText | src/scanner/mod.rs:29-37 | the empty text scans to `Eof` alone, on line 1 |
| ScanExamples.SingleDigit | src/scanner/mod.rs:349-359 | "9" scans to `Number "9"` and `Eof`, both on line 1 |
| ScanExamples.ReservedWordScanned | src/scanner/mod.rs:252-275 | "class" scans to one `Class` token and `Eof` |

## Left out

- `main`, `run_file`, `run_prompt` and `run` in `src/main.rs`: argument handling, file and console I/O, printing and the process exit code are outside the scanner.
- The `print!` formatting of `report`: only its effects are modelled, the logged `(line, message)` pair and the raised flag.
- The copy of the caller's flag in `Scanner::new` (`src/scanner/mod.rs:25`): a new scanner starts with the flag lowered. The caller's flag is never written back.
- Byte slicing: the Rust code counts characters but slices by bytes, so the two agree only on ASCII text. The model uses character indices throughout, and `chars().nth` is an index into the text.
- `u32` overflow of `current` and `line`: integers are unbounded here.
- `Token::to_string`: it depends on the debug formatting of `TokenType`, and `token_type.rs` is not part of this model. `TokenType` is rebuilt from the variants the scanner uses.
- The tests `slice_source` and `adding_token` exercise Rust string slicing or push tokens directly, not the scanner. The test `handling_number` drives the scanner's own `peek`, `is_digit`, `advance`, `peek_next` and `add_token` on a text that starts with `f`; `ScanExamples.NumberLoopOnNonDigit` states its outcome, a `Number` token with an empty lexeme, through `RunEnd` and `WithToken`, the functions `Scanning.Scanner.HandleNumber` and `Scanning.Scanner.AddToken` are proved against. The test `end_bool` advances over a text until `is_at_end` holds; that loop is not written out, and the two methods it calls are modelled as `Scanning.Scanner.Advance` and `Scanning.Scanner.IsAtEnd`. The tests for reserved words, character classes and a one-digit scan are covered by lemmas.
- ScanSpec.Run, ScanSpec.Scan, ScanSpec.RunUnfold, Scanning.Scanner.ScanTokens, ScanFacts.RunIsOk, ScanFacts.ScanOutput and ScanFacts.ErrorFlagNeverReset require `Halts`: no step of the scan may start at an operator character followed by a `/` that ends the text. On exactly those inputs the source's comment loop never stops, so there is no final state to describe. Scanning.Scanner.ScanToken and Scanning.Scanner.AddTokenExpectDouble require the same of their one step (`!CommentSpins`).
- The comment loop and the fraction branch are modelled by their guards, proved false where they are reached. Their bodies never run, so they are not written out.
- The `add_token_expect_double` body is proved as two methods, one per half of the source function. The loop of `handle_string` and its closing part are proved as methods of their own. This keeps each proof small; the order of effects is unchanged.
