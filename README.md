# Ezcript front end, modelled in Dafny

Ezcript is a small scripting language. Its front end exists twice:

- **Rust.** The crate `ezcript_lexer` has a pull lexer. It keeps a look-ahead queue over the
  source characters, and each `next_token` call returns `None`, a token or a lexical error.
  It also holds the token model: kinds, a reserved-word table, literals, equality, order and
  display. The crate `ezcript_ast` has a parser. It slides a two-token window over the lexer's
  results and turns `set <name> = <value>` lines into statements, recording a parse error for
  each malformed line. It also holds the expression and statement nodes and their rendering.
  The crate `ezcript_result` holds the error type both crates share.
- **Python.** `ezcript/lexer/lexer.py` is a character-at-a-time lexer over the token table of
  `ezcript_lang/tokens/tokens.py`. `fol/lexer.py` and `fol/token.py` are an earlier draft with
  its own table and a line counter. `utils/decorators/tokens.py` holds three decorators that
  classify one, two or three operator characters.

Each stateful object of the source is a `class` whose fields are the source's fields. Each
method is proved against a pure specification function of the old state, for example
`ensures State() == AdvanceSpec(old(State()))`. The properties the source promises are
lemmas about those functions. There are two kinds of lemma:

- Reading lemmas (`*Reads`, `ScanOutcome`, `At`). They say what an operation does to the
  stream of characters or results still to be read.
- Agreement lemmas (`*Agrees`, `NextTokenMatchesScan`). They compare a lexer with an
  independent, table-driven reference reader (`Scan`, `Lex`) that works on the unscanned text
  alone.

The main model follows the code as written, bugs included, with two exceptions: the fol
lexer's `FolLexer.NextTokenSpec` and class `FolLexer.Lexer` read its CamelCase token kinds as
the upper-case members fol/token.py declares (the raising is modelled in `FolAsWritten`), and
`Parser.DiscardSpec` stops where the source's loop runs on (the loop as written is modelled in
`ParserFacts`). Each bug found is listed under "## Findings". Each has a counterexample lemma
and a corrected definition, with the intended property proved about it.

Files, one module each:

- `wrappers.dfy`: `Option` and `Result`.
- `text.dfy`: decimal rendering of numbers.
- `tokens.dfy`: token kinds, literals and the reserved words of tokens.rs.
- `ezcript_result.dfy`: the error type.
- `lexer.dfy` and `lexer_facts.dfy`: the Rust lexer and its properties.
- `expressions.dfy` and `statements.dfy`: the syntax-tree nodes.
- `parser.dfy` and `parser_facts.dfy`: the parser and its properties.
- `py_scan.dfy`: the character machine both Python lexers share.
- `py_tokens.dfy` and `py_lexer.dfy`: ezcript_lang's tokens and the ezcript lexer.
- `fol_token.dfy`, `fol_lexer.dfy` and `fol_as_written.dfy`: the fol draft.
- `char_tokens.dfy`: the decorators.

## Model

| member | source | states |
|---|---|---|
| Tokens.InTypes | interpreter/ezcript_lexer/src/tokens.rs:77-84 | the scan over `kinds` answers true exactly when the token's kind is one of them |
| Tokens.ReservedWords | interpreter/ezcript_lexer/src/tokens.rs:176-207 | the table's words are exactly the plain keywords plus `true`, `false`, `null` and `not` |
| Tokens.ReservedKeywords | interpreter/ezcript_lexer/src/tokens.rs:60-62 | a word looks up as `Keyword` if and only if it is one of the plain keywords, a list written independently of the table |
| Tokens.ReservedSpecialWords | interpreter/ezcript_lexer/src/tokens.rs:60-62 | `true`/`false` are the only `Boolean` words, `null` the only `Null` word and `not` the only `Not` word |
| Tokens.ReservedOthers | interpreter/ezcript_lexer/src/tokens.rs:60-62 | lookup fails if and only if the word is outside the table |
| Tokens.ReservedIsCaseSensitive | interpreter/ezcript_lexer/src/tokens.rs:60-62 | a word with an upper-case letter is never reserved: the lookup is exact |
| Tokens.ReservedAgreesWithTable | interpreter/ezcript_lexer/src/tokens.rs:213-219 | the crate's test: every key of the table looks up as the kind stored with it |
| Tokens.LiteralEqIsStructural | interpreter/ezcript_lexer/src/tokens.rs:130-151 | literals of different variants are never equal; apart from numbers, equality is structural in both directions |
| Tokens.StringCmpIsTotalOrder | interpreter/ezcript_lexer/src/tokens.rs:153-163 | string comparison is `Equal` exactly on equal strings, and `Less` one way exactly when `Greater` the other way |
| Tokens.LiteralPartialCmpProperties | interpreter/ezcript_lexer/src/tokens.rs:153-163 | `partial_cmp` is `None` across variants and `Equal` for two `Null`s; for non-numbers it agrees with the string and boolean orders |
| Tokens.LiteralDisplayReadsBack | interpreter/ezcript_lexer/src/tokens.rs:165-174 | a string literal prints as its text; the printed `null`, `true` and `false` look up again as `Null` and `Boolean` |
| EzcriptResult.FromIo | interpreter/ezcript_result/src/lib.rs:24-28 | every I/O error becomes the `IO` variant and keeps the error unchanged |
| EzcriptResult.Source | interpreter/ezcript_result/src/lib.rs:45-52 | only an I/O error has a source, and it is that error's own cause |
| EzcriptResult.DisplayReportsLine | interpreter/ezcript_result/src/lib.rs:30-43 | the line number of a lexical or parse error can be read back from its message, and the message names its kind |
| EzcriptResult.DisplayEndsWithLexeme | interpreter/ezcript_result/src/lib.rs:35-40 | a lexical error's message ends with `: ` and the offending text; a parse error's message ends with `: near ` and the nearby lexeme |
| Expressions.NewIdentifier | interpreter/ezcript_ast/src/expressions.rs:18-23 | the node keeps the token and the name it was given |
| Expressions.NewInteger | interpreter/ezcript_ast/src/expressions.rs:44-53 | no value stays no value; a parsed value is kept as it is and is within the `i64` range |
| Expressions.IntegerDisplay | interpreter/ezcript_ast/src/expressions.rs:61-73 | the text is `null` exactly when the node has no value |
| Expressions.IdentifierRoundTrip | interpreter/ezcript_ast/src/expressions.rs:26-36 | a new identifier renders as its name and reports its token's lexeme |
| Expressions.IntegerReadsBack | interpreter/ezcript_ast/src/expressions.rs:61-73 | the decimal text of an integer with a value reads back as that value |
| Expressions.IntegerWithoutValue | interpreter/ezcript_ast/src/expressions.rs:55-73 | an integer without a value renders as `null` and reports its token's lexeme |
| Statements.DefaultsDisplay | interpreter/ezcript_ast/src/statements.rs:39-134 | the default statements are on line 1 with an empty lexeme; the default set statement renders as the placeholder text and the default return statement as a space and the `Null` text of the default token |
| Statements.UnnamedSetDisplay | interpreter/ezcript_ast/src/statements.rs:73-76 | a set statement without a name renders as the fixed placeholder text, whatever else it holds |
| Statements.SetDisplayReadsBack | interpreter/ezcript_ast/src/statements.rs:56-78 | a named set statement's text reads back: first word the keyword, then the name, then ` = `, then the value's text |
| Statements.ReturnDisplayReadsBack | interpreter/ezcript_ast/src/statements.rs:115-133 | a return statement's text reads back as the keyword, a space and the value's text |
| Statements.ProgramDisplayAppend | interpreter/ezcript_ast/src/ast.rs:18-36 | rendering a program distributes over joining two programs |
| Statements.ProgramDisplaySingle | interpreter/ezcript_ast/src/ast.rs:18-36 | a program of one statement renders as that statement |
| Statements.SetStatementExample | interpreter/ezcript_ast/tests/test_ast.rs:9-46 | the crate's test: the set statement renders as `set var = other_var` |
| Statements.ReturnStatementExample | interpreter/ezcript_ast/tests/test_ast.rs:48-75 | the crate's test: the return statement renders as `return 0` |
| Lexer.AdvanceSpec | interpreter/ezcript_lexer/src/lexer.rs:149-166 | no character exactly at the end, and then nothing changes; a real character shrinks what is left to scan; the queue is drained first |
| Lexer.PeekSpec | interpreter/ezcript_lexer/src/lexer.rs:219-229 | the answer is the `skip`-th queued character once the queue is filled; nothing left to scan is consumed |
| Lexer.BlockLoopOnNewline | interpreter/ezcript_lexer/src/lexer.rs:196 | a round that peeks a newline counts a line, consumes it and goes on |
| Lexer.BlockLoopOnClose | interpreter/ezcript_lexer/src/lexer.rs:197-201 | a round that reads `*` and peeks `#` leaves after two more reads |
| Lexer.BlockLoopOnEnd | interpreter/ezcript_lexer/src/lexer.rs:202 | a round that peeks the end leaves at once |
| Lexer.BlockLoopOnHash | interpreter/ezcript_lexer/src/lexer.rs:203-205 | a round that peeks any other `#` consumes it and goes on |
| Lexer.CommentArm | interpreter/ezcript_lexer/src/lexer.rs:118-121 | after `#` the comment is skipped and the scan goes on from there |
| Lexer.WhitespaceArm | interpreter/ezcript_lexer/src/lexer.rs:122-127 | whitespace is dropped from the lexeme, a newline adds one to the line, and the scan goes on |
| Lexer.Lexer.constructor | interpreter/ezcript_lexer/src/lexer.rs:20-30 | a new lexer has an empty queue and lexeme, is on line 1 and is not at the end |
| Lexer.Lexer.StaticToken | interpreter/ezcript_lexer/src/lexer.rs:136-147 | a token of the given kind, with the current lexeme and line and no literal |
| Lexer.Lexer.LexError | interpreter/ezcript_lexer/src/lexer.rs:211-217 | a lexical error on the current line carrying the lexeme read so far |
| Lexer.Lexer.Advance | interpreter/ezcript_lexer/src/lexer.rs:149-166 | the fields change as `AdvanceSpec` says, and the character returned is its answer |
| Lexer.Lexer.Peek | interpreter/ezcript_lexer/src/lexer.rs:219-229 | the queue is filled and padded as `PeekSpec` says, and the character returned is its answer |
| Lexer.Lexer.MatchAdvance | interpreter/ezcript_lexer/src/lexer.rs:231-238 | implements `MatchAdvanceSpec` |
| Lexer.Lexer.MatchStaticToken | interpreter/ezcript_lexer/src/lexer.rs:240-251 | implements `MatchStaticTokenSpec` |
| Lexer.Lexer.AdvanceUntil | interpreter/ezcript_lexer/src/lexer.rs:168-182 | its loop implements `AdvanceUntilSpec` |
| Lexer.Lexer.LineComment | interpreter/ezcript_lexer/src/lexer.rs:184-187 | implements `LineCommentSpec` |
| Lexer.Lexer.BlockComment | interpreter/ezcript_lexer/src/lexer.rs:189-209 | its loop implements `BlockCommentSpec` |
| Lexer.Lexer.BlockRound | interpreter/ezcript_lexer/src/lexer.rs:192-206 | one round either ends the loop in the state the whole loop ends in, or strictly shrinks what is left and keeps that final state |
| Lexer.Lexer.CompoundToken | interpreter/ezcript_lexer/src/lexer.rs:55-105 | the `-`, `+`, `*` and `/` arms implement `CompoundSpec` |
| Lexer.Lexer.Comment | interpreter/ezcript_lexer/src/lexer.rs:118-121 | the `#` arm implements `CommentSpec` |
| Lexer.Lexer.NextToken | interpreter/ezcript_lexer/src/lexer.rs:32-134 | implements `NextTokenSpec` |
| Lexer.Lexer.ScanRound | interpreter/ezcript_lexer/src/lexer.rs:39-133 | one pass of the loop either returns what the whole scan returns, or skips input strictly and leaves the scan's result unchanged |
| LexerFacts.AdvanceReadsStream | interpreter/ezcript_lexer/src/lexer.rs:149-166 | `advance` returns the first character still to be read, queue before source, and moves the stream on by one; it appends the character to the lexeme; it is at the end exactly when nothing was left |
| LexerFacts.PeekReadsStream | interpreter/ezcript_lexer/src/lexer.rs:219-229 | `peek(skip)` returns the `skip`-th character still to be read, or `'\0'` past the end, and consumes nothing |
| LexerFacts.MatchAdvanceReads | interpreter/ezcript_lexer/src/lexer.rs:231-238 | `match_advance(c)` consumes one character, appended to the lexeme, exactly when the next one is `c` |
| LexerFacts.MatchStaticTokenReads | interpreter/ezcript_lexer/src/lexer.rs:240-251 | the first kind, with the character consumed, when the next character is `c`; otherwise the second kind and nothing consumed |
| LexerFacts.AdvanceUntilReads | interpreter/ezcript_lexer/src/lexer.rs:168-182 | `advance_until` consumes the longest run of characters that are neither stops nor the end |
| LexerFacts.CompoundReads | interpreter/ezcript_lexer/src/lexer.rs:55-105 | after `-`, `+`, `*` or `/`, the longest operator of the table is taken: two characters when the pair is in the table, else one |
| LexerFacts.ComparisonReads | interpreter/ezcript_lexer/src/lexer.rs:106-115 | the same for `=`, `!`, `<` and `>` |
| LexerFacts.LineCommentReads | interpreter/ezcript_lexer/src/lexer.rs:184-187 | a line comment consumes everything up to, not including, the next newline or the end, and leaves the line unchanged |
| LexerFacts.BlockLoopReads | interpreter/ezcript_lexer/src/lexer.rs:192-206 | the block-comment loop ends either after the first `*#` plus one more character, or just before the end of the input, counting lines on the way |
| LexerFacts.BlockCommentReads | interpreter/ezcript_lexer/src/lexer.rs:189-209 | `#*` skips the `*`, then ends as `BlockLoopReads` says, with the lexeme cleared |
| LexerFacts.CommentReads | interpreter/ezcript_lexer/src/lexer.rs:118-121 | any comment consumes a stretch of the stream, clears the lexeme and counts its lines, within the bound below |
| LexerFacts.BlockOutcomeLines | interpreter/ezcript_lexer/src/lexer.rs:196-201 | the block loop counts every newline it reads except the character swallowed after `*#`, which it loses when that character is a newline |
| LexerFacts.ScanPanics | interpreter/ezcript_lexer/src/lexer.rs:40 | scanning after the end panics at the `unwrap` |
| LexerFacts.ScanEnd | interpreter/ezcript_lexer/src/lexer.rs:41-44 | reading the end gives the `Eof` token, spelled `"\0"`, and the lexer is then at its end |
| LexerFacts.ScanPunctuation | interpreter/ezcript_lexer/src/lexer.rs:45-54 | brackets, `:`, `,`, `%` and `.` are tokens of one character |
| LexerFacts.ScanOperator | interpreter/ezcript_lexer/src/lexer.rs:55-115 | operators are read by maximal munch: two characters exactly when the pair is an operator |
| LexerFacts.ScanUnexpected | interpreter/ezcript_lexer/src/lexer.rs:130 | any other character gives the error `unexpected character` naming it, on the current line |
| LexerFacts.ScanComment | interpreter/ezcript_lexer/src/lexer.rs:118-121 | after a comment the scan goes on with strictly less input left and the lines counted |
| LexerFacts.ScanWhitespace | interpreter/ezcript_lexer/src/lexer.rs:122-127 | whitespace is consumed; the line grows by one exactly on a newline |
| LexerFacts.ScanReads | interpreter/ezcript_lexer/src/lexer.rs:39-133 | one scan reads `n` characters of the stream and returns a token that spells them (maximal munch) or an error naming the last one; the line counts the newlines read, within the bound below |
| LexerFacts.NextTokenReads | interpreter/ezcript_lexer/src/lexer.rs:32-134 | `None` exactly once the end was reported, with nothing changed; otherwise as `ScanReads` |
| LexerFacts.EofIsFinal | interpreter/ezcript_lexer/src/lexer.rs:33-44 | after the `Eof` token every further call returns `None` and changes nothing |
| LexerFacts.ErrorResumes | interpreter/ezcript_lexer/src/lexer.rs:130 | a lexical error does not end the scan: the next call returns a token or another error |
| LexerFacts.BlockCommentLoopFixed | interpreter/ezcript_lexer/src/lexer.rs:197-201 | the corrected loop stops right after the `#` of `*#` and never sets the end flag |
| LexerFacts.BlockLoopOvershoots | interpreter/ezcript_lexer/src/lexer.rs:197-201 | the loop as written equals the corrected loop, except that after a close it reads exactly one character more |
| LexerFacts.CloseAtEndPanics | interpreter/ezcript_lexer/src/lexer.rs:197-201 | when `*#` ends the input, the extra read sets the end flag and the next scan panics |
| LexerFacts.SwallowFixed | interpreter/ezcript_lexer/src/lexer.rs:197-201 | on `*#+` after `#*` the corrected loop leaves `+` to be scanned |
| LexerFacts.SwallowAsWritten | interpreter/ezcript_lexer/src/lexer.rs:197-201 | on `*#+` after `#*` the loop as written consumes the `+` too |
| Parser.TokenAt | interpreter/ezcript_ast/src/parser.rs:115-121 | past the lexer's last result the parser sees the default token, `Eof` on line 1 |
| Parser.ExpectedTokenErrorSpec | interpreter/ezcript_ast/src/parser.rs:124-133 | exactly one error is appended and nothing else changes |
| Parser.ExpectedTokenSpec | interpreter/ezcript_ast/src/parser.rs:135-144 | succeeds if and only if the peek has the wanted kind, and then advances onto it; otherwise records one error and stays |
| Parser.DiscardSpec | interpreter/ezcript_ast/src/parser.rs:102-104 | the value-skipping loop ends on a `NewLine` token, or with the lexer spent; errors and line are untouched |
| Parser.DiscardStopsOnNewLine | interpreter/ezcript_ast/src/parser.rs:102-104 | with a `NewLine` ahead, the loop stops on it |
| Parser.ParseLetSpec | interpreter/ezcript_ast/src/parser.rs:82-107 | a statement is built if and only if an identifier and `=` follow `set`; it holds the keyword and the name, and no error is added; otherwise exactly one error is added |
| Parser.ParseStatementSpec | interpreter/ezcript_ast/src/parser.rs:71-80 | only a `Keyword` spelled `set` starts a statement, always followed by an identifier; errors are only appended |
| Parser.ProgramLoopSpec | interpreter/ezcript_ast/src/parser.rs:46-57 | the loop stops on an `Eof` token |
| Parser.ParseProgramSpec | interpreter/ezcript_ast/src/parser.rs:42-60 | a program is always returned, with the parser on `Eof` |
| Parser.Parser.constructor | interpreter/ezcript_ast/src/parser.rs:20-32 | a new parser is `NewSpec` of its lexer: empty window and errors, line 1, then two advances |
| Parser.Parser.AdvanceTokens | interpreter/ezcript_ast/src/parser.rs:109-122 | implements `AdvanceTokensSpec` |
| Parser.Parser.ExpectedTokenError | interpreter/ezcript_ast/src/parser.rs:124-133 | implements `ExpectedTokenErrorSpec` |
| Parser.Parser.ExpectedToken | interpreter/ezcript_ast/src/parser.rs:135-144 | implements `ExpectedTokenSpec` |
| Parser.Parser.ParseLetStatement | interpreter/ezcript_ast/src/parser.rs:82-107 | its discard loop implements `ParseLetSpec` |
| Parser.Parser.ParseStatement | interpreter/ezcript_ast/src/parser.rs:71-80 | implements `ParseStatementSpec` |
| Parser.Parser.ParseProgram | interpreter/ezcript_ast/src/parser.rs:42-60 | its loop implements `ParseProgramSpec` |
| ParserFacts.NewWindow | interpreter/ezcript_ast/src/parser.rs:20-32 | a new parser stands on the first result, with no errors, on line 1 |
| ParserFacts.AdvanceSlides | interpreter/ezcript_ast/src/parser.rs:109-122 | `advance_tokens` moves the window one result on and keeps the errors |
| ParserFacts.NextStop | interpreter/ezcript_ast/src/parser.rs:102-104 | the first `NewLine` at or after `k`, or the end of the feed: no `NewLine` before it |
| ParserFacts.DiscardWindow | interpreter/ezcript_ast/src/parser.rs:102-104 | the value-skipping loop leaves the parser on `NextStop` |
| ParserFacts.ParseLetNoName | interpreter/ezcript_ast/src/parser.rs:87-89 | `set` without an identifier: no statement, and one error naming `Ident` and the kind found |
| ParserFacts.ParseLetNoEqual | interpreter/ezcript_ast/src/parser.rs:97-99 | `set` and a name without `=`: no statement, the parser on the name, and one error naming `Equal` |
| ParserFacts.ParseLetSet | interpreter/ezcript_ast/src/parser.rs:82-107 | `set`, a name and `=`: the statement, the parser on the value's `NextStop`, and no error |
| ParserFacts.RoundOther | interpreter/ezcript_ast/src/parser.rs:71-80 | a token that starts no statement is stepped over without error |
| ParserFacts.RoundNoName | interpreter/ezcript_ast/src/parser.rs:62-69 | the error for a missing name is a parse error on the parser's line, near the keyword |
| ParserFacts.RoundNoEqual | interpreter/ezcript_ast/src/parser.rs:97-99 | the error for a missing `=` is near the name, and the loop resumes after the name |
| ParserFacts.RoundSet | interpreter/ezcript_ast/src/parser.rs:46-57 | a whole `set` statement is found, and the loop resumes after its `NewLine` |
| ParserFacts.ProgramLoopWindow | interpreter/ezcript_ast/src/parser.rs:46-57 | the loop finds exactly the statements and errors that `ParseFrom` reads off the results |
| ParserFacts.ParseProgramReads | interpreter/ezcript_ast/src/parser.rs:42-60 | `Parser::new` then `parse_program` gives exactly `ParseFrom` of the whole feed |
| ParserFacts.ParseFromStatements | interpreter/ezcript_ast/src/parser.rs:42-60 | every statement found is a `set` statement built from a keyword and an identifier |
| ParserFacts.ParseFromErrors | interpreter/ezcript_ast/src/parser.rs:62-69 | every error recorded is a parse error on the given line |
| ParserFacts.ParseProgramFacts | interpreter/ezcript_ast/src/parser.rs:42-60 | the parse always returns a program of built `set` statements, with only parse errors on line 1 |
| ParserFacts.SetExample | interpreter/ezcript_ast/src/parser.rs:42-60 | `set x = 5` and a new line: one statement, no error |
| ParserFacts.MissingEqualExample | interpreter/ezcript_ast/src/parser.rs:97-99 | `set x 5` and a new line: no statement, one error at `x` |
| ParserFacts.DiscardAsWrittenAgrees | interpreter/ezcript_ast/src/parser.rs:102-104 | with a `NewLine` ahead, the loop as written stops where `DiscardSpec` does |
| ParserFacts.DiscardAsWrittenRunsOn | interpreter/ezcript_ast/src/parser.rs:102-104 | with no `NewLine` ahead, the loop as written is still running after any number of rounds |
| ParserFacts.SpentNeverStops | interpreter/ezcript_ast/src/parser.rs:102-104 | once the lexer is spent, the loop as written never stops |
| ParserFacts.DiscardAsWrittenNeedsNewLine | interpreter/ezcript_ast/src/parser.rs:102-104 | with no `NewLine` left in the feed, the loop as written never stops |
| ParserFacts.UnterminatedSetExample | interpreter/ezcript_ast/src/parser.rs:102-104 | `set x = 5` with no new line: the loop as written never stops |
| ParserFacts.ErrorInValueExample | interpreter/ezcript_ast/src/parser.rs:115-121 | a lexical error inside a value is skipped as a default token, and the next `set` on the same line is swallowed: one statement |
| ParserFacts.SecondSetSkipped | interpreter/ezcript_ast/src/parser.rs:102-104 | in that feed the first value runs to the only `NewLine` |
| PyScan.ReadCharacterSpec | ezcript/lexer/lexer.py:177-197 | reading moves the unscanned text on by exactly one character and keeps the scanner's invariant |
| PyScan.Initial | ezcript/lexer/lexer.py:13-19 | a new lexer stands at position 0 with the whole source unscanned |
| PyScan.PeekOne | ezcript/lexer/lexer.py:199-214 | `_peek_character(1)` is the character after the current one, or `''` |
| PyScan.PeekTwo | ezcript/lexer/lexer.py:199-214 | `_peek_character(2)` raises `IndexError` exactly when two characters are left; otherwise the second one after the current, or `''` |
| PyScan.SkipWhitespaceRun | ezcript/lexer/lexer.py:216-225 | skipping consumes exactly the leading run of whitespace |
| PyScan.ReadWhileRun | ezcript/lexer/lexer.py:262-277 | a read loop consumes exactly the leading run of its character class |
| PyScan.ReadRunReturnsRun | ezcript/lexer/lexer.py:262-277 | the identifier and number readers return that run and stand after it |
| PyScan.ReadStringUpToQuote | ezcript/lexer/lexer.py:227-252 | the string reader returns the text strictly between the opening quote and the next identical quote, or up to the end |
| PyScan.FractionReads | ezcript/lexer/lexer.py:122-128 | digits, a dot and digits are read as one number |
| PyScan.IntegerReads | ezcript/lexer/lexer.py:122-130 | digits not followed by a dot are the whole number |
| PyLexer.MakeTwoSpec | ezcript/lexer/lexer.py:161-175 | a two-character token holds the current and the next character, after one read |
| PyLexer.MakeThreeSpec | ezcript/lexer/lexer.py:143-159 | a three-character token holds three characters, after two reads |
| PyLexer.OperatorAgrees | ezcript/lexer/lexer.py:32-116 | the operator branches agree with the table-driven reference `LexOperator` |
| PyLexer.DotBranches | ezcript/lexer/lexer.py:68-74 | `.` alone is `DOT`; `...` is `ELLIPSIS`; `..` then anything else assigns no token; an exception of the second peek is passed on |
| PyLexer.SlashBranches | ezcript/lexer/lexer.py:75-86 | `//=`, `//`, `/=` and `/` are chosen by the two peeks; an exception of the second peek is passed on |
| PyLexer.ComparisonBranches | ezcript/lexer/lexer.py:87-103 | `:` stands alone; `<`, `=` and `>` take a following `=` |
| PyLexer.IdentifierAgrees | ezcript/lexer/lexer.py:117-121 | the identifier branch agrees with the reference |
| PyLexer.NumberAgrees | ezcript/lexer/lexer.py:122-130 | the number branch agrees with the reference |
| PyLexer.StringAgrees | ezcript/lexer/lexer.py:131-134 | the string branch agrees with the reference |
| PyLexer.DispatchAgrees | ezcript/lexer/lexer.py:32-141 | after whitespace, every branch of `next_token` agrees with the reference `Lex` |
| PyLexer.NextTokenMatchesScan | ezcript/lexer/lexer.py:21-141 | `next_token` returns the token or exception the reference `Scan` finds, and leaves exactly the characters `Scan` does not use |
| PyLexer.EofIsSticky | ezcript/lexer/lexer.py:135-136 | at the end `next_token` returns `EOF ''` and stays at the end |
| PyLexer.TrailingWhitespaceIsEof | ezcript/lexer/lexer.py:135-136 | only whitespace left gives `EOF ''` |
| PyLexer.ScanProgress | ezcript/lexer/lexer.py:21-141 | every successful token other than `EOF` uses at least one character |
| PyLexer.IdentifierIsMaximal | ezcript/lexer/lexer.py:262-269 | an identifier is the longest run of letters, digits and `_`, and its kind is the keyword table's |
| PyLexer.NumberShape | ezcript/lexer/lexer.py:122-130 | a number is a digit run, then a dot and a digit run if a dot follows |
| PyLexer.StringShape | ezcript/lexer/lexer.py:227-252 | a string is the text between the quotes and uses it with both quotes |
| PyLexer.IllegalCharacter | ezcript/lexer/lexer.py:137-138 | any other character is `ILLEGAL`, alone |
| PyLexer.ArabicIndicNumber | ezcript/lexer/lexer.py:258-260 | `\d` takes every Unicode decimal digit: Arabic-Indic digits form one number |
| PyLexer.OperatorShape | ezcript/lexer/lexer.py:41-51 | an operator's text is the characters it uses, and `**=` reads as `**` |
| PyLexer.OperatorFixedLongest | ezcript/lexer/lexer.py:46-50 | with the `**=` branch reached, the operator read is a spelling of the enumeration and no longer spelling is a prefix of the text; `**=` is one token and every other operator reads as before |
| PyLexer.Lexer.constructor | ezcript/lexer/lexer.py:13-19 | a new lexer is `Initial(source)` |
| PyLexer.Lexer.ReadCharacter | ezcript/lexer/lexer.py:177-197 | implements `ReadCharacterSpec` |
| PyLexer.Lexer.PeekCharacter | ezcript/lexer/lexer.py:199-214 | returns `PeekSpec` and changes nothing |
| PyLexer.Lexer.SkipWhitespace | ezcript/lexer/lexer.py:216-225 | its loop implements `SkipWhitespaceSpec` |
| PyLexer.Lexer.MakeTwoCharacterToken | ezcript/lexer/lexer.py:161-175 | implements `MakeTwoSpec` |
| PyLexer.Lexer.MakeThreeCharacterToken | ezcript/lexer/lexer.py:143-159 | implements `MakeThreeSpec` |
| PyLexer.Lexer.ReadIdentifier | ezcript/lexer/lexer.py:262-269 | its loop implements the identifier run of `ReadRunSpec` |
| PyLexer.Lexer.ReadNumber | ezcript/lexer/lexer.py:271-277 | its loop implements the digit run of `ReadRunSpec` |
| PyLexer.Lexer.ReadString | ezcript/lexer/lexer.py:227-252 | its loop implements `ReadStringSpec` |
| PyLexer.Lexer.DotToken | ezcript/lexer/lexer.py:68-74 | the `.` branch implements `OperatorSpec` |
| PyLexer.Lexer.SlashToken | ezcript/lexer/lexer.py:75-86 | the `/` branch implements `OperatorSpec` |
| PyLexer.Lexer.OperatorToken | ezcript/lexer/lexer.py:32-116 | the operator branches implement `OperatorSpec` |
| PyLexer.Lexer.LeadingOperatorToken | ezcript/lexer/lexer.py:32-67 | the `%` to `-` branches implement `OperatorSpec` |
| PyLexer.Lexer.ComparisonToken | ezcript/lexer/lexer.py:87-103 | the `:`, `<`, `=` and `>` branches implement `OperatorSpec` |
| PyLexer.Lexer.BracketOrNegationToken | ezcript/lexer/lexer.py:104-116 | the bracket, brace and `!` branches implement `OperatorSpec` |
| PyLexer.Lexer.NextToken | ezcript/lexer/lexer.py:21-141 | implements `NextTokenSpec`, whose meaning `NextTokenMatchesScan` gives, and keeps the lexer valid for the next call |
| PyTokens.MemberNameRoundTrip | ezcript_lang/tokens/tokens.py:10-61 | each member name reads back as its member and is a non-empty word |
| PyTokens.MemberNameInjective | ezcript_lang/tokens/tokens.py:10-61 | distinct members have distinct names |
| PyTokens.KeywordWords | ezcript_lang/tokens/tokens.py:73-102 | the table's words are the 22 plain keywords plus `true`, `false` and `null` |
| PyTokens.TableKind | ezcript_lang/tokens/tokens.py:73-102 | the kind the table gives each word |
| PyTokens.LookupKeywords | ezcript_lang/tokens/tokens.py:73-102 | a word is `KEYWORD` if and only if it is a plain keyword |
| PyTokens.LookupLiteralWords | ezcript_lang/tokens/tokens.py:73-102 | `BOOLEAN` exactly for `true` and `false`; `NULL` exactly for `null` |
| PyTokens.LookupIdentifiers | ezcript_lang/tokens/tokens.py:73-102 | a word is `IDENTIFIER` if and only if it is outside the table |
| PyTokens.LookupIsCaseSensitive | ezcript_lang/tokens/tokens.py:73-102 | apart from `makeFunc`, a word with an upper-case letter is an identifier |
| PyTokens.ClosingWordsAreIdentifiers | ezcript_lang/tokens/tokens.py:73-102 | `endif`, `endfor` and `endwhile` are not in the table |
| PyTokens.ShowLayout | ezcript_lang/tokens/tokens.py:69-70 | `str(token)` begins with the qualified member name and ends with the literal in brackets |
| PyTokens.ShowIsInjective | ezcript_lang/tokens/tokens.py:64-70 | two tokens print alike only if they are equal |
| FolTokens.MemberNameRoundTrip | fol/token.py:23-84 | each member name reads back as its member |
| FolTokens.NamesAreWords | fol/token.py:23-84 | no member name is empty or holds a comma |
| FolTokens.MemberNameInjective | fol/token.py:23-84 | distinct members have distinct names |
| FolTokens.KeywordRoundTrip | fol/token.py:113-138 | each table word is the word its kind is written for |
| FolTokens.LookupIsInjective | fol/token.py:113-138 | distinct table words look up as distinct kinds |
| FolTokens.LookupKinds | fol/token.py:103-140 | a word is `IDENTIFIER` if and only if it is outside the table; a table word's kind gives the word back |
| FolTokens.ShowIsInjective | fol/token.py:99-100 | two tokens print alike only if they have the same type, literal and line |
| FolTokens.ShowParts | fol/token.py:99-100 | `str(token)` is the qualified member name, the literal and the line, in that layout |
| FolTokens.DefaultLineShown | fol/token.py:95-100 | a token built without a line is on line 1 and prints so |
| FolLexer.MakeTwoSpec | fol/lexer.py:123-128 | a two-character token holds both characters, after one read |
| FolLexer.ReadCountsNewline | fol/lexer.py:130-142 | reading adds one to the line exactly when the character read is a newline |
| FolLexer.OperatorAgrees | fol/lexer.py:23-87 | the operator branches agree with the reference `Lex`, token and line |
| FolLexer.OverwrittenAgrees | fol/lexer.py:39-42 | `//` becomes one `/` token of kind `DIVISION` that uses both characters |
| FolLexer.EndAgrees | fol/lexer.py:44-48 | at the end the `EOL` test fails and `EOF` is returned |
| FolLexer.IdentifierAgrees | fol/lexer.py:89-93 | the identifier branch agrees with the reference `LexWord` |
| FolLexer.NumberAgrees | fol/lexer.py:95-103 | the number branch agrees with the reference `LexNumber` |
| FolLexer.StringAgrees | fol/lexer.py:104-107 | the string branch agrees with the reference `LexString` |
| FolLexer.DispatchAgrees | fol/lexer.py:23-113 | after whitespace, every branch agrees with `Lex` |
| FolLexer.NextTokenMatchesScan | fol/lexer.py:21-113 | `next_token` returns the token `Scan` finds, stamped with the line the counter has reached, and leaves exactly the characters `Scan` does not use |
| FolLexer.ScanLine | fol/lexer.py:130-142 | the stamped line is 1 plus the newlines read up to the point of stamping |
| FolLexer.OperatorLine | fol/lexer.py:130-142 | an operator is stamped with the line of its first character |
| FolLexer.WordLine | fol/lexer.py:89-93 | a word is stamped after reading the character that ends it, so a word before a newline gets the next line |
| FolLexer.SlashSlash | fol/lexer.py:39-42 | `//` reads as one `DIVISION` token spelled `/` that uses two characters |
| FolLexer.OperatorLiteralFixed | fol/lexer.py:39-42 | corrected, every operator's literal is exactly the characters it uses |
| FolLexer.WordLineFixed | fol/lexer.py:89-93 | corrected, a word's line counts no newline after it |
| FolLexer.NumberLine | fol/lexer.py:95-103 | a number is stamped after reading the character that follows it, so a number before a newline gets the next line |
| FolLexer.NumberLineFixed | fol/lexer.py:95-103 | corrected, a number's line counts no newline after it |
| FolLexer.StringLine | fol/lexer.py:104-107 | a string's stamp counts the newlines inside it, and one more when a newline follows the closing quote |
| FolLexer.StringLineFixed | fol/lexer.py:104-107 | corrected, a string is stamped with the line of its opening quote |
| FolLexer.NumberKinds | fol/lexer.py:95-103 | digits alone are `INTEGER`; digits and a dot are `FLOAT` |
| FolLexer.LexEnd | fol/lexer.py:44-48 | `EOL` is never produced, and `EOF` exactly at the end of the text |
| FolLexer.NeverEol | fol/lexer.py:44-45 | `next_token` never returns `EOL` |
| FolLexer.EofAtEnd | fol/lexer.py:47-48 | `EOF` exactly when only whitespace is left |
| FolLexer.StringShape | fol/lexer.py:160-180 | a string is the text between the quotes |
| FolLexer.IllegalCharacter | fol/lexer.py:109-110 | any other character is `ILLEGAL`, alone |
| FolLexer.Lexer.constructor | fol/lexer.py:12-19 | a new lexer is `Initial(source)` on line 1 |
| FolLexer.Lexer.ReadCharacter | fol/lexer.py:130-142 | implements `ReadCharacterSpec` and keeps `line` equal to the newlines read so far |
| FolLexer.Lexer.PeekCharacter | fol/lexer.py:182-186 | returns `PeekSpec` and changes nothing |
| FolLexer.Lexer.SkipWhitespace | fol/lexer.py:188-190 | its loop implements `SkipWhitespaceSpec` |
| FolLexer.Lexer.MakeTwoCharacterToken | fol/lexer.py:123-128 | implements `MakeTwoSpec` |
| FolLexer.Lexer.ReadIdentifier | fol/lexer.py:144-150 | its loop implements the identifier run of `ReadRunSpec` |
| FolLexer.Lexer.ReadNumber | fol/lexer.py:152-158 | its loop implements the digit run of `ReadRunSpec` |
| FolLexer.Lexer.ReadString | fol/lexer.py:160-180 | its loop implements `ReadStringSpec` |
| FolLexer.Lexer.ComparisonToken | fol/lexer.py:24-87 | the `=`, `<`, `>` and `!` branches implement `OperatorSpec` |
| FolLexer.Lexer.SlashToken | fol/lexer.py:39-42 | the `/` branch implements `OperatorSpec` |
| FolLexer.Lexer.ArithmeticToken | fol/lexer.py:29-37 | the `+`, `-` and `*` branches implement `OperatorSpec` |
| FolLexer.Lexer.BracketToken | fol/lexer.py:49-69 | the bracket and comma branches implement `OperatorSpec` |
| FolLexer.Lexer.OperatorToken | fol/lexer.py:23-87 | the operator branches implement `OperatorSpec` |
| FolLexer.Lexer.IdentifierToken | fol/lexer.py:89-93 | implements `IdentifierSpec` |
| FolLexer.Lexer.NumberToken | fol/lexer.py:95-103 | implements `NumberSpec` |
| FolLexer.Lexer.NextToken | fol/lexer.py:21-113 | implements `NextTokenSpec`, whose meaning `NextTokenMatchesScan` gives |
| FolAsWritten.DeclaredKinds | fol/token.py:23-84 | the attribute fol/lexer.py writes for a kind exists exactly when it writes none or spells it in upper case |
| FolAsWritten.SpelledDeclared | fol/lexer.py:24-110 | of the attributes fol/lexer.py spells, only the six upper-case ones are members |
| FolAsWritten.LookupUnspelled | fol/lexer.py:89-93 | the kinds of words come from the table and never go through a misspelled attribute |
| FolAsWritten.AsWrittenRaises | fol/lexer.py:21-113 | as written, `next_token` raises `AttributeError` unless the next token is a word, `<`, `<=`, `>`, `>=` or the end; where it does not raise, it agrees with `NextTokenSpec` |
| FolAsWritten.AssignAsWritten | fol/lexer.py:24-28 | `=` alone raises as written |
| CharTokens.OneCharToken | utils/decorators/tokens.py:9-61 | the wrapper ignores its arguments, and passes `OP` and the text for anything outside the table |
| CharTokens.TwoCharToken | utils/decorators/tokens.py:64-119 | the wrapper ignores its arguments, and returns `None` exactly when a listed first character meets an unlisted second one |
| CharTokens.ThreeCharToken | utils/decorators/tokens.py:122-154 | the same for three characters |
| CharTokens.OneCharAgrees | utils/decorators/tokens.py:21-59 | the one-character table classifies every character as the Python lexer's one-character table does |
| CharTokens.OneCharLonger | utils/decorators/tokens.py:58-59 | anything that is not one character is `OP` |
| CharTokens.TwoCharAgrees | utils/decorators/tokens.py:78-117 | the two-character table agrees with the Python lexer's, except that it also knows `=>` and answers `OP` for unlisted first characters |
| CharTokens.TwoCharLonger | utils/decorators/tokens.py:78-115 | after a listed first character, a second argument that is not one character is never recognised |
| CharTokens.ThreeCharRecognises | utils/decorators/tokens.py:138-152 | the table recognises exactly `**=`, `...` and `//=`, and answers `OP` exactly for unlisted first characters |
| CharTokens.ThreeCharAgainstLexer | utils/decorators/tokens.py:138-152 | the Python lexer yields `...` and `//=` as this table does, but reads `**=` as `**` |
| CharTokens.OneCharRaises | utils/decorators/tokens.py:21-59 | as written, the wrapper raises `AttributeError` exactly for `>` (`GRATER`) and for anything outside the table (`OP`), and elsewhere gives the table's kind |
| CharTokens.TwoCharRaises | utils/decorators/tokens.py:78-117 | as written, the wrapper raises exactly after an unlisted first character (`OP`), and elsewhere gives the table's answer |
| CharTokens.ThreeCharRaises | utils/decorators/tokens.py:138-152 | as written, the wrapper raises exactly after an unlisted first character (`OP`); `**=` resolves to `DOUBLESTAREQUAL` |
| CharTokens.FallThroughIsOp | utils/decorators/tokens.py:58-59 | with `OP` declared, each table answers `OP` exactly on its `else` branch |

## Left out

- Tokens.TokenKind: has an extra `NewLine` kind. parser.rs uses it, but the enum of tokens.rs lacks it.
- Tokens.Token: the `u64` line is an unbounded `nat`. No overflow is modelled.
- Tokens.Float64: `f64` is opaque. Its `==`, `partial_cmp` and `{}` formatting are the parameters `floatEq`, `floatCmp` and `floatText`. The model proves nothing about numeric order or rendering.
- Tokens.Token Display (tokens.rs:98-106) is not modelled. It is debugging output that nothing in the core reads.
- Expressions.NewInteger: its requires excludes `Some(Err(_))` and values outside `i64`. There the source panics at the `unwrap` on expressions.rs:47, and the model has no panic for a pure constructor.
- EzcriptResult.IoError: `std::io::Error` is kept as its display text and the text of its cause.
- Lexer.LexState: keeps only the fields the scanner reads. Token positions other than the line are not modelled.
- Lexer.Lexer.BlockRound and Lexer.Lexer.ScanRound: the loops of `block_comment` and `next_token` are methods that call one round at a time. Termination is carried by `Remaining`.
- LexerFacts.LinesCounted: a bound, not an exact count. The line equals the start line plus the newlines read, less `lost`, with `lost <= Swallowable(st, n)`. `Swallowable` counts the newlines that come right after a `*#` and are swallowed with it. `BlockOutcomeLines` pins `lost` exactly for one block comment.
- Parser.DiscardSpec: stops when the lexer is spent. At parser.rs:102-104 the loop runs forever there. `ParserFacts.DiscardAsWrittenAgrees` proves the two equal whenever a `NewLine` is ahead. `DiscardAsWrittenRunsOn` proves the loop as written never ends otherwise.
- Parser.ParseLetSpec: parser.rs:87 asks for `TokenKind::Identifier`, which the enum of tokens.rs does not declare; the model reads it as `Ident`, so the error text of parser.rs:126-130 (and `ParserFacts.ParseLetNoName`) spells the kind `Ident`. parser.rs:91-95 calls `Identifier::new` with a token, a lexeme and a line, where expressions.rs:18 takes a token and a lexeme; the model uses the two-argument `Expressions.NewIdentifier`.
- Parser.SetNode: `SetStatement::new` gets the line of the `set` token. The parser's call passes no line, which does not match the three-argument `new` of statements.rs.
- Parser.Feed: the lexer given to the parser is the list of `next_token` results it will still hand out. `None` is the end of the list.
- Parser.Parser.Errors: the getter has no contract to state.
- PyLexer.NextTokenSpec: Python exceptions (`IndexError`, `UnboundLocalError`) are modelled as `Err` results. Tracebacks and propagation are not modelled.
- FolLexer.NextTokenSpec: reads every CamelCase kind of fol/lexer.py (`TokenType.Assign`) as the upper-case member of fol/token.py (`ASSIGN`), so it returns a token where the code raises `AttributeError`. The raising is modelled only in `FolAsWritten.NextTokenAsWritten`, and `FolAsWritten.AsWrittenRaises` says where the two differ. Class `FolLexer.Lexer` follows `NextTokenSpec`.
- CharTokens.Declared: `from ezcript.tokens import Token, TokenType` is read as the enumeration of ezcript_lang/tokens/tokens.py, the same reading as for ezcript/lexer/lexer.py's identical import. ezcript/tokens/tokens.py defines no `Token`, and its `@unique` enumeration rejects the aliases `ISEOF` and `ISWHITESPACE`, so it cannot be that module.
- PyScan.IsSpace and PyScan.IsNumber: follow `str.isspace` and Unicode category Nd as of Unicode 15.0. A different Unicode version of the interpreter could differ.
- CharTokens.OneCharToken, CharTokens.TwoCharToken and CharTokens.ThreeCharToken: the decorated function is a parameter. The model does not capture what it does with the kind.
- The REPLs (ezcript/repl.py, ezcript_lang/repl.py), the runner crate, utils/src/lib.rs and docs/syntax.py are not part of this model.

## Findings

Each row names the as-written member and the corrected member, with its intended property proved. The main model uses the as-written behaviour except in the `fol/lexer.py:24-110` and `parser.rs:102-104` rows, where it uses the corrected one.

| source | as written | input that shows it | evidently intended | confidence | as-written member | corrected member |
|---|---|---|---|---|---|---|
| interpreter/ezcript_lexer/src/lexer.rs:197-201 | after `*#` the loop advances twice, swallowing the character after the `#` | `#*a*#+` (the `+` is lost) | the comment ends right after `#` | not executed | LexerFacts.SwallowAsWritten | LexerFacts.SwallowFixed |
| interpreter/ezcript_lexer/src/lexer.rs:197-201 | the extra read is the only difference from the intended loop | any block comment | one read after the `#` | not executed | LexerFacts.BlockLoopOvershoots | LexerFacts.BlockCommentLoopFixed |
| interpreter/ezcript_lexer/src/lexer.rs:197-201 | a `*#` at the end of the input sets the end flag, so the next scan panics at the `unwrap` on line 40 | `#**#` | the `Eof` token | not executed | LexerFacts.CloseAtEndPanics | LexerFacts.BlockCommentLoopFixed |
| interpreter/ezcript_ast/src/parser.rs:102-104 | the value-skipping loop waits for a `NewLine` and never ends without one | `set x = 5` with no new line after it | stop at the end of the input | not executed | ParserFacts.UnterminatedSetExample | Parser.DiscardSpec |
| fol/lexer.py:24-110 | token kinds are written in CamelCase (`TokenType.Assign`), which fol/token.py does not declare | `=` raises `AttributeError` | the upper-case members (`ASSIGN`) | not executed | FolAsWritten.AssignAsWritten | FolLexer.NextTokenMatchesScan |
| fol/lexer.py:39-42 | the `COMMENTS` token built for `//` is overwritten by a `DIVISION` token spelled `/` | `//` | a two-character token | not executed | FolLexer.SlashSlash | FolLexer.OperatorLiteralFixed |
| fol/lexer.py:89-93 | a word is stamped with the line after reading the character that ends it | `x` then a new line: `x` is on line 2 | the line of the word's first character | not executed | FolLexer.WordLine | FolLexer.WordLineFixed |
| fol/lexer.py:95-103 | a number is stamped the same way | `1` then a new line: `1` is on line 2 | the line of the number's first character | not executed | FolLexer.NumberLine | FolLexer.NumberLineFixed |
| fol/lexer.py:104-107 | a string is stamped after its closing quote and the character after it, so its own newlines count too | `'a` new line `b'`: the string is on line 2 | the line of the opening quote | not executed | FolLexer.StringLine | FolLexer.StringLineFixed |
| utils/decorators/tokens.py:46-47 | names `GRATER`, which the imported enumeration spells `GREATER` | `>` raises `AttributeError` | `GREATER`, the kind the Python lexer gives `>` | not executed | CharTokens.OneCharRaises | CharTokens.OneCharAgrees |
| utils/decorators/tokens.py:116-117 | the `else` branches name `OP`, which the imported enumeration does not declare | `@`, `=` raises `AttributeError` | an `OP` token, as ezcript/tokens/tokens.py:50 declares | not executed | CharTokens.TwoCharRaises | CharTokens.FallThroughIsOp |
| ezcript/lexer/lexer.py:44-49 | the `**=` branch comes after the `**` branch and is never reached | `**=` reads as `**` then `=` | one `**=` token | not executed | PyLexer.OperatorShape | PyLexer.OperatorFixedLongest |
