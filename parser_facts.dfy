/** What the parser of interpreter/ezcript_ast/src/parser.rs does with the lexer's output: a
    window sliding over it one result at a time, errors recorded without moving, and the
    value-skipping loop of `parse_let_statement` as written. */
module ParserFacts {
  import opened Wrappers
  import opened Tokens
  import opened EzcriptResult
  import opened Expressions
  import opened Statements
  import opened Parser

  /** The results of `feed` after the first `n`. */
  function Drop(feed: Feed, n: nat): Feed {
    if n >= |feed| then [] else feed[n..]
  }

  /** The parser stands at result `k` of `feed`: that token is current, the next is peek, and
      the lexer still holds what follows. */
  predicate At(ps: ParserState, feed: Feed, k: nat) {
    ps.current == TokenAt(feed, k) && ps.peek == TokenAt(feed, k + 1) &&
    ps.feed == Drop(feed, k + 2)
  }

  /** `Parser::new` stands at the first result, with no errors, on line 1. */
  lemma NewWindow(feed: Feed)
    ensures At(NewSpec(feed), feed, 0) && NewSpec(feed).errors == [] && NewSpec(feed).line == 1
  {
    if |feed| > 1 {
      assert feed[1..][0] == feed[1];
      assert feed[1..][1..] == feed[2..];
    }
  }

  /** `advance_tokens` moves the window one result on. */
  lemma AdvanceSlides(ps: ParserState, feed: Feed, k: nat, j: nat)
    requires At(ps, feed, k) && j == k + 1
    ensures At(AdvanceTokensSpec(ps), feed, j) && AdvanceTokensSpec(ps).errors == ps.errors
  {
    if k + 2 < |feed| {
      assert ps.feed[0] == feed[k + 2];
      assert ps.feed[1..] == Drop(feed, j + 2);
    }
  }

  /** Where the value of a statement ends, from result `k` on: the first `NewLine`; with none
      left, the end of the feed, where the parser is spent.  Lexical errors do not end it. */
  function NextStop(feed: Feed, k: nat): (j: nat)
    ensures k <= j && (k >= |feed| ==> j == k)
    ensures j < |feed| ==> TokenAt(feed, j).kind == NewLine
    ensures forall i :: k <= i < j ==> TokenAt(feed, i).kind != NewLine
    decreases |feed| - k
  {
    if k >= |feed| || TokenAt(feed, k).kind == NewLine then k else NextStop(feed, k + 1)
  }

  /** The value-skipping loop stops at the first `NewLine`, or spent at the end of the feed,
      recording nothing. */
  lemma {:induction false} DiscardWindow(ps: ParserState, feed: Feed, k: nat)
    requires At(ps, feed, k)
    ensures At(DiscardSpec(ps), feed, NextStop(feed, k))
    decreases |feed| - k
  {
    if k < |feed| && TokenAt(feed, k).kind != NewLine {
      if Spent(ps) {
        SpentWindow(ps, feed, k);
      } else {
        AdvanceSlides(ps, feed, k, k + 1);
        DiscardWindow(AdvanceTokensSpec(ps), feed, k + 1);
      }
    }
  }

  /** A spent parser stands at the end of the feed. */
  lemma SpentWindow(ps: ParserState, feed: Feed, k: nat)
    requires At(ps, feed, k) && Spent(ps) && k < |feed|
    ensures NextStop(feed, k) == |feed| && At(ps, feed, |feed|)
  {
    assert TokenAt(feed, k).kind != NewLine;
    if k + 1 < |feed| {
      assert TokenAt(feed, k + 1).kind != NewLine;
      assert NextStop(feed, k + 1) == NextStop(feed, k + 2);
    }
  }

  /** The error `expected_token` records when the peek has the wrong kind. */
  function ExpectedError(ps: ParserState, kind: TokenKind, got: Token): ErrorEntry {
    Some(Err(Parse(ps.line, ExpectedMessage(kind, got.kind), ps.current.lexeme)))
  }

  /** `parse_let_statement` standing on result `k` with no identifier next: one error, and the
      parser stays. */
  lemma ParseLetNoName(ps: ParserState, feed: Feed, k: nat)
    requires At(ps, feed, k) && TokenAt(feed, k + 1).kind != Ident
    ensures ParseLetSpec(ps) == Parsed(ps.(errors := ps.errors + [ExpectedError(ps, Ident, TokenAt(feed, k + 1))]), None)
  {
  }

  lemma ParseLetNoEqual(ps: ParserState, feed: Feed, k: nat)
    requires At(ps, feed, k) && TokenAt(feed, k + 1).kind == Ident && TokenAt(feed, k + 2).kind != Equal
    ensures ParseLetSpec(ps).statement.None? && At(ParseLetSpec(ps).state, feed, k + 1)
    ensures ParseLetSpec(ps).state.errors == ps.errors + [ExpectedError(AdvanceTokensSpec(ps), Equal, TokenAt(feed, k + 2))]
  {
    AdvanceSlides(ps, feed, k, k + 1);
  }

  lemma ParseLetSet(ps: ParserState, feed: Feed, k: nat)
    requires At(ps, feed, k) && TokenAt(feed, k + 1).kind == Ident && TokenAt(feed, k + 2).kind == Equal
    ensures ParseLetSpec(ps).statement == Some(SetNode(TokenAt(feed, k), TokenAt(feed, k + 1)))
    ensures At(ParseLetSpec(ps).state, feed, NextStop(feed, k + 2)) && ParseLetSpec(ps).state.errors == ps.errors
  {
    var s1 := AdvanceTokensSpec(ps);
    AdvanceSlides(ps, feed, k, k + 1);
    AdvanceSlides(s1, feed, k + 1, k + 2);
    DiscardWindow(AdvanceTokensSpec(s1), feed, k + 2);
  }

  /** A statement the parser builds: a `set` keyword, the identifier's token and its own
      spelling as the name, no value. */
  predicate ParsedSet(s: Statement) {
    s.SetStmt? && s.setStatement.token.kind == Keyword && s.setStatement.token.lexeme == "set" &&
    s.setStatement.name.Some? && s.setStatement.name.value.token.kind == Ident &&
    s.setStatement.name.value.value == s.setStatement.name.value.token.lexeme &&
    s.setStatement.value.None? && s.setStatement.line == s.setStatement.token.line
  }

  /** What `parse_program` finds, as read off the results: statements and errors. */
  datatype Reading = Reading(statements: Program, errors: seq<ErrorEntry>)

  /** What `parse_program` finds from result `k` of `feed` on, read straight off the results:
      the statements in order and the errors in order. */
  function ParseFrom(feed: Feed, k: nat, line: nat): (r: Reading) {
    Reading(StatementsFrom(feed, k), ErrorsFrom(feed, k, line, ExpectedMessage))
  }

  /** The statements: a `set` keyword followed by an identifier and `=` makes one and resumes
      after the end of its value; one missing its identifier or its `=` resumes after the last
      token accepted. */
  function StatementsFrom(feed: Feed, k: nat): Program
    decreases |feed| - k
  {
    var t := TokenAt(feed, k);
    if t.kind == Eof then []
    else if t.kind == Keyword && t.lexeme == "set" then
      var name := TokenAt(feed, k + 1);
      if name.kind != Ident then StatementsFrom(feed, k + 1)
      else if TokenAt(feed, k + 2).kind != Equal then StatementsFrom(feed, k + 2)
      else [SetNode(t, name)] + StatementsFrom(feed, NextStop(feed, k + 2) + 1)
    else StatementsFrom(feed, k + 1)
  }

  /** The errors, resuming where `StatementsFrom` does: one for a `set` keyword without an
      identifier, raised at the keyword, and one for an identifier without `=`, raised at the
      identifier; `message` words them from the wanted and the found kind. */
  function ErrorsFrom(feed: Feed, k: nat, line: nat, message: (TokenKind, TokenKind) -> string): seq<ErrorEntry>
    decreases |feed| - k
  {
    var t := TokenAt(feed, k);
    if t.kind == Eof then []
    else if t.kind == Keyword && t.lexeme == "set" then
      var name := TokenAt(feed, k + 1);
      if name.kind != Ident then
        [Some(Err(Parse(line, message(Ident, name.kind), t.lexeme)))] + ErrorsFrom(feed, k + 1, line, message)
      else if TokenAt(feed, k + 2).kind != Equal then
        [Some(Err(Parse(line, message(Equal, TokenAt(feed, k + 2).kind), name.lexeme)))] +
        ErrorsFrom(feed, k + 2, line, message)
      else ErrorsFrom(feed, NextStop(feed, k + 2) + 1, line, message)
    else ErrorsFrom(feed, k + 1, line, message)
  }

  /** A statement as a program of at most one. */
  function Stmts(st: Option<Statement>): Program {
    if st.Some? then [st.value] else []
  }

  /** One round of the loop of `parse_program` standing on result `k`, summed up: the state
      it leaves, the result it then stands on, what it finds and records, and that `ParseFrom`
      reads the same from `k` as from there after that. */
  predicate Round(ps: ParserState, feed: Feed, k: nat,
                  next: ParserState, j: nat, st: Option<Statement>, errs: seq<ErrorEntry>)
  {
    next == AdvanceTokensSpec(ParseStatementSpec(ps).state) && ParseStatementSpec(ps).statement == st &&
    At(next, feed, j) && next.errors == ps.errors + errs && next.line == ps.line && k < j &&
    ParseFrom(feed, k, ps.line).statements == Stmts(st) + ParseFrom(feed, j, ps.line).statements &&
    ParseFrom(feed, k, ps.line).errors == errs + ParseFrom(feed, j, ps.line).errors
  }

  /** A token that does not start a statement is stepped over. */
  lemma RoundOther(ps: ParserState, feed: Feed, k: nat) returns (next: ParserState)
    requires At(ps, feed, k) && TokenAt(feed, k).kind != Eof
    requires !(TokenAt(feed, k).kind == Keyword && TokenAt(feed, k).lexeme == "set")
    ensures Round(ps, feed, k, next, k + 1, None, [])
  {
    next := AdvanceTokensSpec(ps);
    AdvanceSlides(ps, feed, k, k + 1);
    assert ps.errors + [] == ps.errors;
    var rest := ParseFrom(feed, k + 1, ps.line);
    assert ParseFrom(feed, k, ps.line) == rest;
    assert [] + rest.statements == rest.statements && [] + rest.errors == rest.errors;
  }

  /** `set` without an identifier: one error, and the loop goes on after the keyword. */
  lemma RoundNoName(ps: ParserState, feed: Feed, k: nat) returns (next: ParserState, e: ErrorEntry)
    requires At(ps, feed, k) && TokenAt(feed, k).kind == Keyword && TokenAt(feed, k).lexeme == "set"
    requires TokenAt(feed, k + 1).kind != Ident
    ensures e == Some(Err(Parse(ps.line, ExpectedMessage(Ident, TokenAt(feed, k + 1).kind), TokenAt(feed, k).lexeme)))
    ensures Round(ps, feed, k, next, k + 1, None, [e])
  {
    ParseLetNoName(ps, feed, k);
    var s1 := ParseStatementSpec(ps).state;
    e := Some(Err(Parse(ps.line, ExpectedMessage(Ident, TokenAt(feed, k + 1).kind), TokenAt(feed, k).lexeme)));
    assert s1 == ps.(errors := ps.errors + [e]);
    next := AdvanceTokensSpec(s1);
    AdvanceSlides(s1, feed, k, k + 1);
    var rest := ParseFrom(feed, k + 1, ps.line);
    assert ParseFrom(feed, k, ps.line) == Reading(rest.statements, [e] + rest.errors);
    assert [] + rest.statements == rest.statements;
  }

  /** `set` and a name without `=`: one error, and the loop goes on after the name. */
  lemma RoundNoEqual(ps: ParserState, feed: Feed, k: nat) returns (next: ParserState, e: ErrorEntry)
    requires At(ps, feed, k) && TokenAt(feed, k).kind == Keyword && TokenAt(feed, k).lexeme == "set"
    requires TokenAt(feed, k + 1).kind == Ident && TokenAt(feed, k + 2).kind != Equal
    ensures e == Some(Err(Parse(ps.line, ExpectedMessage(Equal, TokenAt(feed, k + 2).kind), TokenAt(feed, k + 1).lexeme)))
    ensures Round(ps, feed, k, next, k + 2, None, [e])
  {
    ParseLetNoEqual(ps, feed, k);
    var s1 := ParseStatementSpec(ps).state;
    e := Some(Err(Parse(ps.line, ExpectedMessage(Equal, TokenAt(feed, k + 2).kind), TokenAt(feed, k + 1).lexeme)));
    next := AdvanceTokensSpec(s1);
    AdvanceSlides(s1, feed, k + 1, k + 2);
    var rest := ParseFrom(feed, k + 2, ps.line);
    assert ParseFrom(feed, k, ps.line) == Reading(rest.statements, [e] + rest.errors);
    assert [] + rest.statements == rest.statements;
  }

  /** A whole `set` statement: it is found, and the loop goes on after its value. */
  lemma RoundSet(ps: ParserState, feed: Feed, k: nat) returns (next: ParserState, j: nat)
    requires At(ps, feed, k) && TokenAt(feed, k).kind == Keyword && TokenAt(feed, k).lexeme == "set"
    requires TokenAt(feed, k + 1).kind == Ident && TokenAt(feed, k + 2).kind == Equal
    ensures j == NextStop(feed, k + 2) + 1
    ensures Round(ps, feed, k, next, j, Some(SetNode(TokenAt(feed, k), TokenAt(feed, k + 1))), [])
  {
    next, j := SetStateRound(ps, feed, k);
    assert ParseStatementSpec(ps) == ParseLetSpec(ps);
    StatementsFromSet(feed, k);
    ErrorsFromSet(feed, k, ps.line, ExpectedMessage);
    assert [] + ErrorsFrom(feed, j, ps.line, ExpectedMessage) == ErrorsFrom(feed, j, ps.line, ExpectedMessage);
  }

  /** The state a round over a whole `set` statement leaves. */
  lemma SetStateRound(ps: ParserState, feed: Feed, k: nat) returns (next: ParserState, j: nat)
    requires At(ps, feed, k)
    requires TokenAt(feed, k + 1).kind == Ident && TokenAt(feed, k + 2).kind == Equal
    ensures j == NextStop(feed, k + 2) + 1
    ensures next == AdvanceTokensSpec(ParseLetSpec(ps).state)
    ensures ParseLetSpec(ps).statement == Some(SetNode(TokenAt(feed, k), TokenAt(feed, k + 1)))
    ensures At(next, feed, j) && next.errors == ps.errors + [] && next.line == ps.line
  {
    assert ps.peek.kind == Ident && TokenAt(ps.feed, 0).kind == Equal;
    var n := NextStop(feed, k + 2);
    j := n + 1;
    ParseLetSet(ps, feed, k);
    next := StepOn(ps, ParseLetSpec(ps).state, feed, n);
  }

  lemma StepOn(ps: ParserState, r: ParserState, feed: Feed, n: nat) returns (next: ParserState)
    requires At(r, feed, n) && r.errors == ps.errors && r.line == ps.line
    ensures next == AdvanceTokensSpec(r)
    ensures At(next, feed, n + 1) && next.errors == ps.errors + [] && next.line == ps.line
  {
    next := AdvanceTokensSpec(r);
    AdvanceSlides(r, feed, n, n + 1);
    assert ps.errors + [] == ps.errors;
  }

  lemma StatementsFromSet(feed: Feed, k: nat)
    requires TokenAt(feed, k).kind == Keyword && TokenAt(feed, k).lexeme == "set"
    requires TokenAt(feed, k + 1).kind == Ident && TokenAt(feed, k + 2).kind == Equal
    ensures StatementsFrom(feed, k) ==
      [SetNode(TokenAt(feed, k), TokenAt(feed, k + 1))] + StatementsFrom(feed, NextStop(feed, k + 2) + 1)
  {
  }

  lemma ErrorsFromSet(feed: Feed, k: nat, line: nat, message: (TokenKind, TokenKind) -> string)
    requires TokenAt(feed, k).kind == Keyword && TokenAt(feed, k).lexeme == "set"
    requires TokenAt(feed, k + 1).kind == Ident && TokenAt(feed, k + 2).kind == Equal
    ensures ErrorsFrom(feed, k, line, message) == ErrorsFrom(feed, NextStop(feed, k + 2) + 1, line, message)
  {
  }

  /** One round of the loop of `parse_program`. */
  lemma LoopUnfold(ps: ParserState, found: Program)
    requires ps.current.kind != Eof
    ensures ProgramLoopSpec(ps, found) ==
      ProgramLoopSpec(AdvanceTokensSpec(ParseStatementSpec(ps).state), Appended(found, ParseStatementSpec(ps).statement))
  {
  }

  /** The loop of `parse_program`, standing on result `k`, finds what `ParseFrom` reads. */
  lemma {:induction false} ProgramLoopWindow(ps: ParserState, feed: Feed, k: nat, found: Program)
    requires At(ps, feed, k)
    ensures var r := ProgramLoopSpec(ps, found);
      r.found == found + ParseFrom(feed, k, ps.line).statements && r.state.errors == ps.errors + ParseFrom(feed, k, ps.line).errors
    decreases |feed| + 1 - k
  {
    var t := TokenAt(feed, k);
    if t.kind != Eof {
      var next: ParserState, j: nat, st: Option<Statement>, errs: seq<ErrorEntry>;
      if t.kind == Keyword && t.lexeme == "set" {
        if TokenAt(feed, k + 1).kind != Ident {
          var e;
          next, e := RoundNoName(ps, feed, k);
          j, st, errs := k + 1, None, [e];
        } else if TokenAt(feed, k + 2).kind != Equal {
          var e;
          next, e := RoundNoEqual(ps, feed, k);
          j, st, errs := k + 2, None, [e];
        } else {
          next, j := RoundSet(ps, feed, k);
          st, errs := Some(SetNode(TokenAt(feed, k), TokenAt(feed, k + 1))), [];
        }
      } else {
        next := RoundOther(ps, feed, k);
        j, st, errs := k + 1, None, [];
      }
      LoopUnfold(ps, found);
      ProgramLoopWindow(next, feed, j, Appended(found, st));
      LoopAssoc(found, st, ParseFrom(feed, j, ps.line).statements, ps.errors, errs, ParseFrom(feed, j, ps.line).errors);
    }
  }

  lemma LoopAssoc(found: Program, st: Option<Statement>, rest: Program,
                  errors: seq<ErrorEntry>, errs: seq<ErrorEntry>, more: seq<ErrorEntry>)
    ensures Appended(found, st) + rest == found + (Stmts(st) + rest)
    ensures errors + errs + more == errors + (errs + more)
  {
  }

  /** `Parser::new` then `parse_program` finds what `ParseFrom` reads from the first result,
      with its errors on line 1. */
  lemma ParseProgramReads(feed: Feed)
    ensures var r := ParseProgramSpec(NewSpec(feed));
      r.program == Some(ParseFrom(feed, 0, 1).statements) && r.state.errors == ParseFrom(feed, 0, 1).errors
  {
    NewWindow(feed);
    ProgramLoopWindow(NewSpec(feed), feed, 0, []);
    assert [] + ParseFrom(feed, 0, 1).statements == ParseFrom(feed, 0, 1).statements;
    assert [] + ParseFrom(feed, 0, 1).errors == ParseFrom(feed, 0, 1).errors;
  }

  /** A parse error on `line`, as `err` records them. */
  predicate ParseErrorOn(e: ErrorEntry, line: nat) {
    e.Some? && e.value.Err? && e.value.error.Parse? && e.value.error.line == line
  }

  /** What `ParseFrom` reads: built `set` statements, and parse errors on the given line. */
  lemma {:induction false} ParseFromStatements(feed: Feed, k: nat)
    ensures forall s :: s in StatementsFrom(feed, k) ==> ParsedSet(s)
    decreases |feed| - k
  {
    var t := TokenAt(feed, k);
    if t.kind != Eof {
      if t.kind == Keyword && t.lexeme == "set" {
        if TokenAt(feed, k + 1).kind != Ident {
          ParseFromStatements(feed, k + 1);
        } else if TokenAt(feed, k + 2).kind != Equal {
          ParseFromStatements(feed, k + 2);
        } else {
          ParseFromStatements(feed, NextStop(feed, k + 2) + 1);
        }
      } else {
        ParseFromStatements(feed, k + 1);
      }
    }
  }

  lemma {:induction false} ParseFromErrors(feed: Feed, k: nat, line: nat, message: (TokenKind, TokenKind) -> string)
    ensures forall e :: e in ErrorsFrom(feed, k, line, message) ==> ParseErrorOn(e, line)
    decreases |feed| - k
  {
    var t := TokenAt(feed, k);
    if t.kind != Eof {
      if t.kind == Keyword && t.lexeme == "set" {
        if TokenAt(feed, k + 1).kind != Ident {
          ParseFromErrors(feed, k + 1, line, message);
        } else if TokenAt(feed, k + 2).kind != Equal {
          ParseFromErrors(feed, k + 2, line, message);
        } else {
          ParseFromErrors(feed, NextStop(feed, k + 2) + 1, line, message);
        }
      } else {
        ParseFromErrors(feed, k + 1, line, message);
      }
    }
  }

  /** `Parser::new` then `parse_program`: always a program, of built `set` statements only,
      with every recorded error a parse error on line 1. */
  lemma ParseProgramFacts(feed: Feed)
    ensures var r := ParseProgramSpec(NewSpec(feed));
      r.program.Some? && (forall s :: s in r.program.value ==> ParsedSet(s)) &&
      forall e :: e in r.state.errors ==> ParseErrorOn(e, 1)
  {
    ParseProgramReads(feed);
    ParseFromStatements(feed, 0);
    ParseFromErrors(feed, 0, 1, ExpectedMessage);
  }

  /** `set x = 5` followed by a new line, as a word-reading lexer hands it out: one statement
      named `x`, no errors (interpreter/ezcript_ast/tests/test_parser.rs). */
  lemma SetExample(keyword: Token, x: Token, eq: Token, five: Token, nl: Token)
    requires keyword.kind == Keyword && keyword.lexeme == "set" && x.kind == Ident && eq.kind == Equal
    requires five.kind == TokenKind.Number && nl.kind == NewLine
    ensures var r := ParseProgramSpec(NewSpec([Ok(keyword), Ok(x), Ok(eq), Ok(five), Ok(nl)]));
      r.program == Some([SetNode(keyword, x)]) && r.state.errors == []
  {
    var feed: Feed := [Ok(keyword), Ok(x), Ok(eq), Ok(five), Ok(nl)];
    assert TokenAt(feed, 0) == keyword && TokenAt(feed, 1) == x && TokenAt(feed, 2) == eq;
    assert TokenAt(feed, 3) == five && TokenAt(feed, 4) == nl && |feed| == 5;
    SetFeedReads(feed, keyword, x, eq, five, nl);
    ParseProgramReads(feed);
  }

  lemma SetFeedReads(feed: Feed, keyword: Token, x: Token, eq: Token, five: Token, nl: Token)
    requires keyword.kind == Keyword && keyword.lexeme == "set" && x.kind == Ident && eq.kind == Equal
    requires five.kind == TokenKind.Number && nl.kind == NewLine && |feed| == 5
    requires TokenAt(feed, 0) == keyword && TokenAt(feed, 1) == x && TokenAt(feed, 2) == eq
    requires TokenAt(feed, 3) == five && TokenAt(feed, 4) == nl
    ensures ParseFrom(feed, 0, 1) == Reading([SetNode(keyword, x)], [])
  {
    assert NextStop(feed, 2) == 4;
    StatementsFromSet(feed, 0);
    ErrorsFromSet(feed, 0, 1, ExpectedMessage);
    ErrorsFromEnd(feed, 5, 1, ExpectedMessage);
  }

  /** No errors at the end of the feed, or at an error. */
  lemma ErrorsFromEnd(feed: Feed, k: nat, line: nat, message: (TokenKind, TokenKind) -> string)
    requires TokenAt(feed, k).kind == Eof
    ensures ErrorsFrom(feed, k, line, message) == []
  {
  }

  /** A token that starts no statement adds no error. */
  lemma ErrorsFromOther(feed: Feed, k: nat, line: nat, message: (TokenKind, TokenKind) -> string)
    requires TokenAt(feed, k).kind != Eof && TokenAt(feed, k).kind != Keyword
    ensures ErrorsFrom(feed, k, line, message) == ErrorsFrom(feed, k + 1, line, message)
  {
  }

  /** `set x 5` followed by a new line: no statement and exactly one error, raised at `x` for
      the number where `=` belongs (interpreter/ezcript_ast/tests/test_parser.rs). */
  lemma MissingEqualExample(keyword: Token, x: Token, five: Token, nl: Token)
    requires keyword.kind == Keyword && keyword.lexeme == "set" && x.kind == Ident
    requires five.kind == TokenKind.Number && nl.kind == NewLine
    ensures var r := ParseProgramSpec(NewSpec([Ok(keyword), Ok(x), Ok(five), Ok(nl)]));
      r.program == Some([]) &&
      r.state.errors == [Some(Err(Parse(1, ExpectedMessage(Equal, TokenKind.Number), x.lexeme)))]
  {
    var feed: Feed := [Ok(keyword), Ok(x), Ok(five), Ok(nl)];
    assert TokenAt(feed, 0) == keyword && TokenAt(feed, 1) == x && TokenAt(feed, 2) == five;
    assert TokenAt(feed, 3) == nl && |feed| == 4;
    MissingEqualStatements(feed, keyword, x, five, nl);
    MissingEqualErrors(feed, keyword, x, five, nl, ExpectedMessage);
    ParseProgramReads(feed);
  }

  lemma MissingEqualStatements(feed: Feed, keyword: Token, x: Token, five: Token, nl: Token)
    requires keyword.kind == Keyword && keyword.lexeme == "set" && x.kind == Ident
    requires five.kind == TokenKind.Number && nl.kind == NewLine && |feed| == 4
    requires TokenAt(feed, 0) == keyword && TokenAt(feed, 1) == x && TokenAt(feed, 2) == five
    requires TokenAt(feed, 3) == nl
    ensures StatementsFrom(feed, 0) == []
  {
    assert StatementsFrom(feed, 3) == StatementsFrom(feed, 4) == [];
  }

  lemma MissingEqualErrors(feed: Feed, keyword: Token, x: Token, five: Token, nl: Token,
                           message: (TokenKind, TokenKind) -> string)
    requires keyword.kind == Keyword && keyword.lexeme == "set" && x.kind == Ident
    requires five.kind == TokenKind.Number && nl.kind == NewLine && |feed| == 4
    requires TokenAt(feed, 0) == keyword && TokenAt(feed, 1) == x && TokenAt(feed, 2) == five
    requires TokenAt(feed, 3) == nl
    ensures ErrorsFrom(feed, 0, 1, message) == [Some(Err(Parse(1, message(Equal, TokenKind.Number), x.lexeme)))]
  {
    ErrorsFromEnd(feed, 4, 1, message);
    ErrorsFromOther(feed, 3, 1, message);
    ErrorsFromOther(feed, 2, 1, message);
    var e := Some(Err(Parse(1, message(Equal, TokenKind.Number), x.lexeme)));
    assert ErrorsFrom(feed, 0, 1, message) == [e] + ErrorsFrom(feed, 2, 1, message);
    assert [e] + [] == [e];
  }

  /** The value-skipping loop as written: it stops only on `NewLine`. `None` means it was still
      running after `fuel` rounds. */
  function DiscardAsWritten(ps: ParserState, fuel: nat): Option<ParserState>
    decreases fuel
  {
    if ps.current.kind == NewLine then Some(ps)
    else if fuel == 0 then None
    else DiscardAsWritten(AdvanceTokensSpec(ps), fuel - 1)
  }

  /** With a `NewLine` ahead, the loop as written stops within `DiscardMeasure(ps)` rounds, in
      the state the model's loop stops in. */
  lemma {:induction false} DiscardAsWrittenAgrees(ps: ParserState, fuel: nat)
    requires NewLineAhead(ps) && fuel >= DiscardMeasure(ps)
    ensures DiscardAsWritten(ps, fuel) == Some(DiscardSpec(ps))
    decreases fuel
  {
    if ps.current.kind != NewLine {
      DiscardRoundReady(ps, fuel);
      DiscardAsWrittenAgrees(AdvanceTokensSpec(ps), fuel - 1);
      DiscardRoundAgrees(ps, fuel);
    }
  }

  /** A round of the loop as written leaves a `NewLine` ahead and enough rounds to reach it. */
  lemma DiscardRoundReady(ps: ParserState, fuel: nat)
    requires NewLineAhead(ps) && fuel >= DiscardMeasure(ps) && ps.current.kind != NewLine
    ensures fuel > 0 && NewLineAhead(AdvanceTokensSpec(ps)) && fuel - 1 >= DiscardMeasure(AdvanceTokensSpec(ps))
  {
    StillAhead(ps);
    DiscardStep(ps);
  }

  /** Both loops go round once past a current token that is not `NewLine`. */
  lemma DiscardRoundAgrees(ps: ParserState, fuel: nat)
    requires NewLineAhead(ps) && fuel > 0 && ps.current.kind != NewLine
    requires DiscardAsWritten(AdvanceTokensSpec(ps), fuel - 1) == Some(DiscardSpec(AdvanceTokensSpec(ps)))
    ensures DiscardAsWritten(ps, fuel) == Some(DiscardSpec(ps))
  {
    StillAhead(ps);
  }

  /** With no `NewLine` ahead, the loop as written is still running however many rounds it is
      given. */
  lemma {:induction false} DiscardAsWrittenRunsOn(ps: ParserState, fuel: nat)
    requires !NewLineAhead(ps)
    ensures DiscardAsWritten(ps, fuel) == None
    decreases fuel
  {
    if fuel > 0 {
      var r := AdvanceTokensSpec(ps);
      forall i | 0 <= i < |r.feed|
        ensures TokenAt(r.feed, i).kind != NewLine
      {
        assert TokenAt(r.feed, i) == TokenAt(ps.feed, i + 1);
      }
      DiscardAsWrittenRunsOn(r, fuel - 1);
    }
  }

  /** Once the lexer is spent, `advance_tokens` changes nothing any more. */
  lemma {:induction false} SpentNeverStops(ps: ParserState, fuel: nat)
    requires ps.feed == [] && ps.current == DefaultToken && ps.peek == DefaultToken
    ensures DiscardAsWritten(ps, fuel) == None
    decreases fuel
  {
    if fuel > 0 {
      assert AdvanceTokensSpec(ps) == ps;
      SpentNeverStops(ps, fuel - 1);
    }
  }

  /** With no `NewLine` left in the feed, the loop as written never stops, however long it
      runs: past the end it keeps reading the default token. */
  lemma {:induction false} DiscardAsWrittenNeedsNewLine(ps: ParserState, feed: Feed, k: nat, fuel: nat)
    requires At(ps, feed, k)
    requires forall i :: k <= i < |feed| ==> TokenAt(feed, i).kind != NewLine
    ensures DiscardAsWritten(ps, fuel) == None
    decreases fuel
  {
    if k >= |feed| {
      SpentNeverStops(ps, fuel);
    } else if fuel > 0 {
      AdvanceSlides(ps, feed, k, k + 1);
      DiscardAsWrittenNeedsNewLine(AdvanceTokensSpec(ps), feed, k + 1, fuel - 1);
    }
  }

  /** `set x = 5` with no new line after it: the loop as written, entered on `=`, never stops,
      while the model's loop stops at the end and the statement is built. */
  lemma UnterminatedSetExample(keyword: Token, x: Token, eq: Token, five: Token, fuel: nat)
    requires keyword.kind == Keyword && keyword.lexeme == "set" && x.kind == Ident && eq.kind == Equal
    requires five.kind == TokenKind.Number
    ensures var feed := [Ok(keyword), Ok(x), Ok(eq), Ok(five)];
      var s := AdvanceTokensSpec(AdvanceTokensSpec(NewSpec(feed)));
      s.current == eq && DiscardAsWritten(s, fuel) == None &&
      ParseLetSpec(NewSpec(feed)).statement == Some(SetNode(keyword, x))
  {
    var feed: Feed := [Ok(keyword), Ok(x), Ok(eq), Ok(five)];
    var ps := NewSpec(feed);
    NewWindow(feed);
    assert TokenAt(feed, 0) == keyword && TokenAt(feed, 1) == x && TokenAt(feed, 2) == eq;
    assert TokenAt(feed, 3) == five;
    ParseLetSet(ps, feed, 0);
    ThirdWindow(feed);
    EqualThenNumber(feed);
    DiscardAsWrittenNeedsNewLine(AdvanceTokensSpec(AdvanceTokensSpec(ps)), feed, 2, fuel);
  }

  /** Two advances from the start stand on the third token. */
  lemma ThirdWindow(feed: Feed)
    ensures At(AdvanceTokensSpec(AdvanceTokensSpec(NewSpec(feed))), feed, 2)
  {
    NewWindow(feed);
    AdvanceSlides(NewSpec(feed), feed, 0, 1);
    AdvanceSlides(AdvanceTokensSpec(NewSpec(feed)), feed, 1, 2);
  }

  /** A feed that ends with `=` and a number has no NewLine from its third token on. */
  lemma EqualThenNumber(feed: Feed)
    requires |feed| == 4 && TokenAt(feed, 2).kind == Equal && TokenAt(feed, 3).kind == TokenKind.Number
    ensures forall i :: 2 <= i < |feed| ==> TokenAt(feed, i).kind != NewLine
  {
  }

  /** A lexical error inside the value of `set x = …`: the loop skips the error's default token
      and runs on to the new line, so the `set y = 5` after it on the same line is no statement. */
  lemma ErrorInValueExample(keyword: Token, x: Token, eq: Token, e: EzcriptError, y: Token, five: Token, nl: Token)
    requires keyword.kind == Keyword && keyword.lexeme == "set" && x.kind == Ident && eq.kind == Equal
    requires y.kind == Ident && five.kind == TokenKind.Number && nl.kind == NewLine
    ensures var r := ParseProgramSpec(NewSpec([Ok(keyword), Ok(x), Ok(eq), Err(e), Ok(keyword), Ok(y), Ok(eq), Ok(five), Ok(nl)]));
      r.program == Some([SetNode(keyword, x)])
  {
    var feed: Feed := [Ok(keyword), Ok(x), Ok(eq), Err(e), Ok(keyword), Ok(y), Ok(eq), Ok(five), Ok(nl)];
    ErrorInValueStatements(feed, keyword, x, eq, y, five, nl);
    ParseProgramReads(feed);
  }

  lemma ErrorInValueStatements(feed: Feed, keyword: Token, x: Token, eq: Token, y: Token, five: Token, nl: Token)
    requires keyword.kind == Keyword && keyword.lexeme == "set" && x.kind == Ident && eq.kind == Equal
    requires y.kind == Ident && five.kind == TokenKind.Number && nl.kind == NewLine
    requires |feed| == 9 && feed[0] == Ok(keyword) && feed[1] == Ok(x) && feed[2] == Ok(eq) && feed[3].Err?
    requires feed[4] == Ok(keyword) && feed[5] == Ok(y) && feed[6] == Ok(eq) && feed[7] == Ok(five) && feed[8] == Ok(nl)
    ensures StatementsFrom(feed, 0) == [SetNode(keyword, x)]
  {
    assert TokenAt(feed, 0) == keyword && TokenAt(feed, 1) == x && TokenAt(feed, 2) == eq;
    SecondSetSkipped(feed, keyword, eq, y, five, nl);
    StatementsFromSet(feed, 0);
    StatementsFromEnd(feed, 9);
  }

  /** In that feed, the value of the first `set` runs to the `NewLine` at 8, swallowing the
      second `set`. */
  lemma SecondSetSkipped(feed: Feed, keyword: Token, eq: Token, y: Token, five: Token, nl: Token)
    requires keyword.kind == Keyword && eq.kind == Equal && y.kind == Ident
    requires five.kind == TokenKind.Number && nl.kind == NewLine
    requires |feed| == 9 && feed[2] == Ok(eq) && feed[3].Err?
    requires feed[4] == Ok(keyword) && feed[5] == Ok(y) && feed[6] == Ok(eq) && feed[7] == Ok(five) && feed[8] == Ok(nl)
    ensures NextStop(feed, 2) == 8
  {
    assert TokenAt(feed, 3) == DefaultToken && TokenAt(feed, 8) == nl;
    assert NextStop(feed, 8) == 8;
    assert TokenAt(feed, 4).kind != NewLine && TokenAt(feed, 5).kind != NewLine;
    assert TokenAt(feed, 6).kind != NewLine && TokenAt(feed, 7).kind != NewLine;
  }

  /** Past the end of the feed there are no more statements. */
  lemma StatementsFromEnd(feed: Feed, k: nat)
    requires k >= |feed|
    ensures StatementsFrom(feed, k) == []
  {
  }
}
