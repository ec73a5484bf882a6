/** The parser (interpreter/ezcript_ast/src/parser.rs): a two-token window over the lexer's
    output, an error list, and the `set` statement, the only one it recognises. */
module Parser {
  import opened Wrappers
  import opened Tokens
  import opened EzcriptResult
  import opened Expressions
  import opened Statements

  /** What the lexer still has to hand out, one `next_token` result per element; once it is
      empty, `next_token` returns `None`, as it does for good after the end marker. */
  type Feed = seq<Result<Token, EzcriptError>>

  /** One entry of the parser's error list (`Option<Result<()>>`). */
  type ErrorEntry = Option<Result<(), EzcriptError>>

  /** The fields of `Parser`, as a value. The window tokens are `Option<Token>` in the source,
      `None` only until the first `advance_tokens`, which reads a missing peek as
      `Token::default()`; the model holds the default token there instead, so both are always
      present, as every later `unwrap` assumes. `line` is never changed from 1. */
  datatype ParserState = ParserState(
    feed: Feed, current: Token, peek: Token, errors: seq<ErrorEntry>, line: nat)

  /** The token the parser makes of the `i`-th result of the lexer: errors and the end both
      become `Token::default()`. */
  function TokenAt(feed: Feed, i: nat): (t: Token)
    ensures i >= |feed| ==> t == DefaultToken
  {
    if i < |feed| && feed[i].Ok? then feed[i].value else DefaultToken
  }

  function NotEof(t: Token): nat {
    if t.kind != Eof then 1 else 0
  }

  /** Decreases with every call of `advance_tokens` that consumes a lexer result or moves a
      real token out of `current`. */
  function Measure(ps: ParserState): nat {
    2 * |ps.feed| + NotEof(ps.peek) + NotEof(ps.current)
  }

  /** `advance_tokens`: the old peek (the default token if there was none) becomes current, and
      the next lexer result, an error or the end turned into the default token, becomes peek. */
  function AdvanceTokensSpec(ps: ParserState): (r: ParserState)
    ensures r.errors == ps.errors && r.line == ps.line
  {
    var feed := if ps.feed == [] then [] else ps.feed[1..];
    ps.(feed := feed, current := ps.peek, peek := TokenAt(ps.feed, 0))
  }

  /** `advance_tokens` never grows the measure, and shrinks it while the lexer still has
      results or a real token is current. */
  lemma AdvanceProgress(ps: ParserState)
    ensures Measure(AdvanceTokensSpec(ps)) <= Measure(ps)
    ensures ps.feed != [] || NotEof(ps.current) == 1 ==> Measure(AdvanceTokensSpec(ps)) < Measure(ps)
  {
  }

  /** `Parser::new`: an empty window and error list, line 1, then two advances. */
  function NewSpec(feed: Feed): ParserState {
    AdvanceTokensSpec(AdvanceTokensSpec(ParserState(feed, DefaultToken, DefaultToken, [], 1)))
  }

  /** `err`: a parse error on the parser's line, near the current token's lexeme. */
  function ErrSpec(ps: ParserState, msg: string): (e: ErrorEntry)
    ensures e.Some? && e.value.Err? && e.value.error.Parse?
  {
    Some(Err(Parse(ps.line, msg, ps.current.lexeme)))
  }

  /** The message of `expected_token_error`, with the kinds printed by `{:?}`. */
  function ExpectedMessage(expected: TokenKind, got: TokenKind): string {
    "The following token should be of type '" + KindName(expected) + "'. But got '" + KindName(got) + "'"
  }

  /** `expected_token_error`: one error, naming the wanted kind and the peek's kind. */
  function ExpectedTokenErrorSpec(ps: ParserState, kind: TokenKind): (r: ParserState)
    ensures r.feed == ps.feed && r.current == ps.current && r.peek == ps.peek && r.line == ps.line
    ensures |r.errors| == |ps.errors| + 1 && ps.errors <= r.errors
  {
    ps.(errors := ps.errors + [ErrSpec(ps, ExpectedMessage(kind, ps.peek.kind))])
  }

  /** The state after `expected_token`, and its answer. */
  datatype Checked = Checked(state: ParserState, ok: bool)

  /** The state after parsing a statement, and the statement if one was built. */
  datatype Parsed = Parsed(state: ParserState, statement: Option<Statement>)

  /** The state after the loop of `parse_program`, and the statements it found. */
  datatype Looped = Looped(state: ParserState, found: Program)

  /** The state after `parse_program`, and the program it returns. */
  datatype Outcome = Outcome(state: ParserState, program: Option<Program>)

  /** `expected_token`: moves on exactly when the peek has the wanted kind; otherwise records
      one error and stays. */
  function ExpectedTokenSpec(ps: ParserState, kind: TokenKind): (r: Checked)
    ensures r.state.line == ps.line
    ensures r.ok <==> ps.peek.kind == kind
    ensures r.ok ==> r.state == AdvanceTokensSpec(ps) && r.state.current == ps.peek
    ensures !r.ok ==> r.state == ExpectedTokenErrorSpec(ps, kind)
  {
    if ps.peek.kind == kind then Checked(AdvanceTokensSpec(ps), true)
    else Checked(ExpectedTokenErrorSpec(ps, kind), false)
  }

  /** The lexer is spent and the window holds only default tokens: `advance_tokens` no longer
      changes anything. */
  predicate Spent(ps: ParserState) {
    ps.feed == [] && ps.current == DefaultToken && ps.peek == DefaultToken
  }

  function Real(t: Token): nat {
    if t != DefaultToken then 1 else 0
  }

  /** Decreases with every `advance_tokens` until the parser is spent. */
  function DiscardMeasure(ps: ParserState): nat {
    4 * |ps.feed| + 2 * Real(ps.peek) + Real(ps.current)
  }

  lemma DiscardStep(ps: ParserState)
    requires !Spent(ps)
    ensures DiscardMeasure(AdvanceTokensSpec(ps)) < DiscardMeasure(ps)
  {
  }

  /** A `NewLine` is still to come: current, peek, or among the lexer's remaining results. */
  predicate NewLineAhead(ps: ParserState) {
    ps.current.kind == NewLine || ps.peek.kind == NewLine ||
    exists i :: 0 <= i < |ps.feed| && TokenAt(ps.feed, i).kind == NewLine
  }

  /** The loop that skips the value of a `set` statement: `advance_tokens` until the current
      token is a `NewLine`.  When no `NewLine` is ahead the source loops for ever on the
      default token; the model then stops once the parser is spent, the state that loop
      stays in (see `DiscardAsWritten`). */
  function DiscardSpec(ps: ParserState): (r: ParserState)
    ensures r.errors == ps.errors && r.line == ps.line
    ensures r.current.kind == NewLine || Spent(r)
    decreases DiscardMeasure(ps)
  {
    if ps.current.kind == NewLine || Spent(ps) then ps
    else
      DiscardStep(ps);
      DiscardSpec(AdvanceTokensSpec(ps))
  }

  /** With a `NewLine` ahead, the loop stops on it. */
  lemma {:induction false} DiscardStopsOnNewLine(ps: ParserState)
    requires NewLineAhead(ps)
    ensures DiscardSpec(ps).current.kind == NewLine
    decreases DiscardMeasure(ps)
  {
    if ps.current.kind != NewLine {
      StillAhead(ps);
      DiscardStep(ps);
      DiscardStopsOnNewLine(AdvanceTokensSpec(ps));
    }
  }

  /** Advancing past a token that is not a `NewLine` keeps the `NewLine` ahead in view. */
  lemma StillAhead(ps: ParserState)
    requires NewLineAhead(ps) && ps.current.kind != NewLine
    ensures NewLineAhead(AdvanceTokensSpec(ps)) && !Spent(ps)
  {
    var r := AdvanceTokensSpec(ps);
    if ps.peek.kind != NewLine {
      var i :| 0 <= i < |ps.feed| && TokenAt(ps.feed, i).kind == NewLine;
      if i > 0 {
        assert TokenAt(r.feed, i - 1) == TokenAt(ps.feed, i);
      }
    }
  }

  lemma {:induction false} DiscardProgress(ps: ParserState)
    ensures Measure(DiscardSpec(ps)) <= Measure(ps)
    decreases DiscardMeasure(ps)
  {
    if !(ps.current.kind == NewLine || Spent(ps)) {
      AdvanceProgress(ps);
      DiscardStep(ps);
      DiscardProgress(AdvanceTokensSpec(ps));
    }
  }

  /** The statement `parse_let_statement` builds once the name is read. `SetStatement::new` is
      called without a line; the model gives it the line of the `set` token. */
  function SetNode(keyword: Token, name: Token): Statement {
    SetStmt(SetStatement(keyword, Some(NewIdentifier(name, name.lexeme)), None, keyword.line))
  }

  /** `parse_let_statement`: `set`, an identifier, `=`, then the value is skipped. */
  function ParseLetSpec(ps: ParserState): (r: Parsed)
    ensures r.state.line == ps.line
    ensures r.statement.Some? <==> ps.peek.kind == Ident && TokenAt(ps.feed, 0).kind == Equal
    ensures r.statement.Some? ==> r.statement.value == SetNode(ps.current, ps.peek) && r.state.errors == ps.errors
    ensures r.statement.None? ==> |r.state.errors| == |ps.errors| + 1 && ps.errors <= r.state.errors
  {
    var named := ExpectedTokenSpec(ps, Ident);
    if !named.ok then Parsed(named.state, None)
    else
      var hasEqual := ExpectedTokenSpec(named.state, Equal);
      if !hasEqual.ok then Parsed(hasEqual.state, None)
      else Parsed(DiscardSpec(hasEqual.state), Some(SetNode(ps.current, named.state.current)))
  }

  /** `parse_let_statement` never grows the measure, and either shrinks it or leaves the
      current token where it was. */
  lemma LetProgress(ps: ParserState)
    ensures Measure(ParseLetSpec(ps).state) <= Measure(ps)
    ensures NotEof(ps.current) == 1 ==>
      Measure(ParseLetSpec(ps).state) < Measure(ps) || ParseLetSpec(ps).state.current == ps.current
  {
    var named := ExpectedTokenSpec(ps, Ident);
    if named.ok {
      AdvanceProgress(ps);
      var hasEqual := ExpectedTokenSpec(named.state, Equal);
      if hasEqual.ok {
        AdvanceProgress(named.state);
        DiscardProgress(hasEqual.state);
      }
    }
  }

  /** `parse_statement`: only a `Keyword` token spelled `set` starts a statement. */
  function ParseStatementSpec(ps: ParserState): (r: Parsed)
    ensures r.state.line == ps.line && ps.errors <= r.state.errors
    ensures r.statement.Some? ==> ps.current.kind == Keyword && ps.current.lexeme == "set"
    ensures r.statement.Some? ==> r.statement.value == SetNode(ps.current, ps.peek) && ps.peek.kind == Ident
  {
    if ps.current.kind == Keyword && ps.current.lexeme == "set" then ParseLetSpec(ps)
    else Parsed(ps, None)
  }

  /** One statement's parse, then `advance_tokens`, shrinks the measure unless the current
      token is already the end. */
  lemma RoundProgress(ps: ParserState)
    requires ps.current.kind != Eof
    ensures Measure(AdvanceTokensSpec(ParseStatementSpec(ps).state)) < Measure(ps)
  {
    var s1 := ParseStatementSpec(ps).state;
    if ps.current.kind == Keyword && ps.current.lexeme == "set" {
      LetProgress(ps);
    }
    AdvanceProgress(s1);
  }

  /** The statements found so far, with `statement` pushed when there is one. */
  function Appended(found: Program, statement: Option<Statement>): (r: Program)
    ensures statement.None? ==> r == found
    ensures statement.Some? ==> r == found + [statement.value]
  {
    if statement.Some? then found + [statement.value] else found
  }

  /** The loop of `parse_program`, with the statements found so far. */
  function ProgramLoopSpec(ps: ParserState, found: Program): (r: Looped)
    ensures r.state.current.kind == Eof && r.state.line == ps.line
    decreases Measure(ps)
  {
    if ps.current.kind == Eof then Looped(ps, found)
    else
      var parsed := ParseStatementSpec(ps);
      var next := AdvanceTokensSpec(parsed.state);
      RoundProgress(ps);
      ProgramLoopSpec(next, Appended(found, parsed.statement))
  }

  /** `parse_program`: always a program. */
  function ParseProgramSpec(ps: ParserState): (r: Outcome)
    ensures r.program.Some? && r.state.current.kind == Eof
  {
    var loop := ProgramLoopSpec(ps, []);
    Outcome(loop.state, Some(loop.found))
  }

  /** `Parser`: the lexer is the feed it still has to hand out. */
  class Parser {
    var feed: Feed
    var current: Token
    var peek: Token
    var errors: seq<ErrorEntry>
    var line: nat

    function State(): ParserState
      reads this
    {
      ParserState(feed, current, peek, errors, line)
    }

    /** `Parser::new`. */
    constructor (lexer: Feed)
      ensures State() == NewSpec(lexer)
    {
      feed, current, peek, errors, line := lexer, DefaultToken, DefaultToken, [], 1;
      new;
      AdvanceTokens();
      AdvanceTokens();
    }

    /** The `errors` getter. */
    function Errors(): seq<ErrorEntry>
      reads this
    {
      errors
    }

    method AdvanceTokens()
      modifies this
      ensures State() == AdvanceTokensSpec(old(State()))
    {
      current := peek;
      if feed == [] {
        peek := DefaultToken;
      } else {
        peek := if feed[0].Ok? then feed[0].value else DefaultToken;
        feed := feed[1..];
      }
    }

    function Err(msg: string): ErrorEntry
      reads this
    {
      ErrSpec(State(), msg)
    }

    method ExpectedTokenError(kind: TokenKind)
      modifies this
      ensures State() == ExpectedTokenErrorSpec(old(State()), kind)
    {
      var error := ExpectedMessage(kind, peek.kind);
      errors := errors + [Err(error)];
    }

    method ExpectedToken(kind: TokenKind) returns (ok: bool)
      modifies this
      ensures Checked(State(), ok) == ExpectedTokenSpec(old(State()), kind)
    {
      if peek.kind == kind {
        AdvanceTokens();
        return true;
      }
      ExpectedTokenError(kind);
      return false;
    }

    method ParseLetStatement() returns (statement: Option<Statement>)
      modifies this
      ensures Parsed(State(), statement) == ParseLetSpec(old(State()))
    {
      var keyword := current;
      var named := ExpectedToken(Ident);
      if !named {
        return None;
      }
      var name := current;
      var hasEqual := ExpectedToken(Equal);
      if !hasEqual {
        return None;
      }
      ghost var start := State();
      while current.kind != NewLine && !(feed == [] && current == DefaultToken && peek == DefaultToken)
        invariant DiscardSpec(State()) == DiscardSpec(start)
        decreases DiscardMeasure(State())
      {
        DiscardStep(State());
        AdvanceTokens();
      }
      statement := Some(SetNode(keyword, name));
    }

    method ParseStatement() returns (statement: Option<Statement>)
      modifies this
      ensures Parsed(State(), statement) == ParseStatementSpec(old(State()))
    {
      if current.kind == Keyword && current.lexeme == "set" {
        statement := ParseLetStatement();
      } else {
        statement := None;
      }
    }

    method ParseProgram() returns (program: Option<Program>)
      modifies this
      ensures Outcome(State(), program) == ParseProgramSpec(old(State()))
    {
      var statements: Program := [];
      while current.kind != Eof
        invariant ProgramLoopSpec(State(), statements) == ProgramLoopSpec(old(State()), [])
        decreases Measure(State())
      {
        RoundProgress(State());
        var statement := ParseStatement();
        if statement.Some? {
          statements := statements + [statement.value];
        }
        AdvanceTokens();
      }
      program := Some(statements);
    }
  }
}
