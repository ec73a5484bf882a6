/** Statement nodes and programs (interpreter/ezcript_ast/src/statements.rs; `Program` as
    interpreter/ezcript_ast/src/ast.rs sketches it). */
module Statements {
  import opened Wrappers
  import opened Tokens
  import opened Expressions
  import opened Text

  /** `SetStatement`: `set <name> = <value>`. */
  datatype SetStatement = SetStatement(token: Token, name: Option<Identifier>, value: Option<Expression>, line: nat)

  /** `ReturnStatement`: `return <value>`. */
  datatype ReturnStatement = ReturnStatement(token: Token, returnValue: Option<Expression>, line: nat)

  /** `Statements`. */
  datatype Statement = SetStmt(setStatement: SetStatement) | ReturnStmt(returnStatement: ReturnStatement)

  /** `Program`: the statements in source order. */
  type Program = seq<Statement>

  /** What rendering needs from outside: the text of the opaque expression kinds and of the
      `Null` placeholder built from a statement's token when it has no value. */
  datatype Renderers = Renderers(opaqueText: (OpaqueKind, Token) -> string, nullText: Token -> string)

  /** `SetStatement::default()`. */
  const DefaultSet := SetStatement(DefaultToken, None, None, 1)

  /** `ReturnStatement::default()`. */
  const DefaultReturn := ReturnStatement(DefaultToken, None, 1)

  /** `token_lexeme` of either statement: the lexeme of its token. */
  function SetLexeme(s: SetStatement): string {
    s.token.lexeme
  }

  function ReturnLexeme(s: ReturnStatement): string {
    s.token.lexeme
  }

  /** The text of a statement's value: the node's own, or, without one, that of a `Null` node
      made from the statement's token. The statement itself is left as it is. */
  function ValueText(value: Option<Expression>, token: Token, r: Renderers): string {
    if value.Some? then ExpressionDisplay(value.value, r.opaqueText) else r.nullText(token)
  }

  /** `Display for SetStatement`. */
  function SetDisplay(s: SetStatement, r: Renderers): string {
    if s.name.Some? then
      SetLexeme(s) + " " + IdentifierDisplay(s.name.value) + " = " + ValueText(s.value, s.token, r)
    else
      "we're using a default value"
  }

  /** `Display for ReturnStatement`. */
  function ReturnDisplay(s: ReturnStatement, r: Renderers): string {
    ReturnLexeme(s) + " " + ValueText(s.returnValue, s.token, r)
  }

  function StatementDisplay(s: Statement, r: Renderers): string {
    match s
    case SetStmt(st) => SetDisplay(st, r)
    case ReturnStmt(st) => ReturnDisplay(st, r)
  }

  /** A program renders as its statements' texts, one after the other. */
  function ProgramDisplay(p: Program, r: Renderers): string {
    if p == [] then "" else StatementDisplay(p[0], r) + ProgramDisplay(p[1..], r)
  }

  /** The text up to the first space (all of it when there is none). */
  function UpToSpace(s: string): (w: string)
    ensures ' ' !in w && w <= s
    ensures |w| < |s| ==> s[|w|] == ' '
  {
    if s == [] || s[0] == ' ' then "" else [s[0]] + UpToSpace(s[1..])
  }

  lemma {:induction false} UpToSpaceOfWord(a: string, b: string)
    requires ' ' !in a
    ensures UpToSpace(a + " " + b) == a
  {
    if a != [] {
      assert (a + " " + b)[1..] == a[1..] + " " + b;
      UpToSpaceOfWord(a[1..], b);
    }
  }

  /** The default statements, on line 1 with the default token's empty lexeme, render as the
      placeholder text (the set statement has no name) and as a space followed by the `Null`
      text of the default token (the return statement has no value). */
  lemma DefaultsDisplay(r: Renderers)
    ensures DefaultSet.line == 1 && SetLexeme(DefaultSet) == ""
    ensures SetDisplay(DefaultSet, r) == "we're using a default value"
    ensures DefaultReturn.line == 1 && ReturnLexeme(DefaultReturn) == ""
    ensures ReturnDisplay(DefaultReturn, r) == " " + r.nullText(DefaultToken)
  {
  }

  /** A statement without a name renders as the fixed text, whatever else it holds. */
  lemma UnnamedSetDisplay(s: SetStatement, r: Renderers)
    requires s.name.None?
    ensures SetDisplay(s, r) == "we're using a default value"
    ensures SetDisplay(s, r) == SetDisplay(DefaultSet, r)
  {
  }

  /** A named statement whose keyword and name are single words reads back: the first word is
      the keyword, the second the name, then ` = ` and the value's text. */
  lemma SetDisplayReadsBack(s: SetStatement, r: Renderers)
    requires s.name.Some? && ' ' !in SetLexeme(s) && ' ' !in s.name.value.value
    ensures var out := SetDisplay(s, r);
      var k := |SetLexeme(s)| + 1;
      var n := |s.name.value.value|;
      UpToSpace(out) == SetLexeme(s) && k <= |out| &&
      UpToSpace(out[k..]) == s.name.value.value && k + n + 3 <= |out| &&
      out[k + n..k + n + 3] == " = " && out[k + n + 3..] == ValueText(s.value, s.token, r)
  {
    var lexeme, name := SetLexeme(s), s.name.value.value;
    var value := ValueText(s.value, s.token, r);
    assert SetDisplay(s, r) == lexeme + " " + (name + " = " + value);
    AssignmentWords(lexeme, name, value);
  }

  /** The words of `keyword name = value`, read back. */
  lemma AssignmentWords(lexeme: string, name: string, value: string)
    requires ' ' !in lexeme && ' ' !in name
    ensures var out := lexeme + " " + (name + " = " + value);
      var k := |lexeme| + 1;
      var n := |name|;
      UpToSpace(out) == lexeme && k <= |out| &&
      UpToSpace(out[k..]) == name && k + n + 3 <= |out| &&
      out[k + n..k + n + 3] == " = " && out[k + n + 3..] == value
  {
    var rest := name + " = " + value;
    WordThenRest(lexeme, rest);
    EqualsThenValue(name, value);
    WordThenRest(name, "= " + value);
    Within(lexeme + " ", rest, |name|, |name| + 3);
  }

  /** A word, a space and the rest: the word reads back, and the rest follows the space. */
  lemma WordThenRest(a: string, b: string)
    requires ' ' !in a
    ensures UpToSpace(a + " " + b) == a && (a + " " + b)[|a| + 1..] == b
  {
    UpToSpaceOfWord(a, b);
  }

  /** The text of `name = value` after the name. */
  lemma EqualsThenValue(name: string, value: string)
    ensures var rest := name + " = " + value; var n := |name|;
      rest == name + " " + ("= " + value) && rest[n..n + 3] == " = " && rest[n + 3..] == value
  {
  }

  /** A slice of the second part of a concatenation. */
  lemma Within(a: string, b: string, i: nat, j: nat)
    requires i <= j <= |b|
    ensures (a + b)[|a| + i..|a| + j] == b[i..j] && (a + b)[|a| + j..] == b[j..]
  {
  }

  /** A return statement whose keyword is one word reads back as the keyword and the value. */
  lemma ReturnDisplayReadsBack(s: ReturnStatement, r: Renderers)
    requires ' ' !in ReturnLexeme(s)
    ensures var out := ReturnDisplay(s, r);
      UpToSpace(out) == ReturnLexeme(s) && |ReturnLexeme(s)| < |out| &&
      out[|ReturnLexeme(s)| + 1..] == ValueText(s.returnValue, s.token, r)
  {
    UpToSpaceOfWord(ReturnLexeme(s), ValueText(s.returnValue, s.token, r));
  }

  /** Rendering distributes over joining programs. */
  lemma {:induction false} ProgramDisplayAppend(p: Program, q: Program, r: Renderers)
    ensures ProgramDisplay(p + q, r) == ProgramDisplay(p, r) + ProgramDisplay(q, r)
  {
    if p == [] {
      assert p + q == q;
    } else {
      assert (p + q)[0] == p[0];
      assert (p + q)[1..] == p[1..] + q;
      ProgramDisplayAppend(p[1..], q, r);
    }
  }

  /** A program of one statement renders as that statement. */
  lemma ProgramDisplaySingle(s: Statement, r: Renderers)
    ensures ProgramDisplay([s], r) == StatementDisplay(s, r)
  {
    assert [s][1..] == [];
  }

  /** The set statement of interpreter/ezcript_ast/tests/test_ast.rs. */
  lemma SetStatementExample(r: Renderers)
    ensures ProgramDisplay([SetStmt(SetStatement(
      Token(Keyword, "set", None, 1),
      Some(NewIdentifier(Token(Ident, "var", None, 1), "var")),
      Some(IdentifierExpr(NewIdentifier(Token(Ident, "other_var", None, 1), "other_var"))),
      1))], r) == "set var = other_var"
  {
    var s := SetStmt(SetStatement(
      Token(Keyword, "set", None, 1),
      Some(NewIdentifier(Token(Ident, "var", None, 1), "var")),
      Some(IdentifierExpr(NewIdentifier(Token(Ident, "other_var", None, 1), "other_var"))),
      1));
    ProgramDisplaySingle(s, r);
  }

  /** The return statement of interpreter/ezcript_ast/tests/test_ast.rs. */
  lemma ReturnStatementExample(r: Renderers, zero: Float64)
    ensures ProgramDisplay([ReturnStmt(ReturnStatement(
      Token(Keyword, "return", None, 1),
      Some(IntegerExpr(NewInteger(Token(TokenKind.Number, "0", Some(Literal.Number(zero)), 1), Some(Ok(0))))),
      1))], r) == "return 0"
  {
    var s := ReturnStmt(ReturnStatement(
      Token(Keyword, "return", None, 1),
      Some(IntegerExpr(NewInteger(Token(TokenKind.Number, "0", Some(Literal.Number(zero)), 1), Some(Ok(0))))),
      1));
    ProgramDisplaySingle(s, r);
    assert IntToString(0) == "0";
  }
}
