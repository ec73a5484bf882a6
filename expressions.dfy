/** Expression nodes of the syntax tree (interpreter/ezcript_ast/src/expressions.rs). */
module Expressions {
  import opened Wrappers
  import opened Tokens
  import opened Text

  /** `Identifier`: the token it was read from and its name. */
  datatype Identifier = Identifier(token: Token, value: string)

  /** `Integer`: the token and the value, `None` when there is none. The value is an `i64`. */
  datatype Integer = Integer(token: Token, value: Option<int>)

  /** `std::num::ParseIntError`, kept opaque. */
  datatype ParseIntError = ParseIntError(reason: string)

  /** The nodes the statements render but that this file does not define (`Float`, `Boolean`);
      their text is supplied from outside. */
  datatype OpaqueKind = FloatNode | BooleanNode

  /** `Expressions`, with the two opaque kinds of node the statements match on. */
  datatype Expression =
    | IdentifierExpr(identifier: Identifier)
    | IntegerExpr(integer: Integer)
    | Opaque(kind: OpaqueKind, token: Token)

  predicate IsI64(i: int) {
    -0x8000_0000_0000_0000 <= i < 0x8000_0000_0000_0000
  }

  /** `Identifier::new`: keeps the token and a copy of the name. */
  function NewIdentifier(token: Token, value: string): (id: Identifier)
    ensures id.token == token && id.value == value
  {
    Identifier(token, value)
  }

  /** `Integer::new`: no value stays no value, `Some(Ok(n))` becomes `Some(n)`; `Some(Err(_))`
      panics on the `unwrap`, so callers must not pass it. */
  function NewInteger(token: Token, value: Option<Result<int, ParseIntError>>): (n: Integer)
    requires value.Some? ==> value.value.Ok? && IsI64(value.value.value)
    ensures n.token == token
    ensures n.value.None? <==> value.None?
    ensures value.Some? ==> n.value == Some(value.value.value) && IsI64(n.value.value)
  {
    if value.Some? then Integer(token, Some(value.value.value)) else Integer(token, None)
  }

  /** `token_literal` of either node: the lexeme of its token. */
  function IdentifierLiteral(id: Identifier): string {
    id.token.lexeme
  }

  function IntegerLiteral(n: Integer): string {
    n.token.lexeme
  }

  /** `Display for Identifier`: the name. */
  function IdentifierDisplay(id: Identifier): string {
    id.value
  }

  /** `Display for Integer`: the value in decimal, or `null` when there is none. */
  function IntegerDisplay(n: Integer): (s: string)
    ensures s == "null" <==> n.value.None?
  {
    if n.value.Some? then IntToString(n.value.value) else "null"
  }

  /** The text of a node, with `opaqueText` standing for the `Display` of the opaque kinds. */
  function ExpressionDisplay(e: Expression, opaqueText: (OpaqueKind, Token) -> string): string {
    match e
    case IdentifierExpr(id) => IdentifierDisplay(id)
    case IntegerExpr(n) => IntegerDisplay(n)
    case Opaque(kind, token) => opaqueText(kind, token)
  }

  /** A new identifier renders as the name it was given and reports its token's lexeme. */
  lemma IdentifierRoundTrip(token: Token, value: string)
    ensures IdentifierDisplay(NewIdentifier(token, value)) == value
    ensures IdentifierLiteral(NewIdentifier(token, value)) == token.lexeme
  {
  }

  /** The rendering of an integer with a value reads back as that value. */
  lemma IntegerReadsBack(token: Token, i: int)
    requires IsI64(i)
    ensures var s := IntegerDisplay(NewInteger(token, Some(Ok(i))));
      s != "null" && |s| >= 1 && (if s[0] == '-' then AllDigits(s[1..]) else AllDigits(s)) &&
      ParseInt(s) == i
  {
    IntRoundTrip(i);
  }

  /** An integer without a value renders as `null`, and reports its token's lexeme. */
  lemma IntegerWithoutValue(token: Token)
    ensures IntegerDisplay(NewInteger(token, None)) == "null"
    ensures IntegerLiteral(NewInteger(token, None)) == token.lexeme
  {
  }
}
