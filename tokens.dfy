/** Stand-in for `std::cmp::Ordering`, the result of `partial_cmp`. */
module Cmp {
  datatype Ordering = Less | Equal | Greater
}

/** The token model of the Rust lexer (interpreter/ezcript_lexer/src/tokens.rs). */
module Tokens {
  import opened Wrappers
  import Cmp

  /** `TokenKind`, plus `NewLine`, which the parser names although the enum lacks it. */
  datatype TokenKind =
    | Keyword | Ident | Number | String | Float | Boolean | Null | Not
    | Plus | Minus | Star | Slash | Indent | Dedent
    | LParen | RParen | LBracket | RBracket | LBrace | RBrace
    | Colon | Comma | Equal | Less | Greater | Dot | Percent | Hashtag
    | EqEqual | BangEqual | LessEqual | GreaterEqual
    | DoublePlus | DoubleMinus | DoubleStar | DoubleSlash
    | PlusEqual | MinEqual | StarEqual | SlashEqual | PercentEqual
    | RArrow | Illegal | Eof
    | NewLine

  /** The `{:?}` (Debug) text of a kind: its variant name. */
  function KindName(k: TokenKind): string {
    match k
    case Keyword => "Keyword" case Ident => "Ident" case Number => "Number" case String => "String"
    case Float => "Float" case Boolean => "Boolean" case Null => "Null" case Not => "Not"
    case Plus => "Plus" case Minus => "Minus" case Star => "Star" case Slash => "Slash"
    case Indent => "Indent" case Dedent => "Dedent"
    case LParen => "LParen" case RParen => "RParen" case LBracket => "LBracket"
    case RBracket => "RBracket" case LBrace => "LBrace" case RBrace => "RBrace"
    case Colon => "Colon" case Comma => "Comma" case Equal => "Equal" case Less => "Less"
    case Greater => "Greater" case Dot => "Dot" case Percent => "Percent" case Hashtag => "Hashtag"
    case EqEqual => "EqEqual" case BangEqual => "BangEqual" case LessEqual => "LessEqual"
    case GreaterEqual => "GreaterEqual" case DoublePlus => "DoublePlus" case DoubleMinus => "DoubleMinus"
    case DoubleStar => "DoubleStar" case DoubleSlash => "DoubleSlash" case PlusEqual => "PlusEqual"
    case MinEqual => "MinEqual" case StarEqual => "StarEqual" case SlashEqual => "SlashEqual"
    case PercentEqual => "PercentEqual" case RArrow => "RArrow" case Illegal => "Illegal"
    case Eof => "Eof" case NewLine => "NewLine"
  }

  /** An `f64`, kept opaque: its arithmetic, comparison and printing are not modelled, and
      the functions below that need them take them as parameters. */
  datatype Float64 = Float64(bits: bv64)

  /** `Literal`: the typed payload of a token. */
  datatype Literal = Null | Boolean(b: bool) | Number(n: Float64) | String(s: string)

  /** `Token`: lines are `u64` in the source and `nat` here. */
  datatype Token = Token(kind: TokenKind, lexeme: string, literal: Option<Literal>, line: nat)

  /** `Token::default()`: the sentinel used when there is no token. */
  const DefaultToken := Token(Eof, "", None, 1)

  /** The reserved-word table `RESERVED`. */
  const RESERVED: map<string, TokenKind> := map[
    "set" := Keyword, "const" := Keyword, "use" := Keyword, "from" := Keyword,
    "true" := TokenKind.Boolean, "false" := TokenKind.Boolean,
    "if" := Keyword, "else" := Keyword, "elseif" := Keyword, "and" := Keyword, "or" := Keyword,
    "not" := Not, "is" := Keyword, "in" := Keyword, "do" := Keyword, "while" := Keyword,
    "break" := Keyword, "for" := Keyword, "each" := Keyword, "func" := Keyword,
    "return" := Keyword, "match" := Keyword, "class" := Keyword, "inherit" := Keyword,
    "null" := TokenKind.Null
  ]

  /** The words of the table that are plain keywords, listed independently of the table. */
  const KEYWORDS: set<string> := {
    "set", "const", "use", "from", "if", "else", "elseif", "and", "or", "is", "in", "do",
    "while", "break", "for", "each", "func", "return", "match", "class", "inherit"
  }

  /** `TokenKind::reserved`: exact, case-sensitive lookup in the table. */
  function Reserved(word: string): Option<TokenKind> {
    if word in RESERVED then Some(RESERVED[word]) else None
  }

  /** `Token::in_types`: whether the token's kind is one of `kinds`, scanning them in order and
      stopping at the first match. */
  method InTypes(token: Token, kinds: seq<TokenKind>) returns (found: bool)
    ensures found <==> token.kind in kinds
  {
    var i := 0;
    while i < |kinds|
      invariant 0 <= i <= |kinds|
      invariant token.kind !in kinds[..i]
    {
      if token.kind == kinds[i] {
        return true;
      }
      i := i + 1;
    }
    assert kinds[..i] == kinds;
    return false;
  }

  /** `PartialEq for Literal`; `floatEq` stands for `f64`'s own `==`. */
  function LiteralEq(a: Literal, b: Literal, floatEq: (Float64, Float64) -> bool): bool {
    match a
    case Null => b.Null?
    case Boolean(x) => b.Boolean? && x == b.b
    case Number(x) => b.Number? && floatEq(x, b.n)
    case String(x) => b.String? && x == b.s
  }

  /** Lexicographic order of strings, character by character (`String::partial_cmp`). */
  function StringCmp(a: string, b: string): Cmp.Ordering {
    if a == [] && b == [] then Cmp.Equal
    else if a == [] then Cmp.Less
    else if b == [] then Cmp.Greater
    else if a[0] < b[0] then Cmp.Less
    else if a[0] > b[0] then Cmp.Greater
    else StringCmp(a[1..], b[1..])
  }

  /** `bool::partial_cmp`: `false < true`. */
  function BoolCmp(a: bool, b: bool): Cmp.Ordering {
    if a == b then Cmp.Equal else if !a then Cmp.Less else Cmp.Greater
  }

  /** `PartialOrd for Literal`; `floatCmp` stands for `f64::partial_cmp`. */
  function LiteralPartialCmp(a: Literal, b: Literal, floatCmp: (Float64, Float64) -> Option<Cmp.Ordering>)
    : Option<Cmp.Ordering>
  {
    match (a, b)
    case (Null, Null) => Some(Cmp.Equal)
    case (String(l), String(r)) => Some(StringCmp(l, r))
    case (Number(l), Number(r)) => floatCmp(l, r)
    case (Boolean(l), Boolean(r)) => Some(BoolCmp(l, r))
    case _ => None
  }

  /** `Display for Literal`; `floatText` stands for `f64`'s `{}` formatting. */
  function LiteralDisplay(l: Literal, floatText: Float64 -> string): string {
    match l
    case Null => "null"
    case Boolean(b) => if b then "true" else "false"
    case Number(n) => floatText(n)
    case String(s) => s
  }

  // ---------------------------------------------------------------------------------------
  // Properties

  /** The table's words are exactly the plain keywords and `true`, `false`, `null`, `not`. */
  lemma ReservedWords()
    ensures RESERVED.Keys == KEYWORDS + {"true", "false", "null", "not"}
  {
  }

  /** The plain keywords are exactly the words that look up as `Keyword`. */
  lemma ReservedKeywords(word: string)
    ensures Reserved(word) == Some(Keyword) <==> word in KEYWORDS
  {
    if word in KEYWORDS {
      KeywordsAreKeywords(word);
    } else if word in RESERVED {
      ReservedWords();
      assert word in {"true", "false", "null", "not"};
    }
  }

  /** `true`/`false` are `Boolean`, `null` is `Null` and `not` is `Not`, and no other word is. */
  lemma ReservedSpecialWords(word: string)
    ensures Reserved(word) == Some(TokenKind.Boolean) <==> word == "true" || word == "false"
    ensures Reserved(word) == Some(TokenKind.Null) <==> word == "null"
    ensures Reserved(word) == Some(Not) <==> word == "not"
  {
    if word in KEYWORDS {
      KeywordsAreKeywords(word);
    } else if word in RESERVED {
      ReservedWords();
    }
  }

  /** Every word outside the table is an ordinary name. */
  lemma ReservedOthers(word: string)
    ensures Reserved(word) == None <==> word !in KEYWORDS + {"true", "false", "null", "not"}
  {
    ReservedWords();
  }

  lemma KeywordsAreKeywords(word: string)
    requires word in KEYWORDS
    ensures word in RESERVED && RESERVED[word] == Keyword
  {
    if word == "set" || word == "const" || word == "use" || word == "from" || word == "if" || word == "else" {
    } else if word == "elseif" || word == "and" || word == "or" || word == "is" || word == "in" {
    } else if word == "do" || word == "while" || word == "break" || word == "for" || word == "each" {
    } else {
      assert word == "func" || word == "return" || word == "match" || word == "class" || word == "inherit";
    }
  }

  predicate HasUpper(word: string) {
    exists i :: 0 <= i < |word| && 'A' <= word[i] <= 'Z'
  }

  /** Lookup is case-sensitive: every table word is lower case, so a word with an upper-case
      letter (`Set`, `TRUE`) is never reserved. */
  lemma ReservedIsCaseSensitive(word: string)
    requires HasUpper(word)
    ensures Reserved(word) == None
  {
  }

  /** The test of tokens.rs: looking up each key of the table gives the kind stored with it. */
  lemma ReservedAgreesWithTable()
    ensures forall key :: key in RESERVED ==> Reserved(key) == Some(RESERVED[key])
  {
  }

  /** Literals of different variants are never equal, and apart from numbers (whose equality
      is `f64`'s) two literals are equal exactly when they are the same value. */
  lemma LiteralEqIsStructural(a: Literal, b: Literal, floatEq: (Float64, Float64) -> bool)
    ensures LiteralEq(a, b, floatEq) ==>
      (a.Null? && b.Null?) || (a.Boolean? && b.Boolean?) || (a.Number? && b.Number?) || (a.String? && b.String?)
    ensures !a.Number? ==> (LiteralEq(a, b, floatEq) <==> a == b)
  {
  }

  lemma {:induction false} StringCmpIsTotalOrder(a: string, b: string)
    ensures StringCmp(a, b) == Cmp.Equal <==> a == b
    ensures StringCmp(a, b) == Cmp.Less <==> StringCmp(b, a) == Cmp.Greater
  {
    if a != [] && b != [] && a[0] == b[0] {
      StringCmpIsTotalOrder(a[1..], b[1..]);
      if a[1..] == b[1..] {
        assert a == [a[0]] + a[1..] && b == [b[0]] + b[1..];
      }
    }
  }

  /** `partial_cmp` is `None` across variants and `Equal` for `Null`/`Null`; strings and
      booleans compare as a total order in which `Equal` means equal values. */
  lemma LiteralPartialCmpProperties(a: Literal, b: Literal, floatCmp: (Float64, Float64) -> Option<Cmp.Ordering>)
    ensures (a.Null? && b.Null?) ==> LiteralPartialCmp(a, b, floatCmp) == Some(Cmp.Equal)
    ensures ((a.Null? != b.Null?) || (a.Boolean? != b.Boolean?) || (a.String? != b.String?) ||
             (a.Number? != b.Number?)) ==> LiteralPartialCmp(a, b, floatCmp) == None
    ensures !a.Number? && !b.Number? ==>
      (LiteralPartialCmp(a, b, floatCmp) == Some(Cmp.Equal) <==> a == b)
    ensures !a.Number? && !b.Number? ==>
      (LiteralPartialCmp(a, b, floatCmp) == Some(Cmp.Less) <==>
       LiteralPartialCmp(b, a, floatCmp) == Some(Cmp.Greater))
  {
    if a.String? && b.String? {
      StringCmpIsTotalOrder(a.s, b.s);
    }
  }

  /** `Display`: a string literal prints as its own text, and the words printed for `null`,
      `true` and `false` are exactly the reserved words that lex back to those literals' kinds. */
  lemma LiteralDisplayReadsBack(l: Literal, floatText: Float64 -> string)
    ensures l.String? ==> LiteralDisplay(l, floatText) == l.s
    ensures l.Null? ==> Reserved(LiteralDisplay(l, floatText)) == Some(TokenKind.Null)
    ensures l.Boolean? ==> Reserved(LiteralDisplay(l, floatText)) == Some(TokenKind.Boolean)
    ensures l.Boolean? ==> LiteralDisplay(l, floatText) == (if l.b then "true" else "false")
  {
  }
}
