/** The token model of the Python lexer (ezcript_lang/tokens/tokens.py): the `TokenType`
    enumeration, the `Token` named tuple with its `str` form, and the keyword lookup. */
module PyTokens {
  import opened Wrappers

  /** `TokenType`; `str(TokenType.X)` is `"TokenType.X"`, see `TypeName`. */
  datatype TokenType =
    | Endmarker | Keyword | Identifier | Number | String | Boolean | Null
    | Newline | Indent | Dedent
    | LParen | RParen | LBracket | RBracket | LBrace | RBrace | Colon | Comma
    | Plus | Minus | Star | Slash | Less | Greater | Negation | Equal | Dot | Percent
    | EqEqual | NotEqual | LessEqual | GreaterEqual
    | DoubleStar | DoublePlus | DoubleMinus
    | PlusEqual | MinEqual | StarEqual | SlashEqual | PercentEqual | DoubleStarEqual
    | DoubleSlash | DoubleSlashEqual | RArrow | Ellipsis
    | Illegal | Comment | ErrorToken | Eof

  /** The member name as the enumeration declares it. */
  function MemberName(t: TokenType): string {
    match t
    case Endmarker => "ENDMARKER" case Keyword => "KEYWORD" case Identifier => "IDENTIFIER"
    case Number => "NUMBER" case String => "STRING" case Boolean => "BOOLEAN" case Null => "NULL"
    case Newline => "NEWLINE" case Indent => "INDENT" case Dedent => "DEDENT"
    case LParen => "LPAREN" case RParen => "RPAREN" case LBracket => "LBRACKET" case RBracket => "RBRACKET"
    case LBrace => "LBRACE" case RBrace => "RBRACE" case Colon => "COLON" case Comma => "COMMA"
    case Plus => "PLUS" case Minus => "MINUS" case Star => "STAR" case Slash => "SLASH"
    case Less => "LESS" case Greater => "GREATER" case Negation => "NEGATION" case Equal => "EQUAL"
    case Dot => "DOT" case Percent => "PERCENT"
    case EqEqual => "EQEQUAL" case NotEqual => "NOTEQUAL" case LessEqual => "LESSEQUAL"
    case GreaterEqual => "GREATEREQUAL"
    case DoubleStar => "DOUBLESTAR" case DoublePlus => "DOUBLEPLUS" case DoubleMinus => "DOUBLEMINUS"
    case PlusEqual => "PLUSEQUAL" case MinEqual => "MINEQUAL" case StarEqual => "STAREQUAL"
    case SlashEqual => "SLASHEQUAL" case PercentEqual => "PERCENTEQUAL" case DoubleStarEqual => "DOUBLESTAREQUAL"
    case DoubleSlash => "DOUBLESLASH" case DoubleSlashEqual => "DOUBLESLASHEQUAL"
    case RArrow => "RARROW" case Ellipsis => "ELLIPSIS"
    case Illegal => "ILLEGAL" case Comment => "COMMENT" case ErrorToken => "ERRORTOKEN" case Eof => "EOF"
  }

  /** The member a name denotes, if any: the inverse of `MemberName`. */
  function MemberOfName(name: string): Option<TokenType> {
    if |name| < 7 then
      match name
      case "NUMBER" => Some(Number) case "STRING" => Some(String) case "INDENT" => Some(Indent)
      case "DEDENT" => Some(Dedent) case "LPAREN" => Some(LParen) case "RPAREN" => Some(RParen)
      case "LBRACE" => Some(LBrace) case "RBRACE" => Some(RBrace) case "NULL" => Some(Null)
      case "COLON" => Some(Colon) case "COMMA" => Some(Comma) case "PLUS" => Some(Plus)
      case "MINUS" => Some(Minus) case "STAR" => Some(Star) case "SLASH" => Some(Slash)
      case "LESS" => Some(Less) case "EQUAL" => Some(Equal) case "DOT" => Some(Dot)
      case "RARROW" => Some(RArrow) case "EOF" => Some(Eof)
      case _ => None
    else if |name| < 10 then
      match name
      case "ENDMARKER" => Some(Endmarker) case "KEYWORD" => Some(Keyword) case "BOOLEAN" => Some(Boolean)
      case "NEWLINE" => Some(Newline) case "LBRACKET" => Some(LBracket) case "RBRACKET" => Some(RBracket)
      case "GREATER" => Some(Greater) case "NEGATION" => Some(Negation) case "PERCENT" => Some(Percent)
      case "EQEQUAL" => Some(EqEqual) case "NOTEQUAL" => Some(NotEqual) case "LESSEQUAL" => Some(LessEqual)
      case "MINEQUAL" => Some(MinEqual) case "PLUSEQUAL" => Some(PlusEqual) case "STAREQUAL" => Some(StarEqual) case "ELLIPSIS" => Some(Ellipsis)
      case "ILLEGAL" => Some(Illegal) case "COMMENT" => Some(Comment)
      case _ => None
    else
      match name
      case "IDENTIFIER" => Some(Identifier) case "GREATEREQUAL" => Some(GreaterEqual)
      case "DOUBLESTAR" => Some(DoubleStar) case "DOUBLEPLUS" => Some(DoublePlus)
      case "DOUBLEMINUS" => Some(DoubleMinus)
      case "SLASHEQUAL" => Some(SlashEqual) case "PERCENTEQUAL" => Some(PercentEqual)
      case "DOUBLESTAREQUAL" => Some(DoubleStarEqual) case "DOUBLESLASH" => Some(DoubleSlash)
      case "DOUBLESLASHEQUAL" => Some(DoubleSlashEqual) case "ERRORTOKEN" => Some(ErrorToken)
      case _ => None
  }

  /** `str(token_type)`: the class name, a dot, and the member name. */
  function TypeName(t: TokenType): string {
    "TokenType." + MemberName(t)
  }

  /** `Token`: a named tuple, so two tokens are equal exactly when both fields are. */
  datatype Token = Token(tokenType: TokenType, literal: string)

  /** `Token.__str__`. */
  function Show(token: Token): string {
    "Type " + TypeName(token.tokenType) + " [Literal " + token.literal + "]"
  }

  /** The keyword table of `lookup_token_type`. */
  const KEYWORDS: map<string, TokenType> := map[
    "set" := Keyword, "const" := Keyword, "true" := Boolean, "false" := Boolean,
    "if" := Keyword, "then" := Keyword, "elseif" := Keyword, "else" := Keyword,
    "and" := Keyword, "or" := Keyword, "not" := Keyword, "is" := Keyword,
    "while" := Keyword, "do" := Keyword, "break" := Keyword, "for" := Keyword,
    "each" := Keyword, "in" := Keyword, "makeFunc" := Keyword, "return" := Keyword,
    "class" := Keyword, "inherit" := Keyword, "interface" := Keyword, "null" := Null,
    "end" := Keyword
  ]

  /** The table's words that are plain keywords, listed independently of the table. */
  const PLAIN_KEYWORDS: set<string> := {
    "set", "const", "if", "then", "elseif", "else", "and", "or", "not", "is", "while", "do",
    "break", "for", "each", "in", "makeFunc", "return", "class", "inherit", "interface", "end"
  }

  /** `lookup_token_type`: the table's kind, `IDENTIFIER` for any other word. */
  function LookupTokenType(literal: string): TokenType {
    if literal in KEYWORDS then KEYWORDS[literal] else Identifier
  }

  // ---------------------------------------------------------------------------------------
  // Properties

  /** Each member name reads back as its member, so distinct members have distinct names; no
      name is empty or contains a space, so in `str(token)` the name ends at the first space
      after the class name. */
  lemma MemberNameRoundTrip(t: TokenType)
    ensures MemberOfName(MemberName(t)) == Some(t)
    ensures |MemberName(t)| > 0 && ' ' !in MemberName(t)
  {
    if IsSingleOperator(t) {
      SingleOperatorRoundTrip(t);
    } else if IsAugmentedAssignment(t) {
      AugmentedAssignmentRoundTrip(t);
    } else if IsCompoundOperator(t) {
      CompoundRoundTrip(t);
    } else {
      OtherRoundTrip(t);
    }
  }

  lemma SingleOperatorRoundTrip(t: TokenType)
    requires IsSingleOperator(t)
    ensures MemberOfName(MemberName(t)) == Some(t)
    ensures |MemberName(t)| > 0 && ' ' !in MemberName(t)
  {
    match t
    case LParen => {}
    case RParen => {}
    case LBracket => {}
    case RBracket => {}
    case LBrace => {}
    case RBrace => {}
    case Colon => {}
    case Comma => {}
    case Plus => {}
    case Minus => {}
    case Star => {}
    case Slash => {}
    case Less => {}
    case Greater => {}
    case Negation => {}
    case Equal => {}
    case Dot => {}
    case Percent => {}
    case _ => {}
  }

  lemma AugmentedAssignmentRoundTrip(t: TokenType)
    requires IsAugmentedAssignment(t)
    ensures MemberOfName(MemberName(t)) == Some(t)
    ensures |MemberName(t)| > 0 && ' ' !in MemberName(t)
  {
    match t
    case PlusEqual => {}
    case MinEqual => {}
    case StarEqual => {}
    case SlashEqual => {}
    case PercentEqual => {}
    case DoubleStarEqual => {}
    case DoubleSlashEqual => {}
    case _ => {}
  }

  lemma CompoundRoundTrip(t: TokenType)
    requires IsCompoundOperator(t)
    ensures MemberOfName(MemberName(t)) == Some(t)
    ensures |MemberName(t)| > 0 && ' ' !in MemberName(t)
  {
    match t
    case EqEqual => {}
    case NotEqual => {}
    case LessEqual => {}
    case GreaterEqual => {}
    case DoubleStar => {}
    case DoublePlus => {}
    case DoubleMinus => {}
    case DoubleSlash => {}
    case RArrow => {}
    case Ellipsis => {}
    case _ => {}
  }

  lemma OtherRoundTrip(t: TokenType)
    requires !IsSingleOperator(t) && !IsAugmentedAssignment(t) && !IsCompoundOperator(t)
    ensures MemberOfName(MemberName(t)) == Some(t)
    ensures |MemberName(t)| > 0 && ' ' !in MemberName(t)
  {
    match t
    case Endmarker => {}
    case Keyword => {}
    case Identifier => {}
    case Number => {}
    case String => {}
    case Boolean => {}
    case Null => {}
    case Newline => {}
    case Indent => {}
    case Dedent => {}
    case Illegal => {}
    case Comment => {}
    case ErrorToken => {}
    case Eof => {}
    case _ => {}
  }

  /** The one-character operator kinds. */
  predicate IsSingleOperator(t: TokenType) {
    t in {LParen, RParen, LBracket, RBracket, LBrace, RBrace, Colon, Comma, Plus, Minus, Star, Slash,
          Less, Greater, Negation, Equal, Dot, Percent}
  }

  /** The augmented assignments `+=`, `-=`, `*=`, `/=`, `%=`, `**=`, `//=`. */
  predicate IsAugmentedAssignment(t: TokenType) {
    t in {PlusEqual, MinEqual, StarEqual, SlashEqual, PercentEqual, DoubleStarEqual, DoubleSlashEqual}
  }

  /** The other two- and three-character operator kinds. */
  predicate IsCompoundOperator(t: TokenType) {
    t in {EqEqual, NotEqual, LessEqual, GreaterEqual, DoubleStar, DoublePlus, DoubleMinus, DoubleSlash,
          RArrow, Ellipsis}
  }

  /** The table holds 25 words: the 22 plain keywords and `true`, `false`, `null`. */
  lemma KeywordWords()
    ensures KEYWORDS.Keys == PLAIN_KEYWORDS + {"true", "false", "null"}
  {
  }

  /** Every plain keyword is in the table as `KEYWORD` (in four groups of words). */
  lemma PlainKeywordsAreKeywords(word: string)
    requires word in PLAIN_KEYWORDS
    ensures word in KEYWORDS && KEYWORDS[word] == Keyword
  {
    if word in {"set", "const", "if", "then", "elseif", "else"} {
      PlainEntries1(word);
    } else if word in {"and", "or", "not", "is", "while", "do"} {
      PlainEntries2(word);
    } else if word in {"break", "for", "each", "in", "makeFunc"} {
      PlainEntries3(word);
    } else if word in {"return", "class", "inherit", "interface", "end"} {
      PlainEntries4(word);
    }
  }

  lemma PlainEntries1(word: string)
    requires word in {"set", "const", "if", "then", "elseif", "else"}
    ensures word in KEYWORDS && KEYWORDS[word] == Keyword
  {
  }

  lemma PlainEntries2(word: string)
    requires word in {"and", "or", "not", "is", "while", "do"}
    ensures word in KEYWORDS && KEYWORDS[word] == Keyword
  {
  }

  lemma PlainEntries3(word: string)
    requires word in {"break", "for", "each", "in", "makeFunc"}
    ensures word in KEYWORDS && KEYWORDS[word] == Keyword
  {
  }

  lemma PlainEntries4(word: string)
    requires word in {"return", "class", "inherit", "interface", "end"}
    ensures word in KEYWORDS && KEYWORDS[word] == Keyword
  {
  }

  /** The table's entries for the literal words, which are not plain keywords. */
  lemma LiteralEntries()
    ensures "true" in KEYWORDS && KEYWORDS["true"] == Boolean
    ensures "false" in KEYWORDS && KEYWORDS["false"] == Boolean
    ensures "null" in KEYWORDS && KEYWORDS["null"] == Null
    ensures "true" !in PLAIN_KEYWORDS && "false" !in PLAIN_KEYWORDS && "null" !in PLAIN_KEYWORDS
  {
  }

  /** What the table gives each word that is not a plain keyword. */
  lemma OtherWordKind(word: string)
    requires word !in PLAIN_KEYWORDS
    ensures word == "true" || word == "false" ==> LookupTokenType(word) == Boolean
    ensures word == "null" ==> LookupTokenType(word) == Null
    ensures word != "true" && word != "false" && word != "null" ==> LookupTokenType(word) == Identifier
  {
    if word in KEYWORDS {
      KeywordWords();
      assert word in {"true", "false", "null"};
      LiteralEntries();
    }
  }

  /** What the table gives each word. */
  lemma TableKind(word: string)
    ensures word in PLAIN_KEYWORDS ==> LookupTokenType(word) == Keyword
    ensures word == "true" || word == "false" ==> LookupTokenType(word) == Boolean
    ensures word == "null" ==> LookupTokenType(word) == Null
    ensures word !in PLAIN_KEYWORDS && word != "true" && word != "false" && word != "null" ==>
      LookupTokenType(word) == Identifier
  {
    LiteralEntries();
    if word in PLAIN_KEYWORDS {
      PlainKeywordsAreKeywords(word);
    } else {
      OtherWordKind(word);
    }
  }

  /** The plain keywords are exactly the words that look up as `KEYWORD`. */
  lemma LookupKeywords(word: string)
    ensures LookupTokenType(word) == Keyword <==> word in PLAIN_KEYWORDS
  {
    TableKind(word);
  }

  /** `true` and `false` look up as `BOOLEAN` and `null` as `NULL`, and no other word does. */
  lemma LookupLiteralWords(word: string)
    ensures LookupTokenType(word) == Boolean <==> word == "true" || word == "false"
    ensures LookupTokenType(word) == Null <==> word == "null"
  {
    TableKind(word);
  }

  /** Every word outside the table is an identifier, and no table word is. */
  lemma LookupIdentifiers(word: string)
    ensures LookupTokenType(word) == Identifier <==> word !in PLAIN_KEYWORDS + {"true", "false", "null"}
  {
    TableKind(word);
  }

  predicate HasUpper(word: string) {
    exists i :: 0 <= i < |word| && 'A' <= word[i] <= 'Z'
  }

  /** The lookup is an exact, case-sensitive match: apart from `makeFunc` every table word is
      lower case, so a word with another upper-case letter (`Set`, `TRUE`) is an identifier. */
  lemma LookupIsCaseSensitive(word: string)
    requires HasUpper(word) && word != "makeFunc"
    ensures LookupTokenType(word) == Identifier
  {
  }

  /** The closing words `endif`, `endfor` and `endwhile` are not in this table: they look up as
      identifiers. */
  lemma ClosingWordsAreIdentifiers()
    ensures LookupTokenType("endif") == Identifier
    ensures LookupTokenType("endfor") == Identifier
    ensures LookupTokenType("endwhile") == Identifier
  {
    OtherWordKind("endif");
    OtherWordKind("endfor");
    OtherWordKind("endwhile");
  }

  /** Two texts laid out as `str(token)` lays out a name and a literal, with names free of
      spaces, are equal only if their names and literals are. */
  lemma ShownPartsEqual(m: string, l: string, n: string, k: string)
    requires |m| > 0 && ' ' !in m && |n| > 0 && ' ' !in n
    requires "Type TokenType." + m + " [Literal " + l + "]" == "Type TokenType." + n + " [Literal " + k + "]"
    ensures m == n && l == k
  {
    var s := "Type TokenType." + m + " [Literal " + l + "]";
    var t := "Type TokenType." + n + " [Literal " + k + "]";
    assert s[15 + |m|] == ' ' && t[15 + |n|] == ' ';
    assert m == s[15..15 + |m|] && n == t[15..15 + |n|];
    assert l == s[25 + |m|..|s| - 1] && k == t[25 + |n|..|t| - 1];
  }

  /** `str(token)` begins with `Type TokenType.` and the member name, and ends with the literal
      and a `]`. */
  lemma ShowLayout(token: Token)
    ensures var s := Show(token); var n := MemberName(token.tokenType);
      s[..15] == "Type TokenType." && s[15..15 + |n|] == n && s[|s| - |token.literal| - 1..] == token.literal + "]"
  {
  }

  /** Two tokens print alike only if they are the same token. */
  lemma ShowIsInjective(a: Token, b: Token)
    requires Show(a) == Show(b)
    ensures a == b
  {
    var m := ShowParts(a);
    var n := ShowParts(b);
    ShownPartsEqual(m, a.literal, n, b.literal);
    MemberNameInjective(a.tokenType, b.tokenType);
  }

  lemma ShowParts(token: Token) returns (name: string)
    ensures name == MemberName(token.tokenType) && |name| > 0 && ' ' !in name
    ensures Show(token) == "Type TokenType." + name + " [Literal " + token.literal + "]"
  {
    name := MemberName(token.tokenType);
    MemberNameRoundTrip(token.tokenType);
  }

  lemma MemberNameInjective(x: TokenType, y: TokenType)
    requires MemberName(x) == MemberName(y)
    ensures x == y
  {
    MemberNameRoundTrip(x);
    MemberNameRoundTrip(y);
  }
}
