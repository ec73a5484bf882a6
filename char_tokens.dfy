/** The operator tables of utils/decorators/tokens.py: three decorators that classify one, two
    or three characters by an `if`/`elif` chain and hand the kind, with the characters, to the
    decorated function.  The kinds are named as the decorators name them (`TokenType.GRATER`,
    `TokenType.OP`, ...); `ToLang` says which member of the ezcript_lang enumeration each one
    is, so that the tables can be compared with the Python lexer's own tables.  The module
    the decorators import, `ezcript.tokens`, is read as ezcript/lexer/lexer.py reads the same
    import: as the enumeration of ezcript_lang/tokens/tokens.py, which also holds the `Token`
    both files import. */
module CharTokens {
  import opened Wrappers
  import PyTokens
  import PyLexer

  /** The `TokenType` members the three decorators name. */
  datatype Kind =
    | Percent | LParen | RParen | Star | Plus | Comma | Minus | Dot | Slash | Colon
    | Less | Equal | Grater | LBracket | RBracket | LBrace | RBrace | Negation
    | NotEqual | PercentEqual | DoubleStar | StarEqual | PlusEqual | DoublePlus
    | MinEqual | DoubleMinus | DoubleSlash | SlashEqual | LessEqual | EqEqual | RArrow
    | GreaterEqual
    | DoubleStarEqual | Ellipsis | DoubleSlashEqual
    | Op

  // ---------------------------------------------------------------------------------------
  // The tables

  /** The characters `one_char_token` tests. */
  const ONE_CHARS: set<string> :=
    {"%", "(", ")", "*", "+", ",", "-", ".", "/", ":", "<", "=", ">", "[", "]", "{", "}", "!"}

  /** `one_char_token`: the kind of the single character `c1`, `Op` for anything else. */
  function OneCharKind(c1: string): Kind {
    if c1 == "%" then Percent
    else if c1 == "(" then LParen
    else if c1 == ")" then RParen
    else if c1 == "*" then Star
    else if c1 == "+" then Plus
    else if c1 == "," then Comma
    else if c1 == "-" then Minus
    else if c1 == "." then Dot
    else if c1 == "/" then Slash
    else if c1 == ":" then Colon
    else if c1 == "<" then Less
    else if c1 == "=" then Equal
    else if c1 == ">" then Grater
    else if c1 == "[" then LBracket
    else if c1 == "]" then RBracket
    else if c1 == "{" then LBrace
    else if c1 == "}" then RBrace
    else if c1 == "!" then Negation
    else Op
  }

  /** The first characters `two_char_token` tests; after one of them an unlisted second
      character makes the wrapper fall off its end and return `None`. */
  const TWO_STARTS: set<string> := {"!", "%", "*", "+", "-", "/", "<", "=", ">"}

  /** `two_char_token`: `None` is the wrapper's implicit `return None`. */
  function TwoCharKind(c1: string, c2: string): Option<Kind> {
    if c1 == "!" then (if c2 == "=" then Some(NotEqual) else None)
    else if c1 == "%" then (if c2 == "=" then Some(PercentEqual) else None)
    else if c1 == "*" then
      (if c2 == "*" then Some(DoubleStar) else if c2 == "=" then Some(StarEqual) else None)
    else if c1 == "+" then
      (if c2 == "=" then Some(PlusEqual) else if c2 == "+" then Some(DoublePlus) else None)
    else if c1 == "-" then
      (if c2 == "=" then Some(MinEqual) else if c2 == "-" then Some(DoubleMinus) else None)
    else if c1 == "/" then
      (if c2 == "/" then Some(DoubleSlash) else if c2 == "=" then Some(SlashEqual) else None)
    else if c1 == "<" then (if c2 == "=" then Some(LessEqual) else None)
    else if c1 == "=" then
      (if c2 == "=" then Some(EqEqual) else if c2 == ">" then Some(RArrow) else None)
    else if c1 == ">" then (if c2 == "=" then Some(GreaterEqual) else None)
    else Some(Op)
  }

  /** The first characters `three_char_token` tests. */
  const THREE_STARTS: set<string> := {"*", ".", "/"}

  /** `three_char_token`: `None` is the wrapper's implicit `return None`. */
  function ThreeCharKind(c1: string, c2: string, c3: string): Option<Kind> {
    if c1 == "*" then (if c2 == "*" && c3 == "=" then Some(DoubleStarEqual) else None)
    else if c1 == "." then (if c2 == "." && c3 == "." then Some(Ellipsis) else None)
    else if c1 == "/" then (if c2 == "/" && c3 == "=" then Some(DoubleSlashEqual) else None)
    else Some(Op)
  }

  // ---------------------------------------------------------------------------------------
  // The decorators

  /** `one_char_token(func, c1)`: a wrapper that ignores the arguments it is called with and
      returns `func` applied to the kind of `c1` and `c1`. */
  function OneCharToken<A(!new), T>(func: (Kind, string) -> T, c1: string): (wrapper: A -> T)
    ensures forall a: A, b: A :: wrapper(a) == wrapper(b)
    ensures forall a: A :: OneCharKind(c1) == Op ==> wrapper(a) == func(Op, c1)
  {
    (args: A) => func(OneCharKind(c1), c1)
  }

  /** `two_char_token(func, c1, c2)`: the wrapper returns `None` exactly when the table falls
      through, whatever it is called with. */
  function TwoCharToken<A(!new), T>(func: (Kind, string, string) -> T, c1: string, c2: string)
    : (wrapper: A -> Option<T>)
    ensures forall a: A, b: A :: wrapper(a) == wrapper(b)
    ensures forall a: A :: wrapper(a).None? <==> c1 in TWO_STARTS && TwoCharKind(c1, c2).None?
  {
    (args: A) => match TwoCharKind(c1, c2)
                 case Some(k) => Some(func(k, c1, c2))
                 case None => None
  }

  /** `three_char_token(func, c1, c2, c3)`, likewise. */
  function ThreeCharToken<A(!new), T>(func: (Kind, string, string, string) -> T,
                                c1: string, c2: string, c3: string)
    : (wrapper: A -> Option<T>)
    ensures forall a: A, b: A :: wrapper(a) == wrapper(b)
    ensures forall a: A :: wrapper(a).None? <==> c1 in THREE_STARTS && ThreeCharKind(c1, c2, c3).None?
  {
    (args: A) => match ThreeCharKind(c1, c2, c3)
                 case Some(k) => Some(func(k, c1, c2, c3))
                 case None => None
  }

  // ---------------------------------------------------------------------------------------
  // The kinds as members of the two enumerations

  /** The member of ezcript_lang/tokens/tokens.py's `TokenType` a kind names; that
      enumeration spells `GREATER` where the decorators write `GRATER`, and has no `OP`. */
  function ToLang(k: Kind): Option<PyTokens.TokenType> {
    match k
    case Percent => Some(PyTokens.Percent) case LParen => Some(PyTokens.LParen)
    case RParen => Some(PyTokens.RParen) case Star => Some(PyTokens.Star)
    case Plus => Some(PyTokens.Plus) case Comma => Some(PyTokens.Comma)
    case Minus => Some(PyTokens.Minus) case Dot => Some(PyTokens.Dot)
    case Slash => Some(PyTokens.Slash) case Colon => Some(PyTokens.Colon)
    case Less => Some(PyTokens.Less) case Equal => Some(PyTokens.Equal)
    case Grater => Some(PyTokens.Greater) case LBracket => Some(PyTokens.LBracket)
    case RBracket => Some(PyTokens.RBracket) case LBrace => Some(PyTokens.LBrace)
    case RBrace => Some(PyTokens.RBrace) case Negation => Some(PyTokens.Negation)
    case NotEqual => Some(PyTokens.NotEqual) case PercentEqual => Some(PyTokens.PercentEqual)
    case DoubleStar => Some(PyTokens.DoubleStar) case StarEqual => Some(PyTokens.StarEqual)
    case PlusEqual => Some(PyTokens.PlusEqual) case DoublePlus => Some(PyTokens.DoublePlus)
    case MinEqual => Some(PyTokens.MinEqual) case DoubleMinus => Some(PyTokens.DoubleMinus)
    case DoubleSlash => Some(PyTokens.DoubleSlash) case SlashEqual => Some(PyTokens.SlashEqual)
    case LessEqual => Some(PyTokens.LessEqual) case EqEqual => Some(PyTokens.EqEqual)
    case RArrow => Some(PyTokens.RArrow) case GreaterEqual => Some(PyTokens.GreaterEqual)
    case DoubleStarEqual => Some(PyTokens.DoubleStarEqual) case Ellipsis => Some(PyTokens.Ellipsis)
    case DoubleSlashEqual => Some(PyTokens.DoubleSlashEqual)
    case Op => None
  }

  /** Whether the imported enumeration declares the member the decorators name: it spells
      `GREATER` where they write `GRATER`, and it has no `OP`. */
  predicate Declared(k: Kind) {
    !(k.Grater? || k.Op?)
  }

  /** Evaluating `TokenType.X` for a member the enumeration lacks raises `AttributeError`. */
  datatype Missing = AttributeError

  /** `one_char_token`'s wrapper as written against the imported enumeration. */
  function OneCharAsWritten(c1: string): Result<Kind, Missing> {
    var k := OneCharKind(c1);
    if Declared(k) then Ok(k) else Err(AttributeError)
  }

  /** `two_char_token`'s wrapper as written against the imported enumeration: `Ok(None)` is
      the wrapper's implicit `return None`. */
  function TwoCharAsWritten(c1: string, c2: string): Result<Option<Kind>, Missing> {
    var k := TwoCharKind(c1, c2);
    if k.None? || Declared(k.value) then Ok(k) else Err(AttributeError)
  }

  /** `three_char_token`'s wrapper as written against the imported enumeration, likewise. */
  function ThreeCharAsWritten(c1: string, c2: string, c3: string): Result<Option<Kind>, Missing> {
    var k := ThreeCharKind(c1, c2, c3);
    if k.None? || Declared(k.value) then Ok(k) else Err(AttributeError)
  }

  // ---------------------------------------------------------------------------------------
  // Properties

  /** `ToLang` names a different member for each kind but `Op`. */
  lemma ToLangInjective(j: Kind, k: Kind)
    requires ToLang(j).Some? && ToLang(j) == ToLang(k)
    ensures j == k
  {
    ToLangInverse(j);
    ToLangInverse(k);
  }

  /** The kind a member of the language's enumeration names, `Op` for the members no table
      yields. */
  function FromLang(t: PyTokens.TokenType): Kind {
    if t.Percent? then Percent
    else if t.LParen? then LParen
    else if t.RParen? then RParen
    else if t.Star? then Star
    else if t.Plus? then Plus
    else if t.Comma? then Comma
    else if t.Minus? then Minus
    else if t.Dot? then Dot
    else if t.Slash? then Slash
    else if t.Colon? then Colon
    else if t.Less? then Less
    else if t.Equal? then Equal
    else if t.Greater? then Grater
    else if t.LBracket? then LBracket
    else if t.RBracket? then RBracket
    else if t.LBrace? then LBrace
    else if t.RBrace? then RBrace
    else if t.Negation? then Negation
    else if t.NotEqual? then NotEqual
    else if t.PercentEqual? then PercentEqual
    else if t.DoubleStar? then DoubleStar
    else if t.StarEqual? then StarEqual
    else if t.PlusEqual? then PlusEqual
    else if t.DoublePlus? then DoublePlus
    else if t.MinEqual? then MinEqual
    else if t.DoubleMinus? then DoubleMinus
    else if t.DoubleSlash? then DoubleSlash
    else if t.SlashEqual? then SlashEqual
    else if t.LessEqual? then LessEqual
    else if t.EqEqual? then EqEqual
    else if t.RArrow? then RArrow
    else if t.GreaterEqual? then GreaterEqual
    else if t.DoubleStarEqual? then DoubleStarEqual
    else if t.Ellipsis? then Ellipsis
    else if t.DoubleSlashEqual? then DoubleSlashEqual
    else Op
  }

  /** `FromLang` undoes `ToLang`. */
  lemma ToLangInverse(k: Kind)
    ensures ToLang(k).Some? ==> FromLang(ToLang(k).value) == k
  {
    match k
    case Percent | LParen | RParen | Star | Plus | Comma => InverseOn1(k);
    case Minus | Dot | Slash | Colon | Less | Equal => InverseOn2(k);
    case Grater | LBracket | RBracket | LBrace | RBrace | Negation => InverseOn3(k);
    case NotEqual | PercentEqual | DoubleStar | StarEqual => InverseOn4(k);
    case PlusEqual | DoublePlus | MinEqual | DoubleMinus => InverseOn5(k);
    case DoubleSlash | SlashEqual | LessEqual | EqEqual => InverseOn6(k);
    case RArrow | GreaterEqual | DoubleStarEqual => InverseOn7(k);
    case Ellipsis | DoubleSlashEqual => InverseOn8(k);
    case Op =>
  }

  /** `ToLangInverse` for `Percent` to `Comma`. */
  lemma InverseOn1(k: Kind)
    requires k.Percent? || k.LParen? || k.RParen? || k.Star? || k.Plus? || k.Comma?
    ensures FromLang(ToLang(k).value) == k
  {
    match k
    case Percent | LParen | RParen | Star | Plus | Comma =>
  }

  /** `ToLangInverse` for `Minus` to `Equal`. */
  lemma InverseOn2(k: Kind)
    requires k.Minus? || k.Dot? || k.Slash? || k.Colon? || k.Less? || k.Equal?
    ensures FromLang(ToLang(k).value) == k
  {
    match k
    case Minus | Dot | Slash | Colon | Less | Equal =>
  }

  /** `ToLangInverse` for `Grater` to `Negation`. */
  lemma InverseOn3(k: Kind)
    requires k.Grater? || k.LBracket? || k.RBracket? || k.LBrace? || k.RBrace? || k.Negation?
    ensures FromLang(ToLang(k).value) == k
  {
    match k
    case Grater | LBracket | RBracket | LBrace | RBrace | Negation =>
  }

  /** `ToLangInverse` for `NotEqual` to `StarEqual`. */
  lemma InverseOn4(k: Kind)
    requires k.NotEqual? || k.PercentEqual? || k.DoubleStar? || k.StarEqual?
    ensures FromLang(ToLang(k).value) == k
  {
    match k
    case NotEqual | PercentEqual | DoubleStar | StarEqual =>
  }

  /** `ToLangInverse` for `PlusEqual` to `DoubleMinus`. */
  lemma InverseOn5(k: Kind)
    requires k.PlusEqual? || k.DoublePlus? || k.MinEqual? || k.DoubleMinus?
    ensures FromLang(ToLang(k).value) == k
  {
    match k
    case PlusEqual | DoublePlus | MinEqual | DoubleMinus =>
  }

  /** `ToLangInverse` for `DoubleSlash` to `EqEqual`. */
  lemma InverseOn6(k: Kind)
    requires k.DoubleSlash? || k.SlashEqual? || k.LessEqual? || k.EqEqual?
    ensures FromLang(ToLang(k).value) == k
  {
    match k
    case DoubleSlash | SlashEqual | LessEqual | EqEqual =>
  }

  /** `ToLangInverse` for `RArrow` to `DoubleStarEqual`. */
  lemma InverseOn7(k: Kind)
    requires k.RArrow? || k.GreaterEqual? || k.DoubleStarEqual?
    ensures FromLang(ToLang(k).value) == k
  {
    match k
    case RArrow | GreaterEqual | DoubleStarEqual =>
  }

  /** `ToLangInverse` for `Ellipsis` to `DoubleSlashEqual`. */
  lemma InverseOn8(k: Kind)
    requires k.Ellipsis? || k.DoubleSlashEqual?
    ensures FromLang(ToLang(k).value) == k
  {
    match k
    case Ellipsis | DoubleSlashEqual =>
  }

  /** Anything that is not one character is `Op`. */
  lemma OneCharLonger(c1: string)
    requires |c1| != 1
    ensures OneCharKind(c1) == Op
  {
  }

  /** The one-character table and the Python lexer's one-character table classify every
      character alike. */
  lemma OneCharAgrees(c: char)
    ensures ToLang(OneCharKind([c])) == PyLexer.OneChar(c)
  {
  }

  /** The two-character table and the Python lexer's two-character table agree, except on
      `=>`, which only the decorator table knows; after a character that is not a listed
      first character, the decorator gives `Op` where the lexer has no pair. */
  lemma TwoCharAgrees(a: char, b: char)
    ensures [a] in TWO_STARTS && [a, b] != "=>" ==>
      TwoCharKind([a], [b]) != Some(Op) &&
      (TwoCharKind([a], [b]).None? <==> PyLexer.TwoChar(a, b).None?) &&
      (TwoCharKind([a], [b]).Some? ==> ToLang(TwoCharKind([a], [b]).value) == PyLexer.TwoChar(a, b))
    ensures [a, b] == "=>" ==> TwoCharKind([a], [b]) == Some(RArrow) && PyLexer.TwoChar(a, b).None?
    ensures [a] !in TWO_STARTS ==> TwoCharKind([a], [b]) == Some(Op) && PyLexer.TwoChar(a, b).None?
  {
    if [a] in TWO_STARTS && [a, b] != "=>" {
      ListedStart(a);
      TwoCharListed(a, b);
    } else if [a, b] == "=>" {
      assert a == '=' && b == '>';
    } else {
      TwoCharUnlisted(a, b);
    }
  }

  /** `TwoCharAgrees`, after a listed first character. */
  lemma TwoCharListed(a: char, b: char)
    requires a in "!%*+-/<=>" && !(a == '=' && b == '>')
    ensures TwoCharKind([a], [b]) != Some(Op)
    ensures TwoCharKind([a], [b]).None? <==> PyLexer.TwoChar(a, b).None?
    ensures TwoCharKind([a], [b]).Some? ==> ToLang(TwoCharKind([a], [b]).value) == PyLexer.TwoChar(a, b)
  {
    if a == '!' || a == '%' || a == '<' || a == '>' {
      TwoCharComparison(a, b);
    } else if a == '*' || a == '+' {
      TwoCharStarPlus(a, b);
    } else if a == '-' || a == '/' {
      TwoCharMinusSlash(a, b);
    } else {
      TwoCharEqual(a, b);
    }
  }

  /** `TwoCharListed` after `!`, `%`, `<` and `>`, which take only `=`. */
  lemma TwoCharComparison(a: char, b: char)
    requires a == '!' || a == '%' || a == '<' || a == '>'
    ensures TwoCharKind([a], [b]) != Some(Op)
    ensures TwoCharKind([a], [b]).None? <==> PyLexer.TwoChar(a, b).None?
    ensures TwoCharKind([a], [b]).Some? ==> ToLang(TwoCharKind([a], [b]).value) == PyLexer.TwoChar(a, b)
  {
  }

  /** `TwoCharListed` after `*` and `+`. */
  lemma TwoCharStarPlus(a: char, b: char)
    requires a == '*' || a == '+'
    ensures TwoCharKind([a], [b]) != Some(Op)
    ensures TwoCharKind([a], [b]).None? <==> PyLexer.TwoChar(a, b).None?
    ensures TwoCharKind([a], [b]).Some? ==> ToLang(TwoCharKind([a], [b]).value) == PyLexer.TwoChar(a, b)
  {
  }

  /** `TwoCharListed` after `-` and `/`. */
  lemma TwoCharMinusSlash(a: char, b: char)
    requires a == '-' || a == '/'
    ensures TwoCharKind([a], [b]) != Some(Op)
    ensures TwoCharKind([a], [b]).None? <==> PyLexer.TwoChar(a, b).None?
    ensures TwoCharKind([a], [b]).Some? ==> ToLang(TwoCharKind([a], [b]).value) == PyLexer.TwoChar(a, b)
  {
  }

  /** `TwoCharListed` after `=`, apart from `=>`. */
  lemma TwoCharEqual(a: char, b: char)
    requires a == '=' && b != '>'
    ensures TwoCharKind([a], [b]) != Some(Op)
    ensures TwoCharKind([a], [b]).None? <==> PyLexer.TwoChar(a, b).None?
    ensures TwoCharKind([a], [b]).Some? ==> ToLang(TwoCharKind([a], [b]).value) == PyLexer.TwoChar(a, b)
  {
  }

  /** The listed first characters, as characters. */
  lemma ListedStart(a: char)
    requires [a] in TWO_STARTS
    ensures a in "!%*+-/<=>"
  {
  }

  /** `TwoCharAgrees`, after a first character that is not listed. */
  lemma TwoCharUnlisted(a: char, b: char)
    requires [a] !in TWO_STARTS
    ensures TwoCharKind([a], [b]) == Some(Op) && PyLexer.TwoChar(a, b).None?
  {
    StartListed(a);
  }

  /** The listed first characters, as one-character strings. */
  lemma StartListed(a: char)
    ensures a in "!%*+-/<=>" ==> [a] in TWO_STARTS
  {
  }

  /** A pair after a listed first character is recognised only when both are single
      characters. */
  lemma TwoCharLonger(c1: string, c2: string)
    requires c1 in TWO_STARTS && |c2| != 1
    ensures TwoCharKind(c1, c2).None?
  {
  }

  /** The three-character table recognises exactly `**=`, `...` and `//=`. */
  lemma ThreeCharRecognises(c1: string, c2: string, c3: string)
    ensures (ThreeCharKind(c1, c2, c3).Some? && ThreeCharKind(c1, c2, c3) != Some(Op)) <==>
      (c1, c2, c3) in {("*", "*", "="), (".", ".", "."), ("/", "/", "=")}
    ensures ThreeCharKind(c1, c2, c3) == Some(Op) <==> c1 !in THREE_STARTS
  {
  }

  /** Of the three-character entries, the Python lexer yields `...` and `//=` as the table
      does, and never `**=`: on `**=` it yields `**`. */
  lemma ThreeCharAgainstLexer(text: string)
    requires |text| >= 3
    ensures text[..3] == "..." ==>
      ThreeCharKind(".", ".", ".") == Some(Ellipsis) &&
      PyLexer.Lex(text).result == Ok(PyTokens.Token(ToLang(Ellipsis).value, "..."))
    ensures text[..3] == "//=" ==>
      ThreeCharKind("/", "/", "=") == Some(DoubleSlashEqual) &&
      PyLexer.Lex(text).result == Ok(PyTokens.Token(ToLang(DoubleSlashEqual).value, "//="))
    ensures text[..3] == "**=" ==>
      ThreeCharKind("*", "*", "=") == Some(DoubleStarEqual) &&
      PyLexer.Lex(text).result == Ok(PyTokens.Token(PyTokens.DoubleStar, "**"))
  {
    if text[..3] == "**=" {
      assert text[0] == '*' && text[1] == '*' && text[2] == '=';
      assert text[..2] == "**";
    }
  }

  /** As written, the one-character wrapper raises for `>`, whose `GRATER` the enumeration
      spells `GREATER`, and for everything outside the table, whose `OP` it lacks; elsewhere it
      gives what the table gives. */
  lemma OneCharRaises(c1: string)
    ensures OneCharAsWritten(c1).Err? <==> c1 == ">" || c1 !in ONE_CHARS
    ensures OneCharAsWritten(c1).Ok? ==> OneCharAsWritten(c1).value == OneCharKind(c1)
  {
  }

  /** As written, the two-character wrapper raises exactly after a first character it does not
      list, where it names `OP`; elsewhere it gives what the table gives. */
  lemma TwoCharRaises(c1: string, c2: string)
    ensures TwoCharAsWritten(c1, c2).Err? <==> c1 !in TWO_STARTS
    ensures TwoCharAsWritten(c1, c2).Ok? ==> TwoCharAsWritten(c1, c2).value == TwoCharKind(c1, c2)
  {
  }

  /** As written, the three-character wrapper raises exactly after a first character it does not
      list; `**=` resolves to `DOUBLESTAREQUAL`. */
  lemma ThreeCharRaises(c1: string, c2: string, c3: string)
    ensures ThreeCharAsWritten(c1, c2, c3).Err? <==> c1 !in THREE_STARTS
    ensures ThreeCharAsWritten(c1, c2, c3).Ok? ==>
      ThreeCharAsWritten(c1, c2, c3).value == ThreeCharKind(c1, c2, c3)
    ensures ThreeCharAsWritten("*", "*", "=") == Ok(Some(DoubleStarEqual))
  {
  }

  /** With `OP` declared, as ezcript/tokens/tokens.py declares it, each wrapper hands `Op` to
      the decorated function exactly on its `else` branch. */
  lemma FallThroughIsOp(c1: string, c2: string, c3: string)
    ensures OneCharKind(c1) == Op <==> c1 !in ONE_CHARS
    ensures TwoCharKind(c1, c2) == Some(Op) <==> c1 !in TWO_STARTS
    ensures ThreeCharKind(c1, c2, c3) == Some(Op) <==> c1 !in THREE_STARTS
  {
  }

  /** Every kind the one-character table produces but `Op` is a member of ezcript_lang's
      enumeration, which spells `GRATER` as `GREATER`. */
  lemma OneCharResolves(c1: string)
    ensures OneCharKind(c1) != Op ==> ToLang(OneCharKind(c1)).Some?
  {
  }

  /** Every kind the two-character table produces but `Op` is a member of ezcript_lang's
      enumeration. */
  lemma TwoCharResolves(c1: string, c2: string)
    ensures TwoCharKind(c1, c2).Some? && TwoCharKind(c1, c2) != Some(Op) ==>
      ToLang(TwoCharKind(c1, c2).value).Some?
  {
  }

  /** Every kind the three-character table produces but `Op` is a member of ezcript_lang's
      enumeration, `DOUBLESTAREQUAL` included. */
  lemma ThreeCharResolves(c1: string, c2: string, c3: string)
    ensures ThreeCharKind(c1, c2, c3).Some? && ThreeCharKind(c1, c2, c3) != Some(Op) ==>
      ToLang(ThreeCharKind(c1, c2, c3).value).Some?
  {
  }
}
