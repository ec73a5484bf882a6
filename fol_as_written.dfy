/** fol/lexer.py as written: it names the kinds of its tokens in CamelCase (`TokenType.Assign`,
    `TokenType.Plus`, ...) while fol/token.py declares its members in upper case (`ASSIGN`,
    `PLUS`, ...), so every branch but the few spelled in upper case raises `AttributeError`.
    `NextTokenAsWritten` models that; `FolLexer.NextTokenSpec` is the evidently intended lexer,
    each kind read as the member its spelling stands for. */
module FolAsWritten {
  import opened Wrappers
  import opened PyScan
  import opened FolTokens
  import opened FolLexer

  /** The attribute of `TokenType` that fol/lexer.py writes for each kind it names itself
      (`TokenType.Assign`, `TokenType.LE`, ...); `None` for the kinds that only come from
      `lookup_token_type`. */
  function Spelling(t: TokenType): Option<string> {
    match t
    case Eq => Some("Equals") case Assign => Some("Assign") case Plus => Some("Plus")
    case Minus => Some("Minus") case Multiplication => Some("Multiplication")
    case Comments => Some("Comments") case Division => Some("Division")
    case Eol => Some("EOL") case Eof => Some("EOF")
    case LParen => Some("LParen") case RParen => Some("RParen") case LBrace => Some("LBrace")
    case RBrace => Some("RBrace") case LBracket => Some("LBracket") case RBracket => Some("RBracket")
    case Comma => Some("Comma") case Le => Some("LE") case Lt => Some("LT") case Ge => Some("GE")
    case Gt => Some("GT") case NotEq => Some("NotEq") case Negation => Some("Negation")
    case Float => Some("Float") case Integer => Some("Integer") case String => Some("String")
    case Illegal => Some("Illegal")
    case _ => None
  }

  /** Evaluating `TokenType.X` for a name the enumeration does not declare. */
  datatype Missing = AttributeError

  /** Whether `TokenType.<Spelling(t)>` evaluates: the kinds named by no attribute always do,
      the others when the enumeration has a member of that name. */
  predicate Declared(t: TokenType) {
    Spelling(t).None? || MemberOfName(Spelling(t).value).Some?
  }

  /** `next_token` as written: a branch that names its kind by an attribute fol/token.py does
      not declare raises `AttributeError` (the `//` branch already at `TokenType.Comments`).
      `NextTokenSpec` is the evidently intended behaviour, each kind read as the member its
      spelling stands for. */
  function NextTokenAsWritten(st: LexState): Result<Next, Missing>
    requires Valid(st)
  {
    var next := NextTokenSpec(st);
    if Declared(next.token.tokenType) then Ok(next) else Err(AttributeError)
  }

  /** The six attributes fol/lexer.py spells in upper case. */
  predicate UpperCase(t: TokenType) {
    t.Lt? || t.Gt? || t.Le? || t.Ge? || t.Eol? || t.Eof?
  }

  /** Of the attributes fol/lexer.py writes, those of at most four letters: only `EOL`, `EOF`,
      `LT`, `GT`, `LE` and `GE` are members of fol/token.py's enumeration, each the one intended. */
  lemma ShortSpellings(t: TokenType)
    requires Spelling(t).Some? && |Spelling(t).value| <= 4
    ensures MemberOfName(Spelling(t).value) == (if UpperCase(t) then Some(t) else None)
  {
  }

  /** No attribute of five or six letters that fol/lexer.py writes is a member. */
  lemma MiddleSpellings(t: TokenType)
    requires Spelling(t).Some? && 4 < |Spelling(t).value| <= 6
    ensures MemberOfName(Spelling(t).value) == None && !UpperCase(t)
  {
  }

  /** No attribute of more than six letters that fol/lexer.py writes is a member. */
  lemma LongSpellings(t: TokenType)
    requires Spelling(t).Some? && 6 < |Spelling(t).value|
    ensures MemberOfName(Spelling(t).value) == None && !UpperCase(t)
  {
  }

  /** A kind's attribute evaluates exactly when it is named by no attribute or spelled in
      upper case. */
  lemma DeclaredKinds(t: TokenType)
    ensures Declared(t) <==> Spelling(t).None? || UpperCase(t)
  {
    if Spelling(t).Some? {
      SpelledDeclared(t);
    }
  }

  /** `DeclaredKinds` for a kind that is named by an attribute. */
  lemma SpelledDeclared(t: TokenType)
    requires Spelling(t).Some?
    ensures MemberOfName(Spelling(t).value).Some? <==> UpperCase(t)
  {
    var n := |Spelling(t).value|;
    if n <= 4 {
      ShortSpellings(t);
    } else if n <= 6 {
      MiddleSpellings(t);
    } else {
      LongSpellings(t);
    }
  }

  /** The kinds `lookup_token_type` gives are never named by an attribute. */
  lemma LookupUnspelled(word: string)
    ensures Spelling(LookupTokenType(word)).None?
  {
    LookupKinds(word);
    if LookupTokenType(word) != Identifier {
      var t := LookupTokenType(word);
      assert KeywordOf(t).Some?;
    }
  }

  /** The token `Lex` reads is named by no attribute or spelled in upper case exactly when it
      is the end, a word, or starts with `<` or `>`. */
  lemma LexSpelling(text: string)
    ensures var k := Lex(text).kind;
      (Spelling(k).None? || UpperCase(k)) <==>
      (text == [] || IsLetter(text[0]) || text[0] == '<' || text[0] == '>')
  {
    if text != [] {
      if OneChar(text[0]).Some? {
        OperatorSpelling(text);
      } else {
        OtherSpelling(text);
      }
    }
  }

  /** A word's kind is named by no attribute; a number, a string or an illegal character is
      named by a CamelCase one. */
  lemma OtherSpelling(text: string)
    requires text != [] && OneChar(text[0]).None?
    ensures var k := Lex(text).kind;
      !UpperCase(k) && (Spelling(k).None? <==> IsLetter(text[0]))
  {
    if IsLetter(text[0]) {
      LexCases(text);
      LookupUnspelled(LexWord(text).literal);
      UnspelledNotUpper(Lex(text).kind);
    } else {
      NotWordKind(text);
      NotWordSpelling(Lex(text).kind);
    }
  }

  /** A kind named by no attribute is not one of the upper-case ones. */
  lemma UnspelledNotUpper(k: TokenType)
    requires Spelling(k).None?
    ensures !UpperCase(k)
  {
  }

  /** Past the operators and the words, `Lex` gives a number, a string or an illegal
      character. */
  lemma NotWordKind(text: string)
    requires text != [] && OneChar(text[0]).None? && !IsLetter(text[0])
    ensures Lex(text).kind in {Integer, Float, String, Illegal}
  {
  }

  /** Numbers, strings and illegal characters are named by CamelCase attributes. */
  lemma NotWordSpelling(k: TokenType)
    requires k in {Integer, Float, String, Illegal}
    ensures !UpperCase(k) && Spelling(k).Some?
  {
  }


  /** Every operator is named by an attribute, spelled in upper case exactly for `<` and `>`. */
  lemma OperatorSpelling(text: string)
    requires text != [] && OneChar(text[0]).Some?
    ensures var k := Lex(text).kind;
      Spelling(k).Some? && (UpperCase(k) <==> text[0] == '<' || text[0] == '>')
  {
    assert Lex(text) == LexOperator(text);
  }

  /** As written, `next_token` raises on every token except the end of the input, `<`, `<=`,
      `>`, `>=` and words; where it does not raise it returns what `NextTokenSpec` says. */
  lemma AsWrittenRaises(st: LexState)
    requires Valid(st)
    ensures var text := Rest(st)[Run(Rest(st), Whitespace)..];
      NextTokenAsWritten(st).Ok? <==> (text == [] || IsLetter(text[0]) || text[0] == '<' || text[0] == '>')
    ensures NextTokenAsWritten(st).Ok? ==> NextTokenAsWritten(st).value == NextTokenSpec(st)
  {
    var text := Rest(st);
    var k := Run(text, Whitespace);
    NextTokenMatchesScan(st);
    ScanKind(text);
    var kind := NextTokenSpec(st).token.tokenType;
    assert kind == Lex(text[k..]).kind;
    DeclaredKinds(kind);
    LexSpelling(text[k..]);
  }

  /** `=` on its own, which `NextTokenSpec` reads as `ASSIGN`, raises as written. */
  lemma AssignAsWritten()
    ensures NextTokenAsWritten(Initial("=")) == Err(AttributeError)
  {
    var st := Initial("=");
    assert Run(Rest(st), Whitespace) == 0 by {
      assert Rest(st) == "=" && !IsSpace('=');
    }
    AsWrittenRaises(st);
  }
}
