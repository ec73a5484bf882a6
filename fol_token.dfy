/** The token model of the first Python draft (fol/token.py): the `TokenType` enumeration, the
    `Token` named tuple with its default line and its `str` form, and the keyword lookup. */
module FolTokens {
  import opened Wrappers
  import Text

  /** `TokenType`, one constructor per member, in declaration order. */
  datatype TokenType =
    | String | Integer | Float | Boolean | False | True | Array | Object | Tuple | Null | Set
    | Identifier
    | If | EndIf | ElseIf | Else | And | Or | While | EndWhile | Do | For | Each | EndFor
    | Function | Return | EndFunc | Class | EndClass | Then | Interface | EndInterface
    | Minus | Negation | LParen | RParen | LBrace | RBrace | LBracket | RBracket
    | Plus | Multiplication | Division | Assign | Lt | Gt | Le | Ge | Eq | NotEq
    | Dot | Comma | TPoints | LArrow | Illegal | Comments | Eol | Eof

  /** The member name as the enumeration declares it. */
  function MemberName(t: TokenType): string {
    match t
    case String => "STRING" case Integer => "INTEGER" case Float => "FLOAT" case Boolean => "BOOLEAN"
    case False => "FALSE" case True => "TRUE" case Array => "ARRAY" case Object => "OBJECT"
    case Tuple => "TUPLE" case Null => "NULL" case Set => "SET" case Identifier => "IDENTIFIER"
    case If => "IF" case EndIf => "ENDIF" case ElseIf => "ELSEIF" case Else => "ELSE"
    case And => "AND" case Or => "OR" case While => "WHILE" case EndWhile => "ENDWHILE"
    case Do => "DO" case For => "FOR" case Each => "EACH" case EndFor => "ENDFOR"
    case Function => "FUNCTION" case Return => "RETURN" case EndFunc => "ENDFUNC"
    case Class => "CLASS" case EndClass => "ENDCLASS" case Then => "THEN"
    case Interface => "INTERFACE" case EndInterface => "ENDINTERFACE"
    case Minus => "MINUS" case Negation => "NEGATION" case LParen => "LPAREN" case RParen => "RPAREN"
    case LBrace => "LBRACE" case RBrace => "RBRACE" case LBracket => "LBRACKET" case RBracket => "RBRACKET"
    case Plus => "PLUS" case Multiplication => "MULTIPLICATION" case Division => "DIVISION"
    case Assign => "ASSIGN" case Lt => "LT" case Gt => "GT" case Le => "LE" case Ge => "GE"
    case Eq => "EQ" case NotEq => "NOT_EQ" case Dot => "DOT" case Comma => "COMMA"
    case TPoints => "TPOINTS" case LArrow => "LARROW" case Illegal => "ILLEGAL"
    case Comments => "COMMENTS" case Eol => "EOL" case Eof => "EOF"
  }

  /** The member a name denotes, if any: the enumeration's lookup by name (by the name's
      length first, then among the names of that length). */
  function MemberOfName(name: string): Option<TokenType> {
    if |name| == 2 then
      match name
      case "IF" => Some(If) case "OR" => Some(Or) case "DO" => Some(Do) case "LT" => Some(Lt)
      case "GT" => Some(Gt) case "LE" => Some(Le) case "GE" => Some(Ge) case "EQ" => Some(Eq)
      case _ => None
    else if |name| == 3 then
      match name
      case "SET" => Some(Set) case "AND" => Some(And) case "FOR" => Some(For)
      case "DOT" => Some(Dot) case "EOL" => Some(Eol) case "EOF" => Some(Eof)
      case _ => None
    else if |name| == 4 then
      match name
      case "TRUE" => Some(True) case "NULL" => Some(Null) case "ELSE" => Some(Else)
      case "EACH" => Some(Each) case "THEN" => Some(Then) case "PLUS" => Some(Plus)
      case _ => None
    else if |name| == 5 then
      match name
      case "FLOAT" => Some(Float) case "FALSE" => Some(False) case "ARRAY" => Some(Array)
      case "TUPLE" => Some(Tuple) case "ENDIF" => Some(EndIf) case "WHILE" => Some(While)
      case "CLASS" => Some(Class) case "MINUS" => Some(Minus) case "COMMA" => Some(Comma)
      case _ => None
    else if |name| == 6 then
      match name
      case "STRING" => Some(String) case "OBJECT" => Some(Object) case "ELSEIF" => Some(ElseIf)
      case "ENDFOR" => Some(EndFor) case "RETURN" => Some(Return) case "LPAREN" => Some(LParen)
      case "RPAREN" => Some(RParen) case "LBRACE" => Some(LBrace) case "RBRACE" => Some(RBrace)
      case "ASSIGN" => Some(Assign) case "NOT_EQ" => Some(NotEq) case "LARROW" => Some(LArrow)
      case _ => None
    else if |name| == 7 then
      match name
      case "INTEGER" => Some(Integer) case "BOOLEAN" => Some(Boolean)
      case "ENDFUNC" => Some(EndFunc) case "TPOINTS" => Some(TPoints)
      case "ILLEGAL" => Some(Illegal)
      case _ => None
    else if |name| == 8 then
      match name
      case "ENDWHILE" => Some(EndWhile) case "FUNCTION" => Some(Function)
      case "ENDCLASS" => Some(EndClass) case "NEGATION" => Some(Negation)
      case "LBRACKET" => Some(LBracket) case "RBRACKET" => Some(RBracket)
      case "DIVISION" => Some(Division) case "COMMENTS" => Some(Comments)
      case _ => None
    else
      match name
      case "IDENTIFIER" => Some(Identifier) case "INTERFACE" => Some(Interface)
      case "ENDINTERFACE" => Some(EndInterface) case "MULTIPLICATION" => Some(Multiplication)
      case _ => None
  }

  /** `str(token_type)`: the class name, a dot, and the member name. */
  function TypeName(t: TokenType): string {
    "TokenType." + MemberName(t)
  }

  /** `Token`: a named tuple whose `line` defaults to 1. */
  datatype Token = Token(tokenType: TokenType, literal: string, line: int := 1)

  /** `Token.__str__`. */
  function Show(token: Token): string {
    "Type " + TypeName(token.tokenType) + ", Literal " + token.literal + ", Line " + Text.IntToString(token.line)
  }

  /** The keyword table of `lookup_token_type`. */
  const KEYWORDS: map<string, TokenType> := map[
    "set" := Set, "false" := False, "true" := True, "null" := Null,
    "if" := If, "elseif" := ElseIf, "else" := Else, "endif" := EndIf,
    "and" := And, "or" := Or, "while" := While, "do" := Do,
    "endwhile" := EndWhile, "for" := For, "each" := Each, "endfor" := EndFor,
    "makeFunc" := Function, "then" := Then, "return" := Return, "endfunc" := EndFunc,
    "class" := Class, "endclass" := EndClass, "interface" := Interface, "endinterface" := EndInterface
  ]

  /** `lookup_token_type`: the table's kind, `IDENTIFIER` for any other word. */
  function LookupTokenType(literal: string): TokenType {
    if literal in KEYWORDS then KEYWORDS[literal] else Identifier
  }

  /** The word the table gives a kind, if any, written out kind by kind. */
  function KeywordOf(t: TokenType): Option<string> {
    match t
    case Set => Some("set") case False => Some("false") case True => Some("true") case Null => Some("null")
    case If => Some("if") case ElseIf => Some("elseif") case Else => Some("else") case EndIf => Some("endif")
    case And => Some("and") case Or => Some("or") case While => Some("while") case Do => Some("do")
    case EndWhile => Some("endwhile") case For => Some("for") case Each => Some("each")
    case EndFor => Some("endfor") case Function => Some("makeFunc") case Then => Some("then")
    case Return => Some("return") case EndFunc => Some("endfunc") case Class => Some("class")
    case EndClass => Some("endclass") case Interface => Some("interface")
    case EndInterface => Some("endinterface")
    case _ => None
  }

  // ---------------------------------------------------------------------------------------
  // Properties

  /** Each member name reads back as its member, so distinct members have distinct names. */
  lemma MemberNameRoundTrip(t: TokenType)
    ensures MemberOfName(MemberName(t)) == Some(t)
  {
    match t
    case If | Or | Do | Lt => NamesOf2a(t);
    case Gt | Le | Ge | Eq => NamesOf2b(t);
    case Set | And | For | Dot | Eol | Eof => NamesOf3(t);
    case True | Null | Else | Each | Then | Plus => NamesOf4(t);
    case Float | False | Array | Tuple | EndIf | While | Class | Minus | Comma => NamesOf5(t);
    case String | Object | ElseIf | EndFor => NamesOf6a(t);
    case Return | LParen | RParen | LBrace => NamesOf6b(t);
    case RBrace | Assign | NotEq | LArrow => NamesOf6c(t);
    case Integer | Boolean | EndFunc | TPoints | Illegal => NamesOf7(t);
    case EndWhile | Function | EndClass | Negation => NamesOf8a(t);
    case LBracket | RBracket | Division | Comments => NamesOf8b(t);
    case Identifier | Interface | EndInterface | Multiplication => LongNames(t);
  }

  /** No member name is empty or holds a comma. */
  lemma NamesAreWords(t: TokenType)
    ensures |MemberName(t)| > 0 && ',' !in MemberName(t)
  {
    match t
    case If | Or | Do | Lt => NamesOf2a(t);
    case Gt | Le | Ge | Eq => NamesOf2b(t);
    case Set | And | For | Dot | Eol | Eof => NamesOf3(t);
    case True | Null | Else | Each | Then | Plus => NamesOf4(t);
    case Float | False | Array | Tuple | EndIf | While | Class | Minus | Comma => NamesOf5(t);
    case String | Object | ElseIf | EndFor => NamesOf6a(t);
    case Return | LParen | RParen | LBrace => NamesOf6b(t);
    case RBrace | Assign | NotEq | LArrow => NamesOf6c(t);
    case Integer | Boolean | EndFunc | TPoints | Illegal => NamesOf7(t);
    case EndWhile | Function | EndClass | Negation => NamesOf8a(t);
    case LBracket | RBracket | Division | Comments => NamesOf8b(t);
    case Identifier | Interface | EndInterface | Multiplication => LongNames(t);
  }

  /** The members whose names have two letters, first half. */
  lemma NamesOf2a(t: TokenType)
    requires t.If? || t.Or? || t.Do? || t.Lt?
    ensures MemberOfName(MemberName(t)) == Some(t)
    ensures |MemberName(t)| > 0 && ',' !in MemberName(t)
  {
    match t
    case If | Or | Do | Lt =>
  }

  /** The members whose names have two letters, second half. */
  lemma NamesOf2b(t: TokenType)
    requires t.Gt? || t.Le? || t.Ge? || t.Eq?
    ensures MemberOfName(MemberName(t)) == Some(t)
    ensures |MemberName(t)| > 0 && ',' !in MemberName(t)
  {
    match t
    case Gt | Le | Ge | Eq =>
  }

  /** The members whose names have three letters. */
  lemma NamesOf3(t: TokenType)
    requires t.Set? || t.And? || t.For? || t.Dot? || t.Eol? || t.Eof?
    ensures MemberOfName(MemberName(t)) == Some(t)
    ensures |MemberName(t)| > 0 && ',' !in MemberName(t)
  {
    match t
    case Set | And | For | Dot | Eol | Eof =>
  }

  /** The members whose names have four letters. */
  lemma NamesOf4(t: TokenType)
    requires t.True? || t.Null? || t.Else? || t.Each? || t.Then? || t.Plus?
    ensures MemberOfName(MemberName(t)) == Some(t)
    ensures |MemberName(t)| > 0 && ',' !in MemberName(t)
  {
    match t
    case True | Null | Else | Each | Then | Plus =>
  }

  /** The members whose names have five letters. */
  lemma NamesOf5(t: TokenType)
    requires t.Float? || t.False? || t.Array? || t.Tuple? || t.EndIf? || t.While? || t.Class? || t.Minus? || t.Comma?
    ensures MemberOfName(MemberName(t)) == Some(t)
    ensures |MemberName(t)| > 0 && ',' !in MemberName(t)
  {
    match t
    case Float | False | Array | Tuple | EndIf | While | Class | Minus | Comma =>
  }

  /** The members whose names have six letters, first third. */
  lemma NamesOf6a(t: TokenType)
    requires t.String? || t.Object? || t.ElseIf? || t.EndFor?
    ensures MemberOfName(MemberName(t)) == Some(t)
    ensures |MemberName(t)| > 0 && ',' !in MemberName(t)
  {
    match t
    case String | Object | ElseIf | EndFor =>
  }

  /** The members whose names have six letters, second third. */
  lemma NamesOf6b(t: TokenType)
    requires t.Return? || t.LParen? || t.RParen? || t.LBrace?
    ensures MemberOfName(MemberName(t)) == Some(t)
    ensures |MemberName(t)| > 0 && ',' !in MemberName(t)
  {
    match t
    case Return | LParen | RParen | LBrace =>
  }

  /** The members whose names have six letters, last third. */
  lemma NamesOf6c(t: TokenType)
    requires t.RBrace? || t.Assign? || t.NotEq? || t.LArrow?
    ensures MemberOfName(MemberName(t)) == Some(t)
    ensures |MemberName(t)| > 0 && ',' !in MemberName(t)
  {
    match t
    case RBrace | Assign | NotEq | LArrow =>
  }

  /** The members whose names have seven letters. */
  lemma NamesOf7(t: TokenType)
    requires t.Integer? || t.Boolean? || t.EndFunc? || t.TPoints? || t.Illegal?
    ensures MemberOfName(MemberName(t)) == Some(t)
    ensures |MemberName(t)| > 0 && ',' !in MemberName(t)
  {
    match t
    case Integer | Boolean | EndFunc | TPoints | Illegal =>
  }

  /** The members whose names have eight letters, first half. */
  lemma NamesOf8a(t: TokenType)
    requires t.EndWhile? || t.Function? || t.EndClass? || t.Negation?
    ensures MemberOfName(MemberName(t)) == Some(t)
    ensures |MemberName(t)| > 0 && ',' !in MemberName(t)
  {
    match t
    case EndWhile | Function | EndClass | Negation =>
  }

  /** The members whose names have eight letters, second half. */
  lemma NamesOf8b(t: TokenType)
    requires t.LBracket? || t.RBracket? || t.Division? || t.Comments?
    ensures MemberOfName(MemberName(t)) == Some(t)
    ensures |MemberName(t)| > 0 && ',' !in MemberName(t)
  {
    match t
    case LBracket | RBracket | Division | Comments =>
  }

  /** The members whose names have nine or more letters. */
  lemma LongNames(t: TokenType)
    requires t.Identifier? || t.Interface? || t.EndInterface? || t.Multiplication?
    ensures MemberOfName(MemberName(t)) == Some(t)
    ensures |MemberName(t)| > 0 && ',' !in MemberName(t)
  {
    match t
    case Identifier | Interface | EndInterface | Multiplication =>
  }

  lemma MemberNameInjective(x: TokenType, y: TokenType)
    requires MemberName(x) == MemberName(y)
    ensures x == y
  {
    MemberNameRoundTrip(x);
    MemberNameRoundTrip(y);
  }

  /** Every table word is the word `KeywordOf` gives its kind (in four groups of words). */
  lemma KeywordRoundTrip(word: string)
    requires word in KEYWORDS
    ensures KeywordOf(KEYWORDS[word]) == Some(word)
  {
    if word in {"set", "false", "true", "null", "if", "elseif"} {
      KeywordEntries1(word);
    } else if word in {"else", "endif", "and", "or", "while", "do"} {
      KeywordEntries2(word);
    } else if word in {"endwhile", "for", "each", "endfor", "makeFunc", "then"} {
      KeywordEntries3(word);
    } else {
      assert word in {"return", "endfunc", "class", "endclass", "interface", "endinterface"};
      KeywordEntries4(word);
    }
  }

  /** The table's entries for `set`, `false`, `true`, `null`, `if` and `elseif`. */
  lemma TableEntries1()
    ensures "set" in KEYWORDS && KEYWORDS["set"] == Set
    ensures "false" in KEYWORDS && KEYWORDS["false"] == False
    ensures "true" in KEYWORDS && KEYWORDS["true"] == True
    ensures "null" in KEYWORDS && KEYWORDS["null"] == Null
    ensures "if" in KEYWORDS && KEYWORDS["if"] == If
    ensures "elseif" in KEYWORDS && KEYWORDS["elseif"] == ElseIf
  {
  }

  lemma KeywordEntries1(word: string)
    requires word == "set" || word == "false" || word == "true" ||
      word == "null" || word == "if" || word == "elseif"
    ensures word in KEYWORDS && KeywordOf(KEYWORDS[word]) == Some(word)
  {
    TableEntries1();
  }



  /** The table's entries for `else`, `endif`, `and`, `or`, `while` and `do`. */
  lemma TableEntries2()
    ensures "else" in KEYWORDS && KEYWORDS["else"] == Else
    ensures "endif" in KEYWORDS && KEYWORDS["endif"] == EndIf
    ensures "and" in KEYWORDS && KEYWORDS["and"] == And
    ensures "or" in KEYWORDS && KEYWORDS["or"] == Or
    ensures "while" in KEYWORDS && KEYWORDS["while"] == While
    ensures "do" in KEYWORDS && KEYWORDS["do"] == Do
  {
  }

  lemma KeywordEntries2(word: string)
    requires word == "else" || word == "endif" || word == "and" ||
      word == "or" || word == "while" || word == "do"
    ensures word in KEYWORDS && KeywordOf(KEYWORDS[word]) == Some(word)
  {
    TableEntries2();
  }



  /** The table's entries for `endwhile`, `for`, `each`, `endfor`, `makeFunc` and `then`. */
  lemma TableEntries3()
    ensures "endwhile" in KEYWORDS && KEYWORDS["endwhile"] == EndWhile
    ensures "for" in KEYWORDS && KEYWORDS["for"] == For
    ensures "each" in KEYWORDS && KEYWORDS["each"] == Each
    ensures "endfor" in KEYWORDS && KEYWORDS["endfor"] == EndFor
    ensures "makeFunc" in KEYWORDS && KEYWORDS["makeFunc"] == Function
    ensures "then" in KEYWORDS && KEYWORDS["then"] == Then
  {
  }

  lemma KeywordEntries3(word: string)
    requires word == "endwhile" || word == "for" || word == "each" ||
      word == "endfor" || word == "makeFunc" || word == "then"
    ensures word in KEYWORDS && KeywordOf(KEYWORDS[word]) == Some(word)
  {
    TableEntries3();
  }



  /** The table's entries for `return`, `endfunc`, `class`, `endclass`, `interface` and `endinterface`. */
  lemma TableEntries4()
    ensures "return" in KEYWORDS && KEYWORDS["return"] == Return
    ensures "endfunc" in KEYWORDS && KEYWORDS["endfunc"] == EndFunc
    ensures "class" in KEYWORDS && KEYWORDS["class"] == Class
    ensures "endclass" in KEYWORDS && KEYWORDS["endclass"] == EndClass
    ensures "interface" in KEYWORDS && KEYWORDS["interface"] == Interface
    ensures "endinterface" in KEYWORDS && KEYWORDS["endinterface"] == EndInterface
  {
  }

  lemma KeywordEntries4(word: string)
    requires word == "return" || word == "endfunc" || word == "class" ||
      word == "endclass" || word == "interface" || word == "endinterface"
    ensures word in KEYWORDS && KeywordOf(KEYWORDS[word]) == Some(word)
  {
    TableEntries4();
  }



  /** Distinct table words look up as distinct kinds. */
  lemma LookupIsInjective(a: string, b: string)
    requires a in KEYWORDS && b in KEYWORDS && LookupTokenType(a) == LookupTokenType(b)
    ensures a == b
  {
    KeywordRoundTrip(a);
    KeywordRoundTrip(b);
  }

  /** A word is an identifier exactly when it is not in the table; a table word looks up as
      the kind whose word it is. */
  lemma LookupKinds(word: string)
    ensures LookupTokenType(word) == Identifier <==> word !in KEYWORDS
    ensures word in KEYWORDS ==> KeywordOf(LookupTokenType(word)) == Some(word)
  {
    if word in KEYWORDS {
      KeywordRoundTrip(word);
    }
  }

  /** In `str(token)`'s layout the name ends at the first comma after the class name, and the
      line follows the last space. */
  lemma Layout(s: string, m: string, l: string, d: string)
    requires ',' !in m && ' ' !in d && s == "Type TokenType." + m + ", Literal " + l + ", Line " + d
    ensures s[15 + |m|] == ',' && s[15..15 + |m|] == m
    ensures forall i :: 15 <= i < 15 + |m| ==> s[i] != ','
    ensures s[|s| - |d| - 1] == ' ' && s[|s| - |d|..] == d
    ensures forall i :: |s| - |d| <= i < |s| ==> s[i] != ' '
  {
    assert forall i :: 15 <= i < 15 + |m| ==> s[i] == m[i - 15];
    assert forall i :: |s| - |d| <= i < |s| ==> s[i] == d[i - (|s| - |d|)];
  }

  /** Equal texts with equal surroundings have equal middles. */
  lemma MiddleEqual(a: string, l: string, k: string, c: string, d: string)
    requires a + l + c + d == a + k + c + d
    ensures l == k
  {
    var s := a + l + c + d;
    assert l == s[|a|..|a| + |l|];
  }

  /** Two texts laid out as `str(token)` lays out a name, a literal and a line, with names
      free of commas and lines of spaces, are equal only if all three parts are. */
  lemma ShownPartsEqual(m: string, l: string, d: string, n: string, k: string, e: string)
    requires ',' !in m && ',' !in n && ' ' !in d && ' ' !in e
    requires "Type TokenType." + m + ", Literal " + l + ", Line " + d == "Type TokenType." + n + ", Literal " + k + ", Line " + e
    ensures m == n && l == k && d == e
  {
    var s := "Type TokenType." + m + ", Literal " + l + ", Line " + d;
    Layout(s, m, l, d);
    Layout(s, n, k, e);
    assert |m| == |n| && |d| == |e|;
    MiddleEqual("Type TokenType." + m + ", Literal ", l, k, ", Line ", d);
  }

  /** A rendered line holds no space. */
  lemma LineHasNoSpace(line: int)
    ensures ' ' !in Text.IntToString(line)
  {
    var digits := Text.NatToString(if line < 0 then -line else line);
    assert forall i :: 0 <= i < |digits| ==> digits[i] != ' ';
    if line < 0 {
      assert Text.IntToString(line) == "-" + digits;
    }
  }

  /** `str(token)` in its three parts, the member name free of commas and the line of
      spaces. */
  lemma ShowParts(token: Token) returns (name: string, digits: string)
    ensures name == MemberName(token.tokenType) && ',' !in name
    ensures digits == Text.IntToString(token.line) && ' ' !in digits
    ensures Show(token) == "Type TokenType." + name + ", Literal " + token.literal + ", Line " + digits
  {
    name := MemberName(token.tokenType);
    digits := Text.IntToString(token.line);
    NamesAreWords(token.tokenType);
    LineHasNoSpace(token.line);
  }

  /** Two tokens print alike only if they are the same token: type, literal and line. */
  lemma ShowIsInjective(a: Token, b: Token)
    requires Show(a) == Show(b)
    ensures a == b
  {
    var m, d := ShowParts(a);
    var n, e := ShowParts(b);
    ShownPartsEqual(m, a.literal, d, n, b.literal, e);
    MemberNameInjective(a.tokenType, b.tokenType);
    Text.IntRoundTrip(a.line);
    Text.IntRoundTrip(b.line);
  }

  /** A token built without a line prints as line 1. */
  lemma DefaultLineShown(t: TokenType, literal: string)
    ensures Token(t, literal).line == 1
    ensures Show(Token(t, literal)) == "Type TokenType." + MemberName(t) + ", Literal " + literal + ", Line 1"
  {
    OneRendered();
    ShowText(MemberName(t), literal, "1");
  }

  /** `Show`'s text, with the class name joined to the words before it. */
  lemma ShowText(m: string, literal: string, d: string)
    ensures "Type " + ("TokenType." + m) + ", Literal " + literal + ", Line " + d ==
      "Type TokenType." + m + ", Literal " + literal + ", Line " + d
  {
    assert "Type " + ("TokenType." + m) == "Type TokenType." + m;
  }

  /** The line 1 renders as `"1"`. */
  lemma OneRendered()
    ensures Text.IntToString(1) == "1"
  {
    assert Text.NatToString(1) == [Text.DigitChar(1)];
  }
}
