/** The Python lexer of ezcript/lexer/lexer.py: `next_token` skips whitespace, then turns the
    current character (and, for operators, one or two peeked characters) into a token.

    `NextTokenSpec` gives the meaning of `next_token` on a `LexState`; the class `Lexer`
    implements it in place.  `Scan` is an independent reference: it says, from the unscanned
    text alone, which token comes next and how many characters it uses, with operators looked
    up in tables.  `NextTokenMatchesScan` proves the two agree on every input. */
module PyLexer {
  import opened Wrappers
  import opened PyScan
  import opened PyTokens

  /** What `next_token` hands back and the state it leaves. */
  datatype Next = Next(state: LexState, result: Result<Token, PyError>)

  /** The operator branches of `next_token`, before the read on line 140: a token was assigned,
      no token was assigned (the `..` branch without a third `.`), or `_peek_character(2)`
      raised. */
  datatype Pending = Assigned(state: LexState, token: Token) | Unassigned(state: LexState) | Raising(state: LexState, error: PyError)

  /** `Token(kind, self._character)`. */
  function SingleSpec(st: LexState, kind: TokenType): Pending {
    Assigned(st, Token(kind, st.character))
  }

  /** `_make_two_character_token(kind)`: the current character, one read, and the new one. */
  function MakeTwoSpec(st: LexState, kind: TokenType): (r: Pending)
    ensures r.Assigned? && r.state == ReadCharacterSpec(st)
  {
    var second := ReadCharacterSpec(st);
    Assigned(second, Token(kind, st.character + second.character))
  }

  /** `_make_three_character_token(kind)`: the current character and the next two. */
  function MakeThreeSpec(st: LexState, kind: TokenType): (r: Pending)
    ensures r.Assigned? && r.state == ReadCharacterSpec(ReadCharacterSpec(st))
  {
    var second := ReadCharacterSpec(st);
    var third := ReadCharacterSpec(second);
    Assigned(third, Token(kind, st.character + second.character + third.character))
  }

  /** The characters that open an operator branch of `next_token`. */
  const OPERATOR_STARTS: string := "%()*+,-./:<=>[]{}!"

  /** Which token an operator branch of `next_token` (lines 32-116) makes: from the current
      character alone, from it and the peeked one, or from three characters; no token (the `..`
      branch without a third `.`); or the exception `_peek_character(2)` raised. */
  datatype Branch = One(kind: TokenType) | Two(kind: TokenType) | Three(kind: TokenType) | NoToken | Raises(error: PyError)

  /** The tests of lines 32-116 on the current character `c`, the peeked `next` and, in the
      `.` and `/` branches, the second peek `third`. */
  function OperatorBranch(c: char, next: string, third: PeekResult): Branch
    requires c in OPERATOR_STARTS
  {
    match c
    case '%' => if next == "=" then Two(PercentEqual) else One(Percent)
    case '(' => One(LParen)
    case ')' => One(RParen)
    case '*' =>
      // The third branch repeats the second's test, so `**=` is never produced.
      if next == "=" then Two(StarEqual)
      else if next == "*" then Two(DoubleStar)
      else One(Star)
    case '+' =>
      if next == "+" then Two(DoublePlus)
      else if next == "=" then Two(PlusEqual)
      else One(Plus)
    case ',' => One(Comma)
    case '-' =>
      if next == "-" then Two(DoubleMinus)
      else if next == "=" then Two(MinEqual)
      else One(Minus)
    case '.' =>
      if next == "." then
        match third
        case Raised(e) => Raises(e)
        case Peeked(t) => if t == "." then Three(Ellipsis) else NoToken
      else One(Dot)
    case '/' =>
      if next == "/" then
        match third
        case Raised(e) => Raises(e)
        case Peeked(t) => if t == "=" then Three(DoubleSlashEqual) else Two(DoubleSlash)
      else if next == "=" then Two(SlashEqual)
      else One(Slash)
    case ':' => One(Colon)
    case '<' => if next == "=" then Two(LessEqual) else One(Less)
    case '=' => if next == "=" then Two(EqEqual) else One(Equal)
    case '>' => if next == "=" then Two(GreaterEqual) else One(Greater)
    case '[' => One(LBracket)
    case ']' => One(RBracket)
    case '{' => One(LBrace)
    case '}' => One(RBrace)
    case '!' => if next == "=" then Two(NotEqual) else One(Negation)
  }

  /** A branch carried out on the state: `Token(kind, self._character)`, one of the
      `_make_*_character_token` helpers, or nothing. */
  function Perform(st: LexState, b: Branch): Pending {
    match b
    case One(kind) => SingleSpec(st, kind)
    case Two(kind) => MakeTwoSpec(st, kind)
    case Three(kind) => MakeThreeSpec(st, kind)
    case NoToken => Unassigned(st)
    case Raises(e) => Raising(st, e)
  }

  /** The operator branches of `next_token` (lines 32-116).  The second peek is consulted only
      by the `..` and `//` branches, as in the source. */
  function OperatorSpec(st: LexState): Pending
    requires Valid(st) && st.character != [] && st.character[0] in OPERATOR_STARTS
  {
    Perform(st, OperatorBranch(st.character[0], PeekSpec(st, 1).text, PeekSpec(st, 2)))
  }

  /** Line 140-141: one more read, then the assigned token is returned; an unassigned `token`
      raises `UnboundLocalError` after the read; an exception from a peek propagates at once. */
  function FinishSpec(p: Pending): Next {
    match p
    case Assigned(st, token) => Next(ReadCharacterSpec(st), Ok(token))
    case Unassigned(st) => Next(ReadCharacterSpec(st), Err(UnboundLocalError))
    case Raising(st, e) => Next(st, Err(e))
  }

  /** The identifier branch: the longest run of letters and digits, classified by the keyword
      table. */
  function IdentifierSpec(st: LexState): Next
    requires Valid(st)
  {
    var word := ReadRunSpec(st, IdentChar);
    Next(word.state, Ok(Token(LookupTokenType(word.text), word.text)))
  }

  /** The number branch: a digit run, and if a `.` follows, the dot and a second digit run. */
  function NumberSpec(st: LexState): Next
    requires Valid(st)
  {
    var whole := ReadRunSpec(st, Digit);
    if whole.state.character == "." then
      var fraction := ReadRunSpec(ReadCharacterSpec(whole.state), Digit);
      Next(fraction.state, Ok(Token(Number, whole.text + "." + fraction.text)))
    else Next(whole.state, Ok(Token(Number, whole.text)))
  }

  /** The string branch. */
  function StringSpec(st: LexState): Next
    requires Valid(st)
  {
    var body := ReadStringSpec(st);
    Next(body.state, Ok(Token(String, body.text)))
  }

  /** The branches of `next_token` after whitespace has been skipped. */
  function DispatchSpec(st: LexState): Next
    requires Valid(st)
  {
    var c := st.character;
    if c != [] && c[0] in OPERATOR_STARTS then FinishSpec(OperatorSpec(st))
    else if c != [] && IsLetter(c[0]) then IdentifierSpec(st)
    else if c != [] && IsNumber(c[0]) then NumberSpec(st)
    else if c == "\"" || c == "'" then StringSpec(st)
    else if c == "" then FinishSpec(SingleSpec(st, Eof))
    else FinishSpec(SingleSpec(st, Illegal))
  }

  /** `next_token`. */
  function NextTokenSpec(st: LexState): Next
    requires Valid(st)
  {
    DispatchSpec(SkipWhitespaceSpec(st))
  }

  // ---------------------------------------------------------------------------------------
  // Reference: the next token read off the unscanned text

  /** The two-character operators, chosen when the peeked character completes one. */
  function TwoChar(first: char, second: char): Option<TokenType> {
    match (first, second)
    case ('%', '=') => Some(PercentEqual)
    case ('*', '=') => Some(StarEqual)
    case ('*', '*') => Some(DoubleStar)
    case ('+', '+') => Some(DoublePlus)
    case ('+', '=') => Some(PlusEqual)
    case ('-', '-') => Some(DoubleMinus)
    case ('-', '=') => Some(MinEqual)
    case ('/', '/') => Some(DoubleSlash)
    case ('/', '=') => Some(SlashEqual)
    case ('<', '=') => Some(LessEqual)
    case ('=', '=') => Some(EqEqual)
    case ('>', '=') => Some(GreaterEqual)
    case ('!', '=') => Some(NotEqual)
    case _ => None
  }

  /** The one-character operators. */
  function OneChar(c: char): Option<TokenType> {
    match c
    case '%' => Some(Percent)
    case '(' => Some(LParen)
    case ')' => Some(RParen)
    case '*' => Some(Star)
    case '+' => Some(Plus)
    case ',' => Some(Comma)
    case '-' => Some(Minus)
    case '.' => Some(Dot)
    case '/' => Some(Slash)
    case ':' => Some(Colon)
    case '<' => Some(Less)
    case '=' => Some(Equal)
    case '>' => Some(Greater)
    case '[' => Some(LBracket)
    case ']' => Some(RBracket)
    case '{' => Some(LBrace)
    case '}' => Some(RBrace)
    case '!' => Some(Negation)
    case _ => None
  }

  /** The next token (or exception) and how many characters of the text it uses. */
  datatype Scanned = Scanned(result: Result<Token, PyError>, used: nat)

  /** An operator at the head of `text`: `...` and `//=` first, then the two-character table,
      then the one-character table.  `..` followed by another character raises
      `UnboundLocalError` after using one character; `..` or `//` at the very end raises
      `IndexError` without using any. */
  function LexOperator(text: string): Scanned
    requires text != [] && OneChar(text[0]).Some?
  {
    if |text| >= 2 && text[0] == '.' && text[1] == '.' then
      if |text| == 2 then Scanned(Err(IndexError), 0)
      else if text[2] == '.' then Scanned(Ok(Token(Ellipsis, text[..3])), 3)
      else Scanned(Err(UnboundLocalError), 1)
    else if |text| == 2 && text[0] == '/' && text[1] == '/' then Scanned(Err(IndexError), 0)
    else if |text| >= 3 && text[0] == '/' && text[1] == '/' && text[2] == '=' then
      Scanned(Ok(Token(DoubleSlashEqual, text[..3])), 3)
    else if |text| >= 2 && TwoChar(text[0], text[1]).Some? then
      Scanned(Ok(Token(TwoChar(text[0], text[1]).value, text[..2])), 2)
    else Scanned(Ok(Token(OneChar(text[0]).value, [text[0]])), 1)
  }

  /** The token at the head of `text`, which does not start with whitespace. */
  function Lex(text: string): Scanned {
    if text == [] then Scanned(Ok(Token(Eof, "")), 0)
    else if OneChar(text[0]).Some? then LexOperator(text)
    else if IsLetter(text[0]) then
      var n := Run(text, IdentChar);
      Scanned(Ok(Token(LookupTokenType(text[..n]), text[..n])), n)
    else if IsNumber(text[0]) then
      var m := NumberLength(text);
      Scanned(Ok(Token(Number, text[..m])), m)
    else if text[0] == '"' || text[0] == '\'' then
      var n := UpTo(text[1..], text[0]);
      Scanned(Ok(Token(String, text[1..][..n])), n + 2)
    else Scanned(Ok(Token(Illegal, [text[0]])), 1)
  }

  /** Leading whitespace, then `Lex`. */
  function Scan(text: string): Scanned {
    var k := Run(text, Whitespace);
    var token := Lex(text[k..]);
    Scanned(token.result, k + token.used)
  }

  /** `next` is what `Scan` says of the text unscanned in `st`. */
  predicate Agrees(st: LexState, next: Next, scanned: Scanned) {
    Valid(next.state) && next.state.source == st.source &&
    next.result == scanned.result && Rest(next.state) == Drop(Rest(st), scanned.used)
  }

  // ---------------------------------------------------------------------------------------
  // The state machine agrees with the reference

  lemma ReadTwice(st: LexState)
    requires Valid(st)
    ensures Rest(ReadCharacterSpec(ReadCharacterSpec(st))) == Drop(Rest(st), 2)
    ensures Rest(ReadCharacterSpec(ReadCharacterSpec(ReadCharacterSpec(st)))) == Drop(Rest(st), 3)
  {
    DropDrop(Rest(st), 1, 1);
    DropDrop(Rest(st), 2, 1);
  }

  /** A one-character operator token agrees with the reference's. */
  lemma SingleAgrees(st: LexState, kind: TokenType)
    requires Valid(st) && Rest(st) != []
    ensures Agrees(st, FinishSpec(SingleSpec(st, kind)), Scanned(Ok(Token(kind, [Rest(st)[0]])), 1))
  {
    CharacterIsHead(st);
  }

  /** A two-character operator token agrees with the reference's. */
  lemma TwoAgrees(st: LexState, kind: TokenType)
    requires Valid(st) && |Rest(st)| >= 2
    ensures Agrees(st, FinishSpec(MakeTwoSpec(st, kind)), Scanned(Ok(Token(kind, Rest(st)[..2])), 2))
  {
    var text := Rest(st);
    var second := ReadCharacterSpec(st);
    CharacterIsHead(st);
    CharacterIsHead(second);
    ReadTwice(st);
    assert Rest(second) == text[1..];
    assert second.character == [text[1]];
    assert st.character + second.character == text[..2];
    assert Rest(ReadCharacterSpec(second)) == Drop(text, 2);
  }

  /** A three-character operator token agrees with the reference's. */
  lemma ThreeAgrees(st: LexState, kind: TokenType)
    requires Valid(st) && |Rest(st)| >= 3
    ensures Agrees(st, FinishSpec(MakeThreeSpec(st, kind)), Scanned(Ok(Token(kind, Rest(st)[..3])), 3))
  {
    var text := Rest(st);
    var second := ReadCharacterSpec(st);
    var third := ReadCharacterSpec(second);
    CharacterIsHead(st);
    CharacterIsHead(second);
    CharacterIsHead(third);
    ReadTwice(st);
    assert Rest(second) == text[1..] && Rest(third) == text[2..];
    assert second.character == [text[1]] && third.character == [text[2]];
    assert st.character + second.character + third.character == text[..3];
    assert Rest(ReadCharacterSpec(third)) == Drop(text, 3);
  }

  /** What the reference makes of the operator text for a branch. */
  function Outcome(b: Branch, text: string): Scanned
    requires text != []
  {
    match b
    case One(kind) => Scanned(Ok(Token(kind, [text[0]])), 1)
    case Two(kind) => Scanned(Ok(Token(kind, Slice(text, 0, 2))), 2)
    case Three(kind) => Scanned(Ok(Token(kind, Slice(text, 0, 3))), 3)
    case NoToken => Scanned(Err(UnboundLocalError), 1)
    case Raises(e) => Scanned(Err(e), 0)
  }

  /** `_peek_character(2)` read off the unscanned text. */
  function PeekSecond(text: string): PeekResult {
    if |text| < 2 then Peeked("") else if |text| == 2 then Raised(IndexError) else Peeked([text[2]])
  }

  /** The table-driven `LexOperator` makes the same choice as the branches, and a two- or
      three-character branch is taken only when the text is that long. */
  predicate BranchMatches(text: string)
    requires text != [] && text[0] in OPERATOR_STARTS
  {
    var b := OperatorBranch(text[0], CharAt(text, 1), PeekSecond(text));
    OneChar(text[0]).Some? && LexOperator(text) == Outcome(b, text) &&
    (b.Two? ==> |text| >= 2) && (b.Three? ==> |text| >= 3)
  }

  /** `BranchMatches` for the characters that are always a token alone. */
  lemma BranchAlone(text: string)
    requires text != [] && text[0] in "(),:[]{}"
    ensures BranchMatches(text)
  {
  }

  /** `BranchMatches` for the characters an `=` may follow. */
  lemma BranchWithEqual(text: string)
    requires text != [] && text[0] in "%<=>!"
    ensures BranchMatches(text)
  {
  }

  /** `BranchMatches` for the characters that may be doubled. */
  lemma BranchDoubled(text: string)
    requires text != [] && text[0] in "*+-"
    ensures BranchMatches(text)
  {
  }

  /** `BranchMatches` for `.`. */
  lemma BranchDot(text: string)
    requires text != [] && text[0] in "."
    ensures BranchMatches(text)
  {
  }

  /** The `.` branch: `...` needs the second peek, and `..` then anything else assigns no token. */
  lemma DotBranches(next: string, third: PeekResult)
    ensures OperatorBranch('.', next, third) ==
      if next != "." then One(Dot)
      else if third.Raised? then Raises(third.error)
      else if third.text == "." then Three(Ellipsis) else NoToken
  {
  }

  /** The `/` branch: `//=` needs the second peek. */
  lemma SlashBranches(next: string, third: PeekResult)
    ensures OperatorBranch('/', next, third) ==
      if next == "/" then
        (if third.Raised? then Raises(third.error)
         else if third.text == "=" then Three(DoubleSlashEqual) else Two(DoubleSlash))
      else if next == "=" then Two(SlashEqual) else One(Slash)
  {
  }

  /** The branches for `:`, `<`, `=` and `>`: `:` alone, the others doubled by a `=`. */
  lemma ComparisonBranches(c: char, next: string, third: PeekResult)
    requires c in ":<=>"
    ensures OperatorBranch(c, next, third) ==
      if c == ':' then One(Colon)
      else if next != "=" then One(if c == '<' then Less else if c == '=' then Equal else Greater)
      else Two(if c == '<' then LessEqual else if c == '=' then EqEqual else GreaterEqual)
  {
  }

  /** `BranchMatches` for `/`. */
  lemma BranchSlash(text: string)
    requires text != [] && text[0] in "/"
    ensures BranchMatches(text)
  {
  }

  lemma LexOperatorByBranch(text: string)
    requires text != [] && text[0] in OPERATOR_STARTS
    ensures BranchMatches(text)
  {
    if text[0] in "(),:[]{}" {
      BranchAlone(text);
    } else if text[0] in "%<=>!" {
      BranchWithEqual(text);
    } else if text[0] in "*+-" {
      BranchDoubled(text);
    } else if text[0] in "." {
      BranchDot(text);
    } else if text[0] in "/" {
      BranchSlash(text);
    }
  }

  /** Carrying out a branch on the state agrees with the reference's reading of it. */
  lemma PerformAgrees(st: LexState, b: Branch)
    requires Valid(st) && Rest(st) != []
    requires (b.Two? ==> |Rest(st)| >= 2) && (b.Three? ==> |Rest(st)| >= 3)
    ensures Agrees(st, FinishSpec(Perform(st, b)), Outcome(b, Rest(st)))
  {
    match b
    case One(kind) => SingleAgrees(st, kind);
    case Two(kind) => TwoAgrees(st, kind);
    case Three(kind) => ThreeAgrees(st, kind);
    case NoToken =>
    case Raises(e) =>
  }

  /** The operator branches agree with `LexOperator`. */
  lemma OperatorAgrees(st: LexState)
    requires Valid(st) && st.character != [] && st.character[0] in OPERATOR_STARTS
    ensures Rest(st) != [] && OneChar(Rest(st)[0]).Some?
    ensures Agrees(st, FinishSpec(OperatorSpec(st)), LexOperator(Rest(st)))
  {
    var text := Rest(st);
    CharacterIsHead(st);
    PeekOne(st);
    PeekTwo(st);
    assert PeekSpec(st, 2) == PeekSecond(text);
    LexOperatorByBranch(text);
    PerformAgrees(st, OperatorBranch(text[0], CharAt(text, 1), PeekSecond(text)));
  }

  /** The identifier branch agrees with `Lex`. */
  lemma IdentifierAgrees(st: LexState)
    requires Valid(st) && st.character != [] && IsLetter(st.character[0])
    ensures Agrees(st, IdentifierSpec(st), Lex(Rest(st)))
  {
    CharacterIsHead(st);
    LexLetter(Rest(st));
    ReadRunReturnsRun(st, IdentChar);
  }

  /** What the number branch reads and leaves, stated on the unscanned text. */
  predicate NumberReads(st: LexState, r: Next)
    requires Valid(st)
  {
    var text := Rest(st);
    var m := NumberLength(text);
    Valid(r.state) && r.state.source == st.source &&
    r.result == Ok(Token(Number, text[..m])) && Rest(r.state) == Drop(text, m)
  }

  /** A number with a fractional part. */
  lemma NumberWithDot(st: LexState)
    requires Valid(st) && ReadRunSpec(st, Digit).state.character == "."
    ensures NumberReads(st, NumberSpec(st))
  {
    FractionReads(st);
    var whole := ReadRunSpec(st, Digit);
    var fraction := ReadRunSpec(ReadCharacterSpec(whole.state), Digit);
    assert NumberSpec(st) == Next(fraction.state, Ok(Token(Number, whole.text + "." + fraction.text)));
  }

  /** A number without a fractional part. */
  lemma NumberWithoutDot(st: LexState)
    requires Valid(st) && ReadRunSpec(st, Digit).state.character != "."
    ensures NumberReads(st, NumberSpec(st))
  {
    IntegerReads(st);
    var whole := ReadRunSpec(st, Digit);
    assert NumberSpec(st) == Next(whole.state, Ok(Token(Number, whole.text)));
  }

  /** The number branch agrees with `Lex`. */
  lemma NumberAgrees(st: LexState)
    requires Valid(st) && st.character != [] && IsNumber(st.character[0])
    ensures Agrees(st, NumberSpec(st), Lex(Rest(st)))
  {
    CharacterIsHead(st);
    LexDigit(Rest(st));
    if ReadRunSpec(st, Digit).state.character == "." {
      NumberWithDot(st);
    } else {
      NumberWithoutDot(st);
    }
  }

  /** `Lex` on an operator character. */
  lemma LexOperatorHead(text: string)
    requires text != [] && OneChar(text[0]).Some?
    ensures Lex(text) == LexOperator(text)
  {
  }

  /** `Lex` on a letter. */
  lemma LexLetter(text: string)
    requires text != [] && IsLetter(text[0])
    ensures var n := Run(text, IdentChar); Lex(text) == Scanned(Ok(Token(LookupTokenType(text[..n]), text[..n])), n)
  {
  }

  /** `Lex` on a digit. */
  lemma LexDigit(text: string)
    requires text != [] && IsNumber(text[0])
    ensures var m := NumberLength(text); Lex(text) == Scanned(Ok(Token(Number, text[..m])), m)
  {
  }

  /** `Lex` on an opening quote. */
  lemma LexQuote(text: string)
    requires text != [] && (text[0] == '"' || text[0] == '\'')
    ensures var n := UpTo(text[1..], text[0]); Lex(text) == Scanned(Ok(Token(String, text[1..][..n])), n + 2)
  {
  }

  /** The string branch agrees with `Lex`. */
  lemma StringAgrees(st: LexState)
    requires Valid(st) && (st.character == "\"" || st.character == "'")
    ensures Agrees(st, StringSpec(st), Lex(Rest(st)))
  {
    CharacterIsHead(st);
    var text := Rest(st);
    var n := UpTo(text[1..], text[0]);
    LexQuote(text);
    ReadStringUpToQuote(st);
    var r := ReadStringSpec(st);
    assert Lex(text) == Scanned(Ok(Token(String, r.text)), n + 2);
    assert StringSpec(st) == Next(r.state, Ok(Token(String, r.text)));
  }

  /** After whitespace, the branches of `next_token` agree with `Lex`. */
  lemma DispatchAgrees(st: LexState)
    requires Valid(st) && (st.character == [] || !IsSpace(st.character[0]))
    ensures Agrees(st, DispatchSpec(st), Lex(Rest(st)))
  {
    CharacterIsHead(st);
    var c := st.character;
    if c != [] && c[0] in OPERATOR_STARTS {
      OperatorAgrees(st);
    } else if c != [] && IsLetter(c[0]) {
      IdentifierAgrees(st);
    } else if c != [] && IsNumber(c[0]) {
      NumberAgrees(st);
    } else if c == "\"" || c == "'" {
      StringAgrees(st);
    } else {
      assert Rest(ReadCharacterSpec(st)) == Drop(Rest(st), 1);
    }
  }

  /** `next_token` returns the token `Scan` finds at the head of the unscanned text (or raises
      as `Scan` says), and leaves exactly the characters `Scan` did not use. */
  lemma NextTokenMatchesScan(st: LexState)
    requires Valid(st)
    ensures Agrees(st, NextTokenSpec(st), Scan(Rest(st)))
  {
    var skipped := SkipWhitespaceSpec(st);
    var k := Run(Rest(st), Whitespace);
    SkipWhitespaceRun(st);
    DropIsSlice(Rest(st), k);
    DispatchAgrees(skipped);
    AgreesAfterSkip(st, skipped, DispatchSpec(skipped), k);
  }

  /** Agreement on the text after the skipped whitespace is agreement on the whole text. */
  lemma AgreesAfterSkip(st: LexState, skipped: LexState, next: Next, k: nat)
    requires Valid(st) && skipped.source == st.source
    requires k == Run(Rest(st), Whitespace) && Rest(skipped) == Rest(st)[k..]
    requires Agrees(skipped, next, Lex(Rest(skipped)))
    ensures Agrees(st, next, Scan(Rest(st)))
  {
    var lexed := Lex(Rest(skipped));
    assert Scan(Rest(st)) == Scanned(lexed.result, k + lexed.used);
    DropIsSlice(Rest(st), k);
    DropDrop(Rest(st), k, lexed.used);
  }

  // ---------------------------------------------------------------------------------------
  // Properties of the reference, hence of `next_token`

  /** At the end of the input `next_token` returns `EOF ''` and stays at the end, so every
      later call does the same. */
  lemma EofIsSticky(st: LexState)
    requires Valid(st) && Rest(st) == []
    ensures NextTokenSpec(st).result == Ok(Token(Eof, ""))
    ensures Valid(NextTokenSpec(st).state) && Rest(NextTokenSpec(st).state) == []
  {
    NextTokenMatchesScan(st);
  }

  /** Only whitespace left: `EOF ''`. */
  lemma TrailingWhitespaceIsEof(st: LexState)
    requires Valid(st) && forall i :: 0 <= i < |Rest(st)| ==> IsSpace(Rest(st)[i])
    ensures NextTokenSpec(st).result == Ok(Token(Eof, ""))
  {
    NextTokenMatchesScan(st);
    RunIsLongest(Rest(st), Whitespace);
  }

  /** Every successful token uses at least one character unless it is `EOF`, so repeated
      calls make progress through the input. */
  lemma ScanProgress(text: string)
    requires Scan(text).result.Ok? && Scan(text).result.value.tokenType != Eof
    ensures Scan(text).used > 0
  {
  }

  /** An identifier is a letter or `_` followed by the longest run of letters, digits and `_`;
      its kind is the keyword table's. */
  lemma IdentifierIsMaximal(text: string)
    requires text != [] && IsLetter(text[0])
    ensures var r := Lex(text); var w := r.result.value.literal;
      r.result.Ok? && r.used == |w| && w == text[..|w|] && w[0] == text[0] &&
      (forall i :: 0 <= i < |w| ==> IsIdentChar(w[i])) &&
      (|w| < |text| ==> !IsIdentChar(text[|w|])) &&
      r.result.value.tokenType == LookupTokenType(w)
  {
    LexLetter(text);
    RunIsLongest(text, IdentChar);
  }

  /** A number is a digit run, and if a `.` follows, the dot and the digits after it (possibly
      none): `3.` gives `3.`. */
  lemma NumberShape(text: string)
    requires text != [] && IsNumber(text[0])
    ensures var r := Lex(text); var w := r.result.value.literal;
      r.result.Ok? && r.result.value.tokenType == Number && r.used == |w| && w == text[..|w|] &&
      (forall i :: 0 <= i < |w| ==> IsNumber(w[i]) || w[i] == '.') &&
      (|w| < |text| ==> !IsNumber(text[|w|]))
  {
    LexDigit(text);
    var n := Run(text, Digit);
    RunIsLongest(text, Digit);
    if n < |text| && text[n] == '.' {
      NumberLengthWithDot(text);
      RunIsLongest(text[n + 1..], Digit);
      var m := NumberLength(text);
      forall i | n + 1 <= i < m
        ensures IsNumber(text[i])
      {
        assert text[i] == text[n + 1..][i - (n + 1)];
      }
      if m < |text| {
        assert text[m] == text[n + 1..][m - (n + 1)];
      }
    }
  }

  /** A string is the text strictly between the opening quote and the next identical quote;
      without one it is the whole rest of the input, and no error is raised. */
  lemma StringShape(text: string)
    requires text != [] && (text[0] == '"' || text[0] == '\'')
    ensures var r := Lex(text); var body := r.result.value.literal;
      r.result == Ok(Token(String, body)) && text[0] !in body &&
      (if |body| + 1 < |text| then text[|body| + 1] == text[0] && text[1..|body| + 1] == body
       else body == text[1..])
  {
    LexQuote(text);
    UpToIsFirst(text[1..], text[0]);
  }

  /** Any character that starts no operator, word, number or string is `ILLEGAL`, alone. */
  lemma IllegalCharacter(text: string)
    requires text != [] && OneChar(text[0]).None? && !IsLetter(text[0]) && !IsNumber(text[0])
    requires text[0] != '"' && text[0] != '\''
    ensures Lex(text) == Scanned(Ok(Token(Illegal, [text[0]])), 1)
  {
  }

  /** `\d` takes every Unicode decimal digit: the Arabic-Indic `٣٢` is one number. */
  lemma ArabicIndicNumber()
    ensures Lex("\U{0663}\U{0662}") == Scanned(Ok(Token(Number, "\U{0663}\U{0662}")), 2)
  {
    var text := "\U{0663}\U{0662}";
    NumberShape(text);
    var w := Lex(text).result.value.literal;
    assert |w| <= |text| && w == text[..|w|];
    assert IsNumber(text[0]) && IsNumber(text[1]);
    assert |w| == 2;
    assert w == text;
    assert Lex(text).result == Ok(Token(Number, text));
  }

  /** An operator's text is the characters it uses; the two-character ones are exactly those
      in `TwoChar` and never `**=`, which is scanned as `**` and then `=`. */
  lemma OperatorShape(text: string)
    requires text != [] && OneChar(text[0]).Some? && LexOperator(text).result.Ok?
    ensures var r := LexOperator(text); var w := r.result.value.literal;
      |w| == r.used && w == text[..r.used] && 1 <= r.used <= 3
    ensures |text| >= 3 && text[..3] == "**=" ==> LexOperator(text).result == Ok(Token(DoubleStar, "**"))
  {
    if |text| >= 3 && text[..3] == "**=" {
      assert text[..2] == "**";
    }
  }

  /** The operators as evidently intended: the third `*` branch reached, so `**=` is one
      `DOUBLESTAREQUAL` token. */
  function LexOperatorFixed(text: string): Scanned
    requires text != [] && OneChar(text[0]).Some?
  {
    if |text| >= 3 && text[..3] == "**=" then Scanned(Ok(Token(DoubleStarEqual, "**=")), 3)
    else LexOperator(text)
  }

  /** The spellings the lexer's tables know, the one- and two-character tables and the
      three-character `...` and `//=`, plus `**=`. */
  predicate OperatorSpelling(w: string) {
    (|w| == 1 && OneChar(w[0]).Some?) ||
    (|w| == 2 && TwoChar(w[0], w[1]).Some?) ||
    w == "..." || w == "//=" || w == "**="
  }

  /** Read that way, the operator read is the longest spelling at the head of the text, `**=`
      included, and every other operator is read as the code as written reads it. */
  lemma OperatorFixedLongest(text: string)
    requires text != [] && OneChar(text[0]).Some?
    ensures |text| >= 3 && text[..3] == "**=" ==>
      LexOperatorFixed(text) == Scanned(Ok(Token(DoubleStarEqual, text[..3])), 3)
    ensures !(|text| >= 3 && text[..3] == "**=") ==> LexOperatorFixed(text) == LexOperator(text)
    ensures LexOperatorFixed(text).result.Ok? ==>
      var r := LexOperatorFixed(text);
      && r.used <= |text| && r.result.value.literal == text[..r.used]
      && OperatorSpelling(text[..r.used])
      && forall k :: r.used < k <= |text| ==> !OperatorSpelling(text[..k])
  {
    var r := LexOperatorFixed(text);
    if !(|text| >= 3 && text[..3] == "**=") && LexOperator(text).result.Ok? {
      OperatorShape(text);
    }
    if r.result.Ok? {
      forall k | r.used < k <= |text|
        ensures !OperatorSpelling(text[..k])
      {
        if k <= 3 {
          SpellingHead(text, k);
        }
      }
    }
  }

  /** The prefixes of length two and three that could be spellings, by their characters. */
  lemma SpellingHead(text: string, k: nat)
    requires 1 <= k <= 3 && k <= |text|
    ensures k == 1 ==> (OperatorSpelling(text[..k]) <==> OneChar(text[0]).Some?)
    ensures k == 2 ==> (OperatorSpelling(text[..k]) <==> TwoChar(text[0], text[1]).Some?)
    ensures k == 3 ==> (OperatorSpelling(text[..k]) <==>
      (text[0] == '.' && text[1] == '.' && text[2] == '.') ||
      (text[0] == '/' && text[1] == '/' && text[2] == '=') ||
      (text[0] == '*' && text[1] == '*' && text[2] == '='))
  {
    if k == 3 {
      assert text[..3] == [text[0], text[1], text[2]];
    } else if k == 2 {
      assert text[..2] == [text[0], text[1]];
    }
  }

  // ---------------------------------------------------------------------------------------
  // The lexer object

  /** `Lexer`: the fields of lexer.py. */
  class Lexer {
    var source: string
    var character: string
    var position: nat
    var readPosition: nat

    function State(): LexState
      reads this
    {
      LexState(source, character, position, readPosition)
    }

    /** `Lexer.__init__`: positions at 0, then the first read. */
    constructor (source: string)
      ensures Valid(State()) && State() == Initial(source)
    {
      this.source := source;
      character := "";
      readPosition := 0;
      position := 0;
      new;
      ReadCharacter();
    }

    /** `_read_character`. */
    method ReadCharacter()
      modifies this
      ensures Valid(State())
      ensures State() == ReadCharacterSpec(old(State()))
    {
      if readPosition >= |source| {
        character := "";
      } else {
        character := [source[readPosition]];
      }
      position := readPosition;
      readPosition := readPosition + 1;
    }

    /** `_peek_character(skip)`: reads nothing, changes nothing. */
    method PeekCharacter(skip: nat) returns (r: PeekResult)
      requires skip >= 1
      ensures r == PeekSpec(State(), skip)
    {
      if readPosition >= |source| {
        return Peeked("");
      }
      if skip == 1 {
        return Peeked([source[readPosition]]);
      }
      if readPosition + (skip - 1) < |source| {
        return Peeked([source[readPosition + (skip - 1)]]);
      }
      return Raised(IndexError);
    }

    /** `_skip_whitespace`. */
    method SkipWhitespace()
      requires Valid(State())
      modifies this
      ensures Valid(State())
      ensures State() == SkipWhitespaceSpec(old(State()))
    {
      while character != [] && IsSpace(character[0])
        invariant Valid(State()) && SkipWhitespaceSpec(State()) == SkipWhitespaceSpec(old(State()))
        decreases |source| - position
      {
        ReadCharacter();
      }
    }

    /** `_make_two_character_token`. */
    method MakeTwoCharacterToken(kind: TokenType) returns (token: Token)
      modifies this
      ensures Valid(State())
      ensures Assigned(State(), token) == MakeTwoSpec(old(State()), kind)
    {
      var prefix := character;
      ReadCharacter();
      var suffix := character;
      token := Token(kind, prefix + suffix);
    }

    /** `_make_three_character_token`. */
    method MakeThreeCharacterToken(kind: TokenType) returns (token: Token)
      modifies this
      ensures Valid(State())
      ensures Assigned(State(), token) == MakeThreeSpec(old(State()), kind)
    {
      var first := character;
      ReadCharacter();
      var second := character;
      ReadCharacter();
      var third := character;
      token := Token(kind, first + second + third);
    }

    /** `_read_identifier`. */
    method ReadIdentifier() returns (text: string)
      requires Valid(State())
      modifies this
      ensures Valid(State())
      ensures Reading(State(), text) == ReadRunSpec(old(State()), IdentChar)
    {
      var initial := position;
      while character != [] && IsIdentChar(character[0])
        invariant Valid(State()) && ReadWhileSpec(State(), IdentChar) == ReadWhileSpec(old(State()), IdentChar)
        decreases |source| - position
      {
        ReadCharacter();
      }
      text := Slice(source, initial, position);
    }

    /** `_read_number`. */
    method ReadNumber() returns (text: string)
      requires Valid(State())
      modifies this
      ensures Valid(State())
      ensures Reading(State(), text) == ReadRunSpec(old(State()), Digit)
    {
      var initial := position;
      while character != [] && IsNumber(character[0])
        invariant Valid(State()) && ReadWhileSpec(State(), Digit) == ReadWhileSpec(old(State()), Digit)
        decreases |source| - position
      {
        ReadCharacter();
      }
      text := Slice(source, initial, position);
    }

    /** `_read_string`. */
    method ReadString() returns (text: string)
      requires Valid(State())
      modifies this
      ensures Valid(State())
      ensures Reading(State(), text) == ReadStringSpec(old(State()))
    {
      var quote := character;
      ReadCharacter();
      var initial := position;
      ghost var inside := State();
      while character != quote && readPosition <= |source|
        invariant Valid(State()) && StringLoopSpec(State(), quote) == StringLoopSpec(inside, quote)
        decreases |source| + 1 - position
      {
        ReadCharacter();
      }
      text := Slice(source, initial, position);
      ReadCharacter();
    }

    /** The `.` branch of `next_token`, which peeks a second character after `..`. */
    method DotToken(next: string) returns (p: Pending)
      requires Valid(State()) && character == "." && next == PeekSpec(State(), 1).text
      modifies this
      ensures Valid(State())
      ensures p == OperatorSpec(old(State())) && State() == p.state
    {
      DotBranches(next, PeekSpec(State(), 2));
      assert OperatorSpec(State()) == Perform(State(), OperatorBranch('.', next, PeekSpec(State(), 2)));
      var token: Token;
      if next == "." {
        var third := PeekCharacter(2);
        if third.Raised? {
          return Raising(State(), third.error);
        } else if third.text == "." {
          token := MakeThreeCharacterToken(Ellipsis);
        } else {
          return Unassigned(State());
        }
      } else {
        token := Token(Dot, character);
      }
      return Assigned(State(), token);
    }

    /** The `/` branch of `next_token`, which peeks a second character after `//`. */
    method SlashToken(next: string) returns (p: Pending)
      requires Valid(State()) && character == "/" && next == PeekSpec(State(), 1).text
      modifies this
      ensures Valid(State())
      ensures p == OperatorSpec(old(State())) && State() == p.state
    {
      SlashBranches(next, PeekSpec(State(), 2));
      assert OperatorSpec(State()) == Perform(State(), OperatorBranch('/', next, PeekSpec(State(), 2)));
      var token: Token;
      if next == "/" {
        var third := PeekCharacter(2);
        if third.Raised? {
          return Raising(State(), third.error);
        } else if third.text == "=" {
          token := MakeThreeCharacterToken(DoubleSlashEqual);
        } else {
          token := MakeTwoCharacterToken(DoubleSlash);
        }
      } else if next == "=" {
        token := MakeTwoCharacterToken(SlashEqual);
      } else {
        token := Token(Slash, character);
      }
      return Assigned(State(), token);
    }

    /** The operator branches of `next_token`, up to line 140, in the order the source tries them:
        `% ( ) * + , -`, then `.`, then `/`, then `: < = >`, then `[ ] { } !`. */
    method OperatorToken() returns (p: Pending)
      requires Valid(State()) && character != [] && character[0] in OPERATOR_STARTS
      modifies this
      ensures Valid(State())
      ensures p == OperatorSpec(old(State())) && State() == p.state
    {
      var head := character[0];
      var next := PeekCharacter(1);
      if head in "%()*+,-" {
        p := LeadingOperatorToken(next.text);
      } else if head == '.' {
        p := DotToken(next.text);
      } else if head == '/' {
        p := SlashToken(next.text);
      } else if head in ":<=>" {
        p := ComparisonToken(next.text);
      } else {
        p := BracketOrNegationToken(next.text);
      }
    }

    /** The branches for `%`, `(`, `)`, `*`, `+`, `,` and `-`. */
    method LeadingOperatorToken(next: string) returns (p: Pending)
      requires Valid(State()) && character != [] && character[0] in "%()*+,-"
      requires next == PeekSpec(State(), 1).text
      modifies this
      ensures Valid(State())
      ensures p == OperatorSpec(old(State())) && State() == p.state
    {
      var c := character;
      var head := c[0];
      var token: Token;
      if head == '%' {
        if next == "=" {
          token := MakeTwoCharacterToken(PercentEqual);
        } else {
          token := Token(Percent, c);
        }
      } else if head == '(' {
        token := Token(LParen, c);
      } else if head == ')' {
        token := Token(RParen, c);
      } else if head == '*' {
        if next == "=" {
          token := MakeTwoCharacterToken(StarEqual);
        } else if next == "*" {
          token := MakeTwoCharacterToken(DoubleStar);
        } else {
          token := Token(Star, c);
        }
      } else if head == '+' {
        if next == "+" {
          token := MakeTwoCharacterToken(DoublePlus);
        } else if next == "=" {
          token := MakeTwoCharacterToken(PlusEqual);
        } else {
          token := Token(Plus, c);
        }
      } else if head == ',' {
        token := Token(Comma, c);
      } else {
        assert head == '-';
        if next == "-" {
          token := MakeTwoCharacterToken(DoubleMinus);
        } else if next == "=" {
          token := MakeTwoCharacterToken(MinEqual);
        } else {
          token := Token(Minus, c);
        }
      }
      return Assigned(State(), token);
    }

    /** The branches for `:`, `<`, `=` and `>`. */
    method ComparisonToken(next: string) returns (p: Pending)
      requires Valid(State()) && character != [] && character[0] in ":<=>"
      requires next == PeekSpec(State(), 1).text
      modifies this
      ensures Valid(State())
      ensures p == OperatorSpec(old(State())) && State() == p.state
    {
      var c := character;
      var head := c[0];
      ghost var b := OperatorBranch(head, next, PeekSpec(State(), 2));
      assert OperatorSpec(State()) == Perform(State(), b);
      ComparisonBranches(head, next, PeekSpec(State(), 2));
      var token: Token;
      if head == ':' {
        token := Token(Colon, c);
      } else if head == '<' {
        if next == "=" {
          token := MakeTwoCharacterToken(LessEqual);
        } else {
          token := Token(Less, c);
        }
      } else if head == '=' {
        if next == "=" {
          token := MakeTwoCharacterToken(EqEqual);
        } else {
          token := Token(Equal, c);
        }
      } else {
        assert head == '>';
        if next == "=" {
          token := MakeTwoCharacterToken(GreaterEqual);
        } else {
          token := Token(Greater, c);
        }
      }
      return Assigned(State(), token);
    }

    /** The branches for `[`, `]`, `{`, `}` and `!`. */
    method BracketOrNegationToken(next: string) returns (p: Pending)
      requires Valid(State()) && character != [] && character[0] in "[]{}!"
      requires next == PeekSpec(State(), 1).text
      modifies this
      ensures Valid(State())
      ensures p == OperatorSpec(old(State())) && State() == p.state
    {
      var c := character;
      var head := c[0];
      var token: Token;
      if head == '[' {
        token := Token(LBracket, c);
      } else if head == ']' {
        token := Token(RBracket, c);
      } else if head == '{' {
        token := Token(LBrace, c);
      } else if head == '}' {
        token := Token(RBrace, c);
      } else {
        assert head == '!';
        if next == "=" {
          token := MakeTwoCharacterToken(NotEqual);
        } else {
          token := Token(Negation, c);
        }
      }
      return Assigned(State(), token);
    }

    /** `next_token`: returns the token, or the exception it raises. */
    method NextToken() returns (r: Result<Token, PyError>)
      requires Valid(State())
      modifies this
      ensures Valid(State())
      ensures Next(State(), r) == NextTokenSpec(old(State()))
    {
      SkipWhitespace();
      var c := character;
      var pending: Pending;
      if c != [] && c[0] in OPERATOR_STARTS {
        pending := OperatorToken();
      } else if c != [] && IsLetter(c[0]) {
        var literal := ReadIdentifier();
        return Ok(Token(LookupTokenType(literal), literal));
      } else if c != [] && IsNumber(c[0]) {
        var literal := ReadNumber();
        if character == "." {
          ReadCharacter();
          var suffix := ReadNumber();
          return Ok(Token(Number, literal + "." + suffix));
        }
        return Ok(Token(Number, literal));
      } else if c == "\"" || c == "'" {
        var literal := ReadString();
        return Ok(Token(String, literal));
      } else if c == "" {
        pending := Assigned(State(), Token(Eof, c));
      } else {
        pending := Assigned(State(), Token(Illegal, c));
      }
      if pending.Raising? {
        return Err(pending.error);
      }
      ReadCharacter();
      if pending.Unassigned? {
        return Err(UnboundLocalError);
      }
      return Ok(pending.token);
    }
  }
}
