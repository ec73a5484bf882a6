/** The first Python draft of the lexer (fol/lexer.py): the scanner of `PyScan` with its own
    token table (`FolTokens`), fewer operators, `Integer` and `Float` numbers, and a line counter
    `_line` that `_read_character` bumps on every `'\n'` it reads from the source.

    The line is not part of `LexState`: `LineAt` counts the newlines among the characters read
    so far, and the class `Lexer` keeps its `line` field equal to it.  `NextTokenSpec` gives the
    meaning of `next_token`; `Scan` is an independent reference that reads the next token, and
    how far the line counter has got when the token is stamped, off the unscanned text alone.
    `NextTokenMatchesScan` proves the two agree on every input. */
module FolLexer {
  import opened Wrappers
  import opened PyScan
  import opened FolTokens

  /** The number of line breaks in `s`. */
  function Newlines(s: string): nat {
    if s == [] then 0 else (if s[0] == '\n' then 1 else 0) + Newlines(s[1..])
  }

  /** Counting newlines distributes over concatenation. */
  lemma {:induction false} NewlinesAppend(a: string, b: string)
    ensures Newlines(a + b) == Newlines(a) + Newlines(b)
  {
    if a != [] {
      assert (a + b)[1..] == a[1..] + b;
      NewlinesAppend(a[1..], b);
    } else {
      assert a + b == b;
    }
  }

  /** A text without line breaks counts none. */
  lemma {:induction false} NoNewlines(s: string)
    requires forall i :: 0 <= i < |s| ==> s[i] != '\n'
    ensures Newlines(s) == 0
  {
    if s != [] {
      NoNewlines(s[1..]);
    }
  }

  /** `_line`: 1, and one more for every `'\n'` read from the source so far. */
  function LineAt(st: LexState): int {
    1 + Newlines(Slice(st.source, 0, st.readPosition))
  }

  /** The line of the current character's position: 1 and the newlines before it. */
  function LineBefore(st: LexState): int {
    1 + Newlines(Slice(st.source, 0, st.position))
  }

  /** What `next_token` returns and the state it leaves. */
  datatype Next = Next(state: LexState, token: Token)

  /** `Token(kind, self._character, self._line)`. */
  function Here(st: LexState, kind: TokenType): Token {
    Token(kind, st.character, LineAt(st))
  }

  /** `_make_two_character_token(kind)`: the current character, one read, and the new one,
      stamped with the line after the read. */
  function MakeTwoSpec(st: LexState, kind: TokenType): (r: Next)
    ensures r.state == ReadCharacterSpec(st)
  {
    var second := ReadCharacterSpec(st);
    Next(second, Token(kind, st.character + second.character, LineAt(second)))
  }

  /** The characters that open an operator branch of `next_token`. */
  const OPERATORS: string := "=+-*/(){}[],<>!"

  /** What an operator branch does: a token of the current character, a two-character token,
      or, for `//`, a `COMMENTS` token that is overwritten by a `/` token after its read. */
  datatype Branch = One(kind: TokenType) | Two(kind: TokenType) | Overwritten

  /** The operator branches of lines 20-89, on the current character `c` and the peeked
      `next`. */
  function OperatorBranch(c: char, next: string): Branch
    requires c in OPERATORS
  {
    match c
    case '=' => if next == "=" then Two(Eq) else One(Assign)
    case '+' => One(Plus)
    case '-' => One(Minus)
    case '*' => One(Multiplication)
    case '/' => if next == "/" then Overwritten else One(Division)
    case '(' => One(LParen)
    case ')' => One(RParen)
    case '{' => One(LBrace)
    case '}' => One(RBrace)
    case '[' => One(LBracket)
    case ']' => One(RBracket)
    case ',' => One(Comma)
    case '<' => if next == "=" then Two(Le) else One(Lt)
    case '>' => if next == "=" then Two(Ge) else One(Gt)
    case '!' => if next == "=" then Two(NotEq) else One(Negation)
  }

  /** Carrying out a branch: the token it assigns and the state it leaves. */
  function Perform(st: LexState, b: Branch): Next {
    match b
    case One(kind) => Next(st, Here(st, kind))
    case Two(kind) => MakeTwoSpec(st, kind)
    case Overwritten =>
      var s := MakeTwoSpec(st, Comments).state;
      Next(s, Here(s, Division))
  }

  /** The operator branches on the state after whitespace. */
  function OperatorSpec(st: LexState): Next
    requires Valid(st) && st.character != [] && st.character[0] in OPERATORS
  {
    Perform(st, OperatorBranch(st.character[0], PeekSpec(st, 1).text))
  }

  /** The end of the input: the `EOL` test (a peek that is not empty) comes before `EOF`. */
  function EndSpec(st: LexState): Next
    requires Valid(st)
  {
    if PeekSpec(st, 1).text != "" then Next(st, Here(st, Eol)) else Next(st, Here(st, Eof))
  }

  /** Lines 111-113: one more read, then the assigned token is returned. */
  function FinishSpec(n: Next): Next {
    Next(ReadCharacterSpec(n.state), n.token)
  }

  /** The identifier branch: the longest run of letters and digits, classified by the keyword
      table, stamped with the line after the run's loop has read the character that ends it. */
  function IdentifierSpec(st: LexState): Next
    requires Valid(st)
  {
    var word := ReadRunSpec(st, IdentChar);
    Next(word.state, Token(LookupTokenType(word.text), word.text, LineAt(word.state)))
  }

  /** The number branch: a digit run is an `INTEGER`; if a `.` follows, the dot and a second
      digit run make a `FLOAT`. */
  function NumberSpec(st: LexState): Next
    requires Valid(st)
  {
    var whole := ReadRunSpec(st, Digit);
    if whole.state.character == "." then
      var fraction := ReadRunSpec(ReadCharacterSpec(whole.state), Digit);
      Next(fraction.state, Token(Float, whole.text + "." + fraction.text, LineAt(fraction.state)))
    else Next(whole.state, Token(Integer, whole.text, LineAt(whole.state)))
  }

  /** The string branch. */
  function StringSpec(st: LexState): Next
    requires Valid(st)
  {
    var body := ReadStringSpec(st);
    Next(body.state, Token(String, body.text, LineAt(body.state)))
  }

  /** The branches of `next_token` after whitespace has been skipped. */
  function DispatchSpec(st: LexState): Next
    requires Valid(st)
  {
    var c := st.character;
    if c == "" then FinishSpec(EndSpec(st))
    else if c[0] in OPERATORS then FinishSpec(OperatorSpec(st))
    else if IsLetter(c[0]) then IdentifierSpec(st)
    else if IsNumber(c[0]) then NumberSpec(st)
    else if c == "\"" || c == "'" then StringSpec(st)
    else FinishSpec(Next(st, Here(st, Illegal)))
  }

  /** `next_token`. */
  function NextTokenSpec(st: LexState): Next
    requires Valid(st)
  {
    DispatchSpec(SkipWhitespaceSpec(st))
  }

  // ---------------------------------------------------------------------------------------
  // Reference: the next token read off the unscanned text

  /** The two-character operators. */
  function TwoChar(first: char, second: char): Option<TokenType> {
    match (first, second)
    case ('=', '=') => Some(Eq)
    case ('<', '=') => Some(Le)
    case ('>', '=') => Some(Ge)
    case ('!', '=') => Some(NotEq)
    case _ => None
  }

  /** The one-character operators and punctuation. */
  function OneChar(c: char): Option<TokenType> {
    match c
    case '=' => Some(Assign)
    case '+' => Some(Plus)
    case '-' => Some(Minus)
    case '*' => Some(Multiplication)
    case '/' => Some(Division)
    case '(' => Some(LParen)
    case ')' => Some(RParen)
    case '{' => Some(LBrace)
    case '}' => Some(RBrace)
    case '[' => Some(LBracket)
    case ']' => Some(RBracket)
    case ',' => Some(Comma)
    case '<' => Some(Lt)
    case '>' => Some(Gt)
    case '!' => Some(Negation)
    case _ => None
  }

  /** The next token's kind and literal, the characters it uses, and how many characters from
      its first one had been read when it was stamped with the line. */
  datatype Lexed = Lexed(kind: TokenType, literal: string, used: nat, seen: nat)

  /** An operator at the head of `text`: `//` first, then the two-character table, then the
      one-character table. */
  function LexOperator(text: string): Lexed
    requires text != [] && OneChar(text[0]).Some?
  {
    if |text| >= 2 && text[0] == '/' && text[1] == '/' then Lexed(Division, "/", 2, 2)
    else if |text| >= 2 && TwoChar(text[0], text[1]).Some? then
      Lexed(TwoChar(text[0], text[1]).value, text[..2], 2, 2)
    else Lexed(OneChar(text[0]).value, [text[0]], 1, 1)
  }

  /** A word: the longest run of letters and digits, classified by the keyword table. */
  function LexWord(text: string): Lexed {
    var n := Run(text, IdentChar);
    Lexed(LookupTokenType(text[..n]), text[..n], n, n + 1)
  }

  /** A number: `INTEGER` for digits alone, `FLOAT` when a `.` and more digits follow. */
  function LexNumber(text: string): Lexed {
    var m := NumberLength(text);
    Lexed(if m == Run(text, Digit) then Integer else Float, text[..m], m, m + 1)
  }

  /** A string: the text after the opening quote up to the next identical quote. */
  function LexString(text: string): Lexed
    requires text != []
  {
    var n := UpTo(text[1..], text[0]);
    Lexed(String, text[1..][..n], n + 2, n + 3)
  }

  /** The token at the head of `text`, which does not start with whitespace.  `//` is a single
      `/` token that uses both characters; a word, a number or a string is stamped after the
      character that follows it has been read. */
  function Lex(text: string): Lexed {
    if text == [] then Lexed(Eof, "", 0, 1)
    else if OneChar(text[0]).Some? then LexOperator(text)
    else if IsLetter(text[0]) then LexWord(text)
    else if IsNumber(text[0]) then LexNumber(text)
    else if text[0] == '"' || text[0] == '\'' then LexString(text)
    else Lexed(Illegal, [text[0]], 1, 1)
  }

  /** Leading whitespace, then `Lex`. */
  function Scan(text: string): Lexed {
    var k := Run(text, Whitespace);
    var t := Lex(text[k..]);
    Lexed(t.kind, t.literal, k + t.used, k + t.seen)
  }

  /** `next` is what `lexed` says of the text unscanned in `st`: the token, stamped with the
      line of `st`'s position plus the newlines among the `seen` characters from there. */
  predicate Agrees(st: LexState, next: Next, lexed: Lexed) {
    Valid(next.state) && next.state.source == st.source &&
    Rest(next.state) == Drop(Rest(st), lexed.used) &&
    next.token == Token(lexed.kind, lexed.literal, LineBefore(st) + Newlines(Slice(Rest(st), 0, lexed.seen)))
  }

  // ---------------------------------------------------------------------------------------
  // The line counter

  /** `_read_character` adds one to the line exactly when the character it reads is `'\n'`. */
  lemma ReadCountsNewline(st: LexState)
    ensures var r := ReadCharacterSpec(st);
      LineAt(r) == LineAt(st) + (if r.character == "\n" then 1 else 0)
  {
    var s := st.source;
    var j := st.readPosition;
    if j < |s| {
      assert Slice(s, 0, j + 1) == Slice(s, 0, j) + [s[j]];
      NewlinesAppend(Slice(s, 0, j), [s[j]]);
    } else {
      assert Slice(s, 0, j + 1) == Slice(s, 0, j);
    }
  }

  /** The newlines in the first `p + j` characters: those in the first `p`, and those in the
      first `j` after them. */
  lemma NewlinesSplit(s: string, p: nat, j: nat)
    ensures Newlines(Slice(s, 0, p + j)) == Newlines(Slice(s, 0, p)) + Newlines(Slice(Drop(s, p), 0, j))
  {
    if p + j <= |s| {
      assert s[..p + j] == s[..p] + s[p..p + j];
      assert Slice(Drop(s, p), 0, j) == s[p..p + j];
      NewlinesAppend(s[..p], s[p..p + j]);
    } else if p <= |s| {
      assert Slice(s, 0, p + j) == s[..|s|] == s[..p] + s[p..];
      assert Slice(Drop(s, p), 0, j) == s[p..];
      NewlinesAppend(s[..p], s[p..]);
    } else {
      assert Slice(s, 0, p + j) == s[..|s|] == Slice(s, 0, p);
    }
  }

  /** A state `n` characters further on than `st` stands at `st`'s position plus `n`, or past
      the end when that is. */
  lemma FurtherOn(st: LexState, r: LexState, n: nat, j: nat)
    requires Valid(st) && Valid(r) && r.source == st.source && Rest(r) == Drop(Rest(st), n)
    ensures Slice(st.source, 0, r.position + j) == Slice(st.source, 0, st.position + n + j)
  {
    var s := st.source;
    var p := st.position;
    DropDrop(s, p, n);
    if p + n < |s| {
      assert r.position == p + n;
    } else {
      assert r.position >= |s|;
      assert Slice(s, 0, r.position + j) == s[..|s|] == Slice(s, 0, p + n + j);
    }
  }

  /** A state `n` characters further on than `st` has read the newlines before `st`'s position
      and those among the `n + 1` characters from there. */
  lemma LineAfter(st: LexState, r: LexState, n: nat)
    requires Valid(st) && Valid(r) && r.source == st.source && Rest(r) == Drop(Rest(st), n)
    ensures LineAt(r) == LineBefore(st) + Newlines(Slice(Rest(st), 0, n + 1))
  {
    FurtherOn(st, r, n, 1);
    NewlinesSplit(st.source, st.position, n + 1);
  }

  /** The same for the line of the position itself, `n` characters further on. */
  lemma LineBeforeAfter(st: LexState, r: LexState, n: nat)
    requires Valid(st) && Valid(r) && r.source == st.source && Rest(r) == Drop(Rest(st), n)
    ensures LineBefore(r) == LineBefore(st) + Newlines(Slice(Rest(st), 0, n))
  {
    FurtherOn(st, r, n, 0);
    NewlinesSplit(st.source, st.position, n);
  }

  // ---------------------------------------------------------------------------------------
  // The state machine agrees with the reference

  /** A token made of the current character agrees with the reference's. */
  lemma SingleAgrees(st: LexState, kind: TokenType)
    requires Valid(st) && Rest(st) != []
    ensures Agrees(st, FinishSpec(Next(st, Here(st, kind))), Lexed(kind, [Rest(st)[0]], 1, 1))
  {
    CharacterIsHead(st);
    LineAfter(st, st, 0);
  }

  /** A two-character token agrees with the reference's. */
  lemma TwoAgrees(st: LexState, kind: TokenType)
    requires Valid(st) && |Rest(st)| >= 2
    ensures Agrees(st, FinishSpec(MakeTwoSpec(st, kind)), Lexed(kind, Rest(st)[..2], 2, 2))
  {
    var text := Rest(st);
    var second := ReadCharacterSpec(st);
    CharacterIsHead(st);
    CharacterIsHead(second);
    LineAfter(st, second, 1);
    DropDrop(text, 1, 1);
    assert second.character == [text[1]];
    assert st.character + second.character == text[..2];
  }

  /** `//` is one `/` token that uses both characters and is stamped after the second. */
  lemma OverwrittenAgrees(st: LexState)
    requires Valid(st) && |Rest(st)| >= 2 && Rest(st)[1] == '/'
    ensures Agrees(st, FinishSpec(Perform(st, Overwritten)), Lexed(Division, "/", 2, 2))
  {
    var text := Rest(st);
    var second := ReadCharacterSpec(st);
    CharacterIsHead(second);
    LineAfter(st, second, 1);
    DropDrop(text, 1, 1);
  }

  /** What the reference makes of the operator text for a branch. */
  function Outcome(b: Branch, text: string): Lexed
    requires text != []
  {
    match b
    case One(kind) => Lexed(kind, [text[0]], 1, 1)
    case Two(kind) => Lexed(kind, Slice(text, 0, 2), 2, 2)
    case Overwritten => Lexed(Division, "/", 2, 2)
  }

  /** The table-driven `LexOperator` makes the same choice as the branches, and a branch that
      reads a second character is taken only when there is one. */
  predicate BranchMatches(text: string)
    requires text != [] && text[0] in OPERATORS
  {
    var b := OperatorBranch(text[0], CharAt(text, 1));
    OneChar(text[0]).Some? && LexOperator(text) == Outcome(b, text) &&
    (b.Two? ==> |text| >= 2) && (b.Overwritten? ==> |text| >= 2 && text[1] == '/')
  }

  /** `BranchMatches` for the arithmetic operators that are always a token alone. */
  lemma BranchArithmetic(text: string)
    requires text != [] && text[0] in "+-*"
    ensures BranchMatches(text)
  {
  }

  /** `BranchMatches` for the parentheses and braces. */
  lemma BranchBracket(text: string)
    requires text != [] && text[0] in "(){}"
    ensures BranchMatches(text)
  {
  }

  /** `BranchMatches` for the square brackets and the comma. */
  lemma BranchSquare(text: string)
    requires text != [] && text[0] in "[],"
    ensures BranchMatches(text)
  {
  }

  /** `BranchMatches` for the characters an `=` may follow. */
  lemma BranchWithEqual(text: string)
    requires text != [] && text[0] in "=<>!"
    ensures BranchMatches(text)
  {
  }

  /** `BranchMatches` for `/`. */
  lemma BranchSlash(text: string)
    requires text != [] && text[0] == '/'
    ensures BranchMatches(text)
  {
  }

  lemma LexOperatorByBranch(text: string)
    requires text != [] && text[0] in OPERATORS
    ensures BranchMatches(text)
  {
    if text[0] in "+-*" {
      BranchArithmetic(text);
    } else if text[0] in "(){}" {
      BranchBracket(text);
    } else if text[0] in "[]," {
      BranchSquare(text);
    } else if text[0] in "=<>!" {
      BranchWithEqual(text);
    } else {
      BranchSlash(text);
    }
  }

  /** Carrying out a branch on the state agrees with the reference's reading of it. */
  lemma PerformAgrees(st: LexState, b: Branch)
    requires Valid(st) && Rest(st) != []
    requires b.Two? ==> |Rest(st)| >= 2
    requires b.Overwritten? ==> |Rest(st)| >= 2 && Rest(st)[1] == '/'
    ensures Agrees(st, FinishSpec(Perform(st, b)), Outcome(b, Rest(st)))
  {
    match b
    case One(kind) => SingleAgrees(st, kind);
    case Two(kind) => TwoAgrees(st, kind);
    case Overwritten => OverwrittenAgrees(st);
  }

  /** The end of the input: `EOF` with an empty literal; the `EOL` test before it never holds. */
  lemma EndAgrees(st: LexState)
    requires Valid(st) && st.character == ""
    ensures PeekSpec(st, 1).text == ""
    ensures Agrees(st, FinishSpec(EndSpec(st)), Lex(Rest(st)))
  {
    CharacterIsHead(st);
    LineAfter(st, st, 0);
  }

  /** Counting from a state `k` characters further on gives the same line as counting the
      `k` characters too. */
  lemma LineShift(st: LexState, r: LexState, k: nat, seen: nat)
    requires Valid(st) && Valid(r) && r.source == st.source && Rest(r) == Drop(Rest(st), k)
    ensures LineBefore(r) + Newlines(Slice(Rest(r), 0, seen)) == LineBefore(st) + Newlines(Slice(Rest(st), 0, k + seen))
  {
    LineBeforeAfter(st, r, k);
    NewlinesSplit(Rest(st), k, seen);
  }

  /** What agrees with the reference `k` characters further on agrees with it from `st`, once
      those `k` characters are counted in. */
  lemma Skipped(st: LexState, r: LexState, next: Next, lexed: Lexed, k: nat)
    requires Valid(st) && Valid(r) && r.source == st.source && Rest(r) == Drop(Rest(st), k)
    requires Agrees(r, next, lexed)
    ensures Agrees(st, next, Lexed(lexed.kind, lexed.literal, k + lexed.used, k + lexed.seen))
  {
    var line := next.token.line;
    var skipped := Lexed(lexed.kind, lexed.literal, k + lexed.used, k + lexed.seen);
    assert line == LineBefore(st) + Newlines(Slice(Rest(st), 0, skipped.seen)) by {
      SkippedLine(st, r, line, lexed.seen, k);
    }
    assert Rest(next.state) == Drop(Rest(st), skipped.used) by {
      SkippedRest(Rest(st), Rest(r), Rest(next.state), k, lexed.used);
    }
    AgreesFrom(st, next, skipped, line);
  }

  /** The line stamped `seen` characters on from `r` is the line `k + seen` characters on
      from `st`, when `r` is `k` characters on from `st`. */
  lemma SkippedLine(st: LexState, r: LexState, line: int, seen: nat, k: nat)
    requires Valid(st) && Valid(r) && r.source == st.source && Rest(r) == Drop(Rest(st), k)
    requires line == LineBefore(r) + Newlines(Slice(Rest(r), 0, seen))
    ensures line == LineBefore(st) + Newlines(Slice(Rest(st), 0, k + seen))
  {
    LineShift(st, r, k, seen);
  }

  /** Dropping `used` characters after `k` is dropping `k + used`. */
  lemma SkippedRest(s: string, t: string, u: string, k: nat, used: nat)
    requires t == Drop(s, k) && u == Drop(t, used)
    ensures u == Drop(s, k + used)
  {
    DropDrop(s, k, used);
  }

  /** `Agrees`, from its parts. */
  lemma AgreesFrom(st: LexState, next: Next, lexed: Lexed, line: int)
    requires Valid(next.state) && next.state.source == st.source
    requires Rest(next.state) == Drop(Rest(st), lexed.used)
    requires next.token == Token(lexed.kind, lexed.literal, line)
    requires line == LineBefore(st) + Newlines(Slice(Rest(st), 0, lexed.seen))
    ensures Agrees(st, next, lexed)
  {
  }

  /** The operator branches agree with `LexOperator`. */
  lemma OperatorAgrees(st: LexState)
    requires Valid(st) && st.character != [] && st.character[0] in OPERATORS
    ensures Agrees(st, FinishSpec(OperatorSpec(st)), Lex(Rest(st)))
  {
    var text := Rest(st);
    CharacterIsHead(st);
    PeekOne(st);
    LexOperatorByBranch(text);
    PerformAgrees(st, OperatorBranch(text[0], CharAt(text, 1)));
  }

  /** A token stamped in the state `e`, `seen - 1` characters on from `st`, agrees with the
      reference's reading when it has the reference's kind and literal and the scanner ends up
      `used` characters on. */
  lemma Emitted(st: LexState, e: LexState, next: Next, lexed: Lexed)
    requires Valid(st) && Valid(e) && e.source == st.source && lexed.seen >= 1
    requires Rest(e) == Drop(Rest(st), lexed.seen - 1)
    requires Valid(next.state) && next.state.source == st.source
    requires Rest(next.state) == Drop(Rest(st), lexed.used)
    requires next.token == Token(lexed.kind, lexed.literal, LineAt(e))
    ensures Agrees(st, next, lexed)
  {
    LineAfter(st, e, lexed.seen - 1);
  }

  /** A word read by the identifier loop, given any kind, agrees with the reference's
      reading of it. */
  lemma WordEmitted(st: LexState, kind: TokenType)
    requires Valid(st)
    ensures var word := ReadRunSpec(st, IdentChar); var n := Run(Rest(st), IdentChar);
      Agrees(st, Next(word.state, Token(kind, word.text, LineAt(word.state))), Lexed(kind, Rest(st)[..n], n, n + 1))
  {
    ReadRunReturnsRun(st, IdentChar);
    var word := ReadRunSpec(st, IdentChar);
    var n := Run(Rest(st), IdentChar);
    Emitted(st, word.state, Next(word.state, Token(kind, word.text, LineAt(word.state))), Lexed(kind, Rest(st)[..n], n, n + 1));
  }

  /** The identifier branch agrees with the reference's reading of a word. */
  lemma IdentifierAgrees(st: LexState)
    requires Valid(st) && st.character != [] && IsLetter(st.character[0])
    ensures Agrees(st, IdentifierSpec(st), LexWord(Rest(st)))
  {
    ReadRunReturnsRun(st, IdentChar);
    var word := ReadRunSpec(st, IdentChar);
    WordEmitted(st, LookupTokenType(word.text));
  }

  /** A number with a `.` after its digits agrees with `Lex`: a `FLOAT`. */
  lemma FloatAgrees(st: LexState)
    requires Valid(st) && st.character != [] && IsNumber(st.character[0])
    requires ReadRunSpec(st, Digit).state.character == "."
    ensures Agrees(st, NumberSpec(st), LexNumber(Rest(st)))
  {
    var text := Rest(st);
    var whole := ReadRunSpec(st, Digit);
    var m := NumberLength(text);
    var fraction := ReadRunSpec(ReadCharacterSpec(whole.state), Digit);
    FloatRead(st);
    FloatLexed(text);
    FloatEmitted(st, fraction.state, NumberSpec(st), LexNumber(text), m);
  }

  /** `Emitted`, for a `FLOAT` of the first `m` characters. */
  lemma FloatEmitted(st: LexState, e: LexState, next: Next, lexed: Lexed, m: nat)
    requires Valid(st) && Valid(e) && e.source == st.source && m <= |Rest(st)| && Rest(e) == Drop(Rest(st), m)
    requires next == Next(e, Token(Float, Rest(st)[..m], LineAt(e)))
    requires lexed == Lexed(Float, Rest(st)[..m], m, m + 1)
    ensures Agrees(st, next, lexed)
  {
    Emitted(st, e, next, lexed);
  }

  /** The number branch on digits then a `.` emits a `FLOAT` of the `NumberLength` first
      characters and stands just after them. */
  lemma FloatRead(st: LexState)
    requires Valid(st) && ReadRunSpec(st, Digit).state.character == "."
    ensures var text := Rest(st); var m := NumberLength(text);
      var fraction := ReadRunSpec(ReadCharacterSpec(ReadRunSpec(st, Digit).state), Digit);
      Run(text, Digit) < m && Rest(fraction.state) == Drop(text, m) &&
      NumberSpec(st) == Next(fraction.state, Token(Float, text[..m], LineAt(fraction.state)))
  {
    FractionReads(st);
  }

  /** A number longer than its leading digits is a `FLOAT`. */
  lemma FloatLexed(text: string)
    requires Run(text, Digit) < NumberLength(text)
    ensures var m := NumberLength(text); LexNumber(text) == Lexed(Float, text[..m], m, m + 1)
  {
  }

  /** A number without a `.` after its digits agrees with `Lex`: an `INTEGER`. */
  lemma IntegerAgrees(st: LexState)
    requires Valid(st) && st.character != [] && IsNumber(st.character[0])
    requires ReadRunSpec(st, Digit).state.character != "."
    ensures Agrees(st, NumberSpec(st), LexNumber(Rest(st)))
  {
    var text := Rest(st);
    var whole := ReadRunSpec(st, Digit);
    var m := NumberLength(text);
    IntegerReads(st);
    assert LexNumber(text) == Lexed(Integer, text[..m], m, m + 1);
    assert NumberSpec(st) == Next(whole.state, Token(Integer, text[..m], LineAt(whole.state)));
    Emitted(st, whole.state, NumberSpec(st), LexNumber(text));
  }

  /** The number branch agrees with the reference's reading of a number. */
  lemma NumberAgrees(st: LexState)
    requires Valid(st) && st.character != [] && IsNumber(st.character[0])
    ensures Agrees(st, NumberSpec(st), LexNumber(Rest(st)))
  {
    if ReadRunSpec(st, Digit).state.character == "." {
      FloatAgrees(st);
    } else {
      IntegerAgrees(st);
    }
  }

  /** The string branch agrees with the reference's reading of a string. */
  lemma StringAgrees(st: LexState)
    requires Valid(st) && (st.character == "\"" || st.character == "'")
    ensures Agrees(st, StringSpec(st), LexString(Rest(st)))
  {
    var text := Rest(st);
    CharacterIsHead(st);
    ReadStringUpToQuote(st);
    var n := UpTo(text[1..], text[0]);
    var body := ReadStringSpec(st);
    assert LexString(text) == Lexed(String, body.text, n + 2, n + 3);
    assert StringSpec(st) == Next(body.state, Token(String, body.text, LineAt(body.state)));
    Emitted(st, body.state, StringSpec(st), LexString(text));
  }

  /** After whitespace, the branches of `next_token` agree with `Lex`. */
  lemma DispatchAgrees(st: LexState)
    requires Valid(st)
    ensures Agrees(st, DispatchSpec(st), Lex(Rest(st)))
  {
    CharacterIsHead(st);
    var c := st.character;
    if c == "" {
      EndAgrees(st);
    } else if c[0] in OPERATORS {
      OperatorAgrees(st);
    } else if IsLetter(c[0]) {
      LexCases(Rest(st));
      IdentifierAgrees(st);
    } else if IsNumber(c[0]) {
      LexCases(Rest(st));
      NumberAgrees(st);
    } else if c == "\"" || c == "'" {
      LexCases(Rest(st));
      StringAgrees(st);
    } else {
      SingleAgrees(st, Illegal);
    }
  }

  /** `next_token` returns the token `Scan` finds at the head of the unscanned text, stamped
      with the line `Scan` says, and leaves exactly the characters `Scan` did not use. */
  lemma NextTokenMatchesScan(st: LexState)
    requires Valid(st)
    ensures Agrees(st, NextTokenSpec(st), Scan(Rest(st)))
  {
    var text := Rest(st);
    var skipped := SkipWhitespaceSpec(st);
    var k := Run(text, Whitespace);
    SkipWhitespaceRun(st);
    DropIsSlice(text, k);
    var lexed := Lex(Rest(skipped));
    DispatchAgrees(skipped);
    Skipped(st, skipped, DispatchSpec(skipped), lexed, k);
    assert Rest(skipped) == text[k..];
    assert NextTokenSpec(st) == DispatchSpec(skipped);
    assert Scan(text) == Lexed(lexed.kind, lexed.literal, k + lexed.used, k + lexed.seen);
  }

  // ---------------------------------------------------------------------------------------
  // Properties of the reference, hence of `next_token`

  /** Past leading whitespace, a token that is not a word, a number or a string is stamped
      with the line of its first character: the characters it was stamped after hold no
      newline. */
  lemma {:induction false} OperatorSeen(text: string)
    requires var k := Run(text, Whitespace);
      k == |text| || !(IsLetter(text[k]) || IsNumber(text[k]) || text[k] == '"' || text[k] == '\'')
    ensures Newlines(Slice(text, 0, Scan(text).seen)) == Newlines(text[..Run(text, Whitespace)])
  {
    var k := Run(text, Whitespace);
    var rest := text[k..];
    var lexed := Lex(rest);
    assert Scan(text).seen == k + lexed.seen;
    NewlinesSplit(text, k, lexed.seen);
    DropIsSlice(text, k);
    if k < |text| {
      RunIsLongest(text, Whitespace);
      assert rest[0] == text[k] && !IsSpace(rest[0]) && rest[0] != '\n';
      if OneChar(rest[0]).Some? {
        assert lexed == LexOperator(rest);
        assert lexed.seen == 1 || (lexed.seen == 2 && |rest| >= 2 && (rest[1] == '=' || rest[1] == '/'));
      } else {
        assert lexed == Lexed(Illegal, [rest[0]], 1, 1);
      }
      NoNewlines(Slice(rest, 0, lexed.seen));
    } else {
      assert Slice(rest, 0, lexed.seen) == [];
    }
    assert Slice(text, 0, k) == text[..k];
  }

  /** A token that is not a word, a number or a string is stamped with 1 plus the number of
      newlines in the source before its first character. */
  lemma OperatorLine(st: LexState)
    requires Valid(st)
    requires var text := Rest(st); var k := Run(text, Whitespace);
      k == |text| || !(IsLetter(text[k]) || IsNumber(text[k]) || text[k] == '"' || text[k] == '\'')
    ensures var k := Run(Rest(st), Whitespace);
      NextTokenSpec(st).token.line == 1 + Newlines(Slice(st.source, 0, st.position + k))
  {
    ScanLine(st);
    LeadingLines(st);
  }

  /** Under the same condition, the reference's line is the line after the leading
      whitespace. */
  lemma LeadingLines(st: LexState)
    requires Valid(st)
    requires var text := Rest(st); var k := Run(text, Whitespace);
      k == |text| || !(IsLetter(text[k]) || IsNumber(text[k]) || text[k] == '"' || text[k] == '\'')
    ensures var text := Rest(st); var k := Run(text, Whitespace);
      LineBefore(st) + Newlines(Slice(text, 0, Scan(text).seen)) == 1 + Newlines(Slice(st.source, 0, st.position + k))
  {
    var text := Rest(st);
    var k := Run(text, Whitespace);
    OperatorSeen(text);
    SourceLine(st, k);
  }

  /** The line `next_token` stamps, as the reference reads it. */
  lemma ScanLine(st: LexState)
    requires Valid(st)
    ensures NextTokenSpec(st).token.line == LineBefore(st) + Newlines(Slice(Rest(st), 0, Scan(Rest(st)).seen))
  {
    NextTokenMatchesScan(st);
  }

  /** The newlines in the source up to `k` characters past the position. */
  lemma SourceLine(st: LexState, k: nat)
    requires Valid(st) && k <= |Rest(st)|
    ensures Newlines(Slice(st.source, 0, st.position + k)) == LineBefore(st) - 1 + Newlines(Rest(st)[..k])
  {
    NewlinesSplit(st.source, st.position, k);
    assert Slice(Rest(st), 0, k) == Rest(st)[..k];
  }

  /** A word is stamped after the character that ends it has been read (`LexWord`'s `seen` is
      one past the word): a newline right after the word already counts, so in `x\n` the `x`
      is on line 2. */
  lemma WordLine(text: string)
    requires text != [] && IsLetter(text[0])
    ensures var n := Run(text, IdentChar);
      Newlines(Slice(text, 0, n + 1)) == (if n < |text| && text[n] == '\n' then 1 else 0)
  {
    var n := Run(text, IdentChar);
    RunIsLongest(text, IdentChar);
    IdentRunHasNoNewline(text, n);
    NewlinesAfterRun(text, n);
  }

  /** Identifier characters are not line breaks. */
  lemma IdentRunHasNoNewline(text: string, n: nat)
    requires n <= |text| && forall i :: 0 <= i < n ==> InClass(text[i], IdentChar)
    ensures forall i :: 0 <= i < n ==> text[i] != '\n'
  {
    forall i | 0 <= i < n
      ensures text[i] != '\n'
    {
      assert InClass(text[i], IdentChar);
    }
  }

  /** Past a prefix of `n` characters without a line break, the first `n + 1` characters hold
      a line break exactly when the next one is one. */
  lemma NewlinesAfterRun(text: string, n: nat)
    requires n <= |text|
    requires forall i :: 0 <= i < n ==> text[i] != '\n'
    ensures Newlines(Slice(text, 0, n + 1)) == (if n < |text| && text[n] == '\n' then 1 else 0)
  {
    NoNewlines(text[..n]);
    if n < |text| {
      assert Slice(text, 0, n + 1) == text[..n] + [text[n]];
      NewlinesAppend(text[..n], [text[n]]);
    } else {
      assert Slice(text, 0, n + 1) == text[..n];
    }
  }

  /** `//` is a single `/` token, `DIVISION`, that uses both characters. */
  lemma SlashSlash(text: string)
    requires |text| >= 2 && text[0] == '/' && text[1] == '/'
    ensures Lex(text) == Lexed(Division, "/", 2, 2)
  {
    assert Lex(text) == LexOperator(text);
  }

  /** `//` read as evidently intended: the two-character `COMMENTS` token the branch builds
      before it is overwritten. */
  function LexOperatorFixed(text: string): Lexed
    requires text != [] && OneChar(text[0]).Some?
  {
    if |text| >= 2 && text[0] == '/' && text[1] == '/' then Lexed(Comments, "//", 2, 2)
    else LexOperator(text)
  }

  /** Read that way, every operator token's literal is exactly the characters it uses (which
      `SlashSlash` shows the code as written breaks), and `COMMENTS` comes exactly from `//`. */
  lemma OperatorLiteralFixed(text: string)
    requires text != [] && OneChar(text[0]).Some?
    ensures var r := LexOperatorFixed(text);
      1 <= r.used <= |text| && r.literal == text[..r.used] &&
      (r.kind == Comments <==> |text| >= 2 && text[..2] == "//")
  {
  }

  /** A word stamped as evidently intended: with the line of its first character, counting only
      the characters before it. */
  function LexWordFixed(text: string): Lexed {
    var w := LexWord(text);
    Lexed(w.kind, w.literal, w.used, w.used)
  }

  /** Stamped that way, a word's line counts no newline of its own, whatever follows it (which
      `WordLine` shows the code as written breaks when a newline follows). */
  lemma WordLineFixed(text: string)
    requires text != [] && IsLetter(text[0])
    ensures LexWordFixed(text).literal == LexWord(text).literal
    ensures Newlines(Slice(text, 0, LexWordFixed(text).seen)) == 0
  {
    var n := Run(text, IdentChar);
    RunIsLongest(text, IdentChar);
    IdentRunHasNoNewline(text, n);
    NoNewlines(text[..n]);
    assert Slice(text, 0, n) == text[..n];
  }

  /** A number is stamped, as written, after the character that follows it has been read: it
      counts a newline of its own exactly when one follows it. */
  lemma NumberLine(text: string)
    requires text != [] && IsNumber(text[0])
    ensures var m := NumberLength(text);
      Newlines(Slice(text, 0, LexNumber(text).seen)) == (if m < |text| && text[m] == '\n' then 1 else 0)
  {
    var m := NumberLength(text);
    NumberHasNoNewline(text);
    NewlinesAfterRun(text, m);
  }

  /** The characters of a number, digits and at most one `.`, are not line breaks. */
  lemma NumberHasNoNewline(text: string)
    ensures forall i :: 0 <= i < NumberLength(text) ==> text[i] != '\n'
  {
    var n := Run(text, Digit);
    RunIsLongest(text, Digit);
    if n < |text| && text[n] == '.' {
      var tail := text[n + 1..];
      var f := Run(tail, Digit);
      RunIsLongest(tail, Digit);
      forall i | 0 <= i < NumberLength(text)
        ensures text[i] != '\n'
      {
        if i > n {
          assert text[i] == tail[i - n - 1];
          assert InClass(tail[i - n - 1], Digit);
        } else if i < n {
          assert InClass(text[i], Digit);
        }
      }
    } else {
      forall i | 0 <= i < NumberLength(text)
        ensures text[i] != '\n'
      {
        assert InClass(text[i], Digit);
      }
    }
  }

  /** A number stamped as evidently intended: with the line of its first character. */
  function LexNumberFixed(text: string): Lexed {
    var r := LexNumber(text);
    Lexed(r.kind, r.literal, r.used, r.used)
  }

  /** Stamped that way, a number's line counts no newline of its own, whatever follows it
      (which `NumberLine` shows the code as written breaks when a newline follows). */
  lemma NumberLineFixed(text: string)
    requires text != [] && IsNumber(text[0])
    ensures LexNumberFixed(text).literal == LexNumber(text).literal
    ensures Newlines(Slice(text, 0, LexNumberFixed(text).seen)) == 0
  {
    var m := NumberLength(text);
    NumberHasNoNewline(text);
    NoNewlines(text[..m]);
    assert Slice(text, 0, m) == text[..m];
  }

  /** A string is stamped, as written, after the closing quote and the character after it have
      been read: it counts the newlines inside it, and one more when a newline follows it. */
  lemma StringLine(text: string)
    requires text != [] && (text[0] == '"' || text[0] == '\'')
    ensures var n := UpTo(text[1..], text[0]);
      Newlines(Slice(text, 0, LexString(text).seen)) ==
        Newlines(LexString(text).literal) + (if n + 2 < |text| && text[n + 2] == '\n' then 1 else 0)
  {
    var q := text[0];
    var n := UpTo(text[1..], q);
    var literal := text[1..][..n];
    UpToIsFirst(text[1..], q);
    NewlinesAppend([q], literal);
    if n + 2 < |text| {
      assert text[n + 1] == q;
      assert Slice(text, 0, n + 3) == [q] + literal + [q] + [text[n + 2]];
      NewlinesAppend([q] + literal, [q]);
      NewlinesAppend([q] + literal + [q], [text[n + 2]]);
    } else if n + 2 == |text| {
      assert text[n + 1] == q;
      assert Slice(text, 0, n + 3) == [q] + literal + [q];
      NewlinesAppend([q] + literal, [q]);
    } else {
      assert Slice(text, 0, n + 3) == [q] + literal;
    }
  }

  /** A string stamped as evidently intended: with the line of its opening quote. */
  function LexStringFixed(text: string): Lexed
    requires text != []
  {
    var r := LexString(text);
    Lexed(r.kind, r.literal, r.used, 1)
  }

  /** Stamped that way, a string's line counts neither the newlines inside it nor one after it
      (both of which `StringLine` shows the code as written counts). */
  lemma StringLineFixed(text: string)
    requires text != [] && (text[0] == '"' || text[0] == '\'')
    ensures LexStringFixed(text).literal == LexString(text).literal
    ensures Newlines(Slice(text, 0, LexStringFixed(text).seen)) == 0
  {
    assert Slice(text, 0, 1) == [text[0]];
  }

  /** Digits alone make an `INTEGER`; digits, a `.` and digits (possibly none) make a `FLOAT`
      whose literal is `"a.b"`. */
  lemma NumberKinds(text: string)
    requires text != [] && IsNumber(text[0])
    ensures var n := Run(text, Digit); var r := LexNumber(text);
      if n < |text| && text[n] == '.' then
        var f := Run(text[n + 1..], Digit);
        r.kind == Float && r.literal == text[..n] + "." + text[n + 1..][..f] && r.used == n + 1 + f
      else r.kind == Integer && r.literal == text[..n] && r.used == n
  {
    var n := Run(text, Digit);
    if n < |text| && text[n] == '.' {
      FloatNumber(text, n);
    } else {
      assert NumberLength(text) == n;
    }
  }

  lemma FloatNumber(text: string, n: nat)
    requires n == Run(text, Digit) && n < |text| && text[n] == '.'
    ensures var f := Run(text[n + 1..], Digit); var r := LexNumber(text);
      r.kind == Float && r.literal == text[..n] + "." + text[n + 1..][..f] && r.used == n + 1 + f
  {
    var f := Run(text[n + 1..], Digit);
    NumberLengthWithDot(text);
    FloatLexed(text);
    DotSplit(text, n, f);
  }

  /** `Lex` makes `EOF` exactly at the end of the text, and never `EOL`. */
  lemma LexEnd(text: string)
    ensures Lex(text).kind != Eol
    ensures Lex(text).kind == Eof <==> |text| == 0
  {
    if text != [] {
      if OneChar(text[0]).Some? {
        assert Lex(text) == LexOperator(text);
      } else if IsLetter(text[0]) {
        assert Lex(text) == LexWord(text);
        LookupKinds(LexWord(text).literal);
      } else if IsNumber(text[0]) {
        assert Lex(text) == LexNumber(text);
      }
    }
  }

  /** `EOL` is never produced: at the end of the input the peek is empty too, so the answer is
      `EOF`. */
  lemma NeverEol(text: string)
    ensures Scan(text).kind != Eol
  {
    var k := Run(text, Whitespace);
    LexEnd(text[k..]);
  }

  /** `EOF` comes exactly once nothing but whitespace is left. */
  lemma EofAtEnd(text: string)
    ensures Scan(text).kind == Eof <==> Run(text, Whitespace) == |text|
  {
    EofOnlyAtEnd(text);
    EndGivesEof(text);
  }

  /** While more than whitespace is left, the answer is not `EOF`. */
  lemma EofOnlyAtEnd(text: string)
    ensures Run(text, Whitespace) != |text| ==> Scan(text).kind != Eof
  {
    if Run(text, Whitespace) < |text| {
      NotYetEof(text, Run(text, Whitespace));
    }
  }

  /** Something after the leading whitespace is read as something other than `EOF`. */
  lemma NotYetEof(text: string, k: nat)
    requires k == Run(text, Whitespace) && k < |text|
    ensures Scan(text).kind != Eof
  {
    LexEnd(text[k..]);
  }

  /** When only whitespace is left, the answer is `EOF`. */
  lemma EndGivesEof(text: string)
    ensures Run(text, Whitespace) == |text| ==> Scan(text).kind == Eof
  {
    var k := Run(text, Whitespace);
    LexEnd(text[k..]);
  }

  /** The kind `Scan` reports is the one `Lex` reads after the whitespace. */
  lemma ScanKind(text: string)
    ensures Scan(text).kind == Lex(text[Run(text, Whitespace)..]).kind
  {
  }

  /** A string is the text strictly between the opening quote and the next identical quote;
      without one it is the whole rest of the input. */
  lemma StringShape(text: string)
    requires text != [] && (text[0] == '"' || text[0] == '\'')
    ensures var r := Lex(text);
      r.kind == String && text[0] !in r.literal &&
      (if |r.literal| + 1 < |text| then text[|r.literal| + 1] == text[0] && text[1..|r.literal| + 1] == r.literal
       else r.literal == text[1..])
  {
    assert Lex(text) == LexString(text);
    UpToIsFirst(text[1..], text[0]);
  }

  /** Which reading `Lex` applies is decided by the first character. */
  lemma LexCases(text: string)
    requires text != [] && OneChar(text[0]).None?
    ensures IsLetter(text[0]) ==> Lex(text) == LexWord(text)
    ensures IsNumber(text[0]) ==> Lex(text) == LexNumber(text)
    ensures text[0] == '"' || text[0] == '\'' ==> Lex(text) == LexString(text)
  {
  }

  /** Any character that starts no operator, word, number or string is `ILLEGAL`, alone. */
  lemma IllegalCharacter(text: string)
    requires text != [] && OneChar(text[0]).None? && !IsLetter(text[0]) && !IsNumber(text[0])
    requires text[0] != '"' && text[0] != '\''
    ensures Lex(text) == Lexed(Illegal, [text[0]], 1, 1)
  {
  }

  // ---------------------------------------------------------------------------------------
  // The lexer object

  /** `Lexer`: the fields of fol/lexer.py. */
  class Lexer {
    var source: string
    var character: string
    var position: nat
    var readPosition: nat
    var line: int

    function State(): LexState
      reads this
    {
      LexState(source, character, position, readPosition)
    }

    /** The scanner is in step, and `line` counts the newlines read so far. */
    predicate Valid()
      reads this
    {
      PyScan.Valid(State()) && line == LineAt(State())
    }

    /** `Lexer.__init__`: positions at 0, line 1, then the first read. */
    constructor (source: string)
      ensures Valid() && State() == Initial(source)
    {
      this.source := source;
      character := "";
      readPosition := 0;
      position := 0;
      line := 1;
      new;
      assert line == LineAt(State());
      ReadCharacter();
    }

    /** `_read_character`: one more line when the character read is a newline. */
    method ReadCharacter()
      modifies this
      ensures State() == ReadCharacterSpec(old(State()))
      ensures line == old(line) + (if character == "\n" then 1 else 0)
      ensures old(line) == LineAt(old(State())) ==> line == LineAt(State())
    {
      ReadCountsNewline(State());
      if readPosition >= |source| {
        character := "";
      } else {
        character := [source[readPosition]];
        if character == "\n" {
          line := line + 1;
        }
      }
      position := readPosition;
      readPosition := readPosition + 1;
    }

    /** `_peek_character(skip)`: reads nothing, changes nothing. */
    method PeekCharacter(skip: nat) returns (r: PeekResult)
      requires skip >= 1
      ensures r == PeekSpec(State(), skip)
    {
      if readPosition >= |source| {
        return Peeked("");
      }
      if skip == 1 {
        return Peeked([source[readPosition]]);
      }
      if readPosition + (skip - 1) < |source| {
        return Peeked([source[readPosition + (skip - 1)]]);
      }
      return Raised(IndexError);
    }

    /** `_skip_whitespace`. */
    method SkipWhitespace()
      requires Valid()
      modifies this
      ensures Valid() && State() == SkipWhitespaceSpec(old(State()))
    {
      while character != [] && IsSpace(character[0])
        invariant Valid() && SkipWhitespaceSpec(State()) == SkipWhitespaceSpec(old(State()))
        decreases |source| - position
      {
        ReadCharacter();
      }
    }

    /** `_make_two_character_token`. */
    method MakeTwoCharacterToken(kind: TokenType) returns (token: Token)
      requires Valid()
      modifies this
      ensures Valid() && Next(State(), token) == MakeTwoSpec(old(State()), kind)
    {
      var prefix := character;
      ReadCharacter();
      var suffix := character;
      token := Token(kind, prefix + suffix, line);
    }

    /** `_read_identifier`. */
    method ReadIdentifier() returns (text: string)
      requires Valid()
      modifies this
      ensures Valid() && Reading(State(), text) == ReadRunSpec(old(State()), IdentChar)
    {
      var initial := position;
      while character != [] && IsIdentChar(character[0])
        invariant Valid() && ReadWhileSpec(State(), IdentChar) == ReadWhileSpec(old(State()), IdentChar)
        decreases |source| - position
      {
        ReadCharacter();
      }
      text := Slice(source, initial, position);
    }

    /** `_read_number`. */
    method ReadNumber() returns (text: string)
      requires Valid()
      modifies this
      ensures Valid() && Reading(State(), text) == ReadRunSpec(old(State()), Digit)
    {
      var initial := position;
      while character != [] && IsNumber(character[0])
        invariant Valid() && ReadWhileSpec(State(), Digit) == ReadWhileSpec(old(State()), Digit)
        decreases |source| - position
      {
        ReadCharacter();
      }
      text := Slice(source, initial, position);
    }

    /** `_read_string`. */
    method ReadString() returns (text: string)
      requires Valid()
      modifies this
      ensures Valid() && Reading(State(), text) == ReadStringSpec(old(State()))
    {
      var quote := character;
      ReadCharacter();
      var initial := position;
      ghost var inside := State();
      while character != quote && readPosition <= |source|
        invariant Valid() && StringLoopSpec(State(), quote) == StringLoopSpec(inside, quote)
        decreases |source| + 1 - position
      {
        ReadCharacter();
      }
      text := Slice(source, initial, position);
      ReadCharacter();
    }

    /** The operator branches of `next_token` for `=`, `<`, `>` and `!`, which an `=` may
        follow. */
    method ComparisonToken() returns (token: Token)
      requires Valid() && character != [] && character[0] in "=<>!"
      modifies this
      ensures Valid() && Next(State(), token) == OperatorSpec(old(State()))
    {
      var c := character;
      var next := PeekCharacter(1);
      if c == "=" {
        if next.text == "=" {
          token := MakeTwoCharacterToken(Eq);
        } else {
          token := Token(Assign, c, line);
        }
      } else if c == "<" {
        if next.text == "=" {
          token := MakeTwoCharacterToken(Le);
        } else {
          token := Token(Lt, c, line);
        }
      } else if c == ">" {
        if next.text == "=" {
          token := MakeTwoCharacterToken(Ge);
        } else {
          token := Token(Gt, c, line);
        }
      } else if next.text == "=" {
        token := MakeTwoCharacterToken(NotEq);
      } else {
        token := Token(Negation, c, line);
      }
    }

    /** The `/` branch: a second `/` is read as a `COMMENTS` token, which is then replaced by a
        `/` token of the character read. */
    method SlashToken() returns (token: Token)
      requires Valid() && character == "/"
      modifies this
      ensures Valid() && Next(State(), token) == OperatorSpec(old(State()))
    {
      var next := PeekCharacter(1);
      if next.text == "/" {
        token := MakeTwoCharacterToken(Comments);
      }
      token := Token(Division, character, line);
    }

    /** The arithmetic operators of `next_token` that are the current character alone. */
    method ArithmeticToken() returns (token: Token)
      requires Valid() && character != [] && character[0] in "+-*"
      ensures Next(State(), token) == OperatorSpec(State())
    {
      var c := character;
      if c == "+" {
        token := Token(Plus, c, line);
      } else if c == "-" {
        token := Token(Minus, c, line);
      } else {
        token := Token(Multiplication, c, line);
      }
    }

    /** The brackets and the comma. */
    method BracketToken() returns (token: Token)
      requires Valid() && character != [] && character[0] in "(){}[],"
      ensures Next(State(), token) == OperatorSpec(State())
    {
      var c := character;
      if c == "(" {
        token := Token(LParen, c, line);
      } else if c == ")" {
        token := Token(RParen, c, line);
      } else if c == "{" {
        token := Token(LBrace, c, line);
      } else if c == "}" {
        token := Token(RBrace, c, line);
      } else if c == "[" {
        token := Token(LBracket, c, line);
      } else if c == "]" {
        token := Token(RBracket, c, line);
      } else {
        token := Token(Comma, c, line);
      }
    }

    /** The operator branches of `next_token`, before its final read. */
    method OperatorToken() returns (token: Token)
      requires Valid() && character != [] && character[0] in OPERATORS
      modifies this
      ensures Valid() && Next(State(), token) == OperatorSpec(old(State()))
    {
      var c := character;
      if c[0] in "=<>!" {
        token := ComparisonToken();
      } else if c == "/" {
        token := SlashToken();
      } else if c[0] in "+-*" {
        token := ArithmeticToken();
      } else {
        token := BracketToken();
      }
    }

    /** The identifier branch, which returns without the final read. */
    method IdentifierToken() returns (token: Token)
      requires Valid() && character != [] && IsLetter(character[0])
      modifies this
      ensures Valid() && Next(State(), token) == IdentifierSpec(old(State()))
    {
      var literal := ReadIdentifier();
      var kind := LookupTokenType(literal);
      return Token(kind, literal, line);
    }

    /** The number branch, which returns without the final read. */
    method NumberToken() returns (token: Token)
      requires Valid() && character != [] && IsNumber(character[0])
      modifies this
      ensures Valid() && Next(State(), token) == NumberSpec(old(State()))
    {
      var literal := ReadNumber();
      if character == "." {
        ReadCharacter();
        var suffix := ReadNumber();
        return Token(Float, literal + "." + suffix, line);
      }
      return Token(Integer, literal, line);
    }

    /** `next_token`. */
    method NextToken() returns (token: Token)
      requires Valid()
      modifies this
      ensures Valid() && Next(State(), token) == NextTokenSpec(old(State()))
    {
      SkipWhitespace();
      var c := character;
      if c == "" {
        var next := PeekCharacter(1);
        if next.text != "" {
          token := Token(Eol, c, line);
        } else {
          token := Token(Eof, c, line);
        }
      } else if c[0] in OPERATORS {
        token := OperatorToken();
      } else if IsLetter(c[0]) {
        token := IdentifierToken();
        return;
      } else if IsNumber(c[0]) {
        token := NumberToken();
        return;
      } else if c == "\"" || c == "'" {
        var literal := ReadString();
        return Token(String, literal, line);
      } else {
        token := Token(Illegal, c, line);
      }
      ReadCharacter();
    }
  }
}
