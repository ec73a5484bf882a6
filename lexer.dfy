/** The pull-based tokenizer of the Rust front end (interpreter/ezcript_lexer/src/lexer.rs).

    The character source is the sequence of characters not yet read from it; `tokens` is the
    look-ahead queue (`VecDeque<char>`); once the source runs out, `peek` pads the queue with
    `'\0'` and `advance` produces a synthetic `'\0'`.  The functions below give the meaning of
    each operation on a `LexState`; the class `Lexer` implements them in place. */
module Lexer {
  import opened Wrappers
  import opened Tokens
  import opened EzcriptResult

  /** `char::is_whitespace`: the characters with the Unicode White_Space property. */
  predicate IsWhitespace(c: char) {
    ('\t' <= c <= '\r') || c == ' ' || c == '\U{0085}' || c == '\U{00A0}' || c == '\U{1680}' ||
    ('\U{2000}' <= c <= '\U{200A}') || c == '\U{2028}' || c == '\U{2029}' || c == '\U{202F}' ||
    c == '\U{205F}' || c == '\U{3000}'
  }

  /** The lexer's fields, as a value. */
  datatype LexState = LexState(source: seq<char>, tokens: seq<char>, lexeme: string, line: nat, eof: bool)

  /** What `next_token` hands back: `None`, `Some(result)`, or a panic of the `unwrap` on line 40. */
  datatype Pull = Exhausted | Item(result: Result<Token, EzcriptError>) | Panicked

  function Nulls(k: nat): (s: seq<char>)
    ensures |s| == k && forall i :: 0 <= i < k ==> s[i] == '\0'
  {
    seq(k, _ => '\0')
  }

  /** Number of characters other than `'\0'`: what is left to scan.  Padding never adds to it. */
  function Real(s: seq<char>): nat {
    if s == [] then 0 else (if s[0] == '\0' then 0 else 1) + Real(s[1..])
  }

  function Remaining(st: LexState): nat {
    Real(st.source) + Real(st.tokens)
  }

  lemma {:induction false} RealAppend(a: seq<char>, b: seq<char>)
    ensures Real(a + b) == Real(a) + Real(b)
  {
    if a == [] {
      assert a + b == b;
    } else {
      assert (a + b)[1..] == a[1..] + b;
      RealAppend(a[1..], b);
    }
  }

  lemma {:induction false} RealNulls(k: nat)
    ensures Real(Nulls(k)) == 0
  {
    if k > 0 {
      assert Nulls(k)[1..] == Nulls(k - 1);
      RealNulls(k - 1);
    }
  }

  /** `advance`: nothing once `eof` is set; otherwise the front of the queue, or the next source
      character, or (both empty) the sentinel `'\0'`, which sets `eof`.  The character is
      appended to the lexeme. */
  function AdvanceSpec(st: LexState): (r: (LexState, Option<char>))
    ensures r.1 == None <==> st.eof
    ensures st.eof ==> r.0 == st
    ensures r.0.line == st.line
    ensures Remaining(r.0) <= Remaining(st)
    ensures r.1.Some? && r.1.value != '\0' ==> Remaining(r.0) < Remaining(st) && !r.0.eof
    ensures !st.eof && st.tokens != [] ==> r.1 == Some(st.tokens[0]) && !r.0.eof
  {
    if st.eof then (st, None)
    else if st.tokens == [] then
      if st.source == [] then (st.(eof := true, lexeme := st.lexeme + ['\0']), Some('\0'))
      else (st.(source := st.source[1..], lexeme := st.lexeme + [st.source[0]]), Some(st.source[0]))
    else (st.(tokens := st.tokens[1..], lexeme := st.lexeme + [st.tokens[0]]), Some(st.tokens[0]))
  }

  /** `peek(skip)`: fills the queue to `skip` characters from the source, padding with `'\0'`
      once it is exhausted, and returns the `skip`-th; nothing is consumed. */
  function PeekSpec(st: LexState, skip: nat): (r: (LexState, char))
    requires skip > 0
    ensures |r.0.tokens| >= skip && r.1 == r.0.tokens[skip - 1]
    ensures r.0.lexeme == st.lexeme && r.0.line == st.line && r.0.eof == st.eof
    ensures Remaining(r.0) == Remaining(st)
  {
    if |st.tokens| >= skip then (st, st.tokens[skip - 1])
    else
      var need := skip - |st.tokens|;
      var taken := if need <= |st.source| then need else |st.source|;
      var queue := st.tokens + st.source[..taken] + Nulls(need - taken);
      assert Real(st.source) == Real(st.source[..taken]) + Real(st.source[taken..]) by {
        RealAppend(st.source[..taken], st.source[taken..]);
        assert st.source == st.source[..taken] + st.source[taken..];
      }
      assert Real(queue) == Real(st.tokens) + Real(st.source[..taken]) by {
        RealAppend(st.tokens + st.source[..taken], Nulls(need - taken));
        RealAppend(st.tokens, st.source[..taken]);
        RealNulls(need - taken);
      }
      (st.(tokens := queue, source := st.source[taken..]), queue[skip - 1])
  }

  /** A static token: the given kind, the current lexeme and line, no literal. */
  function Emit(st: LexState, kind: TokenKind): Pull {
    Item(Ok(Token(kind, st.lexeme, None, st.line)))
  }

  /** `match_advance(c)`: consumes the next character exactly when it is `c`. */
  function MatchAdvanceSpec(st: LexState, c: char): (r: (LexState, bool))
    requires !st.eof
    ensures !r.0.eof && r.0.line == st.line && Remaining(r.0) <= Remaining(st)
  {
    var (peeked, next) := PeekSpec(st, 1);
    if next == c then (AdvanceSpec(peeked).0, true) else (peeked, false)
  }

  /** `match_static_token(c, first, second)`: `first` if the next character is `c` (and it is
      consumed), `second` otherwise. */
  function MatchStaticTokenSpec(st: LexState, c: char, first: TokenKind, second: TokenKind): (r: (LexState, Pull))
    requires !st.eof
    ensures !r.0.eof && Remaining(r.0) <= Remaining(st)
  {
    var advanced := MatchAdvanceSpec(st, c);
    (advanced.0, Emit(advanced.0, if advanced.1 then first else second))
  }

  /** `advance_until(stops)`: consumes characters up to, not including, the first one in
      `stops` or `'\0'`; returns the last character consumed (`last` if none). */
  function AdvanceUntilSpec(st: LexState, stops: set<char>, last: char): (r: (LexState, char))
    requires !st.eof
    ensures !r.0.eof && r.0.line == st.line && Remaining(r.0) <= Remaining(st)
    decreases Remaining(st)
  {
    var (peeked, next) := PeekSpec(st, 1);
    if next in stops || next == '\0' then (peeked, last)
    else AdvanceUntilSpec(AdvanceSpec(peeked).0, stops, next)
  }

  /** `line_comment`: discards up to, not including, the next `'\n'` or the end. */
  function LineCommentSpec(st: LexState): (r: LexState)
    requires !st.eof
    ensures !r.eof && r.line == st.line && Remaining(r) <= Remaining(st)
  {
    AdvanceUntilSpec(st, {'\n'}, '\0').0.(lexeme := [])
  }

  /** The loop of `block_comment`: stops after `*#` (and one more character), or at the end;
      counts the newlines it passes. */
  function BlockCommentLoopSpec(st: LexState): (r: LexState)
    requires !st.eof
    ensures Remaining(r) <= Remaining(st)
    decreases Remaining(st)
  {
    var scanned := AdvanceUntilSpec(st, {'\n', '#'}, '\0').0;
    var last := AdvanceUntilSpec(st, {'\n', '#'}, '\0').1;
    var peeked := PeekSpec(scanned, 1).0;
    var next := PeekSpec(scanned, 1).1;
    if next == '\n' then
      BlockCommentLoopSpec(AdvanceSpec(peeked.(line := peeked.line + 1)).0)
    else if last == '*' && next == '#' then
      AdvanceSpec(AdvanceSpec(peeked).0).0
    else if next == '\0' then
      peeked
    else
      BlockCommentLoopSpec(AdvanceSpec(peeked).0)
  }

  /** `block_comment`, entered with the `*` of `#*` next in the queue. */
  function BlockCommentSpec(st: LexState): (r: LexState)
    requires !st.eof && st.tokens != []
    ensures Remaining(r) <= Remaining(st)
  {
    BlockCommentLoopSpec(AdvanceSpec(st).0).(lexeme := [])
  }

  /** The calls a round of the loop makes: `advance_until`, returning `last`, then a peek of
      `next`, leaving `peeked`. */
  ghost predicate RoundReads(st: LexState, last: char, peeked: LexState, next: char) {
    !st.eof &&
    var s1 := AdvanceUntilSpec(st, {'\n', '#'}, '\0').0;
    last == AdvanceUntilSpec(st, {'\n', '#'}, '\0').1 &&
    peeked == PeekSpec(s1, 1).0 && next == PeekSpec(s1, 1).1
  }

  /** One unfolding of the loop, in the names of `RoundReads`, one lemma per way out of a
      round: a newline, a closing `*#`, the end, and anything else. */
  lemma BlockLoopOnNewline(st: LexState, last: char, peeked: LexState, next: char)
    requires RoundReads(st, last, peeked, next) && next == '\n'
    ensures BlockCommentLoopSpec(st) == BlockCommentLoopSpec(AdvanceSpec(peeked.(line := peeked.line + 1)).0)
  {
    var bumped := peeked.(line := peeked.line + 1);
    assert bumped.tokens != [] && !bumped.eof;
    assert !AdvanceSpec(bumped).0.eof;
  }

  lemma BlockLoopOnClose(st: LexState, last: char, peeked: LexState, next: char)
    requires RoundReads(st, last, peeked, next) && last == '*' && next == '#'
    ensures BlockCommentLoopSpec(st) == AdvanceSpec(AdvanceSpec(peeked).0).0
  {
  }

  lemma BlockLoopOnEnd(st: LexState, last: char, peeked: LexState, next: char)
    requires RoundReads(st, last, peeked, next) && next == '\0'
    ensures BlockCommentLoopSpec(st) == peeked
  {
  }

  lemma BlockLoopOnHash(st: LexState, last: char, peeked: LexState, next: char)
    requires RoundReads(st, last, peeked, next) && next != '\n' && next != '\0' && !(last == '*' && next == '#')
    ensures BlockCommentLoopSpec(st) == BlockCommentLoopSpec(AdvanceSpec(peeked).0)
  {
  }

  /** The `#` arm of `next_token`: `#*` opens a block comment, any other `#` a line comment. */
  function CommentSpec(st: LexState): (r: LexState)
    requires !st.eof
    ensures Remaining(r) <= Remaining(st)
  {
    var (peeked, next) := PeekSpec(st, 1);
    if next == '*' then BlockCommentSpec(peeked) else LineCommentSpec(peeked)
  }

  /** `-`, `+`, `*`, `/`: the doubled character, `>` after `-`, or `=` selects the compound
      kind; otherwise the one-character kind. */
  function CompoundSpec(st: LexState, c: char): (r: (LexState, Pull))
    requires !st.eof && c in "-+*/"
    ensures !r.0.eof && Remaining(r.0) <= Remaining(st)
  {
    var (peeked, next) := PeekSpec(st, 1);
    var single := if c == '-' then Minus else if c == '+' then Plus else if c == '*' then Star else Slash;
    if next == c then
      MatchStaticTokenSpec(peeked, c,
        if c == '-' then DoubleMinus else if c == '+' then DoublePlus else if c == '*' then DoubleStar else DoubleSlash,
        single)
    else if c == '-' && next == '>' then MatchStaticTokenSpec(peeked, '>', RArrow, Minus)
    else if next == '=' then
      MatchStaticTokenSpec(peeked, '=',
        if c == '-' then MinEqual else if c == '+' then PlusEqual else if c == '*' then StarEqual else SlashEqual,
        single)
    else (peeked, Emit(peeked, single))
  }

  /** The one-character tokens that need no look-ahead. */
  function Punctuation(c: char): Option<TokenKind> {
    match c
    case '(' => Some(LParen) case ')' => Some(RParen) case '{' => Some(LBrace) case '}' => Some(RBrace)
    case '[' => Some(LBracket) case ']' => Some(RBracket) case ':' => Some(Colon) case ',' => Some(Comma)
    case '%' => Some(Percent) case '.' => Some(Dot)
    case _ => None
  }

  /** The loop of `next_token`: reads one character and either returns a token or an error,
      or (whitespace, comments) goes round again. */
  function ScanSpec(st: LexState): (r: (LexState, Pull))
    decreases Remaining(st)
  {
    var (st1, read) := AdvanceSpec(st);
    if read.None? then (st1, Panicked)
    else
      var c := read.value;
      if c == '\0' then (st1.(eof := true), Emit(st1, Eof))
      else if Punctuation(c).Some? then (st1, Emit(st1, Punctuation(c).value))
      else if c in "-+*/" then CompoundSpec(st1, c)
      else if c == '=' then MatchStaticTokenSpec(st1, '=', EqEqual, Equal)
      else if c == '!' then MatchStaticTokenSpec(st1, '=', BangEqual, Not)
      else if c == '<' then MatchStaticTokenSpec(st1, '=', LessEqual, Less)
      else if c == '>' then MatchStaticTokenSpec(st1, '=', GreaterEqual, Greater)
      else if c == '#' then ScanSpec(CommentSpec(st1))
      else if IsWhitespace(c) then
        ScanSpec(st1.(lexeme := [], line := if c == '\n' then st1.line + 1 else st1.line))
      else (st1, Item(Err(Lexical(st1.line, "unexpected character", st1.lexeme))))
  }

  /** Whitespace selects none of the arms before the whitespace arm. */
  lemma WhitespaceArms(c: char)
    requires IsWhitespace(c)
    ensures c != '\0' && Punctuation(c).None? && c !in "-+*/=!<>#"
  {
  }

  /** The `#` arm of the loop. */
  lemma CommentArm(st: LexState)
    requires AdvanceSpec(st).1 == Some('#')
    ensures !AdvanceSpec(st).0.eof && ScanSpec(st) == ScanSpec(CommentSpec(AdvanceSpec(st).0))
  {
    var st1 := AdvanceSpec(st).0;
    HashArms();
    assert ScanSpec(st) == ScanSpec(CommentSpec(st1));
  }

  /** `#` is in none of the arms before the comment arm. */
  lemma HashArms()
    ensures '#' != '\0' && Punctuation('#').None? && '#' !in "-+*/"
    ensures '#' != '=' && '#' != '!' && '#' != '<' && '#' != '>'
  {
  }

  /** The whitespace arm of the loop. */
  lemma WhitespaceArm(st: LexState, c: char)
    requires AdvanceSpec(st).1 == Some(c) && IsWhitespace(c)
    ensures var st1 := AdvanceSpec(st).0;
      ScanSpec(st) == ScanSpec(st1.(lexeme := [], line := if c == '\n' then st1.line + 1 else st1.line))
  {
    WhitespaceArms(c);
  }

  /** `next_token`: `None` once the end was reported; otherwise clears the lexeme and scans. */
  function NextTokenSpec(st: LexState): (LexState, Pull) {
    if st.eof then (st, Exhausted) else ScanSpec(st.(lexeme := []))
  }

  /** `Lexer::new`. */
  function Initial(source: seq<char>): LexState {
    LexState(source, [], [], 1, false)
  }

  /** `Lexer`: the fields of lexer.rs that the scanner reads and writes. */
  class Lexer {
    var source: seq<char>
    var tokens: seq<char>
    var lexeme: string
    var line: nat
    var eof: bool

    function State(): LexState
      reads this
    {
      LexState(source, tokens, lexeme, line, eof)
    }

    /** `Lexer::new`: empty queue and lexeme, line 1, not at the end. */
    constructor (source: seq<char>)
      ensures State() == Initial(source)
    {
      this.source := source;
      tokens := [];
      lexeme := [];
      line := 1;
      eof := false;
    }

    function StaticToken(kind: TokenKind): (r: Pull)
      reads this
      ensures r == Emit(State(), kind)
    {
      Item(Ok(Token(kind, lexeme, None, line)))
    }

    /** `err`: a lexical error at the current line carrying the lexeme read so far. */
    function LexError(msg: string): (r: Pull)
      reads this
      ensures r.Item? && r.result.Err? && r.result.error == Lexical(line, msg, lexeme)
    {
      Item(Err(Lexical(line, msg, lexeme)))
    }

    method Advance() returns (c: Option<char>)
      modifies this
      ensures State() == AdvanceSpec(old(State())).0
      ensures c == AdvanceSpec(old(State())).1
    {
      if eof {
        return None;
      }
      if tokens == [] {
        if source == [] {
          eof := true;
          c := Some('\0');
        } else {
          c := Some(source[0]);
          source := source[1..];
        }
      } else {
        c := Some(tokens[0]);
        tokens := tokens[1..];
      }
      lexeme := lexeme + [c.value];
    }

    method Peek(skip: nat) returns (c: char)
      requires skip > 0
      modifies this
      ensures State() == PeekSpec(old(State()), skip).0
      ensures c == PeekSpec(old(State()), skip).1
    {
      ghost var taken, padded := 0, 0;
      while |tokens| < skip
        invariant taken <= |old(source)| && source == old(source)[taken..]
        invariant tokens == old(tokens) + old(source)[..taken] + Nulls(padded)
        invariant |old(tokens)| >= skip ==> taken == 0 && padded == 0
        invariant padded > 0 ==> taken == |old(source)|
        invariant |old(tokens)| < skip ==> |tokens| <= skip
        invariant lexeme == old(lexeme) && line == old(line) && eof == old(eof)
        decreases skip - |tokens|
      {
        if source != [] {
          tokens := tokens + [source[0]];
          source := source[1..];
          taken := taken + 1;
        } else {
          tokens := tokens + ['\0'];
          padded := padded + 1;
        }
      }
      if |old(tokens)| >= skip {
        assert tokens == old(tokens);
      }
      c := tokens[skip - 1];
    }

    method MatchAdvance(c: char) returns (matched: bool)
      requires !eof
      modifies this
      ensures (State(), matched) == MatchAdvanceSpec(old(State()), c)
    {
      var next := Peek(1);
      if next == c {
        var _ := Advance();
        return true;
      }
      return false;
    }

    method MatchStaticToken(c: char, first: TokenKind, second: TokenKind) returns (r: Pull)
      requires !eof
      modifies this
      ensures State() == MatchStaticTokenSpec(old(State()), c, first, second).0
      ensures r == MatchStaticTokenSpec(old(State()), c, first, second).1
    {
      var matched := MatchAdvance(c);
      r := StaticToken(if matched then first else second);
    }

    method AdvanceUntil(stops: set<char>) returns (last: char)
      requires !eof
      modifies this
      ensures State() == AdvanceUntilSpec(old(State()), stops, '\0').0
      ensures last == AdvanceUntilSpec(old(State()), stops, '\0').1
    {
      last := '\0';
      while true
        invariant !eof
        invariant AdvanceUntilSpec(State(), stops, last) == AdvanceUntilSpec(old(State()), stops, '\0')
        decreases Remaining(State())
      {
        var next := Peek(1);
        if next in stops || next == '\0' {
          return;
        }
        last := next;
        var _ := Advance();
      }
    }

    method LineComment()
      requires !eof
      modifies this
      ensures State() == LineCommentSpec(old(State()))
    {
      var _ := AdvanceUntil({'\n'});
      lexeme := [];
    }

    method BlockComment()
      requires !eof && tokens != []
      modifies this
      ensures State() == BlockCommentSpec(old(State()))
    {
      var _ := Advance(); // the `*` of `#*`
      ghost var start := State();
      while true
        invariant !eof
        invariant BlockCommentLoopSpec(State()) == BlockCommentLoopSpec(start)
        decreases Remaining(State())
      {
        var closed := BlockRound();
        if closed {
          break;
        }
      }
      lexeme := [];
    }

    /** One pass of the loop of `block_comment`: `true` when it left the loop, at the closing
        `*#` or at the end, and `false` when it goes round again. */
    method BlockRound() returns (closed: bool)
      requires !eof
      modifies this
      ensures closed ==> State() == BlockCommentLoopSpec(old(State()))
      ensures !closed ==> !eof && Remaining(State()) < Remaining(old(State()))
      ensures !closed ==> BlockCommentLoopSpec(State()) == BlockCommentLoopSpec(old(State()))
    {
      ghost var round := State();
      var last := AdvanceUntil({'\n', '#'});
      var next := Peek(1);
      ghost var peeked := State();
      assert RoundReads(round, last, peeked, next);
      if next == '\n' {
        line := line + 1;
        BlockLoopOnNewline(round, last, peeked, next);
        assert State() == peeked.(line := peeked.line + 1);
      } else if last == '*' && next == '#' {
        BlockLoopOnClose(round, last, peeked, next);
        var _ := Advance();
        var _ := Advance();
        return true;
      } else if next == '\0' {
        BlockLoopOnEnd(round, last, peeked, next);
        return true;
      } else {
        BlockLoopOnHash(round, last, peeked, next);
      }
      ghost var before := State();
      assert BlockCommentLoopSpec(round) == BlockCommentLoopSpec(AdvanceSpec(before).0);
      var _ := Advance();
      return false;
    }

    /** The `-`, `+`, `*` and `/` arms of `next_token`. */
    method CompoundToken(c: char) returns (r: Pull)
      requires !eof && c in "-+*/"
      modifies this
      ensures State() == CompoundSpec(old(State()), c).0
      ensures r == CompoundSpec(old(State()), c).1
    {
      var next := Peek(1);
      match c {
        case '-' =>
          if next == '-' {
            r := MatchStaticToken('-', DoubleMinus, Minus);
          } else if next == '>' {
            r := MatchStaticToken('>', RArrow, Minus);
          } else if next == '=' {
            r := MatchStaticToken('=', MinEqual, Minus);
          } else {
            r := StaticToken(Minus);
          }
        case '+' =>
          if next == '+' {
            r := MatchStaticToken('+', DoublePlus, Plus);
          } else if next == '=' {
            r := MatchStaticToken('=', PlusEqual, Plus);
          } else {
            r := StaticToken(Plus);
          }
        case '*' =>
          if next == '*' {
            r := MatchStaticToken('*', DoubleStar, Star);
          } else if next == '=' {
            r := MatchStaticToken('=', StarEqual, Star);
          } else {
            r := StaticToken(Star);
          }
        case '/' =>
          if next == '/' {
            r := MatchStaticToken('/', DoubleSlash, Slash);
          } else if next == '=' {
            r := MatchStaticToken('=', SlashEqual, Slash);
          } else {
            r := StaticToken(Slash);
          }
      }
    }

    /** The `#` arm of `next_token`. */
    method Comment()
      requires !eof
      modifies this
      ensures State() == CommentSpec(old(State()))
    {
      var next := Peek(1);
      if next == '*' {
        BlockComment();
      } else {
        LineComment();
      }
    }

    /** `next_token`. */
    method NextToken() returns (r: Pull)
      modifies this
      ensures State() == NextTokenSpec(old(State())).0
      ensures r == NextTokenSpec(old(State())).1
    {
      if eof {
        return Exhausted;
      }
      lexeme := [];
      ghost var start := State();
      while true
        invariant ScanSpec(State()) == ScanSpec(start)
        decreases Remaining(State())
      {
        var round := ScanRound();
        if round.Some? {
          return round.value;
        }
      }
    }

    /** One pass of the loop of `next_token`: the token or error it returns, or `None` when it
        skipped a comment or whitespace and goes round again. */
    method ScanRound() returns (r: Option<Pull>)
      modifies this
      ensures r.Some? ==> (State(), r.value) == ScanSpec(old(State()))
      ensures r.None? ==> ScanSpec(State()) == ScanSpec(old(State())) && Remaining(State()) < Remaining(old(State()))
    {
      ghost var before := State();
      var read := Advance();
      if read.None? {
        return Some(Panicked);
      }
      var c := read.value;
      if c == '\0' {
        eof := true;
        return Some(StaticToken(Eof));
      } else if Punctuation(c).Some? {
        return Some(StaticToken(Punctuation(c).value));
      } else if c in "-+*/" {
        var t := CompoundToken(c);
        return Some(t);
      } else if c == '=' {
        var t := MatchStaticToken('=', EqEqual, Equal);
        return Some(t);
      } else if c == '!' {
        var t := MatchStaticToken('=', BangEqual, Not);
        return Some(t);
      } else if c == '<' {
        var t := MatchStaticToken('=', LessEqual, Less);
        return Some(t);
      } else if c == '>' {
        var t := MatchStaticToken('=', GreaterEqual, Greater);
        return Some(t);
      } else if c == '#' {
        CommentArm(before);
        Comment();
      } else if IsWhitespace(c) {
        WhitespaceArm(before, c);
        lexeme := [];
        if c == '\n' {
          line := line + 1;
        }
      } else {
        return Some(LexError("unexpected character"));
      }
      return None;
    }
  }
}
