/** Properties of the Rust lexer (interpreter/ezcript_lexer/src/lexer.rs), stated on the
    functions of module `Lexer`.

    The look-ahead queue is an implementation detail: what the lexer will read next is the
    queue followed by the rest of the source, followed by `'\0'` for ever.  `StreamAt` names
    that character stream, and `Shifted(a, b, n)` says that going from `a` to `b` consumed
    exactly `n` characters of it. */
module LexerFacts {
  import opened Wrappers
  import opened Tokens
  import opened EzcriptResult
  import opened Lexer

  /** `s` without its trailing `'\0'` characters. */
  function Trim(s: seq<char>): (r: seq<char>)
    ensures |r| <= |s|
  {
    if s == [] then []
    else if s[|s| - 1] == '\0' then Trim(s[..|s| - 1])
    else s
  }

  lemma {:induction false} TrimSplit(s: seq<char>)
    ensures s == Trim(s) + Nulls(|s| - |Trim(s)|)
    ensures Trim(s) == [] || Trim(s)[|Trim(s)| - 1] != '\0'
  {
    if s != [] && s[|s| - 1] == '\0' {
      var u := s[..|s| - 1];
      TrimSplit(u);
      assert s == u + ['\0'];
      assert Nulls(|u| - |Trim(u)|) + ['\0'] == Nulls(|s| - |Trim(s)|);
    } else if s != [] {
      assert s == s + Nulls(0);
    }
  }

  /** A sequence is determined by its trimmed form and the number of `'\0'` after it. */
  lemma {:induction false} TrimUnique(s: seq<char>, t: seq<char>, k: nat)
    requires s == t + Nulls(k) && (t == [] || t[|t| - 1] != '\0')
    ensures Trim(s) == t
  {
    if k == 0 {
      assert s == t;
    } else {
      assert s[|s| - 1] == Nulls(k)[k - 1];
      assert s[..|s| - 1] == t + Nulls(k - 1);
      TrimUnique(s[..|s| - 1], t, k - 1);
    }
  }

  lemma TrimPadded(s: seq<char>, k: nat)
    ensures Trim(s + Nulls(k)) == Trim(s)
  {
    TrimSplit(s);
    var t := Trim(s);
    var m := |s| - |t|;
    assert s + Nulls(k) == t + Nulls(m + k) by {
      assert Nulls(m) + Nulls(k) == Nulls(m + k);
    }
    TrimUnique(s + Nulls(k), t, m + k);
  }

  lemma AtTrim(s: seq<char>, i: nat)
    ensures At(Trim(s), i) == At(s, i)
  {
    TrimSplit(s);
    var t := Trim(s);
    if |t| <= i < |s| {
      assert s[i] == Nulls(|s| - |t|)[i - |t|];
    }
  }

  function Drop(s: seq<char>, n: nat): seq<char> {
    if n <= |s| then s[n..] else []
  }

  function At(s: seq<char>, i: nat): char {
    if i < |s| then s[i] else '\0'
  }

  lemma DropTwice(s: seq<char>, n: nat, m: nat)
    ensures Drop(Drop(s, n), m) == Drop(s, n + m)
  {
  }

  /** What is still to be read: the queue, then the source, up to the padding. */
  function Rest(st: LexState): seq<char> {
    Trim(st.tokens + st.source)
  }

  /** The `i`-th character still to be read, `'\0'` past the end. */
  function StreamAt(st: LexState, i: nat): char {
    At(Rest(st), i)
  }

  /** `b` will read what `a` reads after its first `n` characters. */
  predicate Shifted(a: LexState, b: LexState, n: nat) {
    Rest(b) == Drop(Rest(a), n)
  }

  lemma ShiftedAt(a: LexState, b: LexState, n: nat, i: nat)
    requires Shifted(a, b, n)
    ensures StreamAt(b, i) == StreamAt(a, i + n)
  {
  }

  /** The `|w|` characters just before position `n` of `st`'s stream spell `w`. */
  ghost predicate ReadAs(st: LexState, n: nat, w: string) {
    |w| <= n && forall j :: 0 <= j < |w| ==> w[j] == StreamAt(st, n - |w| + j)
  }

  lemma ShiftedTrans(a: LexState, b: LexState, c: LexState, n: nat, m: nat, k: nat)
    requires Shifted(a, b, n) && Shifted(b, c, m) && k == n + m
    ensures Shifted(a, c, k)
  {
    DropTwice(Rest(a), n, m);
  }

  lemma ReadAsShifted(a: LexState, b: LexState, m: nat, n: nat, k: nat, w: string)
    requires Shifted(a, b, m) && ReadAs(b, n, w) && k == m + n
    ensures ReadAs(a, k, w)
  {
    forall j | 0 <= j < |w|
      ensures w[j] == StreamAt(a, k - |w| + j)
    {
      ShiftedIndex(a, b, m, n - |w| + j, k - |w| + j);
    }
  }

  lemma ShiftedIndex(a: LexState, b: LexState, n: nat, i: nat, k: nat)
    requires Shifted(a, b, n) && k == i + n
    ensures StreamAt(b, i) == StreamAt(a, k)
  {
    ShiftedAt(a, b, n, i);
  }

  /** Dropping the first character commutes with trimming. */
  lemma TrimTail(s: seq<char>)
    requires s != []
    ensures Trim(s[1..]) == Drop(Trim(s), 1)
  {
    TrimSplit(s);
    var t := Trim(s);
    var k := |s| - |t|;
    if t == [] {
      assert s[1..] == [] + Nulls(k - 1);
      TrimUnique(s[1..], [], k - 1);
    } else {
      assert s[1..] == t[1..] + Nulls(k);
      TrimUnique(s[1..], t[1..], k);
    }
  }

  /** `advance` drains the queue before the source, in order, and appends what it reads to the
      lexeme; it sets `eof` only when both are empty. */
  lemma AdvanceReadsStream(st: LexState)
    requires !st.eof
    ensures AdvanceSpec(st).1 == Some(StreamAt(st, 0))
    ensures Shifted(st, AdvanceSpec(st).0, 1)
    ensures AdvanceSpec(st).0.lexeme == st.lexeme + [StreamAt(st, 0)]
    ensures AdvanceSpec(st).0.eof <==> st.tokens + st.source == []
  {
    if st.tokens != [] {
      var after := st.(tokens := st.tokens[1..], lexeme := st.lexeme + [st.tokens[0]]);
      assert AdvanceSpec(st) == (after, Some(st.tokens[0]));
      ReadsFront(st, after);
    } else if st.source != [] {
      var after := st.(source := st.source[1..], lexeme := st.lexeme + [st.source[0]]);
      assert AdvanceSpec(st) == (after, Some(st.source[0]));
      ReadsFront(st, after);
    } else {
      assert st.tokens + st.source == [];
    }
  }

  /** Removing the first pending character consumes exactly it. */
  lemma ReadsFront(st: LexState, after: LexState)
    requires st.tokens + st.source != []
    requires after.tokens + after.source == (st.tokens + st.source)[1..]
    ensures Shifted(st, after, 1)
    ensures StreamAt(st, 0) == (st.tokens + st.source)[0]
  {
    TrimTail(st.tokens + st.source);
    AtTrim(st.tokens + st.source, 0);
  }

  /** `peek(skip)` consumes nothing and returns the `skip`-th character still to be read. */
  lemma PeekReadsStream(st: LexState, skip: nat)
    requires skip > 0
    ensures PeekSpec(st, skip).1 == StreamAt(st, skip - 1)
    ensures Shifted(st, PeekSpec(st, skip).0, 0)
  {
    if |st.tokens| < skip {
      PeekFills(st, skip);
    } else {
      AtTrim(st.tokens + st.source, skip - 1);
    }
  }

  lemma PeekFills(st: LexState, skip: nat)
    requires 0 < skip && |st.tokens| < skip
    ensures PeekSpec(st, skip).1 == StreamAt(st, skip - 1)
    ensures Shifted(st, PeekSpec(st, skip).0, 0)
  {
    var need := skip - |st.tokens|;
    var taken := if need <= |st.source| then need else |st.source|;
    var queue := st.tokens + st.source[..taken] + Nulls(need - taken);
    var after := st.(tokens := queue, source := st.source[taken..]);
    assert PeekSpec(st, skip) == (after, queue[skip - 1]);
    PaddedQueue(st.tokens, st.source, skip);
  }

  /** Filling the queue up to `skip` characters, padding with `'\0'` past the source, leaves the
      stream unchanged and puts its `skip`-th character last in the queue. */
  lemma PaddedQueue(tokens: seq<char>, source: seq<char>, skip: nat)
    requires 0 < skip && |tokens| < skip
    ensures var need := skip - |tokens|;
      var taken := if need <= |source| then need else |source|;
      var queue := tokens + source[..taken] + Nulls(need - taken);
      Trim(queue + source[taken..]) == Trim(tokens + source) &&
      queue[skip - 1] == At(Trim(tokens + source), skip - 1)
  {
    var need := skip - |tokens|;
    var taken := if need <= |source| then need else |source|;
    PaddedStream(tokens, source, taken, need - taken);
    PaddedLast(tokens, source, taken, need - taken, skip);
  }

  /** Moving `taken` characters of the source to the queue and padding it with `pad` times
      `'\0'` leaves the stream unchanged. */
  lemma PaddedStream(tokens: seq<char>, source: seq<char>, taken: nat, pad: nat)
    requires taken <= |source| && (pad > 0 ==> taken == |source|)
    ensures Trim(tokens + source[..taken] + Nulls(pad) + source[taken..]) == Trim(tokens + source)
  {
    var pending := tokens + source;
    if pad == 0 {
      assert Nulls(pad) == [];
      assert source[..taken] + source[taken..] == source;
      assert tokens + source[..taken] + Nulls(pad) + source[taken..] == pending;
    } else {
      assert source[..taken] == source && source[taken..] == [];
      assert tokens + source[..taken] + Nulls(pad) + source[taken..] == pending + Nulls(pad);
      TrimPadded(pending, pad);
    }
  }

  /** The last character of that queue is the stream's character at its position. */
  lemma PaddedLast(tokens: seq<char>, source: seq<char>, taken: nat, pad: nat, skip: nat)
    requires taken <= |source| && (pad > 0 ==> taken == |source|) && skip == |tokens| + taken + pad > 0
    ensures (tokens + source[..taken] + Nulls(pad))[skip - 1] == At(Trim(tokens + source), skip - 1)
  {
    var pending := tokens + source;
    AtTrim(pending, skip - 1);
    if pad == 0 {
      assert (tokens + source[..taken])[skip - 1] == pending[skip - 1];
    }
  }
  /** The first `n` characters still to be read. */
  function Prefix(st: LexState, n: nat): (r: seq<char>)
    ensures |r| == n && forall j :: 0 <= j < n ==> r[j] == StreamAt(st, j)
  {
    seq(n, j requires 0 <= j < n => StreamAt(st, j))
  }

  /** `match_advance(c)` consumes the next character exactly when it is `c`, appending it to the
      lexeme; otherwise nothing changes that will be read. */
  lemma MatchAdvanceReads(st: LexState, c: char)
    requires !st.eof
    ensures var (s, matched) := MatchAdvanceSpec(st, c);
      (matched <==> StreamAt(st, 0) == c) &&
      Shifted(st, s, if matched then 1 else 0) &&
      s.lexeme == st.lexeme + (if matched then [c] else []) &&
      s.line == st.line && !s.eof
  {
    var (peeked, next) := PeekSpec(st, 1);
    PeekReadsStream(st, 1);
    if next == c {
      AdvanceReadsStream(peeked);
      assert StreamAt(peeked, 0) == c;
      ShiftedTrans(st, peeked, AdvanceSpec(peeked).0, 0, 1, 1);
    }
  }

  /** `match_static_token(c, first, second)`: kind `first` when the next character is `c`, which
      is then consumed and joins the lexeme; kind `second` otherwise, consuming nothing.  The
      token carries the current line and no literal. */
  lemma MatchStaticTokenReads(st: LexState, c: char, first: TokenKind, second: TokenKind)
    requires !st.eof
    ensures var (s, p) := MatchStaticTokenSpec(st, c, first, second);
      var matched := StreamAt(st, 0) == c;
      p == Item(Ok(Token(if matched then first else second, s.lexeme, None, st.line))) &&
      Shifted(st, s, if matched then 1 else 0) &&
      s.lexeme == st.lexeme + (if matched then [c] else []) &&
      s.line == st.line && !s.eof
  {
    MatchAdvanceReads(st, c);
  }

  /** The characters that can be read through `advance_until(stops)`: neither a stop nor the end. */
  ghost predicate RunUntil(st: LexState, stops: set<char>, n: nat) {
    (forall j :: 0 <= j < n ==> StreamAt(st, j) !in stops && StreamAt(st, j) != '\0') &&
    (StreamAt(st, n) in stops || StreamAt(st, n) == '\0')
  }

  /** `advance_until(stops)` consumes the longest run of characters that are neither in `stops`
      nor `'\0'`, appends them to the lexeme, and returns the last of them (`last` when the run
      is empty). */
  lemma {:induction false} AdvanceUntilReads(st: LexState, stops: set<char>, last: char) returns (n: nat)
    requires !st.eof
    ensures UntilRead(st, stops, last, n)
    decreases Remaining(st), 1
  {
    var next := PeekSpec(st, 1).1;
    if next in stops || next == '\0' {
      n := 0;
      PeekReadsStream(st, 1);
      AdvanceUntilStops(st, stops, last);
    } else {
      n := AdvanceUntilGoesOn(st, stops, last);
    }
  }

  /** `advance_until` past a first character that does not stop it. */
  lemma {:induction false} AdvanceUntilGoesOn(st: LexState, stops: set<char>, last: char) returns (n: nat)
    requires !st.eof && PeekSpec(st, 1).1 !in stops && PeekSpec(st, 1).1 != '\0'
    ensures UntilRead(st, stops, last, n)
    decreases Remaining(st), 0
  {
    AdvancePastPeek(st);
    var next := PeekSpec(st, 1).1;
    var advanced := AdvanceSpec(PeekSpec(st, 1).0).0;
    var m := AdvanceUntilReads(advanced, stops, next);
    AdvanceUntilRound(st, stops, last, m);
    n := m + 1;
  }

  /** `AdvanceUntilAfter`, for the reading of the rest of the run. */
  lemma AdvanceUntilRound(st: LexState, stops: set<char>, last: char, m: nat)
    requires !st.eof && PeekSpec(st, 1).1 !in stops && PeekSpec(st, 1).1 != '\0'
    requires !AdvanceSpec(PeekSpec(st, 1).0).0.eof
    requires UntilRead(AdvanceSpec(PeekSpec(st, 1).0).0, stops, PeekSpec(st, 1).1, m)
    ensures UntilRead(st, stops, last, m + 1)
  {
    var next := PeekSpec(st, 1).1;
    var advanced := AdvanceSpec(PeekSpec(st, 1).0).0;
    AdvanceUntilUnfold(st, stops, last);
    AdvanceUntilAfter(st, stops, last, m, AdvanceUntilSpec(advanced, stops, next));
  }

  /** What `AdvanceUntilReads` states: the run of `n` characters read, the state shifted past
      it, the lexeme extended by it and the last of them returned. */
  ghost predicate UntilRead(st: LexState, stops: set<char>, last: char, n: nat)
    requires !st.eof
  {
    ReadsRun(st, stops, last, n, AdvanceUntilSpec(st, stops, last))
  }

  /** `r` is the outcome of reading the run of `n` characters from `st`. */
  ghost predicate ReadsRun(st: LexState, stops: set<char>, last: char, n: nat, r: (LexState, char)) {
    RunUntil(st, stops, n) && Shifted(st, r.0, n) && r.0.lexeme == st.lexeme + Prefix(st, n) &&
    r.1 == (if n == 0 then last else StreamAt(st, n - 1))
  }

  /** Reading the character just peeked at, when it is not the padding, consumes it. */
  lemma AdvancePastPeek(st: LexState)
    requires !st.eof && PeekSpec(st, 1).1 != '\0'
    ensures var advanced := AdvanceSpec(PeekSpec(st, 1).0).0;
      !advanced.eof && Remaining(advanced) < Remaining(st)
  {
  }

  /** What `advance_until` reads past a first character that does not stop it, from what it
      reads after that character. */
  lemma AdvanceUntilAfter(st: LexState, stops: set<char>, last: char, m: nat, r: (LexState, char))
    requires !st.eof && PeekSpec(st, 1).1 !in stops && PeekSpec(st, 1).1 != '\0'
    requires ReadsRun(AdvanceSpec(PeekSpec(st, 1).0).0, stops, PeekSpec(st, 1).1, m, r)
    ensures ReadsRun(st, stops, last, m + 1, r)
  {
    var peeked := PeekSpec(st, 1).0;
    PeekReadsStream(st, 1);
    AdvanceReadsStream(peeked);
    var a := AdvanceSpec(peeked).0;
    AdvanceUntilStep(st, peeked, a, r, last, stops, m);
  }

  /** `advance_until` in front of a character that stops it reads nothing. */
  lemma AdvanceUntilStops(st: LexState, stops: set<char>, last: char)
    requires !st.eof && PeekSpec(st, 1).1 == StreamAt(st, 0) && Shifted(st, PeekSpec(st, 1).0, 0)
    requires StreamAt(st, 0) in stops || StreamAt(st, 0) == '\0'
    ensures UntilRead(st, stops, last, 0)
  {
    assert AdvanceUntilSpec(st, stops, last) == (PeekSpec(st, 1).0, last);
    assert Prefix(st, 0) == [];
  }

  /** One step of `advance_until` past a character that does not stop it. */
  lemma AdvanceUntilUnfold(st: LexState, stops: set<char>, last: char)
    requires !st.eof
    requires PeekSpec(st, 1).1 !in stops && PeekSpec(st, 1).1 != '\0'
    ensures var next := PeekSpec(st, 1).1;
      var advanced := AdvanceSpec(PeekSpec(st, 1).0).0;
      !advanced.eof && Remaining(advanced) < Remaining(st) &&
      AdvanceUntilSpec(st, stops, last) == AdvanceUntilSpec(advanced, stops, next)
  {
  }

  /** `peeked` reads what `st` does, and `a` has consumed its first character into the lexeme. */
  ghost predicate PeekedThenRead(st: LexState, peeked: LexState, a: LexState) {
    Shifted(st, peeked, 0) && peeked.lexeme == st.lexeme &&
    Shifted(peeked, a, 1) && a.lexeme == peeked.lexeme + [StreamAt(peeked, 0)]
  }

  lemma AdvanceUntilStep(st: LexState, peeked: LexState, a: LexState, r: (LexState, char), last: char,
                         stops: set<char>, m: nat)
    requires PeekedThenRead(st, peeked, a) && StreamAt(st, 0) !in stops && StreamAt(st, 0) != '\0'
    requires ReadsRun(a, stops, StreamAt(st, 0), m, r)
    ensures ReadsRun(st, stops, last, m + 1, r)
  {
    var n := m + 1;
    ShiftedAt(st, peeked, 0, 0);
    ShiftedThrough(st, peeked, a, r.0, m, n);
    ShiftedAt(st, a, 1, 0);
    RunUntilStep(st, a, stops, m, n);
    AppendRead(st.lexeme, StreamAt(st, 0), Prefix(a, m), Prefix(st, n), r.0.lexeme);
  }

  lemma ShiftedThrough(st: LexState, peeked: LexState, a: LexState, r: LexState, m: nat, n: nat)
    requires Shifted(st, peeked, 0) && Shifted(peeked, a, 1) && Shifted(a, r, m) && n == m + 1
    ensures Shifted(st, a, 1) && Shifted(st, r, n)
  {
    ShiftedTrans(st, peeked, a, 0, 1, 1);
    ShiftedTrans(st, a, r, 1, m, n);
  }

  lemma AppendRead(w: string, c: char, p: string, q: string, r: string)
    requires r == (w + [c]) + p && q == [c] + p
    ensures r == w + q
  {
  }

  lemma RunUntilStep(st: LexState, a: LexState, stops: set<char>, m: nat, n: nat)
    requires Shifted(st, a, 1) && StreamAt(st, 0) !in stops && StreamAt(st, 0) != '\0'
    requires RunUntil(a, stops, m) && n == m + 1
    ensures RunUntil(st, stops, n)
    ensures Prefix(st, n) == [StreamAt(st, 0)] + Prefix(a, m)
    ensures StreamAt(st, n - 1) == if m == 0 then StreamAt(st, 0) else StreamAt(a, m - 1)
  {
    forall j | 0 < j <= n
      ensures StreamAt(st, j) == StreamAt(a, j - 1)
    {
      assert StreamAt(a, j - 1) == StreamAt(st, j - 1 + 1);
    }
  }

  /** The one-character tokens of the language. */
  function OneCharKind(a: char): Option<TokenKind> {
    match a
    case '(' => Some(LParen)
    case ')' => Some(RParen)
    case '{' => Some(LBrace)
    case '}' => Some(RBrace)
    case '[' => Some(LBracket)
    case ']' => Some(RBracket)
    case ':' => Some(Colon)
    case ',' => Some(Comma)
    case '%' => Some(Percent)
    case '.' => Some(Dot)
    case '-' => Some(Minus)
    case '+' => Some(Plus)
    case '*' => Some(Star)
    case '/' => Some(Slash)
    case '=' => Some(Equal)
    case '!' => Some(Not)
    case '<' => Some(Less)
    case '>' => Some(Greater)
    case _ => None
  }

  /** The two-character operators of the language. */
  function TwoCharKind(a: char, b: char): Option<TokenKind> {
    match (a, b)
    case ('-', '-') => Some(DoubleMinus)
    case ('-', '>') => Some(RArrow)
    case ('-', '=') => Some(MinEqual)
    case ('+', '+') => Some(DoublePlus)
    case ('+', '=') => Some(PlusEqual)
    case ('*', '*') => Some(DoubleStar)
    case ('*', '=') => Some(StarEqual)
    case ('/', '/') => Some(DoubleSlash)
    case ('/', '=') => Some(SlashEqual)
    case ('=', '=') => Some(EqEqual)
    case ('!', '=') => Some(BangEqual)
    case ('<', '=') => Some(LessEqual)
    case ('>', '=') => Some(GreaterEqual)
    case _ => None
  }

  /** `w` is the spelling of an operator or punctuation token of kind `kind`. */
  ghost predicate Spelled(kind: TokenKind, w: string) {
    (|w| == 1 && OneCharKind(w[0]) == Some(kind)) ||
    (|w| == 2 && TwoCharKind(w[0], w[1]) == Some(kind))
  }

  /** A character that starts no token, no comment and is not whitespace. */
  ghost predicate Unexpected(c: char) {
    c != '\0' && c != '#' && !IsWhitespace(c) && OneCharKind(c).None?
  }

  /** After the operator character `a` was read (the lexeme holds it, `st` is the state then),
      the token is the two-character operator `a` and the next character form, which is then
      consumed, or else the one-character token `a`. */
  ghost predicate Munched(st: LexState, a: char, s: LexState, p: Pull) {
    var b := StreamAt(st, 0);
    OneCharKind(a).Some? && !s.eof && s.line == st.line &&
    if TwoCharKind(a, b).Some? then
      p == Item(Ok(Token(TwoCharKind(a, b).value, st.lexeme + [b], None, st.line))) &&
      Shifted(st, s, 1) && s.lexeme == st.lexeme + [b]
    else
      p == Item(Ok(Token(OneCharKind(a).value, st.lexeme, None, st.line))) &&
      Shifted(st, s, 0) && s.lexeme == st.lexeme
  }

  /** The `-`, `+`, `*` and `/` arms follow the operator table. */
  lemma CompoundReads(st: LexState, c: char)
    requires !st.eof && c in "-+*/"
    ensures Munched(st, c, CompoundSpec(st, c).0, CompoundSpec(st, c).1)
  {
    var b := StreamAt(st, 0);
    if c == '-' {
      if b == '-' { MinusMinus(st); }
      else if b == '>' { MinusArrow(st); }
      else if b == '=' { MinusEqual(st); }
      else { MinusAlone(st); }
    } else if c == '+' {
      if b == '+' { PlusPlus(st); }
      else if b == '=' { PlusEqualReads(st); }
      else { PlusAlone(st); }
    } else if c == '*' {
      if b == '*' { StarStar(st); }
      else if b == '=' { StarEqualReads(st); }
      else { StarAlone(st); }
    } else {
      if b == '/' { SlashSlash(st); }
      else if b == '=' { SlashEqualReads(st); }
      else { SlashAlone(st); }
    }
  }

  lemma MinusMinus(st: LexState)
    requires !st.eof && StreamAt(st, 0) == '-'
    ensures Munched(st, '-', CompoundSpec(st, '-').0, CompoundSpec(st, '-').1)
  {
    PeekReadsStream(st, 1);
    MatchMunched(st, PeekSpec(st, 1).0, '-', '-', DoubleMinus, Minus);
  }

  lemma MinusArrow(st: LexState)
    requires !st.eof && StreamAt(st, 0) == '>'
    ensures Munched(st, '-', CompoundSpec(st, '-').0, CompoundSpec(st, '-').1)
  {
    PeekReadsStream(st, 1);
    MatchMunched(st, PeekSpec(st, 1).0, '-', '>', RArrow, Minus);
  }

  lemma MinusEqual(st: LexState)
    requires !st.eof && StreamAt(st, 0) == '='
    ensures Munched(st, '-', CompoundSpec(st, '-').0, CompoundSpec(st, '-').1)
  {
    PeekReadsStream(st, 1);
    MatchMunched(st, PeekSpec(st, 1).0, '-', '=', MinEqual, Minus);
  }

  lemma MinusAlone(st: LexState)
    requires !st.eof && StreamAt(st, 0) != '-' && StreamAt(st, 0) != '>' && StreamAt(st, 0) != '='
    ensures Munched(st, '-', CompoundSpec(st, '-').0, CompoundSpec(st, '-').1)
  {
    PeekReadsStream(st, 1);
    ShiftedAt(st, PeekSpec(st, 1).0, 0, 0);
  }

  lemma PlusPlus(st: LexState)
    requires !st.eof && StreamAt(st, 0) == '+'
    ensures Munched(st, '+', CompoundSpec(st, '+').0, CompoundSpec(st, '+').1)
  {
    PeekReadsStream(st, 1);
    MatchMunched(st, PeekSpec(st, 1).0, '+', '+', DoublePlus, Plus);
  }

  lemma PlusEqualReads(st: LexState)
    requires !st.eof && StreamAt(st, 0) == '='
    ensures Munched(st, '+', CompoundSpec(st, '+').0, CompoundSpec(st, '+').1)
  {
    PeekReadsStream(st, 1);
    MatchMunched(st, PeekSpec(st, 1).0, '+', '=', PlusEqual, Plus);
  }

  lemma PlusAlone(st: LexState)
    requires !st.eof && StreamAt(st, 0) != '+' && StreamAt(st, 0) != '='
    ensures Munched(st, '+', CompoundSpec(st, '+').0, CompoundSpec(st, '+').1)
  {
    PeekReadsStream(st, 1);
    ShiftedAt(st, PeekSpec(st, 1).0, 0, 0);
  }

  lemma StarStar(st: LexState)
    requires !st.eof && StreamAt(st, 0) == '*'
    ensures Munched(st, '*', CompoundSpec(st, '*').0, CompoundSpec(st, '*').1)
  {
    PeekReadsStream(st, 1);
    MatchMunched(st, PeekSpec(st, 1).0, '*', '*', DoubleStar, Star);
  }

  lemma StarEqualReads(st: LexState)
    requires !st.eof && StreamAt(st, 0) == '='
    ensures Munched(st, '*', CompoundSpec(st, '*').0, CompoundSpec(st, '*').1)
  {
    PeekReadsStream(st, 1);
    MatchMunched(st, PeekSpec(st, 1).0, '*', '=', StarEqual, Star);
  }

  lemma StarAlone(st: LexState)
    requires !st.eof && StreamAt(st, 0) != '*' && StreamAt(st, 0) != '='
    ensures Munched(st, '*', CompoundSpec(st, '*').0, CompoundSpec(st, '*').1)
  {
    PeekReadsStream(st, 1);
    ShiftedAt(st, PeekSpec(st, 1).0, 0, 0);
  }

  lemma SlashSlash(st: LexState)
    requires !st.eof && StreamAt(st, 0) == '/'
    ensures Munched(st, '/', CompoundSpec(st, '/').0, CompoundSpec(st, '/').1)
  {
    PeekReadsStream(st, 1);
    MatchMunched(st, PeekSpec(st, 1).0, '/', '/', DoubleSlash, Slash);
  }

  lemma SlashEqualReads(st: LexState)
    requires !st.eof && StreamAt(st, 0) == '='
    ensures Munched(st, '/', CompoundSpec(st, '/').0, CompoundSpec(st, '/').1)
  {
    PeekReadsStream(st, 1);
    MatchMunched(st, PeekSpec(st, 1).0, '/', '=', SlashEqual, Slash);
  }

  lemma SlashAlone(st: LexState)
    requires !st.eof && StreamAt(st, 0) != '/' && StreamAt(st, 0) != '='
    ensures Munched(st, '/', CompoundSpec(st, '/').0, CompoundSpec(st, '/').1)
  {
    PeekReadsStream(st, 1);
    ShiftedAt(st, PeekSpec(st, 1).0, 0, 0);
  }

  /** A `match_static_token` on a peeked state follows the table when the table's only pair for
      `a` with the next character is `a` followed by `x`. */
  lemma MatchMunched(st: LexState, peeked: LexState, a: char, x: char, first: TokenKind, second: TokenKind)
    requires Shifted(st, peeked, 0) && !peeked.eof
    requires peeked.lexeme == st.lexeme && peeked.line == st.line
    requires OneCharKind(a) == Some(second)
    requires TwoCharKind(a, StreamAt(st, 0)) == if StreamAt(st, 0) == x then Some(first) else None
    ensures Munched(st, a, MatchStaticTokenSpec(peeked, x, first, second).0,
      MatchStaticTokenSpec(peeked, x, first, second).1)
  {
    ShiftedAt(st, peeked, 0, 0);
    MatchStaticTokenReads(peeked, x, first, second);
    var s := MatchStaticTokenSpec(peeked, x, first, second).0;
    if StreamAt(st, 0) == x {
      ShiftedTrans(st, peeked, s, 0, 1, 1);
    } else {
      ShiftedTrans(st, peeked, s, 0, 0, 0);
    }
  }

  /** The `=`, `!`, `<` and `>` arms follow the operator table. */
  lemma ComparisonReads(st: LexState, c: char, first: TokenKind, second: TokenKind)
    requires !st.eof && ComparisonKinds(c, first, second)
    ensures Munched(st, c,
      MatchStaticTokenSpec(st, '=', first, second).0, MatchStaticTokenSpec(st, '=', first, second).1)
  {
    MatchStaticTokenReads(st, '=', first, second);
  }

  /** The number of newlines among the first `n` characters still to be read. */
  ghost function LinesRead(st: LexState, n: nat): nat {
    if n == 0 then 0 else LinesRead(st, n - 1) + (if StreamAt(st, n - 1) == '\n' then 1 else 0)
  }

  lemma {:induction false} NoLinesRead(st: LexState, n: nat)
    requires forall j :: 0 <= j < n ==> StreamAt(st, j) != '\n'
    ensures LinesRead(st, n) == 0
  {
    if n > 0 {
      NoLinesRead(st, n - 1);
    }
  }

  lemma {:induction false} LinesReadShift(st: LexState, s2: LexState, k: nat, x: nat, n: nat)
    requires Shifted(st, s2, k) && n == k + x
    ensures LinesRead(st, n) == LinesRead(st, k) + LinesRead(s2, x)
  {
    if x > 0 {
      LinesReadShift(st, s2, k, x - 1, n - 1);
      ShiftedAt(st, s2, k, x - 1);
    }
  }

  /** `*#` starts at position `j`. */
  ghost predicate CloseAt(st: LexState, j: nat) {
    StreamAt(st, j) == '*' && StreamAt(st, j + 1) == '#'
  }

  /** The newlines among the first `n` characters still to be read that directly follow a
      `*#`: the only ones a closing block comment can swallow without counting them. */
  ghost function Swallowable(st: LexState, n: nat): nat {
    if n == 0 then 0
    else Swallowable(st, n - 1) + Swallowed(st, n)
  }

  /** `line` is `st.line` plus the newlines among the first `n` characters read, except `lost`
      of them, each one directly after a `*#`. */
  ghost predicate LinesCounted(st: LexState, line: nat, n: nat, lost: nat) {
    line + lost == st.line + LinesRead(st, n) && lost <= Swallowable(st, n)
  }

  lemma {:induction false} SwallowableShift(st: LexState, s2: LexState, k: nat, x: nat, n: nat)
    requires Shifted(st, s2, k) && n == k + x
    ensures Swallowable(st, n) >= Swallowable(st, k) + Swallowable(s2, x)
  {
    if x > 0 {
      SwallowableShift(st, s2, k, x - 1, n - 1);
      SwallowedStep(st, n);
      SwallowedStep(s2, x);
      if x >= 3 {
        SwallowedAfterShift(st, s2, k, x, n);
      }
    }
  }

  /** One more character read adds one to `Swallowable` exactly when it is a newline after
      `*#`. */
  lemma SwallowedStep(st: LexState, n: nat)
    requires n > 0
    ensures Swallowable(st, n) == Swallowable(st, n - 1) + Swallowed(st, n)
  {
  }

  /** Whether the `n`-th character read is a newline directly after `*#`, as 0 or 1. */
  ghost function Swallowed(st: LexState, n: nat): nat {
    if n >= 3 && StreamAt(st, n - 1) == '\n' && CloseAt(st, n - 3) then 1 else 0
  }

  /** A newline after `*#`, `x` characters after a shift by `k`, is one `k + x` characters in. */
  lemma SwallowedAfterShift(st: LexState, s2: LexState, k: nat, x: nat, n: nat)
    requires Shifted(st, s2, k) && n == k + x && x >= 3
    ensures Swallowed(s2, x) <= Swallowed(st, n)
  {
    ShiftedAt(st, s2, k, x - 1);
    ShiftedAt(st, s2, k, x - 2);
    ShiftedAt(st, s2, k, x - 3);
  }

  /** Counting lines over two stretches read one after the other. */
  lemma LinesCountedTrans(st: LexState, s1: LexState, line: nat, j: nat, k: nat, n: nat,
                          lost1: nat, lost2: nat, lost: nat)
    requires Shifted(st, s1, j) && LinesCounted(st, s1.line, j, lost1) && LinesCounted(s1, line, k, lost2)
    requires n == j + k && lost == lost1 + lost2
    ensures LinesCounted(st, line, n, lost)
  {
    LinesReadShift(st, s1, j, k, n);
    SwallowableShift(st, s1, j, k, n);
  }

  /** A character that is not a newline leaves the line as it was. */
  lemma OneLineCounted(st: LexState)
    requires StreamAt(st, 0) != '\n'
    ensures LinesCounted(st, st.line, 1, 0)
  {
  }

  /** Characters that are not newlines leave the line as it was. */
  lemma NoLinesCounted(st: LexState, n: nat)
    requires forall j :: 0 <= j < n ==> StreamAt(st, j) != '\n'
    ensures LinesCounted(st, st.line, n, 0)
  {
    NoLinesRead(st, n);
  }

  /** The first `k` characters contain neither the end nor the start of a `*#`. */
  ghost predicate Open(st: LexState, k: nat) {
    (forall i :: 0 <= i < k ==> StreamAt(st, i) != '\0') &&
    (forall i {:trigger CloseAt(st, i)} :: 0 <= i < k ==> !CloseAt(st, i))
  }

  /** The loop of `block_comment` stopped after the first `*#` and one more character, having
      counted the newlines up to the `#`. */
  ghost predicate BlockClosed(st: LexState, r: LexState, n: nat) {
    Shifted(st, r, n) && n >= 3 && Open(st, n - 3) && CloseAt(st, n - 3) &&
    r.line == st.line + LinesRead(st, n - 3)
  }

  /** The loop of `block_comment` met the end of the input first and stopped before it, having
      counted every newline. */
  ghost predicate BlockUnterminated(st: LexState, r: LexState, n: nat) {
    Shifted(st, r, n) && Open(st, n) && StreamAt(st, n) == '\0' && !r.eof &&
    r.line == st.line + LinesRead(st, n)
  }

  ghost predicate BlockLoopOutcome(st: LexState, r: LexState, n: nat, closed: bool) {
    if closed then BlockClosed(st, r, n) else BlockUnterminated(st, r, n)
  }

  lemma OpenShift(st: LexState, s2: LexState, k: nat, x: nat, n: nat)
    requires Shifted(st, s2, k) && Open(st, k) && Open(s2, x) && n == k + x
    ensures Open(st, n)
  {
    forall i | k <= i < k + x
      ensures StreamAt(st, i) != '\0' && !CloseAt(st, i)
    {
      ShiftedAt(st, s2, k, i - k);
      ShiftedAt(st, s2, k, i - k + 1);
      assert StreamAt(s2, i - k) != '\0' && !CloseAt(s2, i - k);
    }
  }

  /** The characters read by `advance_until` inside a block comment contain no newline and no
      `*#` that ends before the stop. */
  lemma BlockRun(st: LexState, m: nat)
    requires RunUntil(st, {'\n', '#'}, m)
    ensures m > 0 ==> Open(st, m - 1)
    ensures LinesRead(st, m) == 0
  {
    NoLinesRead(st, m);
    forall i | 0 <= i < m - 1
      ensures !CloseAt(st, i)
    {
      assert StreamAt(st, i + 1) != '#';
    }
  }

  /** The character a skipping round stops at is part of neither the end nor a `*#`. */
  lemma BlockSkipOpen(st: LexState, m: nat)
    requires RunUntil(st, {'\n', '#'}, m) && StreamAt(st, m) in "\n#"
    requires StreamAt(st, m) == '#' ==> m == 0 || StreamAt(st, m - 1) != '*'
    ensures Open(st, m + 1)
    ensures LinesRead(st, m + 1) == (if StreamAt(st, m) == '\n' then 1 else 0)
  {
    BlockRun(st, m);
    if m > 0 {
      assert !CloseAt(st, m - 1);
    }
    assert !CloseAt(st, m);
  }

  /** One round of the loop that reads a newline or a `#` that closes nothing. */
  lemma BlockSkipStep(st: LexState, s2: LexState, r: LexState, m: nat, k: nat, n: nat, closed: bool)
    requires RunUntil(st, {'\n', '#'}, m) && StreamAt(st, m) in "\n#"
    requires StreamAt(st, m) == '#' ==> m == 0 || StreamAt(st, m - 1) != '*'
    requires Shifted(st, s2, m + 1)
    requires s2.line == st.line + (if StreamAt(st, m) == '\n' then 1 else 0)
    requires BlockLoopOutcome(s2, r, k, closed) && n == m + 1 + k
    ensures BlockLoopOutcome(st, r, n, closed)
  {
    BlockSkipOpen(st, m);
    if closed {
      BlockSkipClosedOutcome(st, s2, r, m + 1, k, n);
    } else {
      BlockSkipUnterminated(st, s2, r, m + 1, k, n);
    }
  }

  lemma BlockSkipClosedOutcome(st: LexState, s2: LexState, r: LexState, k: nat, x: nat, n: nat)
    requires Shifted(st, s2, k) && Open(st, k) && BlockClosed(s2, r, x) && n == k + x
    requires s2.line == st.line + LinesRead(st, k)
    ensures BlockClosed(st, r, n)
  {
    ShiftedTrans(st, s2, r, k, x, n);
    var y := x - 3;
    var j := n - 3;
    BlockSkipClosed(st, s2, k, y, j);
    LinesReadShift(st, s2, k, y, j);
    assert r.line == st.line + LinesRead(st, j);
  }

  lemma BlockSkipUnterminated(st: LexState, s2: LexState, r: LexState, k: nat, x: nat, n: nat)
    requires Shifted(st, s2, k) && Open(st, k) && BlockUnterminated(s2, r, x) && n == k + x
    requires s2.line == st.line + LinesRead(st, k)
    ensures BlockUnterminated(st, r, n)
  {
    ShiftedTrans(st, s2, r, k, x, n);
    OpenShift(st, s2, k, x, n);
    ShiftedAt(st, s2, k, x);
    LinesReadShift(st, s2, k, x, n);
  }

  lemma BlockSkipClosed(st: LexState, s2: LexState, k: nat, j: nat, n: nat)
    requires Shifted(st, s2, k) && Open(st, k) && Open(s2, j) && CloseAt(s2, j) && n == k + j
    ensures Open(st, n) && CloseAt(st, n)
  {
    OpenShift(st, s2, k, j, n);
    ShiftedAt(st, s2, k, j);
    ShiftedAt(st, s2, k, j + 1);
  }

  /** The round of the loop that finds `*#`. */
  lemma BlockCloseStep(st: LexState, r: LexState, m: nat, n: nat)
    requires RunUntil(st, {'\n', '#'}, m) && m > 0 && StreamAt(st, m - 1) == '*' && StreamAt(st, m) == '#'
    requires Shifted(st, r, n) && r.line == st.line && n == m + 2
    ensures BlockClosed(st, r, n)
  {
    BlockRun(st, m);
    NoLinesRead(st, m - 1);
  }

  /** The round of the loop that meets the end of the input. */
  lemma BlockEndStep(st: LexState, r: LexState, m: nat)
    requires RunUntil(st, {'\n', '#'}, m) && StreamAt(st, m) == '\0'
    requires Shifted(st, r, m) && r.line == st.line && !r.eof
    ensures BlockUnterminated(st, r, m)
  {
    BlockRun(st, m);
    if m > 0 {
      assert !CloseAt(st, m - 1);
    }
  }

  /** What a round of the loop has seen: the run `advance_until` consumed (`m` characters, the
      last of them `last`) and the character after it (`next`), left in the queue. */
  ghost predicate BlockRound(st: LexState, m: nat, last: char, peeked: LexState, next: char) {
    RoundReads(st, last, peeked, next) &&
    RunUntil(st, {'\n', '#'}, m) && Shifted(st, peeked, m) && next == StreamAt(st, m) &&
    last == (if m == 0 then '\0' else StreamAt(st, m - 1)) &&
    peeked.line == st.line && !peeked.eof && peeked.tokens != []
  }

  lemma BlockRoundStarts(st: LexState) returns (m: nat, last: char, peeked: LexState, next: char)
    requires !st.eof
    ensures BlockRound(st, m, last, peeked, next)
  {
    var stops := {'\n', '#'};
    m := AdvanceUntilReads(st, stops, '\0');
    var s1 := AdvanceUntilSpec(st, stops, '\0').0;
    last := AdvanceUntilSpec(st, stops, '\0').1;
    peeked := PeekSpec(s1, 1).0;
    next := PeekSpec(s1, 1).1;
    PeekReadsStream(s1, 1);
    ShiftedAt(st, s1, m, 0);
    ShiftedTrans(st, s1, peeked, m, 0, m);
  }

  /** A round that reads a newline, or a `#` that closes nothing, goes on from `s2`. */
  ghost predicate BlockGoesOn(st: LexState, m: nat, s2: LexState) {
    !st.eof && Shifted(st, s2, m + 1) && !s2.eof && Remaining(s2) < Remaining(st) &&
    s2.line == st.line + (if StreamAt(st, m) == '\n' then 1 else 0) &&
    BlockCommentLoopSpec(st) == BlockCommentLoopSpec(s2)
  }

  lemma BlockNewlineRound(st: LexState, m: nat, last: char, peeked: LexState, next: char)
    returns (s2: LexState)
    requires BlockRound(st, m, last, peeked, next) && next == '\n'
    ensures BlockGoesOn(st, m, s2)
  {
    var bumped := peeked.(line := peeked.line + 1);
    s2 := AdvanceSpec(bumped).0;
    BlockLoopOnNewline(st, last, peeked, next);
    assert BlockCommentLoopSpec(st) == BlockCommentLoopSpec(s2);
    AdvanceReadsStream(bumped);
    ShiftedTrans(st, bumped, s2, m, 1, m + 1);
  }

  lemma BlockHashRound(st: LexState, m: nat, last: char, peeked: LexState, next: char)
    returns (s2: LexState)
    requires BlockRound(st, m, last, peeked, next) && next == '#' && last != '*'
    ensures BlockGoesOn(st, m, s2)
  {
    s2 := AdvanceSpec(peeked).0;
    BlockLoopOnHash(st, last, peeked, next);
    assert BlockCommentLoopSpec(st) == BlockCommentLoopSpec(s2);
    AdvanceReadsStream(peeked);
    ShiftedTrans(st, peeked, s2, m, 1, m + 1);
  }

  lemma BlockCloseRound(st: LexState, m: nat, last: char, peeked: LexState, next: char, n: nat)
    requires BlockRound(st, m, last, peeked, next) && next == '#' && last == '*' && n == m + 2
    ensures BlockClosed(st, BlockCommentLoopSpec(st), n)
  {
    var r := AdvanceSpec(AdvanceSpec(peeked).0).0;
    BlockLoopOnClose(st, last, peeked, next);
    assert BlockCommentLoopSpec(st) == r;
    AdvanceTwice(st, peeked, m, n);
    BlockCloseStep(st, r, m, n);
  }

  /** Two calls of `advance` from a state with a queued character read two characters on. */
  lemma AdvanceTwice(st: LexState, peeked: LexState, m: nat, n: nat)
    requires Shifted(st, peeked, m) && !peeked.eof && peeked.tokens != [] && n == m + 2
    ensures Shifted(st, AdvanceSpec(AdvanceSpec(peeked).0).0, n)
    ensures AdvanceSpec(AdvanceSpec(peeked).0).0.line == peeked.line
  {
    var s2 := AdvanceSpec(peeked).0;
    AdvanceReadsStream(peeked);
    AdvanceReadsStream(s2);
    DropTwice(Rest(st), m, 1);
    DropTwice(Rest(st), m + 1, 1);
  }

  lemma BlockEndRound(st: LexState, m: nat, last: char, peeked: LexState, next: char)
    requires BlockRound(st, m, last, peeked, next) && next == '\0'
    ensures BlockUnterminated(st, BlockCommentLoopSpec(st), m)
  {
    BlockLoopOnEnd(st, last, peeked, next);
    assert BlockCommentLoopSpec(st) == peeked;
    BlockEndStep(st, peeked, m);
  }

  /** The run `advance_until` reads is determined by the stream. */
  lemma RunUntilUnique(st: LexState, stops: set<char>, m: nat, k: nat)
    requires RunUntil(st, stops, m) && RunUntil(st, stops, k)
    ensures m == k
  {
  }

  lemma BlockRunLength(st: LexState) returns (m: nat)
    requires !st.eof
    ensures RunUntil(st, {'\n', '#'}, m)
  {
    m := AdvanceUntilReads(st, {'\n', '#'}, '\0');
  }

  /** The round whose run of `m` characters is followed by a newline goes on. */
  lemma BlockNewlineCase(st: LexState, m: nat) returns (s2: LexState)
    requires !st.eof && RunUntil(st, {'\n', '#'}, m) && StreamAt(st, m) == '\n'
    ensures BlockGoesOn(st, m, s2)
  {
    var k, last, peeked, next := BlockRoundStarts(st);
    RunUntilUnique(st, {'\n', '#'}, m, k);
    s2 := BlockNewlineRound(st, k, last, peeked, next);
  }

  /** The round whose run is followed by a `#` that does not follow a `*` goes on. */
  lemma BlockHashCase(st: LexState, m: nat) returns (s2: LexState)
    requires !st.eof && RunUntil(st, {'\n', '#'}, m) && StreamAt(st, m) == '#'
    requires m == 0 || StreamAt(st, m - 1) != '*'
    ensures BlockGoesOn(st, m, s2)
  {
    var k, last, peeked, next := BlockRoundStarts(st);
    RunUntilUnique(st, {'\n', '#'}, m, k);
    s2 := BlockHashRound(st, k, last, peeked, next);
  }

  /** The round whose run ends in `*` and is followed by `#` closes the comment. */
  lemma BlockCloseCase(st: LexState, m: nat, n: nat)
    requires !st.eof && RunUntil(st, {'\n', '#'}, m) && StreamAt(st, m) == '#'
    requires m > 0 && StreamAt(st, m - 1) == '*' && n == m + 2
    ensures BlockClosed(st, BlockCommentLoopSpec(st), n)
  {
    var k, last, peeked, next := BlockRoundStarts(st);
    RunUntilUnique(st, {'\n', '#'}, m, k);
    BlockCloseRound(st, k, last, peeked, next, n);
  }

  /** The round whose run reaches the end of the input stops before it. */
  lemma BlockEndCase(st: LexState, m: nat)
    requires !st.eof && RunUntil(st, {'\n', '#'}, m) && StreamAt(st, m) == '\0'
    ensures BlockUnterminated(st, BlockCommentLoopSpec(st), m)
  {
    var k, last, peeked, next := BlockRoundStarts(st);
    RunUntilUnique(st, {'\n', '#'}, m, k);
    BlockEndRound(st, k, last, peeked, next);
  }

  /** The loop of `block_comment` ends in one of the two ways `BlockLoopOutcome` describes. */
  lemma {:induction false} BlockLoopReads(st: LexState) returns (n: nat, closed: bool, r: LexState)
    requires !st.eof
    ensures r == BlockCommentLoopSpec(st) && BlockLoopOutcome(st, r, n, closed)
    decreases Remaining(st), 1
  {
    var m := BlockRunLength(st);
    var next := StreamAt(st, m);
    if next == '\n' {
      var s2 := BlockNewlineCase(st, m);
      n, closed, r := BlockGoesOnReads(st, m, s2);
    } else if next == '\0' {
      BlockEndCase(st, m);
      n, closed, r := m, false, BlockCommentLoopSpec(st);
    } else if m > 0 && StreamAt(st, m - 1) == '*' {
      n := m + 2;
      BlockCloseCase(st, m, n);
      closed, r := true, BlockCommentLoopSpec(st);
    } else {
      var s2 := BlockHashCase(st, m);
      n, closed, r := BlockGoesOnReads(st, m, s2);
    }
  }

  /** A round that read a run of `m` characters and the newline or `#` after it: the rest of the
      loop from `s2` is the rest of the loop from `st`. */
  lemma {:induction false} BlockGoesOnReads(st: LexState, m: nat, s2: LexState) returns (n: nat, closed: bool, r: LexState)
    requires RunUntil(st, {'\n', '#'}, m) && StreamAt(st, m) in "\n#"
    requires StreamAt(st, m) == '#' ==> m == 0 || StreamAt(st, m - 1) != '*'
    requires BlockGoesOn(st, m, s2)
    ensures r == BlockCommentLoopSpec(st) && BlockLoopOutcome(st, r, n, closed)
    decreases Remaining(st), 0
  {
    var k;
    k, closed, r := BlockLoopReads(s2);
    n := m + 1 + k;
    BlockSkipStep(st, s2, r, m, k, n, closed);
  }

  /** A line comment (`#` not followed by `*`) discards everything up to, not including, the next
      newline or the end; the line is unchanged. */
  lemma LineCommentReads(st: LexState) returns (n: nat)
    requires !st.eof && StreamAt(st, 0) != '*'
    ensures RunUntil(st, {'\n'}, n) && Shifted(st, CommentSpec(st), n)
    ensures CommentSpec(st).line == st.line && CommentSpec(st).lexeme == [] && !CommentSpec(st).eof
  {
    PeekReadsStream(st, 1);
    var peeked := PeekSpec(st, 1).0;
    assert CommentSpec(st) == LineCommentSpec(peeked);
    n := AdvanceUntilReads(peeked, {'\n'}, '\0');
    ShiftedTrans(st, peeked, AdvanceUntilSpec(peeked, {'\n'}, '\0').0, 0, n, n);
    RunUntilSame(st, peeked, {'\n'}, n);
  }

  lemma RunUntilSame(a: LexState, b: LexState, stops: set<char>, n: nat)
    requires Shifted(a, b, 0) && RunUntil(b, stops, n)
    ensures RunUntil(a, stops, n)
  {
    forall j | 0 <= j <= n
      ensures StreamAt(a, j) == StreamAt(b, j)
    {
      ShiftedAt(a, b, 0, j);
    }
  }

  /** A block comment (`#*`) discards its `*`, then runs the loop of `block_comment` from
      `s1`. */
  lemma BlockCommentReads(st: LexState) returns (s1: LexState, k: nat, closed: bool)
    requires !st.eof && StreamAt(st, 0) == '*'
    ensures Shifted(st, s1, 1) && s1.line == st.line
    ensures BlockLoopOutcome(s1, CommentSpec(st), k, closed) && CommentSpec(st).lexeme == []
  {
    PeekReadsStream(st, 1);
    var peeked := PeekSpec(st, 1).0;
    assert CommentSpec(st) == BlockCommentSpec(peeked);
    AdvanceReadsStream(peeked);
    s1 := AdvanceSpec(peeked).0;
    ShiftedTrans(st, peeked, s1, 0, 1, 1);
    var r;
    k, closed, r := BlockLoopReads(s1);
    BlockOutcomeClears(s1, r, k, closed);
  }

  lemma BlockOutcomeClears(st: LexState, r: LexState, k: nat, closed: bool)
    requires BlockLoopOutcome(st, r, k, closed)
    ensures BlockLoopOutcome(st, r.(lexeme := []), k, closed)
  {
    assert Rest(r.(lexeme := [])) == Rest(r);
  }

  /** Any comment: what it consumed, with the lexeme cleared and every newline in it counted,
      except one a closing `*#` swallows. */
  lemma CommentReads(st: LexState) returns (n: nat, lost: nat)
    requires !st.eof
    ensures Shifted(st, CommentSpec(st), n) && CommentSpec(st).lexeme == []
    ensures LinesCounted(st, CommentSpec(st).line, n, lost)
  {
    if StreamAt(st, 0) == '*' {
      var s1, k, closed := BlockCommentReads(st);
      n := 1 + k;
      ShiftedTrans(st, s1, CommentSpec(st), 1, k, n);
      lost := BlockOutcomeLines(s1, CommentSpec(st), k, closed);
      OneLineCounted(st);
      LinesCountedTrans(st, s1, CommentSpec(st).line, 1, k, n, 0, lost, lost);
    } else {
      n := LineCommentReads(st);
      NoLinesCounted(st, n);
      lost := 0;
    }
  }

  /** The loop of `block_comment` counts every newline it reads, except the character after a
      closing `*#` when that is a newline. */
  lemma BlockOutcomeLines(st: LexState, r: LexState, k: nat, closed: bool) returns (lost: nat)
    requires BlockLoopOutcome(st, r, k, closed)
    ensures LinesCounted(st, r.line, k, lost)
    ensures lost == if closed && StreamAt(st, k - 1) == '\n' then 1 else 0
  {
    if closed {
      lost := if StreamAt(st, k - 1) == '\n' then 1 else 0;
      assert LinesRead(st, k - 1) == LinesRead(st, k - 3);
    } else {
      lost := 0;
    }
  }

  /** What one call of `next_token` produced, after it had read `n` characters of `st`'s stream
      (comments and whitespace included); `s` is the state it left, on the line of `st` plus the
      newlines read, `lost` of them swallowed after a `*#` uncounted. */
  ghost predicate ScanOutcome(st: LexState, s: LexState, p: Pull, n: nat, lost: nat) {
    LinesCounted(st, s.line, n, lost) &&
    match p
    case Exhausted => false
    case Panicked => s.eof
    case Item(Ok(t)) => TokenRead(st, s, t, n)
    case Item(Err(e)) => ErrorRead(st, s, e, n)
  }

  /** A token ends the `n` characters read and spells its lexeme: either the end marker, whose
      lexeme is `"\0"` and after which the lexer is at its end, or an operator or punctuation
      token of the tables, a one-character token only when no two-character one could be read. */
  ghost predicate TokenRead(st: LexState, s: LexState, t: Token, n: nat) {
    Shifted(st, s, n) && ReadAs(st, n, t.lexeme) && t.lexeme == s.lexeme &&
    t.line == s.line && t.literal == None &&
    if t.kind == Eof then
      t.lexeme == "\0" && s.eof
    else
      !s.eof && Spelled(t.kind, t.lexeme) &&
      (|t.lexeme| == 1 ==> TwoCharKind(t.lexeme[0], StreamAt(st, n)).None?)
  }

  /** An error names the unexpected character, the last of the `n` read, and the line. */
  ghost predicate ErrorRead(st: LexState, s: LexState, e: EzcriptError, n: nat) {
    Shifted(st, s, n) && !s.eof && n >= 1 && Unexpected(StreamAt(st, n - 1)) &&
    e == Lexical(s.line, "unexpected character", [StreamAt(st, n - 1)])
  }

  lemma PunctuationInTable(c: char)
    requires Punctuation(c).Some?
    ensures c != '\n' && c != '\0'
    ensures OneCharKind(c) == Punctuation(c)
    ensures forall b :: TwoCharKind(c, b).None?
  {
  }

  /** An unexpected character selects no arm but the last. */
  lemma UnexpectedArms(c: char)
    requires Unexpected(c)
    ensures Punctuation(c).None? && c !in "-+*/=!<>"
  {
  }

  /** Called after the end, the loop's `advance().unwrap()` panics. */
  lemma ScanPanics(st: LexState)
    requires st.eof
    ensures ScanOutcome(st, ScanSpec(st).0, ScanSpec(st).1, 0, 0)
  {
  }

  /** `'\0'`: the end marker, and the lexer is at its end. */
  lemma ScanEnd(st: LexState, n: nat)
    requires !st.eof && st.lexeme == [] && StreamAt(st, 0) == '\0' && n == 1
    ensures ScanOutcome(st, ScanSpec(st).0, ScanSpec(st).1, n, 0)
  {
    AdvanceReadsStream(st);
    var st1 := AdvanceSpec(st).0;
    assert ScanSpec(st) == (st1.(eof := true), Emit(st1, Eof));
    assert Rest(st1.(eof := true)) == Rest(st1);
  }

  /** Brackets, `:`, `,`, `%` and `.` stand alone. */
  lemma ScanPunctuation(st: LexState, n: nat)
    requires !st.eof && st.lexeme == [] && Punctuation(StreamAt(st, 0)).Some? && n == 1
    ensures ScanOutcome(st, ScanSpec(st).0, ScanSpec(st).1, n, 0)
  {
    var c := StreamAt(st, 0);
    AdvanceReadsStream(st);
    PunctuationInTable(c);
    PunctuationArm(st, c);
    var st1 := AdvanceSpec(st).0;
    assert st1.lexeme == [c] by {
      assert st.lexeme + [c] == [c];
    }
    assert TwoCharKind(c, StreamAt(st, 1)).None?;
    OneCharOutcome(st, st1, Punctuation(c).value, c);
    OutcomeOf(st, ScanSpec(st), st1, Emit(st1, Punctuation(c).value), n);
  }

  /** An outcome of the scan, stated of the pair the scan returns. */
  lemma OutcomeOf(st: LexState, r: (LexState, Pull), s: LexState, p: Pull, n: nat)
    requires r == (s, p) && ScanOutcome(st, s, p, n, 0)
    ensures ScanOutcome(st, r.0, r.1, n, 0)
  {
  }

  /** One character read that makes a token of its own, as no two-character one starts with
      it: a token of the scan. */
  lemma OneCharOutcome(st: LexState, s: LexState, kind: TokenKind, c: char)
    requires Shifted(st, s, 1) && StreamAt(st, 0) == c && c != '\n' && !s.eof
    requires s.lexeme == [c] && s.line == st.line
    requires OneCharKind(c) == Some(kind) && TwoCharKind(c, StreamAt(st, 1)).None?
    ensures ScanOutcome(st, s, Emit(s, kind), 1, 0)
  {
    OneLineCounted(st);
  }

  /** Two characters read that make a token of the table: a token of the scan. */
  lemma TwoCharOutcome(st: LexState, s: LexState, kind: TokenKind, c: char, b: char)
    requires Shifted(st, s, 2) && StreamAt(st, 0) == c && StreamAt(st, 1) == b && !s.eof
    requires c != '\n' && b != '\n' && s.lexeme == [c, b] && s.line == st.line
    requires TwoCharKind(c, b) == Some(kind)
    ensures ScanOutcome(st, s, Emit(s, kind), 2, 0)
  {
    NoLinesCounted(st, 2);
  }

  /** The characters of the tables are not line breaks. */
  lemma TableCharacters(c: char, b: char)
    ensures OneCharKind(c).Some? ==> c != '\n'
    ensures TwoCharKind(c, b).Some? ==> c != '\n' && b != '\n' && OneCharKind(c).Some?
  {
  }

  /** The arm of the loop for brackets, `:`, `,`, `%` and `.`. */
  lemma PunctuationArm(st: LexState, c: char)
    requires AdvanceSpec(st).1 == Some(c) && Punctuation(c).Some?
    ensures ScanSpec(st) == (AdvanceSpec(st).0, Emit(AdvanceSpec(st).0, Punctuation(c).value))
  {
  }

  /** Anything else is a lexical error naming the character. */
  lemma ScanUnexpected(st: LexState, n: nat)
    requires !st.eof && st.lexeme == [] && Unexpected(StreamAt(st, 0)) && n == 1
    ensures ScanOutcome(st, ScanSpec(st).0, ScanSpec(st).1, n, 0)
  {
    var c := StreamAt(st, 0);
    AdvanceReadsStream(st);
    var st1 := AdvanceSpec(st).0;
    UnexpectedArm(st, c);
    assert st1.lexeme == [c] by {
      assert st.lexeme + [c] == [c];
    }
    ErrorOutcome(st, st1, c);
  }

  /** The last arm of the loop: an error naming the lexeme. */
  lemma UnexpectedArm(st: LexState, c: char)
    requires AdvanceSpec(st).1 == Some(c) && Unexpected(c)
    ensures var st1 := AdvanceSpec(st).0;
      ScanSpec(st) == (st1, Item(Err(Lexical(st1.line, "unexpected character", st1.lexeme))))
    ensures c != '\n' && c != '\0'
  {
    UnexpectedArms(c);
  }

  /** One unexpected character read: an error of the scan. */
  lemma ErrorOutcome(st: LexState, s: LexState, c: char)
    requires Shifted(st, s, 1) && StreamAt(st, 0) == c && Unexpected(c) && c != '\n' && !s.eof
    requires s.lexeme == [c] && s.line == st.line
    requires ScanSpec(st) == (s, Item(Err(Lexical(s.line, "unexpected character", s.lexeme))))
    ensures ScanOutcome(st, ScanSpec(st).0, ScanSpec(st).1, 1, 0)
  {
    OneLineCounted(st);
  }

  /** The `-`, `+`, `*` and `/` arm of the loop. */
  lemma CompoundArm(st: LexState, c: char)
    requires AdvanceSpec(st).1 == Some(c) && c in "-+*/"
    ensures ScanSpec(st) == CompoundSpec(AdvanceSpec(st).0, c)
  {
    assert Punctuation(c).None? && c != '\0';
  }

  /** The kinds `match_static_token` is given in the `=`, `!`, `<` and `>` arms of the loop:
      the character followed by `=`, and the character alone. */
  predicate ComparisonKinds(c: char, first: TokenKind, second: TokenKind) {
    (c == '=' && first == EqEqual && second == Equal) ||
    (c == '!' && first == BangEqual && second == Not) ||
    (c == '<' && first == LessEqual && second == Less) ||
    (c == '>' && first == GreaterEqual && second == Greater)
  }

  /** The `=`, `!`, `<` and `>` arms of the loop. */
  lemma ComparisonArm(st: LexState, c: char, first: TokenKind, second: TokenKind)
    requires AdvanceSpec(st).1 == Some(c) && ComparisonKinds(c, first, second)
    ensures ScanSpec(st) == MatchStaticTokenSpec(AdvanceSpec(st).0, '=', first, second)
  {
    if c == '=' {
      assert Punctuation('=').None? && '=' !in "-+*/";
    } else if c == '!' {
      assert Punctuation('!').None? && '!' !in "-+*/";
    } else if c == '<' {
      assert Punctuation('<').None? && '<' !in "-+*/";
    } else {
      assert Punctuation('>').None? && '>' !in "-+*/";
    }
  }

  /** The operators, one or two characters long. */
  lemma ScanOperator(st: LexState, n: nat)
    requires !st.eof && st.lexeme == [] && StreamAt(st, 0) in "-+*/=!<>"
    requires n == if TwoCharKind(StreamAt(st, 0), StreamAt(st, 1)).Some? then 2 else 1
    ensures ScanOutcome(st, ScanSpec(st).0, ScanSpec(st).1, n, 0)
  {
    var c := StreamAt(st, 0);
    AdvanceReadsStream(st);
    var st1 := AdvanceSpec(st).0;
    ShiftedAt(st, st1, 1, 0);
    if c in "-+*/" {
      CompoundArm(st, c);
      CompoundReads(st1, c);
    } else {
      var first, second :=
        if c == '=' then EqEqual else if c == '!' then BangEqual else if c == '<' then LessEqual else GreaterEqual,
        if c == '=' then Equal else if c == '!' then Not else if c == '<' then Less else Greater;
      ComparisonArm(st, c, first, second);
      ComparisonReads(st1, c, first, second);
    }
    ScanMunched(st, st1, c, ScanSpec(st).0, ScanSpec(st).1, n);
  }

  /** An operator read through `Munched` is a token of the scan. */
  lemma ScanMunched(st: LexState, st1: LexState, c: char, s: LexState, p: Pull, n: nat)
    requires Shifted(st, st1, 1) && st.lexeme == [] && st1.lexeme == [c] && st1.line == st.line
    requires StreamAt(st, 0) == c && StreamAt(st1, 0) == StreamAt(st, 1) && Munched(st1, c, s, p)
    requires n == if TwoCharKind(c, StreamAt(st1, 0)).Some? then 2 else 1
    ensures ScanOutcome(st, s, p, n, 0)
  {
    ShiftedAt(st, st1, 1, 0);
    if TwoCharKind(c, StreamAt(st1, 0)).Some? {
      ScanMunchedTwo(st, st1, c, s, p);
    } else {
      ScanMunchedOne(st, st1, c, s, p);
    }
  }

  lemma ScanMunchedTwo(st: LexState, st1: LexState, c: char, s: LexState, p: Pull)
    requires Shifted(st, st1, 1) && st.lexeme == [] && st1.lexeme == [c] && st1.line == st.line
    requires StreamAt(st, 0) == c && StreamAt(st1, 0) == StreamAt(st, 1) && Munched(st1, c, s, p)
    requires TwoCharKind(c, StreamAt(st1, 0)).Some?
    ensures ScanOutcome(st, s, p, 2, 0)
  {
    var b := StreamAt(st1, 0);
    TableCharacters(c, b);
    ShiftedTrans(st, st1, s, 1, 1, 2);
    assert s.lexeme == [c, b] by {
      assert st1.lexeme + [b] == [c, b];
    }
    TwoCharOutcome(st, s, TwoCharKind(c, b).value, c, b);
  }

  lemma ScanMunchedOne(st: LexState, st1: LexState, c: char, s: LexState, p: Pull)
    requires Shifted(st, st1, 1) && st.lexeme == [] && st1.lexeme == [c] && st1.line == st.line
    requires StreamAt(st, 0) == c && StreamAt(st1, 0) == StreamAt(st, 1) && Munched(st1, c, s, p)
    requires TwoCharKind(c, StreamAt(st1, 0)).None?
    ensures ScanOutcome(st, s, p, 1, 0)
  {
    TableCharacters(c, StreamAt(st1, 0));
    ShiftedTrans(st, st1, s, 1, 0, 1);
    OneCharOutcome(st, s, OneCharKind(c).value, c);
  }

  /** `#`: the comment is skipped and the loop goes round again. */
  lemma ScanComment(st: LexState) returns (s1: LexState, j: nat, lost: nat)
    requires !st.eof && st.lexeme == [] && StreamAt(st, 0) == '#'
    ensures Shifted(st, s1, j) && LinesCounted(st, s1.line, j, lost) && s1.lexeme == []
    ensures Remaining(s1) < Remaining(st) && ScanSpec(st) == ScanSpec(s1)
  {
    AdvanceReadsStream(st);
    CommentArm(st);
    var st1 := AdvanceSpec(st).0;
    s1 := CommentSpec(st1);
    var k;
    k, lost := CommentReads(st1);
    j := 1 + k;
    ShiftedTrans(st, st1, s1, 1, k, j);
    OneLineCounted(st);
    assert st1.line == st.line;
    LinesCountedTrans(st, st1, s1.line, 1, k, j, 0, lost, lost);
  }

  /** Whitespace is dropped from the lexeme; a newline counts a line. */
  lemma ScanWhitespace(st: LexState) returns (s1: LexState)
    requires !st.eof && st.lexeme == [] && IsWhitespace(StreamAt(st, 0))
    ensures Shifted(st, s1, 1) && s1.lexeme == []
    ensures s1.line == st.line + (if StreamAt(st, 0) == '\n' then 1 else 0)
    ensures LinesCounted(st, s1.line, 1, 0)
    ensures Remaining(s1) < Remaining(st) && ScanSpec(st) == ScanSpec(s1)
  {
    var c := StreamAt(st, 0);
    AdvanceReadsStream(st);
    var st1 := AdvanceSpec(st).0;
    s1 := st1.(lexeme := [], line := if c == '\n' then st1.line + 1 else st1.line);
    WhitespaceArm(st, c);
    assert Rest(s1) == Rest(st1);
  }

  /** Whatever the scan produces after skipping `j` characters it produces for the whole. */
  lemma ScanSkips(st: LexState, s1: LexState, s: LexState, p: Pull, j: nat, k: nat, n: nat,
                  lost1: nat, lost2: nat, lost: nat)
    requires Shifted(st, s1, j) && LinesCounted(st, s1.line, j, lost1) && ScanOutcome(s1, s, p, k, lost2)
    requires n == j + k && lost == lost1 + lost2
    ensures ScanOutcome(st, s, p, n, lost)
  {
    LinesCountedTrans(st, s1, s.line, j, k, n, lost1, lost2, lost);
    match p
    case Item(Ok(t)) => TokenSkips(st, s1, s, t, j, k, n);
    case Item(Err(e)) => ErrorSkips(st, s1, s, e, j, k, n);
    case _ =>
  }

  lemma TokenSkips(st: LexState, s1: LexState, s: LexState, t: Token, j: nat, k: nat, n: nat)
    requires Shifted(st, s1, j) && TokenRead(s1, s, t, k) && n == j + k
    ensures TokenRead(st, s, t, n)
  {
    ShiftedTrans(st, s1, s, j, k, n);
    ReadAsShifted(st, s1, j, k, n, t.lexeme);
    ShiftedIndex(st, s1, j, k, n);
  }

  lemma ErrorSkips(st: LexState, s1: LexState, s: LexState, e: EzcriptError, j: nat, k: nat, n: nat)
    requires Shifted(st, s1, j) && ErrorRead(s1, s, e, k) && n == j + k
    ensures ErrorRead(st, s, e, n)
  {
    ShiftedTrans(st, s1, s, j, k, n);
    ShiftedIndex(st, s1, j, k - 1, n - 1);
  }

  /** One call of the loop of `next_token` from a cleared lexeme: whitespace and comments are
      skipped, and then exactly one of the outcomes of `ScanOutcome` follows. */
  lemma {:induction false} ScanReads(st: LexState) returns (n: nat, lost: nat)
    requires st.lexeme == []
    ensures ScanOutcome(st, ScanSpec(st).0, ScanSpec(st).1, n, lost)
    decreases Remaining(st)
  {
    lost := 0;
    if st.eof {
      ScanPanics(st);
      n := 0;
      return;
    }
    var c := StreamAt(st, 0);
    if c == '\0' {
      n := 1;
      ScanEnd(st, n);
    } else if Punctuation(c).Some? {
      n := 1;
      ScanPunctuation(st, n);
    } else if c in "-+*/=!<>" {
      n := if TwoCharKind(c, StreamAt(st, 1)).Some? then 2 else 1;
      ScanOperator(st, n);
    } else if c == '#' {
      var s1, j, lost1 := ScanComment(st);
      var k, lost2 := ScanReads(s1);
      n, lost := j + k, lost1 + lost2;
      ScanSkips(st, s1, ScanSpec(s1).0, ScanSpec(s1).1, j, k, n, lost1, lost2, lost);
    } else if IsWhitespace(c) {
      var s1 := ScanWhitespace(st);
      var k;
      k, lost := ScanReads(s1);
      n := 1 + k;
      ScanSkips(st, s1, ScanSpec(s1).0, ScanSpec(s1).1, 1, k, n, 0, lost, lost);
    } else {
      n := 1;
      ScanUnexpected(st, n);
    }
  }

  /** `next_token`: `None` once the end was reported; otherwise, from the position of the stream
      reached so far, one of the outcomes of `ScanOutcome`. */
  lemma NextTokenReads(st: LexState) returns (n: nat, lost: nat)
    ensures st.eof ==> NextTokenSpec(st) == (st, Exhausted)
    ensures !st.eof ==> ScanOutcome(st, NextTokenSpec(st).0, NextTokenSpec(st).1, n, lost)
  {
    n, lost := 0, 0;
    if !st.eof {
      var cleared := st.(lexeme := []);
      var k;
      k, lost := ScanReads(cleared);
      assert Rest(cleared) == Rest(st);
      assert Shifted(st, cleared, 0);
      n := k;
      ScanSkips(st, cleared, ScanSpec(cleared).0, ScanSpec(cleared).1, 0, k, n, 0, lost, lost);
    }
  }

  /** After the end marker every further call returns `None` and changes nothing. */
  lemma EofIsFinal(st: LexState, t: Token)
    requires NextTokenSpec(st).1 == Item(Ok(t)) && t.kind == Eof
    ensures NextTokenSpec(NextTokenSpec(st).0) == (NextTokenSpec(st).0, Exhausted)
  {
    var n, lost := NextTokenReads(st);
  }

  /** A lexical error does not end the scan: the lexer is not at its end, and the next call goes
      on after the offending character. */
  lemma ErrorResumes(st: LexState, e: EzcriptError)
    requires NextTokenSpec(st).1 == Item(Err(e))
    ensures !NextTokenSpec(st).0.eof && NextTokenSpec(NextTokenSpec(st).0).1 != Exhausted
  {
    var n, lost := NextTokenReads(st);
    var k, lost2 := NextTokenReads(NextTokenSpec(st).0);
  }

  // ---------------------------------------------------------------------------------------
  // The close of a block comment, as evidently intended

  /** The loop of `block_comment` as evidently intended: it stops right after the `#` of `*#`
      (answering `true`) or before the end of the input (answering `false`).  Either way the
      lexer is not at its end, and a closed comment's last character is its `#`. */
  function BlockCommentLoopFixed(st: LexState): (r: (LexState, bool))
    requires !st.eof
    ensures !r.0.eof
    ensures r.1 ==> r.0.lexeme != [] && r.0.lexeme[|r.0.lexeme| - 1] == '#'
    decreases Remaining(st)
  {
    var scanned := AdvanceUntilSpec(st, {'\n', '#'}, '\0').0;
    var last := AdvanceUntilSpec(st, {'\n', '#'}, '\0').1;
    var peeked := PeekSpec(scanned, 1).0;
    var next := PeekSpec(scanned, 1).1;
    if next == '\n' then
      BlockCommentLoopFixed(AdvanceSpec(peeked.(line := peeked.line + 1)).0)
    else if last == '*' && next == '#' then
      (AdvanceSpec(peeked).0, true)
    else if next == '\0' then
      (peeked, false)
    else
      BlockCommentLoopFixed(AdvanceSpec(peeked).0)
  }

  /** One unfolding of the intended loop, in the names of `RoundReads`, one lemma per way out
      of a round. */
  lemma FixedOnNewline(st: LexState, last: char, peeked: LexState, next: char)
    requires RoundReads(st, last, peeked, next) && next == '\n'
    ensures BlockCommentLoopFixed(st) == BlockCommentLoopFixed(AdvanceSpec(peeked.(line := peeked.line + 1)).0)
  {
    var bumped := peeked.(line := peeked.line + 1);
    assert bumped.tokens != [] && !bumped.eof;
    assert !AdvanceSpec(bumped).0.eof;
  }

  lemma FixedOnClose(st: LexState, last: char, peeked: LexState, next: char)
    requires RoundReads(st, last, peeked, next) && last == '*' && next == '#'
    ensures BlockCommentLoopFixed(st) == (AdvanceSpec(peeked).0, true)
  {
  }

  lemma FixedOnEnd(st: LexState, last: char, peeked: LexState, next: char)
    requires RoundReads(st, last, peeked, next) && next == '\0'
    ensures BlockCommentLoopFixed(st) == (peeked, false)
  {
  }

  lemma FixedOnHash(st: LexState, last: char, peeked: LexState, next: char)
    requires RoundReads(st, last, peeked, next) && next != '\n' && next != '\0' && !(last == '*' && next == '#')
    ensures BlockCommentLoopFixed(st) == BlockCommentLoopFixed(AdvanceSpec(peeked).0)
  {
  }

  /** The loop as written next to the intended one: equal where the latter is not closed, one
      character further on where it is. */
  ghost predicate Overshoots(st: LexState)
    requires !st.eof
  {
    var f := BlockCommentLoopFixed(st);
    BlockCommentLoopSpec(st) == if f.1 then AdvanceSpec(f.0).0 else f.0
  }

  /** `Overshoots` carries over a round that goes on to `s2`. */
  lemma OvershootsOn(st: LexState, s2: LexState)
    requires !st.eof && !s2.eof && Overshoots(s2)
    requires BlockCommentLoopSpec(st) == BlockCommentLoopSpec(s2)
    requires BlockCommentLoopFixed(st) == BlockCommentLoopFixed(s2)
    ensures Overshoots(st)
  {
  }

  /** The loop as written is the intended one, except that after a close it reads one more
      character: the character right after `*#` is consumed as part of the comment. */
  lemma {:induction false} BlockLoopOvershoots(st: LexState)
    requires !st.eof
    ensures var f := BlockCommentLoopFixed(st);
      BlockCommentLoopSpec(st) == if f.1 then AdvanceSpec(f.0).0 else f.0
    decreases Remaining(st)
  {
    var scanned := AdvanceUntilSpec(st, {'\n', '#'}, '\0').0;
    var last := AdvanceUntilSpec(st, {'\n', '#'}, '\0').1;
    var peeked := PeekSpec(scanned, 1).0;
    var next := PeekSpec(scanned, 1).1;
    assert RoundReads(st, last, peeked, next);
    if next == '\n' {
      var s2 := AdvanceSpec(peeked.(line := peeked.line + 1)).0;
      BlockLoopOnNewline(st, last, peeked, next);
      FixedOnNewline(st, last, peeked, next);
      BlockLoopOvershoots(s2);
      OvershootsOn(st, s2);
    } else if last == '*' && next == '#' {
      BlockLoopOnClose(st, last, peeked, next);
      FixedOnClose(st, last, peeked, next);
    } else if next == '\0' {
      BlockLoopOnEnd(st, last, peeked, next);
      FixedOnEnd(st, last, peeked, next);
    } else {
      var s2 := AdvanceSpec(peeked).0;
      BlockLoopOnHash(st, last, peeked, next);
      FixedOnHash(st, last, peeked, next);
      BlockLoopOvershoots(s2);
      OvershootsOn(st, s2);
    }
  }

  /** When the `#` of the close is the last character of the input, the extra read takes the
      end marker and sets `eof`, and the next round of `next_token` panics on its `unwrap`. */
  lemma CloseAtEndPanics(st: LexState)
    requires !st.eof
    requires var f := BlockCommentLoopFixed(st); f.1 && f.0.tokens == [] && f.0.source == []
    ensures BlockCommentLoopSpec(st).eof
    ensures ScanSpec(BlockCommentLoopSpec(st).(lexeme := [])).1 == Panicked
  {
    BlockLoopOvershoots(st);
  }

  /** After `#*`, the text `*#+`: the first round reads the `*` and peeks the `#`. */
  lemma CloseRoundExample()
    ensures RoundReads(LexState("*#+", [], "", 1, false), '*', LexState("+", ['#'], "*", 1, false), '#')
  {
    var st := LexState("*#+", [], "", 1, false);
    var p0 := LexState("#+", ['*'], "", 1, false);
    var a1 := LexState("#+", [], "*", 1, false);
    var p1 := LexState("+", ['#'], "*", 1, false);
    assert Nulls(0) == [];
    assert st.source[..1] == "*" && st.source[1..] == "#+";
    assert st.tokens + st.source[..1] + Nulls(0) == ['*'];
    assert PeekSpec(st, 1).0.tokens == ['*'];
    assert PeekSpec(st, 1).0.source == "#+";
    assert PeekSpec(st, 1) == (p0, '*');
    assert AdvanceSpec(p0).0 == a1;
    assert a1.source[..1] == "#" && a1.source[1..] == "+";
    assert a1.tokens + a1.source[..1] + Nulls(0) == ['#'];
    assert PeekSpec(a1, 1).0.tokens == ['#'];
    assert PeekSpec(a1, 1).0.source == "+";
    assert PeekSpec(a1, 1) == (p1, '#');
    assert AdvanceUntilSpec(a1, {'\n', '#'}, '*') == (p1, '*');
    assert AdvanceUntilSpec(st, {'\n', '#'}, '\0') == (p1, '*');
  }

  /** So the comment closes there: the intended loop leaves the `+` to be scanned, ... */
  lemma SwallowFixed()
    ensures BlockCommentLoopFixed(LexState("*#+", [], "", 1, false)).0.source == "+"
  {
    var p1 := LexState("+", ['#'], "*", 1, false);
    CloseRoundExample();
    FixedOnClose(LexState("*#+", [], "", 1, false), '*', p1, '#');
    assert AdvanceSpec(p1).0 == LexState("+", [], "*#", 1, false);
  }

  /** ... where the loop as written reads it with the comment and leaves nothing. */
  lemma SwallowAsWritten()
    ensures BlockCommentLoopSpec(LexState("*#+", [], "", 1, false)).source == []
  {
    var p1 := LexState("+", ['#'], "*", 1, false);
    CloseRoundExample();
    BlockLoopOnClose(LexState("*#+", [], "", 1, false), '*', p1, '#');
    assert AdvanceSpec(p1).0 == LexState("+", [], "*#", 1, false);
    assert AdvanceSpec(LexState("+", [], "*#", 1, false)).0 == LexState([], [], "*#+", 1, false);
  }
}
