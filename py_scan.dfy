/** The character machine of the two Python lexers (ezcript/lexer/lexer.py and fol/lexer.py):
    a source string, the current character `_character` (a one-character string, or `''` past
    the end), `_position` and `_read_position`.  Each file carries its own copy of
    `_read_character`, `_peek_character`, `_skip_whitespace` and the identifier, number and
    string readers; the functions here give the meaning of the part the copies have in common.
    fol/lexer.py's `_read_character` also counts lines: `FolLexer` keeps that counter beside
    this state, as `FolLexer.LineAt` of it, and its class's `ReadCharacter` updates `line`.

    `Rest(st)` is the input not yet scanned, starting with the current character; the reference
    functions `Run` and `UpTo` say, on that text alone, how far each reader goes. */
module PyScan {

  /** Python's `\s` on a one-character `str`: the characters `str.isspace` accepts. */
  predicate IsSpace(c: char) {
    ('\t' <= c <= '\r') || ('\U{001C}' <= c <= '\U{001F}') || c == ' ' || c == '\U{0085}' || c == '\U{00A0}' ||
    c == '\U{1680}' || ('\U{2000}' <= c <= '\U{200A}') || c == '\U{2028}' || c == '\U{2029}' ||
    c == '\U{202F}' || c == '\U{205F}' || c == '\U{3000}'
  }

  /** `_is_letter`: `[a-zA-Z_]`. */
  predicate IsLetter(c: char) {
    ('a' <= c <= 'z') || ('A' <= c <= 'Z') || c == '_'
  }

  /** The decimal digits of Unicode (general category Nd, Unicode 15.0) beyond the ASCII ones:
      63 runs of consecutive characters, the first from U+0660. */
  predicate OtherDigit(c: char) {
    ('\U{0660}' <= c <= '\U{0669}') || ('\U{06F0}' <= c <= '\U{06F9}') ||
    ('\U{07C0}' <= c <= '\U{07C9}') || ('\U{0966}' <= c <= '\U{096F}') ||
    ('\U{09E6}' <= c <= '\U{09EF}') || ('\U{0A66}' <= c <= '\U{0A6F}') ||
    ('\U{0AE6}' <= c <= '\U{0AEF}') || ('\U{0B66}' <= c <= '\U{0B6F}') ||
    ('\U{0BE6}' <= c <= '\U{0BEF}') || ('\U{0C66}' <= c <= '\U{0C6F}') ||
    ('\U{0CE6}' <= c <= '\U{0CEF}') || ('\U{0D66}' <= c <= '\U{0D6F}') ||
    ('\U{0DE6}' <= c <= '\U{0DEF}') || ('\U{0E50}' <= c <= '\U{0E59}') ||
    ('\U{0ED0}' <= c <= '\U{0ED9}') || ('\U{0F20}' <= c <= '\U{0F29}') ||
    ('\U{1040}' <= c <= '\U{1049}') || ('\U{1090}' <= c <= '\U{1099}') ||
    ('\U{17E0}' <= c <= '\U{17E9}') || ('\U{1810}' <= c <= '\U{1819}') ||
    ('\U{1946}' <= c <= '\U{194F}') || ('\U{19D0}' <= c <= '\U{19D9}') ||
    ('\U{1A80}' <= c <= '\U{1A89}') || ('\U{1A90}' <= c <= '\U{1A99}') ||
    ('\U{1B50}' <= c <= '\U{1B59}') || ('\U{1BB0}' <= c <= '\U{1BB9}') ||
    ('\U{1C40}' <= c <= '\U{1C49}') || ('\U{1C50}' <= c <= '\U{1C59}') ||
    ('\U{A620}' <= c <= '\U{A629}') || ('\U{A8D0}' <= c <= '\U{A8D9}') ||
    ('\U{A900}' <= c <= '\U{A909}') || ('\U{A9D0}' <= c <= '\U{A9D9}') ||
    ('\U{A9F0}' <= c <= '\U{A9F9}') || ('\U{AA50}' <= c <= '\U{AA59}') ||
    ('\U{ABF0}' <= c <= '\U{ABF9}') || ('\U{FF10}' <= c <= '\U{FF19}') ||
    ('\U{104A0}' <= c <= '\U{104A9}') || ('\U{10D30}' <= c <= '\U{10D39}') ||
    ('\U{11066}' <= c <= '\U{1106F}') || ('\U{110F0}' <= c <= '\U{110F9}') ||
    ('\U{11136}' <= c <= '\U{1113F}') || ('\U{111D0}' <= c <= '\U{111D9}') ||
    ('\U{112F0}' <= c <= '\U{112F9}') || ('\U{11450}' <= c <= '\U{11459}') ||
    ('\U{114D0}' <= c <= '\U{114D9}') || ('\U{11650}' <= c <= '\U{11659}') ||
    ('\U{116C0}' <= c <= '\U{116C9}') || ('\U{11730}' <= c <= '\U{11739}') ||
    ('\U{118E0}' <= c <= '\U{118E9}') || ('\U{11950}' <= c <= '\U{11959}') ||
    ('\U{11C50}' <= c <= '\U{11C59}') || ('\U{11D50}' <= c <= '\U{11D59}') ||
    ('\U{11DA0}' <= c <= '\U{11DA9}') || ('\U{11F50}' <= c <= '\U{11F59}') ||
    ('\U{16A60}' <= c <= '\U{16A69}') || ('\U{16AC0}' <= c <= '\U{16AC9}') ||
    ('\U{16B50}' <= c <= '\U{16B59}') || ('\U{1D7CE}' <= c <= '\U{1D7FF}') ||
    ('\U{1E140}' <= c <= '\U{1E149}') || ('\U{1E2F0}' <= c <= '\U{1E2F9}') ||
    ('\U{1E4F0}' <= c <= '\U{1E4F9}') || ('\U{1E950}' <= c <= '\U{1E959}') ||
    ('\U{1FBF0}' <= c <= '\U{1FBF9}')
  }

  /** `_is_number`: `\d` on a one-character `str`, any Unicode decimal digit. */
  predicate IsNumber(c: char) {
    ('0' <= c <= '9') || ('\U{0660}' <= c && OtherDigit(c))
  }

  /** The condition of the `_read_identifier` loop. */
  predicate IsIdentChar(c: char) {
    IsLetter(c) || IsNumber(c)
  }

  /** The classes of characters the read loops of the lexers test. */
  datatype CharClass = Whitespace | IdentChar | Digit

  predicate InClass(c: char, k: CharClass) {
    match k
    case Whitespace => IsSpace(c)
    case IdentChar => IsIdentChar(c)
    case Digit => IsNumber(c)
  }

  /** Python's `s[i:j]` for non-negative bounds: both are clamped to the length, and a reversed
      range is empty. */
  function Slice(s: string, i: nat, j: nat): (r: string)
    ensures i <= j <= |s| ==> r == s[i..j]
    ensures |s| <= i ==> r == []
  {
    var a := if i < |s| then i else |s|;
    var b := if j < |s| then j else |s|;
    if a <= b then s[a..b] else []
  }

  /** `s[n:]` for any `n`: empty once `n` is past the end. */
  function Drop(s: string, n: nat): (r: string)
    ensures |r| == if n < |s| then |s| - n else 0
  {
    if n < |s| then s[n..] else []
  }

  /** Within the bounds, `Drop` is the slice. */
  lemma DropIsSlice(s: string, n: nat)
    requires n <= |s|
    ensures Drop(s, n) == s[n..]
  {
  }

  /** Dropping twice is dropping the sum. */
  lemma DropDrop(s: string, m: nat, n: nat)
    ensures Drop(Drop(s, m), n) == Drop(s, m + n)
  {
  }

  /** The `n` characters after position `p` are those after the first of `s[p..]`. */
  lemma InnerSlice(s: string, p: nat, n: nat)
    requires p + 1 + n <= |s|
    ensures s[p + 1..p + 1 + n] == s[p..][1..][..n]
  {
  }

  /** `source[i]` as the lexers read it: a one-character string, or `''` past the end. */
  function CharAt(s: string, i: nat): (r: string)
    ensures |r| <= 1
    ensures r == [] <==> |s| <= i
  {
    if i < |s| then [s[i]] else ""
  }

  /** The fields `_source`, `_character`, `_position`, `_read_position`. */
  datatype LexState = LexState(source: string, character: string, position: nat, readPosition: nat)

  /** What holds after the constructor's first `_read_character` and is kept by every step:
      the read position is one past the position, and the current character is the one there. */
  predicate Valid(st: LexState) {
    st.readPosition == st.position + 1 && st.character == CharAt(st.source, st.position)
  }

  /** The input not yet scanned, current character first. */
  function Rest(st: LexState): string {
    Drop(st.source, st.position)
  }

  /** `_read_character`: the current character becomes `source[read_position]` (or `''`), the
      position moves there and the read position one further. */
  function ReadCharacterSpec(st: LexState): (r: LexState)
    ensures Valid(r) && r.source == st.source
    ensures r.position == st.readPosition
    ensures Valid(st) ==> Rest(r) == Drop(Rest(st), 1)
  {
    LexState(st.source, CharAt(st.source, st.readPosition), st.readPosition, st.readPosition + 1)
  }

  /** `Lexer.__init__`: an empty current character at position 0, then one read. */
  function Initial(source: string): (r: LexState)
    ensures Valid(r) && r.source == source && Rest(r) == source && r.position == 0
  {
    ReadCharacterSpec(LexState(source, "", 0, 0))
  }

  /** What `_peek_character` can raise: `IndexError` from indexing past the end; and what
      `next_token` can raise: `UnboundLocalError` from returning a `token` never assigned. */
  datatype PyError = IndexError | UnboundLocalError

  /** `_peek_character(skip)`: `''` once the read position is at the end; otherwise the
      character `skip - 1` places after it, which raises `IndexError` if that is past the end. */
  function PeekSpec(st: LexState, skip: nat): (r: PeekResult)
    requires skip >= 1
  {
    if st.readPosition >= |st.source| then Peeked("")
    else if skip == 1 then Peeked([st.source[st.readPosition]])
    else if st.readPosition + (skip - 1) < |st.source| then Peeked([st.source[st.readPosition + (skip - 1)]])
    else Raised(IndexError)
  }

  /** The result of a call that returns a string or raises. */
  datatype PeekResult = Peeked(text: string) | Raised(error: PyError)

  /** `_skip_whitespace`: reads while the current character is whitespace. */
  function SkipWhitespaceSpec(st: LexState): (r: LexState)
    requires Valid(st)
    ensures Valid(r) && r.source == st.source
    ensures r.character == [] || !IsSpace(r.character[0])
    decreases |st.source| - st.position
  {
    if st.character != [] && IsSpace(st.character[0]) then SkipWhitespaceSpec(ReadCharacterSpec(st)) else st
  }

  /** The loops of `_read_identifier` and `_read_number`: read while the current character
      satisfies `p`. */
  function ReadWhileSpec(st: LexState, k: CharClass): (r: LexState)
    requires Valid(st)
    ensures Valid(r) && r.source == st.source && r.position >= st.position
    decreases |st.source| - st.position
  {
    if st.character != [] && InClass(st.character[0], k) then ReadWhileSpec(ReadCharacterSpec(st), k) else st
  }

  /** `_read_identifier` and `_read_number`: the loop, and the text it passed over. */
  function ReadRunSpec(st: LexState, k: CharClass): (r: Reading)
    requires Valid(st)
    ensures Valid(r.state) && r.state.source == st.source
  {
    var after := ReadWhileSpec(st, k);
    Reading(after, Slice(st.source, st.position, after.position))
  }

  /** A reader's new state and the text it returns. */
  datatype Reading = Reading(state: LexState, text: string)

  /** The loop of `_read_string`: reads until the current character is the quote, or the read
      position is past the end. */
  function StringLoopSpec(st: LexState, quote: string): (r: LexState)
    requires Valid(st)
    ensures Valid(r) && r.source == st.source && r.position >= st.position
    decreases |st.source| + 1 - st.position
  {
    if st.character != quote && st.readPosition <= |st.source| then StringLoopSpec(ReadCharacterSpec(st), quote)
    else st
  }

  /** `_read_string`, entered on the opening quote: the text from after it up to the closing
      quote (or the end), then one more read past the closing quote. */
  function ReadStringSpec(st: LexState): (r: Reading)
    requires Valid(st)
    ensures Valid(r.state) && r.state.source == st.source
  {
    var inside := ReadCharacterSpec(st);
    var closed := StringLoopSpec(inside, st.character);
    Reading(ReadCharacterSpec(closed), Slice(st.source, inside.position, closed.position))
  }

  // ---------------------------------------------------------------------------------------
  // Reference: how far each reader goes, stated on the unscanned text alone

  /** Length of the longest prefix of `text` whose characters all satisfy `p`. */
  function Run(text: string, k: CharClass): (n: nat)
    ensures n <= |text|
  {
    if text != [] && InClass(text[0], k) then 1 + Run(text[1..], k) else 0
  }

  /** `Run` is the longest prefix of `p` characters: all of its characters satisfy `p`, and
      the one after it does not. */
  lemma {:induction false} RunIsLongest(text: string, k: CharClass)
    ensures var n := Run(text, k);
      (forall i :: 0 <= i < n ==> InClass(text[i], k)) && (n < |text| ==> !InClass(text[n], k))
  {
    if text != [] && InClass(text[0], k) {
      RunIsLongest(text[1..], k);
      var n := Run(text, k);
      forall i | 0 <= i < n
        ensures InClass(text[i], k)
      {
        if i > 0 {
          assert text[i] == text[1..][i - 1];
        }
      }
    }
  }

  /** Index of the first `q` in `text`, or `|text|` if there is none. */
  function UpTo(text: string, q: char): (n: nat)
    ensures n <= |text|
  {
    if text == [] || text[0] == q then 0 else 1 + UpTo(text[1..], q)
  }

  /** `UpTo` stops at the first `q`: no character before it is `q`, and the one there is. */
  lemma {:induction false} UpToIsFirst(text: string, q: char)
    ensures var n := UpTo(text, q);
      (forall i :: 0 <= i < n ==> text[i] != q) && (n < |text| ==> text[n] == q)
  {
    if text != [] && text[0] != q {
      UpToIsFirst(text[1..], q);
      var n := UpTo(text, q);
      forall i | 0 <= i < n
        ensures text[i] != q
      {
        if i > 0 {
          assert text[i] == text[1..][i - 1];
        }
      }
    }
  }

  /** The length of a number at the head of `text`: the leading digits, and if a `.` follows
      them, the dot and the digits after it. */
  function NumberLength(text: string): (m: nat)
    ensures m <= |text|
  {
    var n := Run(text, Digit);
    if n < |text| && text[n] == '.' then n + 1 + Run(text[n + 1..], Digit) else n
  }

  // ---------------------------------------------------------------------------------------
  // Properties

  /** The current character is the first unscanned one, or `''` when nothing is left. */
  lemma CharacterIsHead(st: LexState)
    requires Valid(st)
    ensures st.character == (if Rest(st) == [] then "" else [Rest(st)[0]])
  {
  }

  /** `_peek_character(1)` is the character after the current one, `''` if there is none; it
      never raises. */
  lemma PeekOne(st: LexState)
    requires Valid(st)
    ensures PeekSpec(st, 1) == Peeked(CharAt(Rest(st), 1))
  {
  }

  /** `_peek_character(2)` is the second character after the current one; it raises exactly
      when there is a first but no second. */
  lemma PeekTwo(st: LexState)
    requires Valid(st)
    ensures PeekSpec(st, 2).Raised? <==> |Rest(st)| == 2
    ensures PeekSpec(st, 2).Raised? ==> PeekSpec(st, 2).error == IndexError
    ensures |Rest(st)| != 2 ==> PeekSpec(st, 2) == Peeked(if |Rest(st)| < 2 then "" else CharAt(Rest(st), 2))
  {
  }

  /** Skipping whitespace consumes exactly the leading run of whitespace. */
  lemma {:induction false} SkipWhitespaceRun(st: LexState)
    requires Valid(st)
    ensures Rest(SkipWhitespaceSpec(st)) == Drop(Rest(st), Run(Rest(st), Whitespace))
    decreases |st.source| - st.position
  {
    if st.character != [] && IsSpace(st.character[0]) {
      var next := ReadCharacterSpec(st);
      SkipWhitespaceRun(next);
      assert Rest(st)[1..] == Rest(next);
    }
  }

  /** A read loop consumes exactly the leading run of characters satisfying `p`. */
  lemma {:induction false} ReadWhileRun(st: LexState, k: CharClass)
    requires Valid(st)
    ensures var r := ReadWhileSpec(st, k); var n := Run(Rest(st), k);
      Rest(r) == Drop(Rest(st), n) && (st.position < |st.source| ==> r.position == st.position + n)
    decreases |st.source| - st.position
  {
    RunStep(st, k);
    if st.character != [] && InClass(st.character[0], k) {
      ReadWhileRun(ReadCharacterSpec(st), k);
    }
  }

  /** `Run` on the unscanned text, one character at a time. */
  lemma RunStep(st: LexState, k: CharClass)
    requires Valid(st)
    ensures Run(Rest(st), k) ==
      if st.character != [] && InClass(st.character[0], k) then 1 + Run(Rest(ReadCharacterSpec(st)), k) else 0
  {
    CharacterIsHead(st);
    if st.character != [] {
      assert Rest(st)[1..] == Rest(ReadCharacterSpec(st));
    }
  }

  /** `_read_identifier` and `_read_number` return the leading run of `p` characters and
      leave the scanner just after it. */
  lemma ReadRunReturnsRun(st: LexState, k: CharClass)
    requires Valid(st)
    ensures var r := ReadRunSpec(st, k); var n := Run(Rest(st), k);
      r.text == Rest(st)[..n] && Rest(r.state) == Drop(Rest(st), n)
  {
    ReadWhileRun(st, k);
  }

  /** The string loop stops at the first quote character, or at the end. */
  lemma {:induction false} StringLoopUpTo(st: LexState, q: char)
    requires Valid(st)
    ensures var r := StringLoopSpec(st, [q]); var n := UpTo(Rest(st), q);
      Rest(r) == Drop(Rest(st), n) && r.position == st.position + n
    decreases |st.source| + 1 - st.position
  {
    if st.character != [q] && st.readPosition <= |st.source| {
      var next := ReadCharacterSpec(st);
      StringLoopUpTo(next, q);
      assert Rest(st)[1..] == Rest(next);
    }
  }

  /** `_read_string` on an opening quote `q` returns the text strictly between it and the next
      `q`, or all the rest of the input if there is no closing quote; the scanner resumes after
      the closing quote.  An unterminated string is not an error. */
  lemma ReadStringUpToQuote(st: LexState)
    requires Valid(st) && Rest(st) != []
    ensures var text := Rest(st); var q := text[0]; var n := UpTo(text[1..], q);
      var r := ReadStringSpec(st);
      r.text == text[1..][..n] && Rest(r.state) == Drop(text, n + 2)
  {
    var text := Rest(st);
    var q := text[0];
    var p := st.position;
    DropIsSlice(st.source, p);
    var inside := ReadCharacterSpec(st);
    DropIsSlice(text, 1);
    assert Rest(inside) == text[1..];
    StringLoopUpTo(inside, q);
    var n := UpTo(text[1..], q);
    var closed := StringLoopSpec(inside, [q]);
    assert st.character == [q];
    assert ReadStringSpec(st) == Reading(ReadCharacterSpec(closed), Slice(st.source, inside.position, closed.position));
    InnerSlice(st.source, p, n);
    DropDrop(text, 1, n);
    DropDrop(text, n + 1, 1);
  }

  /** The length of a number with a fractional part. */
  lemma NumberLengthWithDot(text: string)
    requires Run(text, Digit) < |text| && text[Run(text, Digit)] == '.'
    ensures var n := Run(text, Digit); NumberLength(text) == n + 1 + Run(text[n + 1..], Digit)
  {
  }

  /** A text cut after a `.` at `n` and `f` characters more. */
  lemma DotSplit(text: string, n: nat, f: nat)
    requires n + 1 + f <= |text| && text[n] == '.'
    ensures text[..n + 1 + f] == text[..n] + "." + text[n + 1..][..f]
  {
    assert text[..n + 1 + f] == text[..n] + [text[n]] + text[n + 1..][..f];
  }

  /** The integer part of a number followed by `.`: the scanner then stands on the dot, just
      after the leading digits. */
  lemma IntegerPartThenDot(st: LexState)
    requires Valid(st) && ReadRunSpec(st, Digit).state.character == "."
    ensures var text := Rest(st); var n := Run(text, Digit); var whole := ReadRunSpec(st, Digit);
      n < |text| && text[n] == '.' && whole.text == text[..n] &&
      Rest(ReadCharacterSpec(whole.state)) == text[n + 1..]
  {
    var text := Rest(st);
    ReadRunReturnsRun(st, Digit);
    var whole := ReadRunSpec(st, Digit);
    var n := Run(text, Digit);
    CharacterIsHead(whole.state);
    DropDrop(text, n, 1);
  }

  /** A number with a fractional part, on the text alone: the integer part, the dot and the
      fraction make up the number, and what follows is the rest. */
  lemma NumberDotParts(text: string, n: nat, f: nat, m: nat, integer: string, fraction: string, after: string)
    requires n < |text| && text[n] == '.' && m == n + 1 + f && m <= |text|
    requires integer == text[..n] && fraction == text[n + 1..][..f] && after == Drop(text[n + 1..], f)
    ensures integer + "." + fraction == text[..m] && after == Drop(text, m)
  {
    DotSplit(text, n, f);
    DropIsSlice(text, n + 1);
    DropDrop(text, n + 1, f);
  }

  /** The number reader on digits then a `.`: the digits, the dot and the digits after it
      make up the number `NumberLength` measures, and the scanner stands just after it. */
  lemma FractionReads(st: LexState)
    requires Valid(st) && ReadRunSpec(st, Digit).state.character == "."
    ensures var text := Rest(st); var whole := ReadRunSpec(st, Digit);
      var fraction := ReadRunSpec(ReadCharacterSpec(whole.state), Digit); var m := NumberLength(text);
      Run(text, Digit) < m && whole.text + "." + fraction.text == text[..m] && Rest(fraction.state) == Drop(text, m)
  {
    var text := Rest(st);
    var whole := ReadRunSpec(st, Digit);
    var n := Run(text, Digit);
    IntegerPartThenDot(st);
    var dot := ReadCharacterSpec(whole.state);
    ReadRunReturnsRun(dot, Digit);
    var fraction := ReadRunSpec(dot, Digit);
    var f := Run(text[n + 1..], Digit);
    NumberLengthWithDot(text);
    var m := NumberLength(text);
    NumberDotParts(text, n, f, m, whole.text, fraction.text, Rest(fraction.state));
  }

  /** The number reader on digits not followed by a `.`: the digits are the whole number. */
  lemma IntegerReads(st: LexState)
    requires Valid(st) && ReadRunSpec(st, Digit).state.character != "."
    ensures var text := Rest(st); var whole := ReadRunSpec(st, Digit); var m := NumberLength(text);
      m == Run(text, Digit) && whole.text == text[..m] && Rest(whole.state) == Drop(text, m)
  {
    var text := Rest(st);
    ReadRunReturnsRun(st, Digit);
    var whole := ReadRunSpec(st, Digit);
    var n := Run(text, Digit);
    CharacterIsHead(whole.state);
    assert Rest(whole.state) == Drop(text, n);
  }
}
