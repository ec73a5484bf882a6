/** The error type shared by the lexer and the parser (interpreter/ezcript_result/src/lib.rs). */
module EzcriptResult {
  import opened Wrappers
  import opened Text

  /** `std::io::Error` is foreign: it is kept as the text its `Display` prints and the text of the
      error it reports as its own source, if any. */
  datatype IoError = IoError(message: string, cause: Option<string>)

  /** `EzcriptError`: lines are `u64` in the source and `nat` here. */
  datatype EzcriptError =
    | IO(io: IoError)
    | Lexical(line: nat, msg: string, whence: string)
    | Parse(line: nat, msg: string, near: string)

  /** `From<io::Error>`: every I/O error is wrapped, unchanged, as the `IO` variant. */
  function FromIo(err: IoError): (e: EzcriptError)
    ensures e.IO? && e.io == err
  {
    IO(err)
  }

  /** The `Display` text of an error. */
  function Display(e: EzcriptError): string {
    match e
    case IO(io) => io.message
    case Lexical(line, msg, whence) => "Lexical Error [line " + NatToString(line) + "] " + msg + ": " + whence
    case Parse(line, msg, near) => "Parse Error [line " + NatToString(line) + "] " + msg + ": near " + near
  }

  /** `Error::source`: only an I/O error can have one. */
  function Source(e: EzcriptError): (r: Option<string>)
    ensures !e.IO? ==> r == None
    ensures e.IO? ==> r == e.io.cause
  {
    match e
    case IO(io) => io.cause
    case _ => None
  }

  /** Length of the longest prefix of `s` made of decimal digits. */
  function DigitRun(s: string): (n: nat)
    ensures n <= |s| && AllDigits(s[..n])
  {
    if s == [] || !IsDigit(s[0]) then 0 else 1 + DigitRun(s[1..])
  }

  /** Reads back the line number of a rendered lexical or parse error: the digits that follow
      the `[line ` of the header, up to the closing `]`. */
  function ReportedLine(s: string): Option<nat> {
    var header :=
      if |s| >= 20 && s[..20] == "Lexical Error [line " then 20
      else if |s| >= 18 && s[..18] == "Parse Error [line " then 18
      else 0;
    if header == 0 then None
    else
      var rest := s[header..];
      var n := DigitRun(rest);
      if 0 < n < |rest| && rest[n] == ']' then Some(ParseNat(rest[..n])) else None
  }

  lemma {:induction false} DigitRunStopsAtNonDigit(a: string, b: string)
    requires AllDigits(a)
    requires b != [] && !IsDigit(b[0])
    ensures DigitRun(a + b) == |a|
  {
    if a != [] {
      assert (a + b)[1..] == a[1..] + b;
      DigitRunStopsAtNonDigit(a[1..], b);
    }
  }

  lemma ReadLineBack(header: string, line: nat, tail: string)
    requires |header| >= 1
    ensures var s := header + NatToString(line) + "] " + tail;
      var rest := s[|header|..];
      var n := DigitRun(rest);
      n == |NatToString(line)| < |rest| && rest[n] == ']' && ParseNat(rest[..n]) == line
  {
    var digits := NatToString(line);
    var s := header + digits + "] " + tail;
    assert s[|header|..] == digits + ("] " + tail);
    DigitRunStopsAtNonDigit(digits, "] " + tail);
    assert s[|header|..][..|digits|] == digits;
    NatRoundTrip(line);
  }

  /** The line of a lexical or a parse error can be read back from its rendering, and the two
      renderings carry different headers. */
  lemma DisplayReportsLine(e: EzcriptError)
    requires !e.IO?
    ensures ReportedLine(Display(e)) == Some(e.line)
    ensures e.Lexical? ==> Display(e)[..13] == "Lexical Error"
    ensures e.Parse? ==> Display(e)[..11] == "Parse Error"
  {
    match e
    case Lexical(line, msg, whence) =>
      var s := Display(e);
      assert s == "Lexical Error [line " + NatToString(line) + "] " + (msg + ": " + whence);
      assert s[..20] == "Lexical Error [line ";
      ReadLineBack("Lexical Error [line ", line, msg + ": " + whence);
    case Parse(line, msg, near) =>
      var s := Display(e);
      assert s == "Parse Error [line " + NatToString(line) + "] " + (msg + ": near " + near);
      assert s[..18] == "Parse Error [line ";
      assert !(|s| >= 20 && s[..20] == "Lexical Error [line ") by {
        if |s| >= 20 { assert s[0] != 'L'; }
      }
      ReadLineBack("Parse Error [line ", line, msg + ": near " + near);
  }

  /** The rendering of a lexical error ends with the offending lexeme, that of a parse error with
      `near ` and the lexeme the parser stood on. */
  lemma DisplayEndsWithLexeme(e: EzcriptError)
    requires !e.IO?
    ensures e.Lexical? ==> var s := Display(e); |s| >= |e.whence| + 2 && s[|s| - |e.whence| - 2..] == ": " + e.whence
    ensures e.Parse? ==> var s := Display(e); |s| >= |e.near| + 7 && s[|s| - |e.near| - 7..] == ": near " + e.near
  {
    match e
    case Lexical(line, msg, whence) =>
      var s := Display(e);
      assert s == ("Lexical Error [line " + NatToString(line) + "] " + msg) + (": " + whence);
    case Parse(line, msg, near) =>
      var s := Display(e);
      assert s == ("Parse Error [line " + NatToString(line) + "] " + msg) + (": near " + near);
  }
}
