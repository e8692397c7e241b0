/** What the lexer reads off its source: tokens from the text of each line, and indentation tokens
    from the tabs at its start. A `char` is one byte of the source. Where reading fails an error
    token takes the place of what failed, and reading goes on after it. */
module Lexing {
  import opened Wrappers

  /** The type of a word or operator token follows from its text. `Bad` is the token of an
      unexpected character, `Error` the one left where reading failed. */
  datatype Token =
    | Word(text: string) | IntLit(digits: string) | FloatLit(literal: string) | Str(value: string) | FStr(raw: string)
    | Op(symbol: string) | Bad(c: char) | Error | Newline | Indent | Dedent | Eof

  /** What was read and what follows it, or where reading failed. */
  datatype Read<+T> = Got(value: T, rest: string) | Stuck(rest: string) {
    predicate IsFailure() {
      Stuck?
    }

    function PropagateFailure<U>(): Read<U>
      requires IsFailure()
    {
      Stuck(rest)
    }

    function Extract(): (T, string)
      requires !IsFailure()
    {
      (value, rest)
    }
  }

  const BELL: char := 7 as char
  const BACKSPACE: char := 8 as char
  const VTAB: char := 11 as char
  const FORMFEED: char := 12 as char
  const ESCAPE: char := 27 as char

  predicate IsDigit(c: char) {
    '0' <= c <= '9'
  }

  predicate IsAlpha(c: char) {
    'a' <= c <= 'z' || 'A' <= c <= 'Z'
  }

  predicate IsHex(c: char) {
    IsDigit(c) || 'a' <= c <= 'f' || 'A' <= c <= 'F'
  }

  predicate WordStart(c: char) {
    IsAlpha(c) || c == '_'
  }

  predicate WordPart(c: char) {
    WordStart(c) || IsDigit(c)
  }

  // The next character is `c`.
  predicate At(s: string, i: nat, c: char) {
    i < |s| && s[i] == c
  }

  predicate DigitAt(s: string, i: nat) {
    i < |s| && IsDigit(s[i])
  }

  // ---- words and numbers ----

  /** Where the word that goes on at `i` ends. */
  function WordEnd(s: string, i: nat): (r: nat)
    requires i <= |s|
    ensures i <= r <= |s|
    decreases |s| - i
  {
    if i < |s| && WordPart(s[i]) then WordEnd(s, i + 1) else i
  }

  /** Digits; underscores between them are dropped. */
  function Digits(s: string): (r: (string, string))
    ensures |r.1| <= |s|
  {
    if s == "" || !(IsDigit(s[0]) || s[0] == '_') then ("", s)
    else
      var (more, rest) := Digits(s[1..]);
      (if s[0] == '_' then more else [s[0]] + more, rest)
  }

  function PlainDigits(s: string): (r: (string, string))
    ensures |r.1| <= |s|
  {
    if s == "" || !IsDigit(s[0]) then ("", s)
    else
      var (more, rest) := PlainDigits(s[1..]);
      ([s[0]] + more, rest)
  }

  /** The fraction: a point counts only before a digit, and not twice. */
  function Fraction(s: string): (r: Read<string>)
    ensures |r.rest| <= |s|
  {
    if At(s, 0, '.') && DigitAt(s, 1) then
      var (digits, rest) := Digits(s[1..]);
      if At(rest, 0, '.') then Stuck(rest) else Got("." + digits, rest)
    else Got("", s)
  }

  function Exponent(s: string): (r: Read<string>)
    ensures |r.rest| <= |s|
  {
    if At(s, 0, 'e') || At(s, 0, 'E') then
      var sign := if At(s, 1, '+') || At(s, 1, '-') then s[1..2] else "";
      var after := s[1 + |sign|..];
      if !DigitAt(after, 0) then Stuck(after)
      else
        var (digits, rest) := PlainDigits(after);
        Got([s[0]] + sign + digits, rest)
    else Got("", s)
  }

  function LexNumber(s: string): (r: Read<Token>)
    requires DigitAt(s, 0)
    ensures |r.rest| < |s|
    ensures r.Got? ==> IsContent(r.value)
  {
    var (more, s1) := Digits(s[1..]);
    var (fraction, s2) :- Fraction(s1);
    var (exponent, s3) :- Exponent(s2);
    var text := [s[0]] + more + fraction + exponent;
    Got(if fraction == "" && exponent == "" then IntLit(text) else FloatLit(text), s3)
  }

  // ---- operators ----

  /** The length of the operator at the start: the longest one the source tries for its first
      character. Zero if there is none. */
  function OpLength(s: string): (r: nat)
    requires s != ""
    ensures r <= |s|
  {
    var c, eq := s[0], if At(s, 1, '=') then 2 else 1;
    if c == '+' || c == '%' || c == '=' || c == '&' || c == '|' || c == '^' || c == ':' then eq
    else if c == '-' then if At(s, 1, '>') then 2 else eq
    else if c == '*' || c == '/' then if At(s, 1, c) then (if At(s, 2, '=') then 3 else 2) else eq
    else if c == '!' then if At(s, 1, '=') then 2 else 0
    else if c == '<' then if At(s, 1, '<') then (if At(s, 2, '=') then 3 else 2) else if At(s, 1, '-') then 2 else eq
    else if c == '>' then if At(s, 1, '>') then (if At(s, 2, '=') then 3 else 2) else eq
    else if c == '.' then if At(s, 1, '.') && At(s, 2, '.') then 3 else 1
    else if c == '?' then if At(s, 1, '?') then 2 else 1
    else if c in "()[]{},~@" then 1
    else 0
  }

  function LexOp(s: string): (r: (Token, string))
    requires s != ""
    ensures |r.1| < |s|
  {
    var n := OpLength(s);
    if n == 0 then (Bad(s[0]), s[1..]) else (Op(s[..n]), s[n..])
  }

  // ---- strings ----

  function HexValue(c: char): (r: nat)
    requires IsHex(c)
    ensures r < 16
  {
    if IsDigit(c) then (c - '0') as nat else if 'a' <= c <= 'f' then (c - 'a') as nat + 10 else (c - 'A') as nat + 10
  }

  /** How many hexadecimal digits the text starts with, counting up to `most`. */
  function HexRun(s: string, most: nat): (r: nat)
    ensures r <= most && r <= |s| && (forall i :: 0 <= i < r ==> IsHex(s[i])) && (r < most && r < |s| ==> !IsHex(s[r]))
  {
    if most == 0 || s == "" || !IsHex(s[0]) then 0 else 1 + HexRun(s[1..], most - 1)
  }

  /** The number the first `n` digits stand for. */
  function HexNumber(s: string, n: nat): nat
    requires n <= |s| && forall i :: 0 <= i < n ==> IsHex(s[i])
  {
    if n == 0 then 0 else 16 * HexNumber(s, n - 1) + HexValue(s[n - 1])
  }

  predicate IsScalar(n: nat) {
    n <= 0x10FFFF && !(0xD800 <= n <= 0xDFFF)
  }

  function Byte(n: nat): char
    requires n < 256
  {
    n as char
  }

  /** The bytes of a Unicode scalar value. */
  function Utf8(n: nat): (r: string)
    requires n <= 0x10FFFF
    ensures r != ""
  {
    if n <= 0x7F then [Byte(n)]
    else if n <= 0x7FF then [Byte(0xC0 + n / 64), Byte(0x80 + n % 64)]
    else if n <= 0xFFFF then [Byte(0xE0 + n / 4096), Byte(0x80 + n / 64 % 64), Byte(0x80 + n % 64)]
    else [Byte(0xF0 + n / 262144), Byte(0x80 + n / 4096 % 64), Byte(0x80 + n / 64 % 64), Byte(0x80 + n % 64)]
  }

  function SimpleEscape(c: char): Option<char> {
    if c == 'n' then Some('\n') else if c == 't' then Some('\t') else if c == 'r' then Some('\r')
    else if c == '\\' || c == '\'' || c == '"' then Some(c)
    else if c == '0' then Some('\0') else if c == 'a' then Some(BELL) else if c == 'b' then Some(BACKSPACE)
    else if c == 'f' then Some(FORMFEED) else if c == 'v' then Some(VTAB) else if c == 'e' then Some(ESCAPE)
    else None
  }

  /** What an escape stands for, after its backslash, and what follows it. An unknown escape
      keeps its backslash. */
  function Escape(s: string): (r: Read<string>)
    requires s != ""
    ensures |r.rest| < |s|
  {
    if SimpleEscape(s[0]).Some? then Got([SimpleEscape(s[0]).value], s[1..])
    else if s[0] == 'x' then HexByte(s[1..])
    else if s[0] == 'u' then CodePoint(s[1..], 4)
    else if s[0] == 'U' then CodePoint(s[1..], 8)
    else Got(['\\', s[0]], s[1..])
  }

  // One or two hexadecimal digits.
  function HexByte(s: string): (r: Read<string>)
    ensures |r.rest| <= |s|
  {
    if s == "" || !IsHex(s[0]) then Stuck(s)
    else if |s| >= 2 && IsHex(s[1]) then Got([Byte(16 * HexValue(s[0]) + HexValue(s[1]))], s[2..])
    else Got([Byte(HexValue(s[0]))], s[1..])
  }

  /** Exactly so many digits; it fails at the first one missing, or after the last one if they
      stand for no Unicode scalar value. */
  function CodePoint(s: string, digits: nat): (r: Read<string>)
    ensures |r.rest| <= |s|
  {
    var n := HexRun(s, digits);
    if n < digits || !IsScalar(HexNumber(s, n)) then Stuck(s[n..]) else Got(Utf8(HexNumber(s, n)), s[n..])
  }

  /** After the opening quote: the value and what follows the closing quote. */
  function LexString(s: string, quote: char): (r: Read<string>)
    ensures |r.rest| <= |s|
    decreases |s|
  {
    if s == "" then Stuck(s)
    else if s[0] == quote then Got("", s[1..])
    else if s[0] == '\n' then Stuck(s)
    else if s[0] == '\\' then
      if |s| == 1 then Stuck("")
      else
        var (value, after) :- Escape(s[1..]);
        var (more, rest) :- LexString(after, quote);
        Got(value + more, rest)
    else
      var (more, rest) :- LexString(s[1..], quote);
      Got([s[0]] + more, rest)
  }

  /** An interpolated string keeps its text as it is; a brace must close before the quote. */
  function LexFString(s: string, quote: char, inBrace: bool): (r: Read<string>)
    ensures |r.rest| <= |s|
    decreases |s|
  {
    if s == "" then Stuck(s)
    else if inBrace then
      if s[0] == '}' then Keep(s, 1, LexFString(s[1..], quote, false))
      else if s[0] == '\n' || s[0] == quote then Stuck(s)
      else Keep(s, 1, LexFString(s[1..], quote, true))
    else if s[0] == quote then Got([quote], s[1..])
    else if s[0] == '\n' then Stuck(s)
    else if s[0] == '\\' then if |s| == 1 then Stuck("") else Keep(s, 2, LexFString(s[2..], quote, false))
    else Keep(s, 1, LexFString(s[1..], quote, s[0] == '{'))
  }

  // Puts the first `n` characters before what was read.
  function Keep(s: string, n: nat, r: Read<string>): Read<string>
    requires n <= |s|
  {
    var (more, rest) :- r;
    Got(s[..n] + more, rest)
  }

  // ---- comments and blanks ----

  function SkipLine(s: string): (r: string)
    ensures |r| <= |s|
  {
    if s == "" || s[0] == '\n' then s else SkipLine(s[1..])
  }

  function SkipBlock(s: string): (r: Read<()>)
    ensures |r.rest| <= |s|
  {
    if s == "" then Stuck(s)
    else if At(s, 0, '#') && At(s, 1, '#') && At(s, 2, '#') then Got((), s[3..])
    else SkipBlock(s[1..])
  }

  /** A comment; it fails if a block comment does not end. */
  function Comment(s: string): (r: Read<()>)
    requires At(s, 0, '#')
    ensures |r.rest| < |s|
  {
    if At(s, 1, '#') && At(s, 2, '#') then SkipBlock(s[3..])
    else Got((), SkipLine(s[1..]))
  }

  // ---- one token ----

  predicate IsQuote(c: char) {
    c == '"' || c == '\''
  }

  /** The token at the start of text that is neither blank nor a comment. */
  function LexToken(s: string): (r: Read<Token>)
    requires s != ""
    ensures |r.rest| < |s|
    ensures r.Got? ==> IsContent(r.value)
  {
    var c := s[0];
    if c == 'f' && |s| >= 2 && IsQuote(s[1]) then
      var (raw, rest) :- LexFString(s[2..], s[1], false);
      Got(FStr(s[..2] + raw), rest)
    else if IsQuote(c) then
      var (value, rest) :- LexString(s[1..], c);
      Got(Str(value), rest)
    else if IsDigit(c) then LexNumber(s)
    else if WordStart(c) then
      var end := WordEnd(s, 1);
      Got(Word(s[..end]), s[end..])
    else Got(LexOp(s).0, LexOp(s).1)
  }

  // ---- lines ----

  predicate Layout(t: Token) {
    t.Newline? || t.Indent? || t.Dedent?
  }

  // A token that was read off the text.
  predicate IsContent(t: Token) {
    !Layout(t) && !t.Error? && !t.Eof?
  }

  /** How many tabs a line starts with. */
  function Tabs(s: string): (r: nat)
    ensures r <= |s| && (r < |s| ==> s[r] != '\t') && forall i :: 0 <= i < r ==> s[i] == '\t'
  {
    if At(s, 0, '\t') then 1 + Tabs(s[1..]) else 0
  }

  /** Open indentation levels: they strictly increase from zero. */
  predicate Levels(stack: seq<nat>) {
    stack != [] && stack[0] == 0 && forall i, j :: 0 <= i < j < |stack| ==> stack[i] < stack[j]
  }

  /** The levels that stay open when a line has `tabs` tabs. */
  function Popped(stack: seq<nat>, tabs: nat): (r: seq<nat>)
    requires Levels(stack)
    ensures Levels(r) && r <= stack && r[|r| - 1] <= tabs && (|r| < |stack| ==> tabs < stack[|r|])
  {
    if tabs < stack[|stack| - 1] then Popped(stack[..|stack| - 1], tabs) else stack
  }

  function Dedents(n: nat): (r: seq<Token>)
    ensures |r| == n && forall t :: t in r ==> t == Dedent
  {
    if n == 0 then [] else Dedents(n - 1) + [Dedent]
  }

  /** The indentation tokens of a line, and the levels that are open in it. A line that goes
      back to a level that was never opened still closes the deeper ones. */
  function Indentation(stack: seq<nat>, tabs: nat): (r: (seq<Token>, seq<nat>))
    requires Levels(stack)
    ensures Levels(r.1)
  {
    if tabs > stack[|stack| - 1] then ([Indent], stack + [tabs])
    else
      var open := Popped(stack, tabs);
      (Dedents(|stack| - |open|) + if tabs == open[|open| - 1] then [] else [Error], open)
  }

  // A line that has no content of its own leaves the indentation alone.
  predicate SkipsIndentation(s: string) {
    s == "" || s[0] == '\n' || s[0] == '#'
  }

  function Latest(last: Option<Token>, ts: seq<Token>): Option<Token> {
    if ts == [] then last else Some(ts[|ts| - 1])
  }

  /** The tokens of the rest of the source. `stack` holds the open indentation levels, `last`
      the token before. Where reading fails an error token is left: with a space in its
      indentation the rest of the line is skipped; otherwise lexing goes on where it failed. */
  function Lex(s: string, atLineStart: bool, stack: seq<nat>, last: Option<Token>): seq<Token>
    requires Levels(stack)
    decreases |s|, atLineStart
  {
    if s == "" then Dedents(|stack| - 1) + [Eof]
    else if atLineStart then
      var n := Tabs(s);
      if At(s, n, ' ') then [Error] + Lex(SkipLine(s[n + 1..]), false, stack, Some(Error))
      else if SkipsIndentation(s[n..]) then Lex(s[n..], false, stack, last)
      else
        var (ts, open) := Indentation(stack, n);
        ts + Lex(s[n..], false, open, Latest(last, ts))
    else if s[0] == ' ' || s[0] == '\t' || s[0] == '\r' then Lex(s[1..], false, stack, last)
    else if s[0] == '\n' then
      var ts := if last.Some? && !Layout(last.value) then [Newline] else [];
      ts + Lex(s[1..], true, stack, Latest(last, ts))
    else if s[0] == '#' then
      match Comment(s)
      case Got(_, rest) => Lex(rest, false, stack, last)
      case Stuck(rest) => [Error] + Lex(rest, false, stack, Some(Error))
    else
      var t := if LexToken(s).Got? then LexToken(s).value else Error;
      [t] + Lex(LexToken(s).rest, false, stack, Some(t))
  }

  /** All tokens of a source, those left by errors among them. */
  function Scan(source: string): seq<Token> {
    Lex(source, true, [0], None)
  }

  /** What the lexer returns: an error anywhere is raised again at the end. */
  function Tokenize(source: string): Option<seq<Token>> {
    if Error in Scan(source) then None else Some(Scan(source))
  }
}
