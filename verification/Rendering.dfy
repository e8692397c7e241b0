/** Text written from tokens, lines and nested blocks, with lines without content in between, and how
    it is read back. */
module Rendering {
  import opened Wrappers
  import opened Lexing

  // ---- writing ----

  predicate IsWord(w: string) {
    w != "" && WordStart(w[0]) && forall i :: 0 <= i < |w| ==> WordPart(w[i])
  }

  predicate AllDigits(d: string) {
    d != "" && forall i :: 0 <= i < |d| ==> IsDigit(d[i])
  }

  predicate IsBytes(v: string) {
    forall i :: 0 <= i < |v| ==> (v[i] as int) < 256
  }

  predicate IsFraction(f: string) {
    At(f, 0, '.') && AllDigits(f[1..])
  }

  predicate IsExponent(e: string) {
    (At(e, 0, 'e') || At(e, 0, 'E')) && (AllDigits(e[1..]) || ((At(e, 1, '+') || At(e, 1, '-')) && AllDigits(e[2..])))
  }

  // Digits with a fraction, an exponent or both.
  predicate IsFloat(w: string, f: string, e: string) {
    AllDigits(w) && (f == "" || IsFraction(f)) && (e == "" || IsExponent(e)) && f + e != ""
  }

  /** The tokens that can be written: words, numbers of every form, strings of any bytes, and
      every operator the lexer knows. */
  ghost predicate Writable(t: Token) {
    match t
    case Word(w) => IsWord(w)
    case IntLit(d) => AllDigits(d)
    case FloatLit(x) => exists w, f, e :: IsFloat(w, f, e) && x == w + f + e
    case Str(v) => IsBytes(v)
    case Op(o) => o != "" && OpLength(o) == |o|
    case _ => false
  }

  function HexDigit(n: nat): (r: char)
    requires n < 16
    ensures IsHex(r) && HexValue(r) == n
  {
    if n < 10 then ('0' as int + n) as char else ('a' as int + n - 10) as char
  }

  /** A byte that would end the string or begin an escape is written as one. */
  function WriteByte(c: char, quote: char): string
    requires (c as int) < 256
  {
    if c == quote || c == '\\' || c == '\n' then ['\\', 'x', HexDigit(c as int / 16), HexDigit(c as int % 16)] else [c]
  }

  function WriteBytes(v: string, quote: char): string
    requires IsBytes(v)
  {
    if v == "" then "" else WriteByte(v[0], quote) + WriteBytes(v[1..], quote)
  }

  ghost function Write(t: Token): string
    requires Writable(t)
  {
    match t
    case Word(w) => w
    case IntLit(d) => d
    case FloatLit(x) => x
    case Str(v) => "\"" + WriteBytes(v, '"') + "\""
    case Op(o) => o
  }

  ghost predicate WritableLine(ts: seq<Token>) {
    ts != [] && forall i :: 0 <= i < |ts| ==> Writable(ts[i])
  }

  ghost function WriteLine(ts: seq<Token>): string
    requires WritableLine(ts)
  {
    if |ts| == 1 then Write(ts[0]) else Write(ts[0]) + " " + WriteLine(ts[1..])
  }

  // ---- strings ----

  lemma ByteReads(c: char, quote: char, tail: string)
    requires (c as int) < 256 && IsQuote(quote)
    ensures var s := WriteByte(c, quote) + tail;
            LexString(s, quote) == match LexString(tail, quote)
                                   case Got(more, rest) => Got([c] + more, rest)
                                   case Stuck(rest) => Stuck(rest)
  {
    var s := WriteByte(c, quote) + tail;
    if c == quote || c == '\\' || c == '\n' {
      assert s[1..][1..] == [HexDigit(c as int / 16), HexDigit(c as int % 16)] + tail;
      assert s[1..][1..][2..] == tail;
      assert Escape(s[1..]) == Got([c], tail);
    } else {
      assert s[1..] == tail;
    }
  }

  /** Every string of bytes, written with hexadecimal escapes where needed, reads back. */
  lemma {:induction false} StringReads(v: string, quote: char, tail: string)
    requires IsBytes(v) && IsQuote(quote)
    ensures LexString(WriteBytes(v, quote) + [quote] + tail, quote) == Got(v, tail)
    decreases |v|
  {
    hide LexString, WriteByte;
    if v == "" {
      EndReads(quote, tail);
      assert WriteBytes(v, quote) + [quote] + tail == [quote] + tail;
    } else {
      var after := WriteBytes(v[1..], quote) + [quote] + tail;
      assert WriteBytes(v, quote) + [quote] + tail == WriteByte(v[0], quote) + after;
      ByteReads(v[0], quote, after);
      StringReads(v[1..], quote, tail);
      assert v == [v[0]] + v[1..];
    }
  }

  lemma EndReads(quote: char, tail: string)
    ensures LexString([quote] + tail, quote) == Got("", tail)
  {
    assert ([quote] + tail)[1..] == tail;
  }

  // ---- single tokens ----

  // A blank, a line end or nothing.
  predicate Ends(tail: string) {
    tail == "" || tail[0] == ' ' || tail[0] == '\n'
  }

  lemma {:induction false} WordEnds(w: string, tail: string, i: nat)
    requires i <= |w| && (forall k :: i <= k < |w| ==> WordPart(w[k])) && Ends(tail)
    ensures WordEnd(w + tail, i) == |w|
    decreases |w| - i
  {
    if i < |w| {
      WordEnds(w, tail, i + 1);
    }
  }

  lemma {:induction false} DigitsRead(d: string, tail: string)
    requires (forall i :: 0 <= i < |d| ==> IsDigit(d[i])) && NoDigit(tail)
    ensures Digits(d + tail) == (d, tail)
    decreases |d|
  {
    if d == "" {
      assert d + tail == tail;
    } else {
      assert (d + tail)[1..] == d[1..] + tail;
      DigitsRead(d[1..], tail);
      assert d == [d[0]] + d[1..];
    }
  }

  lemma IntReads(d: string, tail: string)
    requires AllDigits(d) && Ends(tail)
    ensures LexNumber(d + tail) == Got(IntLit(d), tail)
  {
    assert (d + tail)[1..] == d[1..] + tail;
    DigitsRead(d[1..], tail);
    assert Fraction(tail) == Got("", tail) && Exponent(tail) == Got("", tail);
    assert [d[0]] + d[1..] + "" + "" == d;
  }

  // Neither a digit nor an underscore comes first.
  predicate NoDigit(s: string) {
    s == "" || !(IsDigit(s[0]) || s[0] == '_')
  }

  lemma FractionReads(f: string, tail: string)
    requires (f == "" || IsFraction(f)) && NoDigit(tail) && !At(tail, 0, '.')
    ensures Fraction(f + tail) == Got(f, tail)
  {
    if f == "" {
      assert f + tail == tail;
    } else {
      assert (f + tail)[1..] == f[1..] + tail && DigitAt(f[1..], 0);
      DigitsRead(f[1..], tail);
      assert "." + f[1..] == f;
    }
  }

  lemma {:induction false} PlainDigitsRead(d: string, tail: string)
    requires (forall i :: 0 <= i < |d| ==> IsDigit(d[i])) && NoDigit(tail)
    ensures PlainDigits(d + tail) == (d, tail)
    decreases |d|
  {
    if d == "" {
      assert d + tail == tail;
    } else {
      assert (d + tail)[1..] == d[1..] + tail;
      PlainDigitsRead(d[1..], tail);
      assert d == [d[0]] + d[1..];
    }
  }

  lemma Dropped(e: string, tail: string, k: nat)
    requires k <= |e|
    ensures (e + tail)[k..] == e[k..] + tail
  {
  }

  lemma ExponentReads(e: string, tail: string)
    requires (e == "" || IsExponent(e)) && Ends(tail)
    ensures Exponent(e + tail) == Got(e, tail)
  {
    if e == "" {
      assert e + tail == tail;
    } else {
      var s, k := e + tail, if AllDigits(e[1..]) then 1 else 2;
      DigitsOf(e[k..]);
      assert s[1] == e[1] && (k == 1 ==> IsDigit(e[1..][0]));
      PlainDigitsRead(e[k..], tail);
      Dropped(e, tail, k);
      assert s[k..] == e[k..] + tail && DigitAt(e[k..], 0);
      assert k == 2 ==> s[1..2] == e[1..2];
      assert e == [e[0]] + (if k == 2 then e[1..2] else "") + e[k..];
    }
  }

  lemma FloatReads(w: string, f: string, e: string, tail: string)
    requires IsFloat(w, f, e) && Ends(tail)
    ensures LexNumber(w + f + e + tail) == Got(FloatLit(w + f + e), tail)
  {
    hide Digits, Fraction, Exponent, AllDigits;
    assert AllDigits(w) && w != "" && IsDigit(w[0]) && forall i :: 0 <= i < |w| ==> IsDigit(w[i]) by {
      DigitsOf(w);
    }
    var s, after := w + f + e + tail, f + (e + tail);
    assert s[1..] == w[1..] + after;
    DigitsRead(w[1..], after);
    FractionReads(f, e + tail);
    ExponentReads(e, tail);
    assert [w[0]] + w[1..] + f + e == w + f + e;
  }

  lemma DigitsOf(w: string)
    requires AllDigits(w)
    ensures w != "" && IsDigit(w[0]) && forall i :: 0 <= i < |w| ==> IsDigit(w[i])
  {
  }

  lemma OpReads(o: string, tail: string)
    requires o != "" && OpLength(o) == |o| && Ends(tail)
    ensures OpLength(o + tail) == |o| && LexOp(o + tail) == (Op(o), tail)
  {
    var s := o + tail;
    assert forall i: nat, c: char :: i < |o| ==> At(s, i, c) == At(o, i, c);
    assert |s| > |o| ==> s[|o|] == tail[0];
    assert OpLength(s) == |o|;
    assert s[..|o|] == o && s[|o|..] == tail;
  }

  lemma FloatTokenReads(x: string, tail: string)
    requires Writable(FloatLit(x)) && Ends(tail)
    ensures LexToken(x + tail) == Got(FloatLit(x), tail)
  {
    hide LexString, LexFString, LexNumber, WordEnd, OpLength, LexOp, WriteBytes;
    var w, f, e :| IsFloat(w, f, e) && x == w + f + e;
    assert w != [] && IsDigit(w[0]);
    hide IsFloat;
    FloatReads(w, f, e, tail);
    assert x + tail == w + f + e + tail;
    assert (x + tail)[0] == w[0];
  }

  lemma StrTokenReads(v: string, tail: string)
    requires Writable(Str(v)) && Ends(tail)
    ensures LexToken(Write(Str(v)) + tail) == Got(Str(v), tail)
  {
    hide LexString, LexFString, LexNumber, WordEnd, OpLength, LexOp, WriteBytes;
    var s := Write(Str(v)) + tail;
    assert s[1..] == WriteBytes(v, '"') + ['"'] + tail;
    StringReads(v, '"', tail);
  }

  /** A token followed by a blank or the end of its line is read as it was written. */
  lemma TokenReads(t: Token, tail: string)
    requires Writable(t) && Ends(tail)
    ensures LexToken(Write(t) + tail) == Got(t, tail)
  {
    hide LexString, LexFString, LexNumber, WordEnd, OpLength, LexOp, WriteBytes;
    var s := Write(t) + tail;
    match t
    case Word(w) =>
      WordEnds(w, tail, 1);
      assert s[..|w|] == w && s[|w|..] == tail;
    case IntLit(d) => IntReads(d, tail);
    case FloatLit(x) => FloatTokenReads(x, tail);
    case Str(v) => StrTokenReads(v, tail);
    case Op(o) =>
      OpReads(o, tail);
      OpFirst(o);
  }

  lemma OpFirst(o: string)
    requires o != "" && OpLength(o) == |o|
    ensures var c := o[0]; !IsQuote(c) && !IsDigit(c) && !WordStart(c) && c != '#' && c != ' ' && c != '\t' && c != '\r' && c != '\n'
  {
  }

  lemma TokenStarts(t: Token)
    requires Writable(t)
    ensures Write(t) != "" && var c := Write(t)[0]; c != '#' && c != ' ' && c != '\t' && c != '\r' && c != '\n'
  {
    hide OpLength, WriteBytes;
    match t
    case FloatLit(x) =>
      var w, f, e :| IsFloat(w, f, e) && x == w + f + e;
      assert IsDigit(w[0]);
    case Op(o) => OpFirst(o);
    case _ =>
  }

  // ---- lines ----

  lemma OneReads(t: Token, tail: string, stack: seq<nat>, last: Option<Token>)
    requires Writable(t) && Ends(tail) && Levels(stack)
    ensures Lex(Write(t) + tail, false, stack, last) == [t] + Lex(tail, false, stack, Some(t))
  {
    hide LexToken, Levels, Writable;
    TokenReads(t, tail);
    TokenStarts(t);
  }

  lemma BlankSkipped(tail: string, stack: seq<nat>, last: Option<Token>)
    requires Levels(stack)
    ensures Lex(" " + tail, false, stack, last) == Lex(tail, false, stack, last)
  {
    assert (" " + tail)[1..] == tail;
  }

  lemma LineSplit(ts: seq<Token>, tail: string)
    requires WritableLine(ts) && |ts| > 1
    ensures WritableLine(ts[1..]) && WriteLine(ts) + tail == Write(ts[0]) + (" " + (WriteLine(ts[1..]) + tail))
  {
    hide Write, Writable;
    assert WriteLine(ts) == Write(ts[0]) + " " + WriteLine(ts[1..]);
    hide WriteLine;
    FourParts(Write(ts[0]), " ", WriteLine(ts[1..]), tail);
  }

  lemma FourParts(a: string, b: string, c: string, d: string)
    ensures a + b + c + d == a + (b + (c + d))
  {
  }

  /** The tokens of a line, single blanks between them. */
  lemma {:induction false} LineReads(ts: seq<Token>, tail: string, stack: seq<nat>, last: Option<Token>)
    requires WritableLine(ts) && Ends(tail) && Levels(stack)
    ensures Lex(WriteLine(ts) + tail, false, stack, last) == ts + Lex(tail, false, stack, Some(ts[|ts| - 1]))
    decreases |ts|
  {
    hide Lex, Levels, Write, Writable;
    if |ts| == 1 {
      OneReads(ts[0], tail, stack, last);
      assert ts == [ts[0]];
    } else {
      var after := WriteLine(ts[1..]) + tail;
      LineSplit(ts, tail);
      hide WriteLine;
      OneReads(ts[0], " " + after, stack, last);
      BlankSkipped(after, stack, Some(ts[0]));
      LineReads(ts[1..], tail, stack, Some(ts[0]));
      Assoc([ts[0]], ts[1..], Lex(tail, false, stack, Some(ts[|ts| - 1])));
      assert [ts[0]] + ts[1..] == ts;
    }
  }

  lemma Assoc(a: seq<Token>, b: seq<Token>, c: seq<Token>)
    ensures a + b + c == a + (b + c)
  {
  }

  lemma LineContent(ts: seq<Token>)
    requires WritableLine(ts)
    ensures forall t :: t in ts ==> IsContent(t)
  {
  }

  /** Words, numbers, strings and operators with single blanks between them read back. */
  lemma TokensRoundTrip(ts: seq<Token>)
    requires WritableLine(ts)
    ensures Tokenize(WriteLine(ts)) == Some(ts + [Eof])
  {
    hide LexToken, Writable, WriteLine;
    LineReads(ts, "", [0], None);
    LineStarts(ts, "");
    LineContent(ts);
    assert WriteLine(ts) + "" == WriteLine(ts);
    assert Dedents(0) + [Eof] == [Eof];
    assert Lex("", false, [0], Some(ts[|ts| - 1])) == [Eof];
    LevelLine(0, 0, WriteLine(ts), None);
  }

  lemma LineStarts(ts: seq<Token>, tail: string)
    requires WritableLine(ts)
    ensures !SkipsIndentation(WriteLine(ts) + tail) && (WriteLine(ts) + tail)[0] != ' ' && (WriteLine(ts) + tail)[0] != '\t'
  {
    TokenStarts(ts[0]);
  }

  // ---- indentation ----

  function Tabbed(d: nat): (r: string)
    ensures |r| == d && forall i :: 0 <= i < d ==> r[i] == '\t'
  {
    seq(d, i => '\t')
  }

  /** The open levels at depth `d` when every level is one tab. */
  function Depths(d: nat): (r: seq<nat>)
    ensures |r| == d + 1 && Levels(r) && r[d] == d
  {
    seq(d + 1, i requires 0 <= i => i)
  }

  lemma {:induction false} TabsCounted(d: nat, s: string)
    requires s == "" || s[0] != '\t'
    ensures Tabs(Tabbed(d) + s) == d
    decreases d
  {
    if d == 0 {
      assert Tabbed(0) + s == s;
    } else {
      assert (Tabbed(d) + s)[1..] == Tabbed(d - 1) + s;
      TabsCounted(d - 1, s);
    }
  }

  // The tokens at the start of a line at depth `d` after one at depth `c`.
  function Lead(c: nat, d: nat): seq<Token> {
    if d > c then [Indent] else Dedents(c - d)
  }

  lemma {:induction false} PoppedTo(c: nat, d: nat)
    requires d <= c
    ensures Popped(Depths(c), d) == Depths(d)
    decreases c
  {
    if d < c {
      assert Depths(c)[..c] == Depths(c - 1);
      PoppedTo(c - 1, d);
    }
  }

  lemma IndentationIs(c: nat, d: nat)
    requires d <= c + 1
    ensures Indentation(Depths(c), d) == (Lead(c, d), Depths(d))
  {
    if d == c + 1 {
      assert Depths(c) + [d] == Depths(d);
    } else {
      PoppedTo(c, d);
      assert Dedents(c - d) + [] == Dedents(c - d);
    }
  }

  /** The start of a line at depth `d`. */
  lemma LevelLine(c: nat, d: nat, s: string, last: Option<Token>)
    requires d <= c + 1 && !SkipsIndentation(s) && s[0] != ' ' && s[0] != '\t'
    ensures Lex(Tabbed(d) + s, true, Depths(c), last) == Lead(c, d) + Lex(s, false, Depths(d), Latest(last, Lead(c, d)))
    ensures d == 0 && c == 0 ==> Lex(s, true, [0], last) == Lex(s, false, [0], last)
  {
    hide LexToken, Levels, Comment, Tabs, Indentation, Depths;
    var line := Tabbed(d) + s;
    TabsCounted(d, s);
    IndentationIs(c, d);
    assert line[d..] == s;
    if d == 0 && c == 0 {
      assert line == s && Depths(0) == [0] by {
        ZeroDepth();
      }
      assert [] + Lex(s, false, [0], last) == Lex(s, false, [0], last);
    }
  }

  lemma ZeroDepth()
    ensures Depths(0) == [0]
  {
  }

  // ---- lines without content ----

  /** A line of tabs and perhaps a comment; a block comment may go over several lines. */
  datatype Filler = Filler(tabs: nat, comment: string)

  /** A `#` that does not begin a block comment, up to the end of the line. */
  predicate LineComment(c: string) {
    At(c, 0, '#') && !(At(c, 1, '#') && At(c, 2, '#')) && '\n' !in c
  }

  // Three `#` at place `i`.
  predicate Hashes(s: string, i: nat) {
    At(s, i, '#') && At(s, i + 1, '#') && At(s, i + 2, '#')
  }

  /** Text between three `#` and the next three. */
  predicate BlockComment(c: string) {
    |c| >= 6 && Hashes(c, 0) && Hashes(c, |c| - 3) && forall i: nat :: 3 <= i < |c| - 3 ==> !Hashes(c, i)
  }

  predicate IsComment(c: string) {
    LineComment(c) || BlockComment(c)
  }

  predicate Fillers(ls: seq<Filler>) {
    forall i :: 0 <= i < |ls| ==> ls[i].comment == "" || IsComment(ls[i].comment)
  }

  function Fill(ls: seq<Filler>): string
    decreases |ls|
  {
    if ls == [] then "" else Tabbed(ls[0].tabs) + ls[0].comment + "\n" + Fill(ls[1..])
  }

  // At the start of a line the last token, if there is one, belongs to the layout.
  predicate LineDone(last: Option<Token>) {
    last.Some? ==> Layout(last.value)
  }

  // The blank or comment at the front of a line's end is passed over.
  lemma CommentIgnored(comment: string, rest: string, stack: seq<nat>, last: Option<Token>)
    requires Levels(stack) && LineDone(last) && (comment == "" || IsComment(comment))
    ensures Lex(comment + "\n" + rest, false, stack, last) == Lex(rest, true, stack, last)
  {
    hide Levels, LexToken, Tabs, Comment;
    var tail := "\n" + rest;
    assert comment + "\n" + rest == comment + tail && tail[1..] == rest;
    assert [] + Lex(rest, true, stack, last) == Lex(rest, true, stack, last);
    assert Lex(tail, false, stack, last) == Lex(rest, true, stack, last);
    if comment == "" {
      assert comment + tail == tail;
    } else {
      CommentSkipped(comment, tail);
      assert (comment + tail)[0] == '#';
    }
  }

  lemma EmptyLineIgnored(d: nat, comment: string, rest: string, stack: seq<nat>, last: Option<Token>)
    requires Levels(stack) && LineDone(last) && (comment == "" || IsComment(comment))
    ensures Lex(Tabbed(d) + comment + "\n" + rest, true, stack, last) == Lex(rest, true, stack, last)
  {
    hide Levels, LexToken, Tabs, Comment;
    var after := comment + "\n" + rest;
    var s := Tabbed(d) + comment + "\n" + rest;
    assert s == Tabbed(d) + after;
    TabsCounted(d, after);
    assert s[d..] == after && (comment == "" ==> after[0] == '\n') && (comment != "" ==> after[0] == '#');
    CommentIgnored(comment, rest, stack, last);
  }

  lemma {:induction false} FillIgnored(ls: seq<Filler>, rest: string, stack: seq<nat>, last: Option<Token>)
    requires Fillers(ls) && Levels(stack) && LineDone(last)
    ensures Lex(Fill(ls) + rest, true, stack, last) == Lex(rest, true, stack, last)
    decreases |ls|
  {
    hide Lex, Levels, Tabbed;
    if ls == [] {
      assert Fill(ls) + rest == rest;
    } else {
      var more := Fill(ls[1..]) + rest;
      assert Fill(ls) + rest == Tabbed(ls[0].tabs) + ls[0].comment + "\n" + more;
      EmptyLineIgnored(ls[0].tabs, ls[0].comment, more, stack, last);
      FillIgnored(ls[1..], rest, stack, last);
    }
  }

  lemma {:induction false} SkipsToEnd(c: string, tail: string)
    requires '\n' !in c && At(tail, 0, '\n')
    ensures SkipLine(c + tail) == tail
    decreases |c|
  {
    if c == "" {
      assert c + tail == tail;
    } else {
      assert (c + tail)[1..] == c[1..] + tail;
      SkipsToEnd(c[1..], tail);
    }
  }

  lemma {:induction false} BlockSkipped(c: string, tail: string)
    requires |c| >= 3 && Hashes(c, |c| - 3) && forall i: nat :: i < |c| - 3 ==> !Hashes(c, i)
    ensures SkipBlock(c + tail) == Got((), tail)
    decreases |c|
  {
    var s := c + tail;
    if |c| == 3 {
      assert s[3..] == tail;
    } else {
      assert !Hashes(c, 0);
      assert s[1..] == c[1..] + tail;
      assert forall i: nat :: i < |c[1..]| - 3 ==> Hashes(c[1..], i) == Hashes(c, i + 1);
      BlockSkipped(c[1..], tail);
    }
  }

  lemma CommentSkipped(c: string, tail: string)
    requires IsComment(c) && At(tail, 0, '\n')
    ensures Comment(c + tail) == Got((), tail)
  {
    hide SkipBlock, SkipLine, BlockComment;
    if LineComment(c) {
      assert (c + tail)[1..] == c[1..] + tail;
      SkipsToEnd(c[1..], tail);
    } else {
      BlockBody(c);
      BlockSkipped(c[3..], tail);
      assert (c + tail)[3..] == c[3..] + tail;
      assert Hashes(c, 0) && Hashes(c + tail, 0);
    }
  }

  lemma BlockBody(c: string)
    requires BlockComment(c)
    ensures |c| >= 6 && Hashes(c, 0)
    ensures var body := c[3..];
            Hashes(body, |body| - 3) && forall i: nat :: i < |body| - 3 ==> !Hashes(body, i)
  {
    assert forall i: nat :: i + 3 <= |c[3..]| ==> Hashes(c[3..], i) == Hashes(c, i + 3);
  }

  // ---- nested blocks ----

  /** A line, the lines without content above it, and the lines nested below it. */
  datatype Tree = Tree(above: seq<Filler>, line: seq<Token>, children: seq<Tree>)

  ghost predicate WritableForest(f: seq<Tree>)
    decreases f
  {
    f == [] || (WritableTree(f[0]) && WritableForest(f[1..]))
  }

  ghost predicate WritableTree(t: Tree)
    decreases t, 0
  {
    Fillers(t.above) && WritableLine(t.line) && WritableForest(t.children)
  }

  ghost function Render(f: seq<Tree>, d: nat): string
    requires WritableForest(f)
    decreases f
  {
    if f == [] then "" else RenderTree(f[0], d) + Render(f[1..], d)
  }

  ghost function RenderTree(t: Tree, d: nat): string
    requires WritableTree(t)
    decreases t, 0
  {
    Fill(t.above) + (Tabbed(d) + WriteLine(t.line) + "\n" + Render(t.children, d + 1))
  }

  /** Each line ends in a newline token, and nested lines are between an indent and a dedent. */
  function Brackets(f: seq<Tree>): seq<Token>
    decreases f
  {
    if f == [] then [] else BracketsTree(f[0]) + Brackets(f[1..])
  }

  function BracketsTree(t: Tree): seq<Token>
    decreases t, 0
  {
    t.line + [Newline] + if t.children == [] then [] else [Indent] + Brackets(t.children) + [Dedent]
  }

  // How deep the last line is below the first level.
  function Trailing(f: seq<Tree>): nat
    decreases f
  {
    if f == [] then 0 else if |f| > 1 then Trailing(f[1..]) else Pending(f[0])
  }

  function Pending(t: Tree): nat
    decreases t, 0
  {
    if t.children == [] then 0 else 1 + Trailing(t.children)
  }

  // A dedent comes at the start of the next line, so the last ones are not there yet.
  function Opened(f: seq<Tree>): seq<Token>
    decreases f
  {
    if f == [] then []
    else if |f| == 1 then OpenedTree(f[0])
    else OpenedTree(f[0]) + (Dedents(Pending(f[0])) + Opened(f[1..]))
  }

  function OpenedTree(t: Tree): seq<Token>
    decreases t, 0
  {
    t.line + [Newline] + if t.children == [] then [] else [Indent] + Opened(t.children)
  }

  lemma DedentsAdd(m: nat, n: nat)
    ensures Dedents(m) + Dedents(n) == Dedents(m + n)
  {
    forall i | 0 <= i < m + n
      ensures (Dedents(m) + Dedents(n))[i] == Dedents(m + n)[i]
    {
      assert Dedents(m + n)[i] in Dedents(m + n);
      assert i < m ==> Dedents(m)[i] in Dedents(m);
      assert i >= m ==> Dedents(n)[i - m] in Dedents(n);
    }
  }

  lemma {:induction false} OpenedBrackets(f: seq<Tree>)
    ensures Brackets(f) == Opened(f) + Dedents(Trailing(f))
    decreases f
  {
    if f != [] {
      var t, rest := f[0], f[1..];
      OpenedBrackets(t.children);
      OpenedBrackets(rest);
      TreeBrackets(t);
      if |f| == 1 {
        assert Brackets(rest) == [];
      } else {
        Regroup(OpenedTree(t), Dedents(Pending(t)), Opened(rest), Dedents(Trailing(rest)));
      }
    }
  }

  lemma TreeBrackets(t: Tree)
    requires Brackets(t.children) == Opened(t.children) + Dedents(Trailing(t.children))
    ensures BracketsTree(t) == OpenedTree(t) + Dedents(Pending(t))
  {
    var kids := t.children;
    if kids != [] {
      DedentsAdd(Trailing(kids), 1);
      assert Dedents(1) == Dedents(0) + [Dedent] == [Dedent];
      Regroup(t.line + [Newline], [Indent] + Opened(kids), Dedents(Trailing(kids)), [Dedent]);
      assert [Indent] + Brackets(kids) + [Dedent] == [Indent] + Opened(kids) + (Dedents(Trailing(kids)) + [Dedent]);
    }
  }

  lemma Regroup(a: seq<Token>, b: seq<Token>, c: seq<Token>, d: seq<Token>)
    ensures a + b + (c + d) == a + (b + c) + d && a + (b + (c + d)) == a + b + (c + d)
  {
  }

  /** A whole line with its end. */
  lemma WholeLine(c: nat, d: nat, ts: seq<Token>, rest: string, last: Option<Token>)
    requires d <= c + 1 && WritableLine(ts)
    ensures Lex(Tabbed(d) + WriteLine(ts) + "\n" + rest, true, Depths(c), last) ==
            Lead(c, d) + ts + [Newline] + Lex(rest, true, Depths(d), Some(Newline))
  {
    hide LexToken, Levels, Tabs, Indentation, Depths, WriteLine, Lead, Tabbed;
    var tail := "\n" + rest;
    var line := WriteLine(ts) + tail;
    LineStarts(ts, tail);
    LineContent(ts);
    assert Tabbed(d) + WriteLine(ts) + "\n" + rest == Tabbed(d) + line;
    LevelLine(c, d, line, last);
    LineReads(ts, tail, Depths(d), Latest(last, Lead(c, d)));
    NewlineReads(ts[|ts| - 1], rest, Depths(d));
    Assoc(Lead(c, d), ts, [Newline] + Lex(rest, true, Depths(d), Some(Newline)));
    Assoc(Lead(c, d) + ts, [Newline], Lex(rest, true, Depths(d), Some(Newline)));
  }

  lemma NewlineReads(t: Token, rest: string, stack: seq<nat>)
    requires Levels(stack) && !Layout(t)
    ensures Lex("\n" + rest, false, stack, Some(t)) == [Newline] + Lex(rest, true, stack, Some(Newline))
  {
    assert ("\n" + rest)[1..] == rest;
  }

  // ---- the forest ----

  /** Nested lines: the dedents of a block come before the next line outside it. */
  lemma {:induction false} ForestReads(f: seq<Tree>, c: nat, d: nat, rest: string, last: Option<Token>)
    requires WritableForest(f) && f != [] && d <= c + 1 && LineDone(last)
    ensures Lex(Render(f, d) + rest, true, Depths(c), last) ==
            Lead(c, d) + Opened(f) + Lex(rest, true, Depths(d + Trailing(f)), Some(Newline))
    decreases f
  {
    hide Lex, Levels, Depths, Lead, RenderTree, WritableTree, OpenedTree, Pending, Dedents, Render, Opened, Trailing;
    var t, more := f[0], f[1..];
    var tail := Render(more, d) + rest;
    ForestSplits(f, d, rest);
    TreeReads(t, c, d, tail, last);
    if more != [] {
      ForestReads(more, d + Pending(t), d, rest, Some(Newline));
      LeadBack(d, Pending(t));
      var inner := Dedents(Pending(t)) + Opened(more);
      Assoc(Lead(c, d) + OpenedTree(t), inner, Lex(rest, true, Depths(d + Trailing(more)), Some(Newline)));
      Assoc(Lead(c, d), OpenedTree(t), inner);
    }
  }

  // The first tree of a forest and the others.
  lemma ForestSplits(f: seq<Tree>, d: nat, rest: string)
    requires WritableForest(f) && f != []
    ensures Render(f, d) + rest == RenderTree(f[0], d) + (Render(f[1..], d) + rest)
    ensures f[1..] == [] ==> Render(f[1..], d) + rest == rest && Opened(f) == OpenedTree(f[0]) && Trailing(f) == Pending(f[0])
    ensures f[1..] != [] ==> Opened(f) == OpenedTree(f[0]) + (Dedents(Pending(f[0])) + Opened(f[1..])) && Trailing(f) == Trailing(f[1..])
  {
    hide RenderTree, OpenedTree, Pending, Dedents;
  }

  lemma LeadBack(d: nat, n: nat)
    ensures Lead(d + n, d) == Dedents(n)
  {
  }

  lemma {:induction false} TreeReads(t: Tree, c: nat, d: nat, rest: string, last: Option<Token>)
    requires WritableTree(t) && d <= c + 1 && LineDone(last)
    ensures Lex(RenderTree(t, d) + rest, true, Depths(c), last) ==
            Lead(c, d) + OpenedTree(t) + Lex(rest, true, Depths(d + Pending(t)), Some(Newline))
    decreases t, 0
  {
    hide Lex, Levels, Depths, WriteLine, Lead, Tabbed, WritableLine, Render, Opened, Trailing, Fill, Fillers;
    var tail := Render(t.children, d + 1) + rest;
    var whole := Tabbed(d) + WriteLine(t.line) + "\n" + tail;
    assert RenderTree(t, d) + rest == Fill(t.above) + whole;
    FillIgnored(t.above, whole, Depths(c), last);
    WholeLine(c, d, t.line, tail, last);
    var line := t.line + [Newline];
    assert Lead(c, d) + t.line + [Newline] == Lead(c, d) + line;
    if t.children == [] {
      NothingRendered(d + 1);
      assert tail == rest && OpenedTree(t) == line;
    } else {
      ForestReads(t.children, d, d + 1, rest, Some(Newline));
      LeadIn(d);
      var inner := [Indent] + Opened(t.children);
      Assoc(Lead(c, d) + line, inner, Lex(rest, true, Depths(d + 1 + Trailing(t.children)), Some(Newline)));
      Assoc(Lead(c, d), line, inner);
    }
  }

  lemma NothingRendered(d: nat)
    ensures Render([], d) == ""
  {
  }

  lemma LeadIn(d: nat)
    ensures Lead(d, d + 1) == [Indent]
  {
  }

  /** Lines nested by one tab a level are read as exactly the nesting they were written from,
      whatever lines without content are between, before and after them. */
  lemma ForestRoundTrip(f: seq<Tree>, below: seq<Filler>)
    requires WritableForest(f) && Fillers(below)
    ensures Tokenize(Render(f, 0) + Fill(below)) == Some(Brackets(f) + [Eof])
  {
    hide Levels, Depths, LexToken, WriteLine, Render, Opened, Fill, Trailing;
    BracketsContent(f);
    ZeroDepth();
    var depth := Trailing(f);
    DepthSize(depth);
    assert Fill(below) + "" == Fill(below);
    if f == [] {
      NothingRendered(0);
      assert Render(f, 0) + Fill(below) == Fill(below);
      FillIgnored(below, "", [0], None);
      assert Dedents(0) + [Eof] == Brackets(f) + [Eof];
    } else {
      OpenedBrackets(f);
      ForestReads(f, 0, 0, Fill(below), None);
      FillIgnored(below, "", Depths(depth), Some(Newline));
      assert Lead(0, 0) + Opened(f) == Opened(f);
      assert Opened(f) + (Dedents(depth) + [Eof]) == Brackets(f) + [Eof];
    }
  }

  /** The forest without its lines that have no content. */
  function Bare(f: seq<Tree>): (r: seq<Tree>)
    ensures |r| == |f|
    decreases f
  {
    if f == [] then [] else [BareTree(f[0])] + Bare(f[1..])
  }

  function BareTree(t: Tree): Tree
    decreases t, 0
  {
    Tree([], t.line, Bare(t.children))
  }

  lemma {:induction false} BareSame(f: seq<Tree>)
    ensures Brackets(Bare(f)) == Brackets(f)
    decreases f
  {
    if f != [] {
      BareSame(f[1..]);
      BareSame(f[0].children);
      assert Bare(f)[1..] == Bare(f[1..]) && Bare(f)[0] == BareTree(f[0]);
    }
  }

  lemma {:induction false} BareWritable(f: seq<Tree>)
    requires WritableForest(f)
    ensures WritableForest(Bare(f))
    decreases f
  {
    hide WritableLine, LineComment;
    if f != [] {
      BareWritable(f[1..]);
      BareWritable(f[0].children);
      assert Bare(f)[1..] == Bare(f[1..]) && Bare(f)[0] == BareTree(f[0]);
      assert WritableTree(BareTree(f[0]));
    }
  }

  /** Blank lines and lines with only a comment, put in anywhere, change no token. */
  lemma FillersIgnored(f: seq<Tree>, below: seq<Filler>)
    requires WritableForest(f) && Fillers(below)
    ensures WritableForest(Bare(f)) && Tokenize(Render(f, 0) + Fill(below)) == Tokenize(Render(Bare(f), 0))
  {
    hide Tokenize, Render, WritableForest, Bare, Brackets;
    BareSame(f);
    BareWritable(f);
    ForestRoundTrip(f, below);
    ForestRoundTrip(Bare(f), []);
    assert Render(Bare(f), 0) + Fill([]) == Render(Bare(f), 0);
  }

  // No error is among the tokens of a forest.
  lemma {:induction false} BracketsContent(f: seq<Tree>)
    requires WritableForest(f)
    ensures Error !in Brackets(f)
    decreases f
  {
    hide WritableLine;
    if f != [] {
      BracketsContent(f[1..]);
      BracketsContent(f[0].children);
      LineContent(f[0].line);
    }
  }

  lemma DepthSize(d: nat)
    ensures |Depths(d)| == d + 1 && Levels(Depths(d))
  {
  }
}
