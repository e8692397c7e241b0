/** The lexer as it works: a position in the source, the stack of indentation levels, the
    tokens so far, and whether an error was caught. Where reading fails the position stays
    where the failure was noticed. */
module Lexer {
  import opened Wrappers
  import L = Lexing
  import P = LexingProof

  class SourceLexer {
    const source: string
    var pos: nat
    var atLineStart: bool
    var indentStack: seq<nat>
    var tokens: seq<L.Token>
    var failed: bool

    constructor (source: string)
      ensures this.source == source && Valid() && pos == 0 && atLineStart && indentStack == [0] && tokens == []
    {
      this.source := source;
      pos, atLineStart, indentStack, tokens, failed := 0, true, [0], [], false;
    }

    ghost predicate Valid()
      reads this
    {
      pos <= |source| && L.Levels(indentStack) && failed == (L.Error in tokens)
    }

    ghost function Rest(): string
      requires pos <= |source|
      reads this
    {
      source[pos..]
    }

    function Last(): Option<L.Token>
      reads this
    {
      if tokens == [] then None else Some(tokens[|tokens| - 1])
    }

    // What the whole source gives, if the rest gives what the specification says.
    ghost function Spec(): seq<L.Token>
      requires Valid()
      reads this
    {
      tokens + L.Lex(Rest(), atLineStart, indentStack, Last())
    }

    // The result of reading, and the position after it.
    ghost predicate Did<T(!new)>(read: L.Read<T>, result: Option<T>)
      reads this
    {
      pos <= |source| && Rest() == read.rest && result == if read.Got? then Some(read.value) else None
    }

    // ---- characters ----

    predicate AtEnd()
      requires pos <= |source|
      reads this
    {
      pos == |source|
    }

    predicate Peek(i: nat, c: char)
      reads this
      ensures pos <= |source| ==> Peek(i, c) == L.At(Rest(), i, c)
    {
      pos + i < |source| && source[pos + i] == c
    }

    predicate PeekDigit(i: nat)
      reads this
      ensures pos <= |source| ==> PeekDigit(i) == L.DigitAt(Rest(), i)
    {
      pos + i < |source| && L.IsDigit(source[pos + i])
    }

    // ---- numbers and words ----

    method ReadDigits(underscores: bool) returns (digits: string)
      requires pos <= |source|
      modifies this`pos
      ensures old(pos) <= pos <= |source|
      ensures (digits, Rest()) == if underscores then L.Digits(old(Rest())) else L.PlainDigits(old(Rest()))
    {
      digits := "";
      ghost var was := Rest();
      assert "" + L.Digits(was).0 == L.Digits(was).0 && "" + L.PlainDigits(was).0 == L.PlainDigits(was).0;
      while pos < |source| && (L.IsDigit(source[pos]) || (underscores && source[pos] == '_'))
        invariant old(pos) <= pos <= |source|
        invariant underscores ==> var (more, end) := L.Digits(Rest()); L.Digits(was) == (digits + more, end)
        invariant !underscores ==> var (more, end) := L.PlainDigits(Rest()); L.PlainDigits(was) == (digits + more, end)
      {
        ghost var before := digits;
        ghost var rest := Rest();
        assert rest[1..] == source[pos + 1..];
        if source[pos] != '_' {
          digits := digits + [source[pos]];
          assert forall more: string :: before + ([source[pos]] + more) == digits + more;
        }
        pos := pos + 1;
      }
      assert digits + "" == digits;
    }

    method LexNumber() returns (t: Option<L.Token>)
      requires pos <= |source| && L.DigitAt(Rest(), 0)
      modifies this`pos
      ensures Did(L.LexNumber(old(Rest())), t)
    {
      hide L.Digits, L.Fraction, L.Exponent;
      var first := source[pos];
      pos := pos + 1;
      assert Rest() == old(Rest())[1..];
      var more := ReadDigits(true);
      var fraction := ReadFraction();
      if fraction.None? {
        return None;
      }
      var exponent := ReadExponent();
      if exponent.None? {
        return None;
      }
      var text := [first] + more + fraction.value + exponent.value;
      t := Some(if fraction.value == "" && exponent.value == "" then L.IntLit(text) else L.FloatLit(text));
    }

    method ReadFraction() returns (text: Option<string>)
      requires pos <= |source|
      modifies this`pos
      ensures Did(L.Fraction(old(Rest())), text)
    {
      hide L.Digits;
      if !Peek(0, '.') || !PeekDigit(1) {
        return Some("");
      }
      pos := pos + 1;
      assert Rest() == old(Rest())[1..];
      var digits := ReadDigits(true);
      if Peek(0, '.') {
        return None;
      }
      text := Some("." + digits);
    }

    method ReadExponent() returns (text: Option<string>)
      requires pos <= |source|
      modifies this`pos
      ensures Did(L.Exponent(old(Rest())), text)
    {
      hide L.PlainDigits;
      ghost var was := Rest();
      if !Peek(0, 'e') && !Peek(0, 'E') {
        return Some("");
      }
      var e, sign := source[pos], if Peek(1, '+') || Peek(1, '-') then source[pos + 1..pos + 2] else "";
      assert sign == if L.At(was, 1, '+') || L.At(was, 1, '-') then was[1..2] else "";
      pos := pos + 1 + |sign|;
      assert Rest() == was[1 + |sign|..];
      if !PeekDigit(0) {
        return None;
      }
      var digits := ReadDigits(false);
      text := Some([e] + sign + digits);
    }

    method LexWord() returns (text: string)
      requires pos < |source|
      modifies this`pos
      ensures pos <= |source| && var end := L.WordEnd(old(Rest()), 1); text == old(Rest())[..end] && Rest() == old(Rest())[end..] && pos > old(pos)
    {
      ghost var was := Rest();
      var start := pos;
      pos := pos + 1;
      while pos < |source| && L.WordPart(source[pos])
        invariant start < pos <= |source| && L.WordEnd(was, 1) == L.WordEnd(was, pos - start)
      {
        pos := pos + 1;
      }
      text := source[start..pos];
    }

    // ---- operators ----

    method Match(c: char) returns (found: bool)
      requires pos <= |source|
      modifies this`pos
      ensures pos == old(pos) + (if found then 1 else 0) && found == (old(pos) < |source| && source[old(pos)] == c)
    {
      found := pos < |source| && source[pos] == c;
      if found {
        pos := pos + 1;
      }
    }

    /** The longest operator is tried first. */
    method LexOperator() returns (t: L.Token)
      requires pos < |source|
      modifies this`pos
      ensures old(pos) < pos <= |source| && (t, Rest()) == L.LexOp(old(Rest()))
    {
      hide L.OpLength;
      ghost var was := Rest();
      var start, c := pos, source[pos];
      var known := MatchOperator();
      assert source[start..pos] == was[..pos - start] && Rest() == was[pos - start..];
      if known {
        t := L.Op(source[start..pos]);
      } else {
        t := L.Bad(c);
      }
    }

    // Moves past the operator; past one character if there is none.
    method MatchOperator() returns (known: bool)
      requires pos < |source|
      modifies this`pos
      ensures var n := L.OpLength(old(Rest())); known == (n > 0) && pos == old(pos) + (if n == 0 then 1 else n)
    {
      ghost var was, start := Rest(), pos;
      var c := source[pos];
      assert forall i: nat, x: char :: L.At(was, i, x) == (start + i < |source| && source[start + i] == x);
      pos := pos + 1;
      var found: bool;
      if c == '+' || c == '%' || c == '=' || c == '&' || c == '|' || c == '^' || c == ':' {
        found := Match('=');
      } else if c == '-' {
        found := Match('>');
        if !found {
          found := Match('=');
        }
      } else if c == '*' || c == '/' {
        found := Match(c);
        found := Match('=');
      } else if c == '!' {
        found := Match('=');
        return found;
      } else if c == '<' {
        found := Match('<');
        if found {
          found := Match('=');
        } else {
          found := Match('-');
          if !found {
            found := Match('=');
          }
        }
      } else if c == '>' {
        found := Match('>');
        found := Match('=');
      } else if c == '.' {
        if Peek(0, '.') && Peek(1, '.') {
          pos := pos + 2;
        }
      } else if c == '?' {
        found := Match('?');
      } else {
        return c in "()[]{},~@";
      }
      known := true;
    }

    // ---- strings ----

    // The value so far, before what the specification reads from here.
    ghost function Value(value: string, quote: char): L.Read<string>
      requires pos <= |source|
      reads this
    {
      Before(value, L.LexString(Rest(), quote))
    }

    static function Before(value: string, r: L.Read<string>): L.Read<string> {
      match r
      case Got(more, rest) => L.Got(value + more, rest)
      case Stuck(rest) => L.Stuck(rest)
    }

    method LexString(quote: char) returns (value: Option<string>)
      requires pos <= |source|
      modifies this`pos
      ensures Did(L.LexString(old(Rest()), quote), value)
    {
      hide L.Escape;
      var text := "";
      assert Value("", quote) == L.LexString(Rest(), quote) by {
        GrowNothing(Rest(), quote);
      }
      while pos < |source| && source[pos] != quote
        invariant old(pos) <= pos <= |source|
        invariant Value(text, quote) == L.LexString(old(Rest()), quote)
        decreases |source| - pos
      {
        ghost var before, was := text, Rest();
        if source[pos] == '\n' {
          return None;
        }
        if source[pos] == '\\' {
          pos := pos + 1;
          assert Rest() == was[1..];
          if pos == |source| {
            return None;
          }
          var bytes := ReadEscape();
          if bytes.None? {
            return None;
          }
          text := text + bytes.value;
          Grow(before, bytes.value, Rest(), quote);
        } else {
          text := text + [source[pos]];
          Grow(before, [source[pos]], was[1..], quote);
          pos := pos + 1;
          assert Rest() == was[1..];
        }
      }
      if pos == |source| {
        return None;
      }
      assert text + "" == text;
      pos := pos + 1;
      assert Rest() == source[pos - 1..][1..];
      value := Some(text);
    }

    static lemma GrowNothing(rest: string, quote: char)
      ensures Before("", L.LexString(rest, quote)) == L.LexString(rest, quote)
    {
      var r := L.LexString(rest, quote);
      assert r.Got? ==> "" + r.value == r.value;
    }

    static lemma Grow(text: string, bytes: string, rest: string, quote: char)
      ensures Before(text, Before(bytes, L.LexString(rest, quote))) == Before(text + bytes, L.LexString(rest, quote))
    {
      var r := L.LexString(rest, quote);
      assert r.Got? ==> text + (bytes + r.value) == text + bytes + r.value;
    }

    /** After the backslash. */
    method ReadEscape() returns (bytes: Option<string>)
      requires pos < |source|
      modifies this`pos
      ensures Did(L.Escape(old(Rest())), bytes)
    {
      hide L.HexNumber, L.HexRun, L.Utf8;
      var c := source[pos];
      pos := pos + 1;
      assert Rest() == old(Rest())[1..];
      var simple := L.SimpleEscape(c);
      if simple.Some? {
        return Some([simple.value]);
      } else if c == 'x' {
        bytes := ReadHexByte();
      } else if c == 'u' {
        bytes := ReadCodePoint(4);
      } else if c == 'U' {
        bytes := ReadCodePoint(8);
      } else {
        bytes := Some(['\\', c]);
      }
    }

    method ReadHexByte() returns (bytes: Option<string>)
      requires pos <= |source|
      modifies this`pos
      ensures Did(L.HexByte(old(Rest())), bytes)
    {
      ghost var was := Rest();
      var n, v := 0, 0;
      while n < 2 && pos < |source| && L.IsHex(source[pos])
        invariant n <= 2 && old(pos) <= pos == old(pos) + n <= |source| && v < 256
        invariant n == 0 ==> v == 0
        invariant n == 1 ==> was != "" && L.IsHex(was[0]) && v == L.HexValue(was[0])
        invariant n == 2 ==> |was| >= 2 && L.IsHex(was[0]) && L.IsHex(was[1]) && v == 16 * L.HexValue(was[0]) + L.HexValue(was[1])
      {
        v := 16 * v + L.HexValue(source[pos]);
        n, pos := n + 1, pos + 1;
      }
      bytes := if n == 0 then None else Some([L.Byte(v)]);
    }

    method ReadCodePoint(digits: nat) returns (bytes: Option<string>)
      requires pos <= |source|
      modifies this`pos
      ensures Did(L.CodePoint(old(Rest()), digits), bytes)
    {
      hide L.HexRun;
      ghost var was := Rest();
      var n, code := 0, 0;
      while n < digits
        invariant n <= digits && old(pos) <= pos == old(pos) + n <= |source|
        invariant (forall i :: 0 <= i < n ==> L.IsHex(was[i])) && L.HexNumber(was, n) == code
      {
        if pos == |source| || !L.IsHex(source[pos]) {
          RunEnds(was, n, digits);
          return None;
        }
        code := 16 * code + L.HexValue(source[pos]);
        n, pos := n + 1, pos + 1;
      }
      RunEnds(was, n, digits);
      bytes := if L.IsScalar(code) then Some(L.Utf8(code)) else None;
    }

    static lemma RunEnds(s: string, n: nat, digits: nat)
      requires n <= |s| && n <= digits && (forall i :: 0 <= i < n ==> L.IsHex(s[i]))
      requires n == digits || n == |s| || !L.IsHex(s[n])
      ensures L.HexRun(s, digits) == n
    {
    }

    /** Keeps the text as it is, from the opening quote on. */
    method LexFString(quote: char) returns (raw: Option<string>)
      requires pos <= |source| && L.IsQuote(quote)
      modifies this`pos
      ensures Did(L.LexFString(old(Rest()), quote, false), raw)
    {
      hide L.LexFString, L.Keep;
      ghost var was := Rest();
      var start, inBrace := pos, false;
      KeepNothing(was, L.LexFString(was, quote, false));
      while pos < |source| && (inBrace || source[pos] != quote)
        invariant start <= pos <= |source|
        invariant L.LexFString(was, quote, false) == L.Keep(was, pos - start, L.LexFString(Rest(), quote, inBrace))
        decreases |source| - pos
      {
        ghost var here := Rest();
        FStringStep(here, quote, inBrace);
        KeepStuck(was, pos - start, here);
        var step := 1;
        if source[pos] == '\n' {
          return None;
        }
        if inBrace {
          if source[pos] == quote {
            return None;
          }
          inBrace := source[pos] != '}';
        } else if source[pos] == '\\' {
          if pos + 1 == |source| {
            pos := pos + 1;
            KeepStuck(was, pos - 1 - start, "");
            return None;
          }
          step := 2;
        } else {
          inBrace := source[pos] == '{';
        }
        KeepMore(was, pos - start, step, L.LexFString(here[step..], quote, inBrace));
        pos := pos + step;
        assert Rest() == here[step..];
      }
      FStringEnd(Rest(), quote, inBrace);
      if pos == |source| {
        KeepStuck(was, pos - start, Rest());
        return None;
      }
      KeepLast(was, pos - start, [quote], Rest()[1..]);
      assert was[..pos - start] + [quote] == source[start..pos + 1] && Rest()[1..] == source[pos + 1..];
      pos := pos + 1;
      raw := Some(source[start..pos]);
    }

    // What the next character of an interpolated string does.
    static lemma FStringStep(s: string, quote: char, inBrace: bool)
      requires s != "" && (inBrace || s[0] != quote) && L.IsQuote(quote)
      ensures var step := if !inBrace && s[0] == '\\' then 2 else 1;
              L.LexFString(s, quote, inBrace) ==
              if s[0] == '\n' || (inBrace && s[0] == quote) then L.Stuck(s)
              else if |s| < step then L.Stuck("")
              else L.Keep(s, step, L.LexFString(s[step..], quote, if inBrace then s[0] != '}' else s[0] == '{'))
    {
    }

    static lemma FStringEnd(s: string, quote: char, inBrace: bool)
      requires s == "" || (!inBrace && s[0] == quote)
      ensures L.LexFString(s, quote, inBrace) == if s == "" then L.Stuck(s) else L.Got([quote], s[1..])
    {
    }

    static lemma KeepStuck(s: string, n: nat, rest: string)
      requires n <= |s|
      ensures L.Keep(s, n, L.Stuck(rest)) == L.Stuck(rest)
    {
    }

    static lemma KeepLast(s: string, n: nat, more: string, rest: string)
      requires n <= |s|
      ensures L.Keep(s, n, L.Got(more, rest)) == L.Got(s[..n] + more, rest)
    {
    }

    static lemma KeepNothing(s: string, r: L.Read<string>)
      ensures L.Keep(s, 0, r) == r
    {
      if r.Got? {
        assert s[..0] + r.value == r.value;
      }
    }

    static lemma KeepMore(s: string, n: nat, step: nat, r: L.Read<string>)
      requires n + step <= |s|
      ensures L.Keep(s, n, L.Keep(s[n..], step, r)) == L.Keep(s, n + step, r)
    {
      if r.Got? {
        assert s[..n] + (s[n..][..step] + r.value) == s[..n + step] + r.value;
      }
    }

    // ---- comments ----

    method SkipLine()
      requires pos <= |source|
      modifies this`pos
      ensures old(pos) <= pos <= |source| && Rest() == L.SkipLine(old(Rest()))
    {
      while pos < |source| && source[pos] != '\n'
        invariant old(pos) <= pos <= |source| && L.SkipLine(old(Rest())) == L.SkipLine(Rest())
      {
        assert Rest()[1..] == source[pos + 1..];
        pos := pos + 1;
      }
    }

    method SkipBlock() returns (ok: bool)
      requires pos <= |source|
      modifies this`pos
      ensures pos <= |source| && Rest() == L.SkipBlock(old(Rest())).rest && ok == L.SkipBlock(old(Rest())).Got?
    {
      while pos < |source|
        invariant old(pos) <= pos <= |source| && L.SkipBlock(old(Rest())) == L.SkipBlock(Rest())
      {
        if Peek(0, '#') && Peek(1, '#') && Peek(2, '#') {
          assert Rest()[3..] == source[pos + 3..];
          pos := pos + 3;
          return true;
        }
        assert Rest()[1..] == source[pos + 1..];
        pos := pos + 1;
      }
      ok := false;
    }

    method SkipComment() returns (ok: bool)
      requires pos <= |source| && L.At(Rest(), 0, '#')
      modifies this`pos
      ensures pos <= |source| && Rest() == L.Comment(old(Rest())).rest && ok == L.Comment(old(Rest())).Got?
    {
      ghost var was := Rest();
      ok := true;
      if Peek(1, '#') && Peek(2, '#') {
        pos := pos + 3;
        assert Rest() == was[3..];
        ok := SkipBlock();
      } else {
        pos := pos + 1;
        assert Rest() == was[1..];
        SkipLine();
      }
    }

    // ---- tokens ----

    method NextToken() returns (t: Option<L.Token>)
      requires pos < |source|
      modifies this`pos
      ensures Did(L.LexToken(old(Rest())), t)
    {
      hide L.LexNumber, L.LexString, L.LexFString, L.WordEnd, L.LexOp;
      ghost var was := Rest();
      var c := source[pos];
      if c == 'f' && (Peek(1, '"') || Peek(1, '\'')) {
        var prefix := source[pos..pos + 2];
        pos := pos + 2;
        assert Rest() == was[2..] && prefix == was[..2];
        var raw := LexFString(source[pos - 1]);
        t := if raw.Some? then Some(L.FStr(prefix + raw.value)) else None;
      } else if c == '"' || c == '\'' {
        pos := pos + 1;
        assert Rest() == was[1..];
        var value := LexString(c);
        t := if value.Some? then Some(L.Str(value.value)) else None;
      } else if PeekDigit(0) {
        t := LexNumber();
      } else if L.WordStart(c) {
        var text := LexWord();
        t := Some(L.Word(text));
      } else {
        var op := LexOperator();
        t := Some(op);
      }
    }

    // ---- lines ----

    method Emit(t: L.Token)
      modifies this`tokens
      ensures tokens == old(tokens) + [t]
    {
      tokens := tokens + [t];
    }

    /** None if a space is among the tabs. */
    method CountTabs() returns (tabs: Option<nat>)
      requires pos <= |source|
      modifies this`pos
      ensures var n := L.Tabs(old(Rest())); pos == old(pos) + n <= |source| && tabs == if L.At(old(Rest()), n, ' ') then None else Some(n)
    {
      hide L.Tabs;
      ghost var was := Rest();
      var n, start := 0, pos;
      while pos < |source| && (source[pos] == '\t' || source[pos] == ' ')
        invariant start <= pos <= |source| && n == pos - start && L.Tabs(was) == n + L.Tabs(Rest())
      {
        TabsStep(Rest());
        if source[pos] == ' ' {
          return None;
        }
        assert Rest()[1..] == source[pos + 1..];
        n, pos := n + 1, pos + 1;
      }
      TabsStep(Rest());
      tabs := Some(n);
    }

    static lemma TabsStep(s: string)
      ensures L.Tabs(s) == if L.At(s, 0, '\t') then 1 + L.Tabs(s[1..]) else 0
    {
    }

    /** Opens or closes levels, unless the line has no content of its own; an error is caught
        here, and after a space the rest of the line is skipped. */
    method HandleIndentation()
      requires Valid() && atLineStart && pos < |source|
      modifies this
      ensures Valid() && !atLineStart && pos >= old(pos) && Spec() == old(Spec())
      ensures |tokens| > |old(tokens)| && tokens[|tokens| - 1] == L.Error ==> pos > old(pos)
    {
      hide L.LexToken, L.Comment, L.Tabs, L.Levels, L.Indentation, L.Lex;
      ghost var was, stack, before, last := Rest(), indentStack, tokens, Last();
      IndentUnfolds(was, stack, last);
      atLineStart := false;
      var tabs := CountTabs();
      assert Rest() == was[L.Tabs(was)..];
      if tabs.None? {
        SkipFirst(Rest());
        SkipLine();
        Catch();
        AfterOne(before, L.Error, L.Lex(Rest(), false, indentStack, Some(L.Error)));
        return;
      }
      if pos == |source| || source[pos] == '\n' || source[pos] == '#' {
        assert L.SkipsIndentation(Rest());
        return;
      }
      assert !L.SkipsIndentation(Rest());
      SetLevel(tabs.value);
      ghost var (ts, open) := L.Indentation(stack, tabs.value);
      NoTabsNoError(stack, tabs.value);
      LatestIs(before, ts);
      AfterBoth(before, ts, L.Lex(Rest(), false, open, L.Latest(last, ts)));
    }

    // What the specification says about the start of a line.
    static lemma IndentUnfolds(s: string, stack: seq<nat>, last: Option<L.Token>)
      requires L.Levels(stack) && s != ""
      ensures var n := L.Tabs(s);
              L.Lex(s, true, stack, last) ==
              if L.At(s, n, ' ') then [L.Error] + L.Lex(L.SkipLine(s[n + 1..]), false, stack, Some(L.Error))
              else if L.SkipsIndentation(s[n..]) then L.Lex(s[n..], false, stack, last)
              else L.Indentation(stack, n).0 + L.Lex(s[n..], false, L.Indentation(stack, n).1, L.Latest(last, L.Indentation(stack, n).0))
    {
      hide L.LexToken, L.Comment, L.Tabs, L.Levels, L.Indentation;
    }

    // Without tabs a line goes back to the first level, which is always open.
    static lemma NoTabsNoError(stack: seq<nat>, tabs: nat)
      requires L.Levels(stack)
      ensures tabs == 0 ==> L.Error !in L.Indentation(stack, tabs).0
    {
      hide L.Popped;
      if tabs == 0 {
        var open := L.Popped(stack, tabs);
        assert L.Indentation(stack, tabs).0 == L.Dedents(|stack| - |open|);
      }
    }

    static lemma SkipFirst(s: string)
      requires L.At(s, 0, ' ')
      ensures L.SkipLine(s) == L.SkipLine(s[1..]) && |L.SkipLine(s)| < |s|
    {
    }

    // An error was raised: a token stands for it, and it is remembered.
    method Catch()
      modifies this`tokens, this`failed
      ensures tokens == old(tokens) + [L.Error] && failed
    {
      tokens, failed := tokens + [L.Error], true;
    }

    static lemma AfterOne(before: seq<L.Token>, t: L.Token, more: seq<L.Token>)
      ensures before + ([t] + more) == before + [t] + more
    {
    }

    // The last token after more were added.
    static lemma LatestIs(before: seq<L.Token>, ts: seq<L.Token>)
      ensures (if before + ts == [] then None else Some((before + ts)[|before + ts| - 1])) ==
              L.Latest(if before == [] then None else Some(before[|before| - 1]), ts)
    {
    }

    static lemma AfterBoth(a: seq<L.Token>, b: seq<L.Token>, r: seq<L.Token>)
      ensures a + (b + r) == a + b + r
    {
    }

    /** A level that was never opened is an error, after the deeper ones are closed. */
    method SetLevel(tabs: nat)
      requires L.Levels(indentStack) && failed == (L.Error in tokens)
      modifies this`indentStack, this`tokens, this`failed
      ensures L.Levels(indentStack) && failed == (L.Error in tokens)
      ensures var (ts, open) := L.Indentation(old(indentStack), tabs); indentStack == open && tokens == old(tokens) + ts
    {
      hide L.Popped, L.Dedents;
      if tabs > indentStack[|indentStack| - 1] {
        indentStack := indentStack + [tabs];
        Emit(L.Indent);
      } else {
        PopLevels(tabs);
        ghost var closed := L.Dedents(|old(indentStack)| - |indentStack|);
        assert closed + [] == closed;
        if tabs != indentStack[|indentStack| - 1] {
          assert old(tokens) + (closed + [L.Error]) == old(tokens) + closed + [L.Error];
          Catch();
        }
      }
    }

    method PopLevels(tabs: nat)
      requires L.Levels(indentStack)
      modifies this`indentStack, this`tokens
      ensures L.Levels(indentStack) && indentStack == L.Popped(old(indentStack), tabs)
      ensures tokens == old(tokens) + L.Dedents(|old(indentStack)| - |indentStack|)
    {
      ghost var n := 0;
      assert old(tokens) + L.Dedents(0) == tokens;
      while tabs < indentStack[|indentStack| - 1]
        invariant L.Levels(indentStack) && |indentStack| + n == |old(indentStack)|
        invariant L.Popped(old(indentStack), tabs) == L.Popped(indentStack, tabs) && tokens == old(tokens) + L.Dedents(n)
        decreases |indentStack|
      {
        indentStack := indentStack[..|indentStack| - 1];
        assert old(tokens) + L.Dedents(n) + [L.Dedent] == old(tokens) + L.Dedents(n + 1);
        Emit(L.Dedent);
        n := n + 1;
      }
    }

    /** A newline token, unless the last token already stands for a line end or indentation. */
    method EndLine()
      requires Valid() && !atLineStart && Peek(0, '\n')
      modifies this
      ensures Valid() && pos > old(pos) && Spec() == old(Spec())
    {
      hide L.LexToken, L.Comment, L.Tabs, L.Levels, L.Indentation;
      ghost var was, before, last := Rest(), tokens, Last();
      assert was[1..] == source[pos + 1..];
      pos := pos + 1;
      ghost var ts := if last.Some? && !L.Layout(last.value) then [L.Newline] else [];
      if tokens != [] && !L.Layout(tokens[|tokens| - 1]) {
        Emit(L.Newline);
      }
      atLineStart := true;
      assert tokens == before + ts;
      LatestIs(before, ts);
      AfterBoth(before, ts, L.Lex(Rest(), true, indentStack, L.Latest(last, ts)));
    }

    method TakeComment()
      requires Valid() && !atLineStart && Peek(0, '#')
      modifies this
      ensures Valid() && pos > old(pos) && !atLineStart && Spec() == old(Spec())
    {
      hide L.LexToken, L.Comment, L.Tabs, L.Levels, L.Indentation;
      ghost var before := tokens;
      var ok := SkipComment();
      if !ok {
        Catch();
        AfterOne(before, L.Error, L.Lex(Rest(), false, indentStack, Some(L.Error)));
      }
    }

    method TakeToken()
      requires Valid() && !atLineStart && pos < |source|
      requires var c := source[pos]; c != ' ' && c != '\t' && c != '\r' && c != '\n' && c != '#'
      modifies this
      ensures Valid() && pos > old(pos) && !atLineStart && Spec() == old(Spec())
    {
      hide L.LexToken, L.Comment, L.Tabs, L.Levels, L.Indentation;
      ghost var before := tokens;
      var t := NextToken();
      if t.Some? {
        Emit(t.value);
      } else {
        Catch();
      }
      AfterOne(before, if t.Some? then t.value else L.Error, L.Lex(Rest(), false, indentStack, Last()));
    }

    /** One round of the main loop. Every round that catches an error has moved on, so none is
        repeated. */
    method Step()
      requires Valid() && pos < |source|
      modifies this
      ensures Valid() && Spec() == old(Spec()) && pos >= old(pos) && (pos > old(pos) || (old(atLineStart) && !atLineStart))
      ensures |tokens| > |old(tokens)| && tokens[|tokens| - 1] == L.Error ==> pos > old(pos)
    {
      hide L.LexToken, L.Comment, L.Tabs, L.Levels, L.Indentation;
      if atLineStart {
        HandleIndentation();
      } else {
        var c := source[pos];
        if c == ' ' || c == '\t' || c == '\r' {
          assert Rest()[1..] == source[pos + 1..];
          pos := pos + 1;
        } else if c == '\n' {
          EndLine();
        } else if c == '#' {
          TakeComment();
        } else {
          TakeToken();
        }
      }
    }

    /** The tokens of the source; None if an error was caught on the way. The loop ends
        because each round moves on or leaves the start of a line. */
    method Tokenize() returns (r: Option<seq<L.Token>>)
      requires Valid() && pos == 0 && atLineStart && indentStack == [0] && tokens == []
      modifies this
      ensures tokens == L.Scan(source) && r == L.Tokenize(source)
    {
      hide L.Lex;
      assert Rest() == source;
      assert [] + L.Lex(source, true, [0], None) == L.Lex(source, true, [0], None);
      while pos < |source|
        invariant Valid() && Spec() == L.Scan(source)
        decreases |source| - pos, atLineStart
      {
        Step();
      }
      ghost var before, depth := tokens, |indentStack| - 1;
      assert Rest() == "";
      AtEndOnly(atLineStart, indentStack, Last());
      P.ScanBounded(source);
      assert |tokens| <= 2 * |source| + 1;
      Flush();
      Emit(L.Eof);
      assert before + (L.Dedents(depth) + [L.Eof]) == before + L.Dedents(depth) + [L.Eof];
      r := if failed then None else Some(tokens);
    }

    static lemma AtEndOnly(atLineStart: bool, stack: seq<nat>, last: Option<L.Token>)
      requires L.Levels(stack)
      ensures L.Lex("", atLineStart, stack, last) == L.Dedents(|stack| - 1) + [L.Eof]
    {
    }

    /** Closes the levels that are still open. */
    method Flush()
      requires L.Levels(indentStack)
      modifies this`indentStack, this`tokens
      ensures tokens == old(tokens) + L.Dedents(|old(indentStack)| - 1)
    {
      ghost var n := 0;
      assert old(tokens) + L.Dedents(0) == tokens;
      while indentStack[|indentStack| - 1] > 0
        invariant L.Levels(indentStack) && |indentStack| + n == |old(indentStack)| && tokens == old(tokens) + L.Dedents(n)
        decreases |indentStack|
      {
        indentStack := indentStack[..|indentStack| - 1];
        assert old(tokens) + L.Dedents(n) + [L.Dedent] == old(tokens) + L.Dedents(n + 1);
        Emit(L.Dedent);
        n := n + 1;
      }
      OnlyBottom(indentStack);
    }

    static lemma OnlyBottom(stack: seq<nat>)
      requires L.Levels(stack) && stack[|stack| - 1] == 0
      ensures |stack| == 1
    {
      assert forall i :: 0 < i < |stack| ==> stack[0] < stack[i];
    }
  }
}
