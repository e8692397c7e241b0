/** Which bytes begin what, and where reading fails, by the numbers of the bytes. */
module Characters {
  import opened Wrappers
  import opened Lexing
  import opened Rendering

  // ---- classes of bytes ----

  predicate Digit(n: int) {
    48 <= n <= 57
  }

  // Letters and the underscore.
  predicate Letter(n: int) {
    65 <= n <= 90 || 97 <= n <= 122 || n == 95
  }

  lemma Classes(c: char)
    ensures IsDigit(c) <==> Digit(c as int)
    ensures WordStart(c) <==> Letter(c as int)
    ensures WordPart(c) <==> Letter(c as int) || Digit(c as int)
    ensures IsHex(c) <==> Digit(c as int) || 65 <= c as int <= 70 || 97 <= c as int <= 102
    ensures IsQuote(c) <==> c as int == 34 || c as int == 39
  {
  }

  /** What a token is follows from its first byte, and for an interpolated string from its second. */
  lemma FirstDecides(s: string)
    requires s != ""
    ensures var n, r := s[0] as int, LexToken(s);
            var formatted := n == 102 && |s| > 1 && (s[1] as int == 34 || s[1] as int == 39);
            && (formatted ==> r == match LexFString(s[2..], s[1], false)
                                   case Got(raw, rest) => Got(FStr(s[..2] + raw), rest)
                                   case Stuck(rest) => Stuck(rest))
            && (n == 34 || n == 39 ==> r == match LexString(s[1..], s[0])
                                            case Got(v, rest) => Got(Str(v), rest)
                                            case Stuck(rest) => Stuck(rest))
            && (Digit(n) ==> r == LexNumber(s))
            && (Letter(n) && !formatted ==> r == Got(Word(s[..WordEnd(s, 1)]), s[WordEnd(s, 1)..]))
            && (!Letter(n) && !Digit(n) && n != 34 && n != 39 ==>
                  r == if OpLength(s) == 0 then Got(Bad(s[0]), s[1..]) else Got(Op(s[..OpLength(s)]), s[OpLength(s)..]))
  {
    hide LexFString, LexString, LexNumber, WordEnd, OpLength;
    Classes(s[0]);
    if |s| > 1 {
      Classes(s[1]);
    }
  }

  /** A word ends at the first byte that is no letter, digit or underscore. */
  lemma {:induction false} WordEndsAt(s: string, i: nat)
    requires i <= |s|
    ensures var e := WordEnd(s, i);
            && (forall k :: i <= k < e ==> Letter(s[k] as int) || Digit(s[k] as int))
            && (e < |s| ==> !Letter(s[e] as int) && !Digit(s[e] as int))
    decreases |s| - i
  {
    if i < |s| {
      Classes(s[i]);
      if WordPart(s[i]) {
        WordEndsAt(s, i + 1);
      }
    }
  }

  /** Blanks, tabs and carriage returns inside a line leave no token. */
  lemma BlanksSkipped(c: char, rest: string, stack: seq<nat>, last: Option<Token>)
    requires Levels(stack) && (c as int == 32 || c as int == 9 || c as int == 13)
    ensures Lex([c] + rest, false, stack, last) == Lex(rest, false, stack, last)
  {
    hide Levels, LexToken, Comment;
    assert ([c] + rest)[1..] == rest;
  }

  // ---- numbers ----

  // Without underscores.
  function Plain(d: string): string {
    if d == "" then "" else (if d[0] as int == 95 then "" else [d[0]]) + Plain(d[1..])
  }

  /** Digits with underscores among them are read without them. */
  lemma {:induction false} UnderscoresDropped(d: string, tail: string)
    requires forall i :: 0 <= i < |d| ==> Digit(d[i] as int) || d[i] as int == 95
    requires tail == "" || !(Digit(tail[0] as int) || tail[0] as int == 95)
    ensures Digits(d + tail) == (Plain(d), tail)
    decreases |d|
  {
    if d == "" {
      assert d + tail == tail;
    } else {
      assert (d + tail)[1..] == d[1..] + tail && (d + tail)[0] == d[0];
      UnderscoresDropped(d[1..], tail);
      assert Plain(d) == if d[0] == '_' then Plain(d[1..]) else [d[0]] + Plain(d[1..]) by {
        assert "" + Plain(d[1..]) == Plain(d[1..]);
      }
    }
  }

  lemma IntegerReads(c: char, d: string, tail: string)
    requires Digit(c as int) && (forall i :: 0 <= i < |d| ==> Digit(d[i] as int) || d[i] as int == 95) && Ends(tail)
    ensures LexNumber([c] + d + tail) == Got(IntLit([c] + Plain(d)), tail)
  {
    hide Digits, Plain;
    assert Fraction(tail) == Got("", tail) && Exponent(tail) == Got("", tail);
    hide Fraction, Exponent;
    var s := [c] + (d + tail);
    assert [c] + d + tail == s && s[1..] == d + tail && s[0] == c;
    UnderscoresDropped(d, tail);
    assert [c] + Plain(d) + "" + "" == [c] + Plain(d);
  }

  /** A point belongs to a number only before a digit. */
  lemma PointAlone(c: char, tail: string)
    requires Digit(c as int) && (tail == "" || !Digit(tail[0] as int))
    ensures LexNumber([c] + "." + tail) == Got(IntLit([c]), "." + tail)
  {
    assert ([c] + "." + tail)[1..] == "." + tail && ("." + tail)[1..] == tail;
    assert Digits("." + tail) == ("", "." + tail);
    assert |tail| > 0 ==> ("." + tail)[1] == tail[0];
    assert [c] + "" + "" + "" == [c];
  }

  /** An exponent without digits fails, and so does a second point. */
  lemma BadNumbers(c: char, f: string, tail: string)
    requires Digit(c as int) && f != "" && (forall i :: 0 <= i < |f| ==> Digit(f[i] as int)) && Ends(tail)
    ensures LexNumber([c] + "e" + tail).Stuck? && LexNumber([c] + "E+" + tail).Stuck?
    ensures LexNumber([c] + "." + f + "." + tail).Stuck?
  {
    hide PlainDigits;
    Exponentless(c, tail);
    TwoPoints(c, f, tail);
  }

  lemma Exponentless(c: char, tail: string)
    requires Digit(c as int) && Ends(tail)
    ensures LexNumber([c] + "e" + tail).Stuck? && LexNumber([c] + "E+" + tail).Stuck?
  {
    hide PlainDigits;
    assert ([c] + "e" + tail)[1..] == "e" + tail && ([c] + "E+" + tail)[1..] == "E+" + tail;
    assert ("e" + tail)[1..] == tail && ("E+" + tail)[2..] == tail;
    assert Digits("e" + tail) == ("", "e" + tail) && Digits("E+" + tail) == ("", "E+" + tail);
    assert ("E+" + tail)[1..2] == "+";
  }

  lemma TwoPoints(c: char, f: string, tail: string)
    requires Digit(c as int) && f != "" && (forall i :: 0 <= i < |f| ==> Digit(f[i] as int)) && Ends(tail)
    ensures LexNumber([c] + "." + f + "." + tail).Stuck?
  {
    hide Exponent;
    var after := f + ("." + tail);
    assert ([c] + "." + f + "." + tail)[1..] == "." + after && ("." + after)[1..] == after;
    assert Digits("." + after) == ("", "." + after);
    UnderscoresDropped(f, "." + tail);
    assert Digit(after[0] as int) && IsDigit(after[0]);
  }

  // ---- comments ----

  // Three number signs at place `i`.
  predicate Signs(s: string, i: nat) {
    i + 3 <= |s| && s[i] as int == 35 && s[i + 1] as int == 35 && s[i + 2] as int == 35
  }

  /** A block comment ends at the next three number signs, and fails exactly if there are none. */
  lemma {:induction false} BlockEnds(s: string)
    ensures SkipBlock(s).Got? <==> exists i: nat :: Signs(s, i)
    ensures SkipBlock(s).Stuck? ==> SkipBlock(s).rest == ""
    ensures forall i: nat :: Signs(s, i) && (forall j: nat :: j < i ==> !Signs(s, j)) ==> SkipBlock(s) == Got((), s[i + 3..])
    decreases |s|
  {
    if s != "" && !Signs(s, 0) {
      BlockEnds(s[1..]);
      assert forall i: nat :: Signs(s[1..], i) <==> Signs(s, i + 1);
      if i: nat :| Signs(s, i) {
        assert Signs(s[1..], i - 1);
      }
      forall i: nat | Signs(s, i) && forall j: nat :: j < i ==> !Signs(s, j)
        ensures SkipBlock(s) == Got((), s[i + 3..])
      {
        assert Signs(s[1..], i - 1) && forall j: nat :: j < i - 1 ==> !Signs(s[1..], j) by {
          forall j: nat | j < i - 1
            ensures !Signs(s[1..], j)
          {
            assert !Signs(s, j + 1);
          }
        }
        assert s[1..][i - 1 + 3..] == s[i + 3..];
      }
    }
  }

  // ---- indentation ----

  /** A line with more tabs opens one level; one with fewer closes the deeper ones, each with a
      dedent, and fails exactly if it stands at no open level. */
  lemma {:induction false} IndentationIs(stack: seq<nat>, tabs: nat)
    requires Levels(stack)
    ensures var (ts, open) := Indentation(stack, tabs);
            && (tabs > stack[|stack| - 1] ==> ts == [Indent] && open == stack + [tabs])
            && (tabs <= stack[|stack| - 1] ==>
                  && open <= stack && |ts| == |stack| - |open| + (if tabs in stack then 0 else 1)
                  && (forall k :: 0 <= k < |stack| - |open| ==> ts[k] == Dedent)
                  && (tabs !in stack ==> ts[|ts| - 1] == Error)
                  && (forall k :: 0 <= k < |stack| ==> (k < |open| <==> stack[k] <= tabs)))
  {
    if tabs <= stack[|stack| - 1] {
      var open := Popped(stack, tabs);
      forall k | 0 <= k < |stack|
        ensures k < |open| <==> stack[k] <= tabs
      {
        assert k < |open| - 1 ==> stack[k] < stack[|open| - 1];
        assert k > |open| ==> stack[|open|] < stack[k];
      }
      var n := |stack| - |open|;
      assert open[|open| - 1] == stack[|open| - 1];
      assert forall k :: 0 <= k < n ==> Dedents(n)[k] in Dedents(n);
      if tabs in stack {
        var k :| 0 <= k < |stack| && stack[k] == tabs;
        assert k < |open|;
      }
    }
  }

  /** A blank in the indentation is an error, and the rest of the line is skipped. */
  lemma BlankIndentation(s: string, n: nat, rest: string, stack: seq<nat>, last: Option<Token>)
    requires Levels(stack) && s == Tabbed(n) + " " + rest
    ensures Lex(s, true, stack, last) == [Error] + Lex(SkipLine(rest), false, stack, Some(Error))
  {
    hide Levels, LexToken, Comment, SkipLine, Tabs;
    assert s == Tabbed(n) + (" " + rest);
    TabsCounted(n, " " + rest);
    assert s[n] == ' ' && s[n + 1..] == rest;
  }

  // ---- interpolated strings ----

  /** Text without quotes, backslashes, braces and line ends, or such text in braces. */
  predicate Calm(v: string, quote: char) {
    forall i :: 0 <= i < |v| ==> v[i] != quote && v[i] as int != 92 && v[i] as int != 123 && v[i] as int != 125 && v[i] as int != 10
  }

  lemma {:induction false} FormattedCalm(v: string, quote: char, inBrace: bool, tail: string)
    requires Calm(v, quote)
    ensures LexFString(v + tail, quote, inBrace) == Keep(v + tail, |v|, LexFString(tail, quote, inBrace))
    decreases |v|
  {
    if v == "" {
      assert v + tail == tail && tail[..0] == "";
      assert LexFString(tail, quote, inBrace).Got? ==> "" + LexFString(tail, quote, inBrace).value == LexFString(tail, quote, inBrace).value;
    } else {
      assert (v + tail)[1..] == v[1..] + tail;
      FormattedCalm(v[1..], quote, inBrace, tail);
      assert (v + tail)[..|v|] == v && (v[1..] + tail)[..|v| - 1] == v[1..] && (v + tail)[..1] == [v[0]];
      var x := LexFString(tail, quote, inBrace);
      assert x.Got? ==> [v[0]] + (v[1..] + x.value) == v + x.value;
    }
  }

  /** An interpolated string keeps its text as it stands, braces and all; it fails if a brace is
      still open at its quote. */
  lemma FormattedReads(v: string, w: string, x: string, quote: char, tail: string)
    requires Calm(v, quote) && Calm(w, quote) && Calm(x, quote) && (quote as int == 34 || quote as int == 39)
    ensures LexFString(v + "{" + w + "}" + x + [quote] + tail, quote, false) == Got(v + "{" + w + "}" + x + [quote], tail)
    ensures LexFString(v + "{" + w + [quote] + tail, quote, false).Stuck?
  {
    hide LexFString, Keep;
    var s4 := [quote] + tail;
    var s3 := x + s4;
    var s2 := "}" + s3;
    var s1 := w + s2;
    var open := w + s4;
    assert v + "{" + w + "}" + x + [quote] + tail == v + ("{" + s1) && v + "{" + w + [quote] + tail == v + ("{" + open);
    QuoteEnds(quote, tail);
    FormattedCalm(x, quote, false, s4);
    Kept(x, s4, LexFString(s4, quote, false));
    Braces(s3, quote);
    Kept("}", s3, LexFString(s3, quote, false));
    FormattedCalm(w, quote, true, s2);
    Kept(w, s2, LexFString(s2, quote, true));
    Braces(s1, quote);
    Kept("{", s1, LexFString(s1, quote, true));
    FormattedCalm(v, quote, false, "{" + s1);
    Kept(v, "{" + s1, LexFString("{" + s1, quote, false));
    assert v + ("{" + (w + ("}" + (x + [quote])))) == v + "{" + w + "}" + x + [quote];
    FormattedCalm(w, quote, true, s4);
    Kept(w, s4, LexFString(s4, quote, true));
    Braces(open, quote);
    Kept("{", open, LexFString(open, quote, true));
    FormattedCalm(v, quote, false, "{" + open);
    Kept(v, "{" + open, LexFString("{" + open, quote, false));
  }

  lemma Kept(a: string, b: string, r: Read<string>)
    ensures Keep(a + b, |a|, r) == match r
                                   case Got(more, rest) => Got(a + more, rest)
                                   case Stuck(rest) => Stuck(rest)
  {
    Fronts(a, b);
  }

  lemma Fronts(a: string, b: string)
    ensures (a + b)[..|a|] == a
  {
  }

  lemma Braces(rest: string, quote: char)
    requires quote as int == 34 || quote as int == 39
    ensures LexFString("{" + rest, quote, false) == Keep("{" + rest, 1, LexFString(rest, quote, true))
    ensures LexFString("}" + rest, quote, true) == Keep("}" + rest, 1, LexFString(rest, quote, false))
  {
    assert ("{" + rest)[1..] == rest && ("}" + rest)[1..] == rest;
  }

  /** A backslash keeps the byte behind it from ending the string, and both are kept. */
  lemma FormattedEscape(c: char, quote: char, tail: string)
    requires quote as int == 34 || quote as int == 39
    ensures LexFString(['\\', c] + tail, quote, false) == match LexFString(tail, quote, false)
                                                          case Got(more, rest) => Got(['\\', c] + more, rest)
                                                          case Stuck(rest) => Stuck(rest)
  {
    var s := ['\\', c] + tail;
    assert s[2..] == tail && s[..2] == ['\\', c];
  }

  lemma QuoteEnds(quote: char, tail: string)
    requires quote as int == 34 || quote as int == 39
    ensures LexFString([quote] + tail, quote, false) == Got([quote], tail)
    ensures LexFString([quote] + tail, quote, true).Stuck?
  {
    assert ([quote] + tail)[1..] == tail;
  }
}
